/**
 How a file of `total` bytes is cut into chunks of `chunk` bytes: the number the server computes at initiate
 (UploadService.InitiateAsync), the slot each chunk has in the final file (FileSystemStorage) and the slices the
 browser takes (upload.js, runUpload).
 */
module Slots {
  import opened Base

  type Parts = map<nat, seq<Byte>>

  /** The exact ceiling of the quotient. */
  function TotalChunks(total: nat, chunk: nat): nat
    requires chunk > 0
  {
    (total + chunk - 1) / chunk
  }

  /** What a session's three numbers satisfy: every chunk but the last is full and the last is not empty. */
  predicate Geometry(total: nat, chunk: nat, n: nat) {
    chunk > 0 && n > 0 && (n - 1) * chunk < total <= n * chunk
  }

  /** The count is the only one that fits the geometry, and it does for every non-empty file. */
  lemma TotalChunksIsTheGeometry(total: nat, chunk: nat, n: nat)
    requires total > 0 && chunk > 0
    ensures TotalChunks(total, chunk) > 0
    ensures Geometry(total, chunk, n) <==> n == TotalChunks(total, chunk)
  {
    var x := total + chunk - 1;
    var t := x / chunk;
    assert x == t * chunk + x % chunk;
    assert t > 0 by {
      if t <= 0 {
        Monotone(t, 0, chunk);
      }
    }
    assert (t - 1) * chunk == t * chunk - chunk;
    if Geometry(total, chunk, n) {
      OneQuotient(total, chunk, n, t);
    }
  }

  lemma OneQuotient(total: nat, chunk: nat, n: int, k: int)
    requires chunk > 0
    requires (n - 1) * chunk < total <= n * chunk
    requires (k - 1) * chunk < total <= k * chunk
    ensures n == k
  {
    if n < k {
      Monotone(n, k - 1, chunk);
    } else if k < n {
      Monotone(k, n - 1, chunk);
    }
  }

  lemma Monotone(x: int, y: int, c: nat)
    requires x <= y
    ensures x * c <= y * c
  {
  }

  lemma DivOf(x: nat, d: nat, q: nat, r: nat)
    requires d > 0 && x == q * d + r && r < d
    ensures x / d == q && x % d == r
  {
    OneQuotient(x + 1, d, q + 1, x / d + 1);
    assert x == (x / d) * d + x % d;
  }

  lemma DivAtLeast(x: nat, q: nat, g: nat)
    requires g > 0 && x >= q * g
    ensures x / g >= q
  {
    assert x == (x / g) * g + x % g;
    if x / g < q {
      Monotone(x / g + 1, q, g);
    }
  }

  function Offset(i: nat, chunk: nat): nat { i * chunk }

  /** The length FileSystemStorage expects of part `i`. */
  function SlotLen(i: nat, total: nat, chunk: nat, n: nat): int {
    if i == n - 1 then total - Offset(i, chunk) else chunk
  }

  /** Where the browser's slice `i` ends. */
  function SliceEnd(i: nat, total: nat, chunk: nat): nat {
    if i * chunk + chunk < total then i * chunk + chunk else total
  }

  /** Slot and slice agree, slots lie inside the file, and a slot ends where the next begins. */
  lemma SlotBounds(i: nat, total: nat, chunk: nat, n: nat)
    requires Geometry(total, chunk, n) && i < n
    ensures 0 < SlotLen(i, total, chunk, n) <= chunk
    ensures Offset(i, chunk) + SlotLen(i, total, chunk, n) <= total
    ensures SliceEnd(i, total, chunk) == Offset(i, chunk) + SlotLen(i, total, chunk, n)
    ensures i < n - 1 ==> SliceEnd(i, total, chunk) == Offset(i + 1, chunk)
    ensures i == n - 1 ==> SliceEnd(i, total, chunk) == total
  {
    assert (i + 1) * chunk == i * chunk + chunk;
    if i < n - 1 {
      Monotone(i + 1, n - 1, chunk);
    } else {
      assert n * chunk == (n - 1) * chunk + chunk;
    }
  }

  /** The slot a file position falls into, and its place there; the last slot takes what is left. */
  function SlotIndex(p: nat, chunk: nat, n: nat): nat
    requires chunk > 0 && n > 0
  {
    if p / chunk < n then p / chunk else n - 1
  }

  function SlotPlace(p: nat, chunk: nat, n: nat): int
    requires chunk > 0 && n > 0
  {
    p - Offset(SlotIndex(p, chunk, n), chunk)
  }

  lemma PositionInSlot(i: nat, r: nat, total: nat, chunk: nat, n: nat)
    requires chunk > 0 && i < n && r < SlotLen(i, total, chunk, n)
    ensures SlotIndex(Offset(i, chunk) + r, chunk, n) == i
    ensures SlotPlace(Offset(i, chunk) + r, chunk, n) == r
  {
    if i < n - 1 {
      DivOf(i * chunk + r, chunk, i, r);
    } else {
      DivAtLeast(i * chunk + r, n - 1, chunk);
    }
  }

  lemma SlotOfPosition(p: nat, total: nat, chunk: nat, n: nat)
    requires chunk > 0 && n > 0 && p < total
    ensures SlotIndex(p, chunk, n) < n
    ensures p == Offset(SlotIndex(p, chunk, n), chunk) + SlotPlace(p, chunk, n)
    ensures 0 <= SlotPlace(p, chunk, n) < SlotLen(SlotIndex(p, chunk, n), total, chunk, n)
  {
    assert p == (p / chunk) * chunk + p % chunk;
    if p / chunk >= n {
      Monotone(n - 1, p / chunk, chunk);
    }
  }

  /** The indexes 0 to n - 1. */
  function Indexes(n: nat): (s: set<nat>)
    ensures forall i :: i in s <==> 0 <= i < n
  {
    if n == 0 then {} else Indexes(n - 1) + {n - 1}
  }
}
