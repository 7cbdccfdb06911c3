/**
 The two merge engines and the part check of WebApi/Storages/FileSystemStorage.cs.

 A stream read returns any non-empty piece of what is left, up to the buffer size, so every read below picks its
 length freely.  `Parallel.ForEachAsync` may start parts in any order and interleave their reads and writes, so the
 parallel engine's loop picks freely which part moves next.  What is proved of such a loop holds for every choice.
 The digest is a parameter: any function of the bytes.
 */
module Merge {
  import opened Base
  import opened Slots

  const BUFFER_SIZE: nat := 1024 * 1024

  datatype MergeError =
    | MissingChunk(i: nat)
    | WrongLength(i: nat)
    | OutsideFile(i: nat)
    | SizeMismatch(written: nat)

  /** The final object's bytes and the returned digest text, empty when no digest was asked for. */
  datatype Merged = Merged(bytes: seq<Byte>, hex: string)

  type Outcome = Result<Merged, MergeError>

  // ---- Specifications ----------------------------------------------------------------------------------

  predicate AllPresent(parts: Parts, n: nat) {
    forall i :: 0 <= i < n ==> i in parts
  }

  /** Parts 0 to n - 1 in order. */
  function JoinParts(parts: Parts, n: nat): seq<Byte>
    requires AllPresent(parts, n)
  {
    if n == 0 then [] else JoinParts(parts, n - 1) + parts[n - 1]
  }

  predicate FirstMissing(parts: Parts, n: nat, i: nat) {
    i < n && i !in parts && AllPresent(parts, i)
  }

  /** Single pass succeeds on every set of parts whose lengths add up. */
  ghost predicate SinglePassOutcome(parts: Parts, n: nat, total: nat, sha: seq<Byte> -> string, r: Outcome) {
    if !AllPresent(parts, n) then
      r.Failure? && r.error.MissingChunk? && FirstMissing(parts, n, r.error.i)
    else
      var joined := JoinParts(parts, n);
      if |joined| != total then r == Failure(SizeMismatch(|joined|))
      else r == Success(Merged(joined, sha(joined)))
  }

  /** Every part is there with the length of its slot. */
  predicate SlotsFilled(parts: Parts, n: nat, total: nat, chunk: nat) {
    forall i :: 0 <= i < n ==> i in parts && |parts[i]| == SlotLen(i, total, chunk, n)
  }

  /** Parallel merge succeeds exactly on parts that fill their slots; a failure names a part that does not. */
  ghost predicate ParallelOutcome(parts: Parts, n: nat, total: nat, chunk: nat, hash: bool, sha: seq<Byte> -> string, r: Outcome) {
    if SlotsFilled(parts, n, total, chunk) then
      AllPresent(parts, n) && r == Success(Merged(JoinParts(parts, n), if hash then sha(JoinParts(parts, n)) else ""))
    else
      && r.Failure?
      && match r.error
         case MissingChunk(i) => i < n && i !in parts
         case WrongLength(i) => i < n && i in parts && |parts[i]| != SlotLen(i, total, chunk, n)
         case OutsideFile(i) => i < n && i in parts && Offset(i, chunk) + SlotLen(i, total, chunk, n) > total
         case SizeMismatch(_) => false
  }

  // ---- Joining parts that fill their slots -------------------------------------------------------------

  lemma {:induction false} JoinLength(parts: Parts, n: nat, total: nat, chunk: nat, k: nat)
    requires chunk > 0 && n > 0 && SlotsFilled(parts, n, total, chunk) && k <= n
    ensures AllPresent(parts, k)
    ensures |JoinParts(parts, k)| == if k == n then total else Offset(k, chunk)
  {
    if k > 0 {
      JoinLength(parts, n, total, chunk, k - 1);
      assert k * chunk == (k - 1) * chunk + chunk;
    }
  }

  lemma {:induction false} JoinByte(parts: Parts, n: nat, total: nat, chunk: nat, k: nat, i: nat, r: nat)
    requires chunk > 0 && n > 0 && SlotsFilled(parts, n, total, chunk)
    requires i < k <= n && r < |parts[i]|
    ensures AllPresent(parts, k)
    ensures Offset(i, chunk) + r < |JoinParts(parts, k)|
    ensures JoinParts(parts, k)[Offset(i, chunk) + r] == parts[i][r]
  {
    JoinLength(parts, n, total, chunk, k - 1);
    if i < k - 1 {
      JoinByte(parts, n, total, chunk, k - 1, i, r);
    }
  }

  /** Parts in their slots join to exactly `total` bytes, each byte where its slot says. */
  lemma JoinAt(parts: Parts, n: nat, total: nat, chunk: nat, file: seq<Byte>)
    requires chunk > 0 && n > 0 && SlotsFilled(parts, n, total, chunk) && |file| == total
    requires forall p :: 0 <= p < total ==> InSlot(parts, p, chunk, n) && file[p] == parts[SlotIndex(p, chunk, n)][SlotPlace(p, chunk, n)]
    ensures AllPresent(parts, n) && file == JoinParts(parts, n)
  {
    JoinLength(parts, n, total, chunk, n);
    var joined := JoinParts(parts, n);
    forall p | 0 <= p < total
      ensures file[p] == joined[p]
    {
      assert InSlot(parts, p, chunk, n);
      SlotOfPosition(p, total, chunk, n);
      JoinByte(parts, n, total, chunk, n, SlotIndex(p, chunk, n), SlotPlace(p, chunk, n));
    }
  }

  predicate InSlot(parts: Parts, p: nat, chunk: nat, n: nat)
    requires chunk > 0 && n > 0
  {
    SlotIndex(p, chunk, n) in parts && 0 <= SlotPlace(p, chunk, n) < |parts[SlotIndex(p, chunk, n)]|
  }

  // ---- Single pass -------------------------------------------------------------------------------------

  /** A stream write at `pos`: overwrites, and extends the file when it runs past the end. */
  function WriteAt(file: seq<Byte>, pos: nat, data: seq<Byte>): seq<Byte>
    requires pos <= |file|
  {
    if pos + |data| <= |file| then file[..pos] + data + file[pos + |data|..] else file[..pos] + data
  }

  lemma WriteAtPrefix(file: seq<Byte>, pos: nat, data: seq<Byte>)
    requires pos <= |file|
    ensures var f := WriteAt(file, pos, data);
            && |f| == (if pos + |data| <= |file| then |file| else pos + |data|)
            && f[..pos + |data|] == file[..pos] + data
  {
  }

  /** Copies one part to the end of what has been written, a buffer at a time, hashing on the way. */
  method AppendPart(part: seq<Byte>, file: seq<Byte>, start: nat, ghost done: seq<Byte>) returns (final: seq<Byte>, hashed: seq<Byte>)
    requires start <= |file| && file[..start] == done
    ensures hashed == part && |final| == (if |file| < start + |part| then start + |part| else |file|)
    ensures final[..start + |part|] == done + part
  {
    final, hashed := file, [];
    var pos := 0;
    while pos < |part|
      invariant 0 <= pos <= |part| && hashed == part[..pos]
      invariant |final| == (if |file| < start + pos then start + pos else |file|)
      invariant final[..start + pos] == done + part[..pos]
    {
      var read: nat :| 0 < read <= BUFFER_SIZE && read <= |part| - pos;
      var buffer := part[pos..pos + read];
      WriteAtPrefix(final, start + pos, buffer);
      final := WriteAt(final, start + pos, buffer);
      hashed := hashed + buffer;
      assert part[..pos] + buffer == part[..pos + read];
      pos := pos + read;
    }
    assert part[..|part|] == part;
  }

  method MergeSinglePass(parts: Parts, n: nat, total: nat, sha: seq<Byte> -> string) returns (r: Outcome)
    ensures SinglePassOutcome(parts, n, total, sha, r)
  {
    var final: seq<Byte> := seq(total, _ => 0);
    var hashed: seq<Byte> := [];
    var written := 0;
    for i := 0 to n
      invariant AllPresent(parts, i)
      invariant 0 <= written <= |final| && |final| == (if total < written then written else total)
      invariant final[..written] == JoinParts(parts, i) == hashed
    {
      if i !in parts {
        assert FirstMissing(parts, n, i);
        return Failure(MissingChunk(i));
      }
      var more: seq<Byte>;
      final, more := AppendPart(parts[i], final, written, hashed);
      hashed := hashed + more;
      written := written + |parts[i]|;
    }
    if written != total {
      return Failure(SizeMismatch(written));
    }
    assert final[..written] == final;
    return Success(Merged(final, sha(hashed)));
  }

  /**
   The single pass while clients rewrite the parts: a read may return anything. It still succeeds only with `total`
   bytes, and its digest is that of the bytes it wrote.
   */
  method MergeSinglePassRacing(n: nat, total: nat, sha: seq<Byte> -> string) returns (r: Outcome)
    ensures r.Success? ==> |r.value.bytes| == total && r.value.hex == sha(r.value.bytes)
  {
    var final: seq<Byte> := seq(total, _ => 0);
    var hashed: seq<Byte> := [];
    var written := 0;
    for i := 0 to n
      invariant 0 <= written <= |final| && |final| == (if total < written then written else total) && final[..written] == hashed
    {
      var there: bool := *;
      if !there {
        return Failure(MissingChunk(i));
      }
      var read: seq<Byte> := *;
      var more: seq<Byte>;
      final, more := AppendPart(read, final, written, hashed);
      hashed := hashed + more;
      written := written + |read|;
    }
    if written != total {
      return Failure(SizeMismatch(written));
    }
    assert final[..written] == final;
    return Success(Merged(final, sha(hashed)));
  }

  // ---- Parallel merge ----------------------------------------------------------------------------------

  /** The positions of the final file that no part has written yet. */
  ghost function Unwritten(total: nat, chunk: nat, n: nat, todo: set<nat>, active: map<nat, nat>): set<nat>
    requires chunk > 0 && n > 0
  {
    set p | 0 <= p < total && (SlotIndex(p, chunk, n) in todo || (SlotIndex(p, chunk, n) in active && active[SlotIndex(p, chunk, n)] <= SlotPlace(p, chunk, n)))
  }

  /** Every written position holds the byte its part has there. */
  ghost predicate WrittenRight(file: seq<Byte>, parts: Parts, chunk: nat, n: nat, unwritten: set<nat>)
    requires chunk > 0 && n > 0
  {
    forall p :: 0 <= p < |file| && p !in unwritten ==> InSlot(parts, p, chunk, n) && file[p] == parts[SlotIndex(p, chunk, n)][SlotPlace(p, chunk, n)]
  }

  /** The part is there, has the length of its slot, and its slot lies inside the file. */
  predicate Fills(parts: Parts, n: nat, total: nat, chunk: nat, i: nat) {
    i in parts && |parts[i]| == SlotLen(i, total, chunk, n) && Offset(i, chunk) + SlotLen(i, total, chunk, n) <= total
  }

  /** A started part fills its slot; a part neither waiting nor active is finished and filled its slot. */
  ghost predicate Started(parts: Parts, n: nat, total: nat, chunk: nat, todo: set<nat>, active: map<nat, nat>) {
    && (forall i :: i in todo ==> i < n)
    && (forall i :: i in active ==> i < n && i !in todo)
    && (forall i :: 0 <= i < n && i !in todo ==> Fills(parts, n, total, chunk, i))
    && (forall i :: i in active ==> active[i] <= |parts[i]|)
  }

  lemma CopiedPositions(parts: Parts, n: nat, total: nat, chunk: nat, todo: set<nat>, active: map<nat, nat>,
                        i: nat, copied: nat, p: nat)
    requires chunk > 0 && n > 0 && Started(parts, n, total, chunk, todo, active)
    requires i in active && active[i] < copied <= |parts[i]| && p < total
    ensures p in Unwritten(total, chunk, n, todo, active) && p !in Unwritten(total, chunk, n, todo, active[i := copied])
            <==> Offset(i, chunk) + active[i] <= p < Offset(i, chunk) + copied
    ensures p in Unwritten(total, chunk, n, todo, active[i := copied]) ==> p in Unwritten(total, chunk, n, todo, active)
  {
    SlotOfPosition(p, total, chunk, n);
    if Offset(i, chunk) <= p < Offset(i, chunk) + |parts[i]| {
      PositionInSlot(i, p - Offset(i, chunk), total, chunk, n);
    }
    hide SlotIndex, SlotPlace;
  }

  lemma CopyKeepsRight(before: seq<Byte>, after: seq<Byte>, parts: Parts, n: nat, total: nat, chunk: nat,
                       todo: set<nat>, active: map<nat, nat>, i: nat, copied: nat)
    requires chunk > 0 && n > 0 && Started(parts, n, total, chunk, todo, active)
    requires i in active && active[i] < copied <= |parts[i]|
    requires |before| == |after| == total
    requires WrittenRight(before, parts, chunk, n, Unwritten(total, chunk, n, todo, active))
    requires forall p :: 0 <= p < total ==>
               after[p] == if Offset(i, chunk) + active[i] <= p < Offset(i, chunk) + copied
                           then parts[i][p - Offset(i, chunk)] else before[p]
    ensures WrittenRight(after, parts, chunk, n, Unwritten(total, chunk, n, todo, active[i := copied]))
    ensures Unwritten(total, chunk, n, todo, active[i := copied]) < Unwritten(total, chunk, n, todo, active)
  {
    assert chunk > 0;
    hide SlotIndex, SlotPlace;
    var base := Offset(i, chunk);
    var now, later := Unwritten(total, chunk, n, todo, active), Unwritten(total, chunk, n, todo, active[i := copied]);
    forall p | 0 <= p < total
      ensures p !in later ==> InSlot(parts, p, chunk, n) && after[p] == parts[SlotIndex(p, chunk, n)][SlotPlace(p, chunk, n)]
      ensures p in later ==> p in now
    {
      CopiedPositions(parts, n, total, chunk, todo, active, i, copied, p);
      if base + active[i] <= p < base + copied {
        PositionInSlot(i, p - base, total, chunk, n);
      }
    }
    CopiedPositions(parts, n, total, chunk, todo, active, i, copied, base + active[i]);
  }

  /** One read of part `i` written into the mapped view at its slot. */
  method CopyPiece(file: array<Byte>, parts: Parts, n: nat, total: nat, chunk: nat,
                   todo: set<nat>, active: map<nat, nat>, i: nat) returns (copied: nat)
    requires chunk > 0 && n > 0 && file.Length == total
    requires Started(parts, n, total, chunk, todo, active)
    requires i in active && active[i] < |parts[i]|
    requires WrittenRight(file[..], parts, chunk, n, Unwritten(total, chunk, n, todo, active))
    modifies file
    ensures active[i] < copied <= |parts[i]|
    ensures WrittenRight(file[..], parts, chunk, n, Unwritten(total, chunk, n, todo, active[i := copied]))
    ensures Unwritten(total, chunk, n, todo, active[i := copied]) < Unwritten(total, chunk, n, todo, active)
  {
    assert Fills(parts, n, total, chunk, i);
    hide SlotIndex, SlotPlace, Unwritten, WrittenRight;
    var part, from := parts[i], active[i];
    var read: nat :| 0 < read <= BUFFER_SIZE && read <= |part| - from;
    copied := from + read;
    var base := Offset(i, chunk);
    forall k | from <= k < copied {
      file[base + k] := part[k];
    }
    CopyKeepsRight(old(file[..]), file[..], parts, n, total, chunk, todo, active, i, copied);
  }

  /**
   Starts and copies parts in any order and any interleaving, at most `degree` at a time.
   The whole call fails as soon as a started part is missing, has the wrong length, or has no room in the file; so a count
   that does not fit the size and the chunk size is rejected here.
   */
  method MergeParallel(parts: Parts, n: nat, total: nat, chunk: nat, degree: nat, hash: bool, sha: seq<Byte> -> string)
    returns (r: Outcome)
    requires chunk > 0 && n > 0 && degree > 0
    ensures ParallelOutcome(parts, n, total, chunk, hash, sha, r)
  {
    assert chunk > 0;
    hide Unwritten, WrittenRight, Indexes, JoinParts, Started;
    var file := new Byte[total](_ => 0);
    var todo := Indexes(n);
    var active: map<nat, nat> := map[];
    NothingWritten(file[..], parts, n, total, chunk);
    while todo != {} || active != map[]
      invariant fresh(file)
      invariant Started(parts, n, total, chunk, todo, active)
      invariant WrittenRight(file[..], parts, chunk, n, Unwritten(total, chunk, n, todo, active))
      decreases todo, active.Keys, Unwritten(total, chunk, n, todo, active)
    {
      ActiveParts(parts, n, total, chunk, todo, active);
      var start := *;
      if active == map[] || (start && todo != {} && |active| < degree) {
        var i :| i in todo;
        if i !in parts {
          return Failure(MissingChunk(i));
        }
        if |parts[i]| != SlotLen(i, total, chunk, n) {
          return Failure(WrongLength(i));
        }
        if Offset(i, chunk) + |parts[i]| > total {
          SlotOutside(parts, n, total, chunk, i);
          return Failure(OutsideFile(i));
        }
        StartPart(parts, n, total, chunk, todo, active, i);
        todo := todo - {i};
        active := active[i := 0];
      } else {
        var i :| i in active;
        if active[i] < |parts[i]| {
          var copied := CopyPiece(file, parts, n, total, chunk, todo, active, i);
          AdvancePart(parts, n, total, chunk, todo, active, i, copied);
          active := active[i := copied];
        } else {
          FinishPart(parts, n, total, chunk, todo, active, i);
          active := active - {i};
        }
      }
    }
    var bytes := file[..];
    AllWritten(bytes, parts, n, total, chunk);
    return Success(Merged(bytes, if hash then sha(bytes) else ""));
  }

  /** A slot that leaves the file leaves nothing for the last part, which then cannot have its length. */
  lemma SlotOutside(parts: Parts, n: nat, total: nat, chunk: nat, i: nat)
    requires chunk > 0 && i < n && Offset(i, chunk) + SlotLen(i, total, chunk, n) > total
    ensures SlotLen(n - 1, total, chunk, n) < 0 && !SlotsFilled(parts, n, total, chunk)
  {
    assert (i + 1) * chunk == i * chunk + chunk;
    Monotone(i + 1, n - 1, chunk);
  }

  lemma ActiveParts(parts: Parts, n: nat, total: nat, chunk: nat, todo: set<nat>, active: map<nat, nat>)
    requires Started(parts, n, total, chunk, todo, active)
    ensures forall i :: i in active ==> i < n && i !in todo && i in parts && active[i] <= |parts[i]|
    ensures forall i :: i in todo ==> i < n
  {
  }

  /** Starting a part writes nothing. */
  lemma StartPart(parts: Parts, n: nat, total: nat, chunk: nat, todo: set<nat>, active: map<nat, nat>, i: nat)
    requires chunk > 0 && n > 0 && Started(parts, n, total, chunk, todo, active)
    requires i in todo && Fills(parts, n, total, chunk, i)
    ensures Started(parts, n, total, chunk, todo - {i}, active[i := 0])
    ensures Unwritten(total, chunk, n, todo - {i}, active[i := 0]) == Unwritten(total, chunk, n, todo, active)
  {
    hide SlotIndex, SlotPlace;
    forall p | 0 <= p < total
      ensures 0 <= SlotPlace(p, chunk, n)
    {
      SlotOfPosition(p, total, chunk, n);
    }
  }

  lemma AdvancePart(parts: Parts, n: nat, total: nat, chunk: nat, todo: set<nat>, active: map<nat, nat>, i: nat, copied: nat)
    requires Started(parts, n, total, chunk, todo, active) && i in active && copied <= |parts[i]|
    ensures Started(parts, n, total, chunk, todo, active[i := copied])
    ensures active[i := copied].Keys == active.Keys
  {
  }

  /** Dropping a part that has been copied to its end leaves the same positions unwritten. */
  lemma FinishPart(parts: Parts, n: nat, total: nat, chunk: nat, todo: set<nat>, active: map<nat, nat>, i: nat)
    requires chunk > 0 && n > 0 && Started(parts, n, total, chunk, todo, active)
    requires i in active && active[i] == |parts[i]|
    ensures Started(parts, n, total, chunk, todo, active - {i})
    ensures Unwritten(total, chunk, n, todo, active - {i}) == Unwritten(total, chunk, n, todo, active)
  {
    assert chunk > 0;
    hide SlotIndex, SlotPlace;
    forall p | 0 <= p < total
      ensures p in Unwritten(total, chunk, n, todo, active) ==> SlotIndex(p, chunk, n) != i
    {
      SlotOfPosition(p, total, chunk, n);
    }
  }

  lemma NothingWritten(file: seq<Byte>, parts: Parts, n: nat, total: nat, chunk: nat)
    requires chunk > 0 && n > 0 && |file| == total
    ensures WrittenRight(file, parts, chunk, n, Unwritten(total, chunk, n, Indexes(n), map[]))
    ensures Started(parts, n, total, chunk, Indexes(n), map[])
  {
    hide Indexes, InSlot, SlotIndex, SlotPlace;
    var none: map<nat, nat> := map[];
    forall p | 0 <= p < total
      ensures p in Unwritten(total, chunk, n, Indexes(n), none)
    {
      SlotOfPosition(p, total, chunk, n);
    }
  }

  lemma AllWritten(file: seq<Byte>, parts: Parts, n: nat, total: nat, chunk: nat)
    requires chunk > 0 && n > 0 && |file| == total && Started(parts, n, total, chunk, {}, map[])
    requires WrittenRight(file, parts, chunk, n, Unwritten(total, chunk, n, {}, map[]))
    ensures SlotsFilled(parts, n, total, chunk)
    ensures AllPresent(parts, n) && file == JoinParts(parts, n)
  {
    assert Unwritten(total, chunk, n, {}, map[]) == {};
    forall i | 0 <= i < n
      ensures i in parts && |parts[i]| == SlotLen(i, total, chunk, n)
    {
      assert Fills(parts, n, total, chunk, i);
    }
    JoinAt(parts, n, total, chunk, file);
  }

  // ---- The fast engine refines the simple one ----------------------------------------------------------

  /** Whenever some run of the parallel engine succeeds, single pass succeeds with the same bytes and digest. */
  lemma ParallelRefinesSinglePass(parts: Parts, n: nat, total: nat, chunk: nat, sha: seq<Byte> -> string, p: Outcome, s: Outcome)
    requires chunk > 0 && n > 0
    requires ParallelOutcome(parts, n, total, chunk, true, sha, p) && SinglePassOutcome(parts, n, total, sha, s)
    ensures p.Success? ==> s == p
  {
    if p.Success? {
      JoinLength(parts, n, total, chunk, n);
    }
  }

  /** The converse holds exactly when every part has its slot length: single pass checks only the sum. */
  lemma SinglePassRefinesParallelExactlyWhen(parts: Parts, n: nat, total: nat, chunk: nat, sha: seq<Byte> -> string, p: Outcome, s: Outcome)
    requires chunk > 0 && n > 0
    requires ParallelOutcome(parts, n, total, chunk, true, sha, p) && SinglePassOutcome(parts, n, total, sha, s)
    requires s.Success?
    ensures p == s <==> forall i :: 0 <= i < n && i in parts ==> |parts[i]| == SlotLen(i, total, chunk, n)
  {
    ParallelRefinesSinglePass(parts, n, total, chunk, sha, p, s);
    if forall i :: 0 <= i < n && i in parts ==> |parts[i]| == SlotLen(i, total, chunk, n) {
      assert SlotsFilled(parts, n, total, chunk);
    }
  }

  /** Two parts of one and three bytes for slots of two: single pass accepts them, parallel merge does not. */
  lemma OnlyTheSumIsChecked(sha: seq<Byte> -> string, p: Outcome, s: Outcome)
    requires var parts: Parts := map[0 := [7], 1 := [7, 7, 7]];
             ParallelOutcome(parts, 2, 4, 2, true, sha, p) && SinglePassOutcome(parts, 2, 4, sha, s)
    ensures p.Failure? && s == Success(Merged([7, 7, 7, 7], sha([7, 7, 7, 7])))
  {
    var parts: Parts := map[0 := [7], 1 := [7, 7, 7]];
    assert |parts[0]| != SlotLen(0, 4, 2, 2);
    assert JoinParts(parts, 1) == JoinParts(parts, 0) + parts[0];
    assert JoinParts(parts, 2) == [7, 7, 7, 7];
  }

  // ---- The part check ----------------------------------------------------------------------------------

  /** Bytes of the parts below `n` that are in `seen`. */
  ghost function BytesSeen(parts: Parts, seen: set<nat>, n: nat): nat {
    if n == 0 then 0
    else BytesSeen(parts, seen, n - 1) + if n - 1 in seen && n - 1 in parts then |parts[n - 1]| else 0
  }

  ghost function BytesOnDisk(parts: Parts, n: nat): nat { BytesSeen(parts, Indexes(n), n) }

  lemma {:induction false} BytesSeenAdds(parts: Parts, seen: set<nat>, i: nat, n: nat)
    requires i !in seen
    ensures BytesSeen(parts, seen + {i}, n) == BytesSeen(parts, seen, n) + if i < n && i in parts then |parts[i]| else 0
  {
    if n > 0 {
      BytesSeenAdds(parts, seen, i, n - 1);
    }
  }

  lemma {:induction false} BytesSeenAll(parts: Parts, seen: set<nat>, n: nat)
    requires AllPresent(parts, n) && forall i :: 0 <= i < n ==> i in seen
    ensures BytesSeen(parts, seen, n) == |JoinParts(parts, n)|
  {
    if n > 0 {
      BytesSeenAll(parts, seen, n - 1);
    }
  }

  /** With no part missing, what is on disk is what a single pass will write. */
  lemma BytesOnDiskAreJoined(parts: Parts, n: nat)
    requires AllPresent(parts, n)
    ensures BytesOnDisk(parts, n) == |JoinParts(parts, n)|
  {
    BytesSeenAll(parts, Indexes(n), n);
  }

  lemma {:induction false} BytesSeenNone(parts: Parts, n: nat)
    ensures BytesSeen(parts, {}, n) == 0
  {
    if n > 0 {
      BytesSeenNone(parts, n - 1);
    }
  }

  /** Looks at the parts in any order; the bag and the atomic total do not depend on it. */
  method VerifyChunksParallel(parts: Parts, n: nat) returns (missing: multiset<nat>, bytes: nat)
    ensures forall i: nat :: missing[i] == if i < n && i !in parts then 1 else 0
    ensures bytes == BytesOnDisk(parts, n)
  {
    missing, bytes := multiset{}, 0;
    var todo := Indexes(n);
    ghost var seen: set<nat> := {};
    BytesSeenNone(parts, n);
    while todo != {}
      invariant seen !! todo && seen + todo == Indexes(n)
      invariant forall i: nat :: missing[i] == if i in seen && i !in parts then 1 else 0
      invariant bytes == BytesSeen(parts, seen, n)
      decreases todo
    {
      var i :| i in todo;
      BytesSeenAdds(parts, seen, i, n);
      if i !in parts {
        missing := missing + multiset{i};
      } else {
        bytes := bytes + |parts[i]|;
      }
      todo := todo - {i};
      seen := seen + {i};
    }
    assert seen == Indexes(n);
  }
}
