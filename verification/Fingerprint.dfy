/**
 The sampled content fingerprint (WebApi/Hashing/ContentFingerprint.cs): the SHA-256 of the size in eight
 little-endian bytes, the first N bytes and the last N bytes. The hash itself is a parameter.
 */
module Fingerprint {
  import opened Base

  const LONG_LIMIT := 0x8000_0000_0000_0000

  /** The `k` low bytes of `n`, lowest first. */
  function LittleEndian(n: nat, k: nat): seq<Byte> {
    if k == 0 then [] else [n % 256] + LittleEndian(n / 256, k - 1)
  }

  function Power256(k: nat): nat { if k == 0 then 1 else 256 * Power256(k - 1) }

  lemma {:induction false} LittleEndianLength(n: nat, k: nat)
    ensures |LittleEndian(n, k)| == k
  {
    if k > 0 {
      LittleEndianLength(n / 256, k - 1);
    }
  }

  /** The number whose digits to base 256 are the bytes, the first one for the ones. */
  function NumberOf(bytes: seq<Byte>): nat {
    if bytes == [] then 0 else bytes[0] + 256 * NumberOf(bytes[1..])
  }

  lemma {:induction false} LittleEndianReadsBack(n: nat, k: nat)
    requires n < Power256(k)
    ensures NumberOf(LittleEndian(n, k)) == n
  {
    if k > 0 {
      LittleEndianReadsBack(n / 256, k - 1);
      assert LittleEndian(n, k)[1..] == LittleEndian(n / 256, k - 1);
    }
  }

  lemma {:induction false} LittleEndianIsInjective(m: nat, n: nat, k: nat)
    requires m < Power256(k) && n < Power256(k)
    ensures LittleEndian(m, k) == LittleEndian(n, k) <==> m == n
  {
    if k > 0 {
      var a, b := LittleEndian(m, k), LittleEndian(n, k);
      LittleEndianIsInjective(m / 256, n / 256, k - 1);
      assert a[0] == m % 256 && a[1..] == LittleEndian(m / 256, k - 1);
      assert b[0] == n % 256 && b[1..] == LittleEndian(n / 256, k - 1);
    }
  }

  lemma EightBytesHoldALong()
    ensures Power256(8) == 2 * LONG_LIMIT
  {
    assert Power256(4) == 0x1_0000_0000;
    assert Power256(8) == 256 * (256 * (256 * (256 * Power256(4))));
  }

  // ---- What is hashed ----------------------------------------------------------------------------------

  function SampleInput(totalSize: nat, head: seq<Byte>, tail: seq<Byte>): seq<Byte> {
    LittleEndian(totalSize, 8) + head + tail
  }

  /** The bytes that ComputeFromFileAsync hashes for a file, the size its caller expects, and the sample length. */
  function FileInput(file: seq<Byte>, expectedSize: int, n: nat): seq<Byte> {
    if expectedSize <= 0 then SampleInput(0, [], [])
    else if |file| <= 2 * n then SampleInput(|file|, file, [])
    else SampleInput(|file|, file[..n], file[|file| - n..])
  }

  /** Equal inputs mean equal sizes and equal samples run together; where the head ends is not recorded. */
  lemma SamplesAreRunTogether(size1: nat, head1: seq<Byte>, tail1: seq<Byte>, size2: nat, head2: seq<Byte>, tail2: seq<Byte>)
    requires size1 < LONG_LIMIT && size2 < LONG_LIMIT
    ensures SampleInput(size1, head1, tail1) == SampleInput(size2, head2, tail2)
       <==> size1 == size2 && head1 + tail1 == head2 + tail2
  {
    hide LittleEndian, Power256;
    EightBytesHoldALong();
    LittleEndianIsInjective(size1, size2, 8);
    var a, b := SampleInput(size1, head1, tail1), SampleInput(size2, head2, tail2);
    LittleEndianLength(size1, 8);
    LittleEndianLength(size2, 8);
    assert a[..8] == LittleEndian(size1, 8) && a[8..] == head1 + tail1;
    assert b[..8] == LittleEndian(size2, 8) && b[8..] == head2 + tail2;
    assert a == a[..8] + a[8..] && b == b[..8] + b[8..];
  }

  /** What a fingerprint can tell apart: the size, and the whole file or its first and last N bytes. */
  predicate SameSamples(a: seq<Byte>, b: seq<Byte>, n: nat) {
    && |a| == |b|
    && (if |a| <= 2 * n then a == b else a[..n] == b[..n] && a[|a| - n..] == b[|b| - n..])
  }

  lemma EqualInputsExactlyWhen(a: seq<Byte>, b: seq<Byte>, n: nat)
    requires 0 < |a| < LONG_LIMIT && 0 < |b| < LONG_LIMIT
    ensures FileInput(a, |a|, n) == FileInput(b, |b|, n) <==> SameSamples(a, b, n)
  {
    var headA, tailA := if |a| <= 2 * n then a else a[..n], if |a| <= 2 * n then [] else a[|a| - n..];
    var headB, tailB := if |b| <= 2 * n then b else b[..n], if |b| <= 2 * n then [] else b[|b| - n..];
    SamplesAreRunTogether(|a|, headA, tailA, |b|, headB, tailB);
    if |a| == |b| {
      assert headA == (headA + tailA)[..|headA|] && tailA == (headA + tailA)[|headA|..];
      assert headB == (headB + tailB)[..|headB|] && tailB == (headB + tailB)[|headB|..];
    }
  }

  /** Agreeing on the samples of a long file means agreeing at exactly the positions within N of an end. */
  lemma SamplesByPosition(a: seq<Byte>, b: seq<Byte>, n: nat)
    requires |a| == |b|
    ensures SameSamples(a, b, n) <==> forall i :: 0 <= i < |a| && (i < n || |a| - n <= i) ==> a[i] == b[i]
  {
    var m := |a|;
    if forall i :: 0 <= i < m && (i < n || m - n <= i) ==> a[i] == b[i] {
    } else if m > 2 * n {
      var i :| 0 <= i < m && (i < n || m - n <= i) && a[i] != b[i];
      if i < n {
        assert a[..n][i] != b[..n][i];
      } else {
        assert a[m - n..][i - (m - n)] != b[m - n..][i - (m - n)];
      }
    }
  }

  /** The caller's size matters only by its sign: a wrong positive size is replaced, a size of zero hides the file. */
  lemma ExpectedSizeMattersOnlyBySign(file: seq<Byte>, expected1: int, expected2: int, n: nat)
    requires 0 < |file| < LONG_LIMIT
    ensures FileInput(file, expected1, n) == FileInput(file, expected2, n) <==> (expected1 > 0 <==> expected2 > 0)
  {
    var head, tail := if |file| <= 2 * n then file else file[..n], if |file| <= 2 * n then [] else file[|file| - n..];
    SamplesAreRunTogether(0, [], [], |file|, head, tail);
  }

  // ---- As the source computes it -----------------------------------------------------------------------

  method CopyTo(src: seq<Byte>, dst: array<Byte>, at: nat)
    requires at + |src| <= dst.Length
    modifies dst
    ensures dst[..] == old(dst[..at]) + src + old(dst[at + |src|..])
  {
    var i := 0;
    while i < |src|
      invariant i <= |src|
      invariant dst[..at] == old(dst[..at]) && dst[at..at + i] == src[..i] && dst[at + i..] == old(dst[at + i..])
    {
      ghost var rest := dst[at + i..];
      dst[at + i] := src[i];
      i := i + 1;
      assert dst[at + i..] == rest[1..];
    }
    assert dst[..] == dst[..at] + dst[at..at + |src|] + dst[at + |src|..];
  }

  /** Lays the size and the samples out in one buffer and hashes it. */
  method ComputeFromSamples<H>(sha: seq<Byte> -> H, totalSize: nat, head: seq<Byte>, tail: seq<Byte>) returns (hash: H)
    ensures hash == sha(SampleInput(totalSize, head, tail))
  {
    hide LittleEndian;
    LittleEndianLength(totalSize, 8);
    var len := 8 + |head| + |tail|;
    var buffer := new Byte[len](_ => 0);
    CopyTo(LittleEndian(totalSize, 8), buffer, 0);
    CopyTo(head, buffer, 8);
    ghost var laid := buffer[..];
    assert laid[..8 + |head|] == LittleEndian(totalSize, 8) + head;
    if |tail| > 0 {
      CopyTo(tail, buffer, 8 + |head|);
      assert buffer[..] == laid[..8 + |head|] + tail;
    }
    hash := sha(buffer[..]);
  }

  /** A file opened for reading. */
  class FileReader {
    const bytes: seq<Byte>
    var position: nat

    constructor (file: seq<Byte>)
      ensures bytes == file && position == 0
    {
      bytes, position := file, 0;
    }

    /** ReadExactlyAsync into a new buffer: throws when the file ends too early. */
    method ReadExactly(count: nat) returns (r: Option<seq<Byte>>)
      modifies this
      ensures r.None? <==> old(position) + count > |bytes|
      ensures r.Some? ==> r.value == bytes[old(position)..old(position) + count] && position == old(position) + count
    {
      if position + count > |bytes| {
        return None;
      }
      r := Some(bytes[position..position + count]);
      position := position + count;
    }

    method Seek(to: nat)
      modifies this
      ensures position == to
    {
      position := to;
    }
  }

  /** Never fails on a file that can be opened: every read stays inside it. */
  method ComputeFromFile<H>(sha: seq<Byte> -> H, file: seq<Byte>, expected: int, n: nat) returns (hash: Option<H>)
    ensures hash == Some(sha(FileInput(file, expected, n)))
  {
    var fs := new FileReader(file);
    var expectedSize := expected;
    if |fs.bytes| != expectedSize && expectedSize > 0 {
      expectedSize := |fs.bytes|;
    }
    if expectedSize <= 0 {
      var h := ComputeFromSamples(sha, 0, [], []);
      return Some(h);
    }
    if expectedSize <= n * 2 {
      var all := fs.ReadExactly(expectedSize);
      if all.None? {
        return None;
      }
      assert all.value == file;
      var h := ComputeFromSamples(sha, expectedSize, all.value, []);
      return Some(h);
    }
    var head := fs.ReadExactly(n);
    if head.None? {
      return None;
    }
    fs.Seek(expectedSize - n);
    var tail := fs.ReadExactly(n);
    if tail.None? {
      return None;
    }
    assert head.value == file[..n] && tail.value == file[|file| - n..];
    var h := ComputeFromSamples(sha, expectedSize, head.value, tail.value);
    return Some(h);
  }
}
