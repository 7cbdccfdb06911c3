/**
 From the browser's file to the server's final object: the slices tile the file, verification finds all of it, both
 merge engines give it back, and the checksum computed on either side is the same text.
 */
module EndToEnd {
  import opened Base
  import opened Hex
  import opened Slots
  import opened Merge
  import opened Checksums
  import opened Doubles
  import Sha256Spec
  import Sha256

  /** The browser's slice `i` of a file; empty past the end. */
  function Slice(file: seq<Byte>, chunk: nat, i: nat): seq<Byte> {
    if i * chunk <= |file| then file[i * chunk..SliceEnd(i, |file|, chunk)] else []
  }

  /** The first `n` slices have been stored under their indexes; nothing is said of other indexes. */
  ghost predicate Uploaded(file: seq<Byte>, chunk: nat, n: nat, parts: Parts) {
    forall i :: 0 <= i < n ==> i in parts && parts[i] == Slice(file, chunk, i)
  }

  lemma SliceFillsSlot(file: seq<Byte>, chunk: nat, n: nat, i: nat)
    requires Geometry(|file|, chunk, n) && i < n
    ensures |Slice(file, chunk, i)| == SlotLen(i, |file|, chunk, n)
    ensures forall r :: 0 <= r < |Slice(file, chunk, i)| ==>
      0 <= Offset(i, chunk) + r < |file| && Slice(file, chunk, i)[r] == file[Offset(i, chunk) + r]
  {
    SlotBounds(i, |file|, chunk, n);
  }

  lemma UploadedFills(file: seq<Byte>, chunk: nat, n: nat, parts: Parts)
    requires Geometry(|file|, chunk, n) && Uploaded(file, chunk, n, parts)
    ensures SlotsFilled(parts, n, |file|, chunk)
  {
    forall i | 0 <= i < n
      ensures i in parts && |parts[i]| == SlotLen(i, |file|, chunk, n)
    {
      SliceFillsSlot(file, chunk, n, i);
    }
  }

  lemma UploadedJoins(file: seq<Byte>, chunk: nat, n: nat, parts: Parts)
    requires Geometry(|file|, chunk, n) && Uploaded(file, chunk, n, parts)
    ensures AllPresent(parts, n) && JoinParts(parts, n) == file
  {
    UploadedFills(file, chunk, n, parts);
    forall p | 0 <= p < |file|
      ensures InSlot(parts, p, chunk, n) && file[p] == parts[SlotIndex(p, chunk, n)][SlotPlace(p, chunk, n)]
    {
      SlotOfPosition(p, |file|, chunk, n);
      SliceFillsSlot(file, chunk, n, SlotIndex(p, chunk, n));
    }
    JoinAt(parts, n, |file|, chunk, file);
  }

  /** The slices are the only parts that fill their slots and join to the file. */
  lemma TheSlicesAreTheOnlyTiling(file: seq<Byte>, chunk: nat, n: nat, parts: Parts)
    requires Geometry(|file|, chunk, n)
    ensures Uploaded(file, chunk, n, parts)
       <==> SlotsFilled(parts, n, |file|, chunk) && AllPresent(parts, n) && JoinParts(parts, n) == file
  {
    if Uploaded(file, chunk, n, parts) {
      UploadedFills(file, chunk, n, parts);
      UploadedJoins(file, chunk, n, parts);
    } else if SlotsFilled(parts, n, |file|, chunk) && AllPresent(parts, n) && JoinParts(parts, n) == file {
      forall i | 0 <= i < n
        ensures parts[i] == Slice(file, chunk, i)
      {
        PartIsSlice(file, chunk, n, parts, i);
      }
    }
  }

  lemma PartIsSlice(file: seq<Byte>, chunk: nat, n: nat, parts: Parts, i: nat)
    requires Geometry(|file|, chunk, n) && i < n
    requires SlotsFilled(parts, n, |file|, chunk) && AllPresent(parts, n) && JoinParts(parts, n) == file
    ensures parts[i] == Slice(file, chunk, i)
  {
    SliceFillsSlot(file, chunk, n, i);
    forall r | 0 <= r < |parts[i]|
      ensures parts[i][r] == Slice(file, chunk, i)[r]
    {
      JoinByte(parts, n, |file|, chunk, n, i, r);
    }
  }

  // ---- Checksums ---------------------------------------------------------------------------------------

  lemma HexDigitIsLower(x: Word)
    ensures IsHexDigit(HexDigit(x)) && LowerChar(HexDigit(x)) == HexDigit(x)
  {
  }

  lemma HexWordIsLower(x: Word)
    ensures |HexWord(x)| == 8 && AllHex(HexWord(x)) && forall k :: 0 <= k < 8 ==> LowerChar(HexWord(x)[k]) == HexWord(x)[k]
  {
    hide HexDigit, IsHexDigit, LowerChar;
    HexDigitIsLower(x >> 28);
    HexDigitIsLower((x >> 24) & 15);
    HexDigitIsLower((x >> 20) & 15);
    HexDigitIsLower((x >> 16) & 15);
    HexDigitIsLower((x >> 12) & 15);
    HexDigitIsLower((x >> 8) & 15);
    HexDigitIsLower((x >> 4) & 15);
    HexDigitIsLower(x & 15);
  }

  predicate LowerHex(s: string) { AllHex(s) && forall k :: 0 <= k < |s| ==> LowerChar(s[k]) == s[k] }

  lemma AppendWord(s: string, x: Word)
    requires LowerHex(s)
    ensures |s + HexWord(x)| == |s| + 8 && LowerHex(s + HexWord(x))
  {
    hide HexWord;
    HexWordIsLower(x);
  }

  lemma LowerHexIsDigest(s: string)
    requires |s| == 64 && LowerHex(s)
    ensures Digest64(s)
  {
  }

  /** A digest as the client prints it is in the server's own form. */
  lemma ClientDigestIsNormal(v: Sha256Spec.Hash)
    ensures Digest64(Sha256Spec.HexHash(v))
  {
    hide HexWord, Digest64;
    var text := "";
    AppendWord(text, v.a);
    text := HexWord(v.a);
    assert "" + text == text;
    AppendWord(text, v.b);
    text := text + HexWord(v.b);
    AppendWord(text, v.c);
    text := text + HexWord(v.c);
    AppendWord(text, v.d);
    text := text + HexWord(v.d);
    AppendWord(text, v.e);
    text := text + HexWord(v.e);
    AppendWord(text, v.f);
    text := text + HexWord(v.f);
    AppendWord(text, v.g);
    text := text + HexWord(v.g);
    AppendWord(text, v.h);
    LowerHexIsDigest(text + HexWord(v.h));
  }

  /** The server's hash is SHA-256, printed in lower-case hex. */
  ghost predicate IsSha256(sha: seq<Byte> -> string) {
    forall m: seq<Byte> :: 8 * |m| < Sha256Spec.TWO64 ==> sha(m) == Sha256Spec.HexHash(Sha256Spec.Digest(m))
  }

  // ---- The round trip ----------------------------------------------------------------------------------

  lemma {:induction false} SlicesAddUp(file: seq<Byte>, chunk: nat, n: nat, parts: Parts)
    requires Uploaded(file, chunk, n, parts)
    ensures AllPresent(parts, n) && |JoinParts(parts, n)| <= n * chunk
  {
    if n > 0 {
      SlicesAddUp(file, chunk, n - 1, parts);
      assert n * chunk == (n - 1) * chunk + chunk;
      assert parts[n - 1] == Slice(file, chunk, n - 1);
    }
  }

  /** With fewer chunks than the file needs, what the browser sends can never pass verification. */
  lemma TooFewChunksNeverVerify(file: seq<Byte>, chunk: nat, n: nat, parts: Parts)
    requires Uploaded(file, chunk, n, parts) && n * chunk < |file|
    ensures BytesOnDisk(parts, n) < |file|
  {
    SlicesAddUp(file, chunk, n, parts);
    BytesOnDiskAreJoined(parts, n);
  }

  /**
   A browser uploads a non-empty file with its checksum. If the chunk count is an int, the slices it sends, in any order,
   verify as complete and merge back to the file by either engine, and the merge's digest is the checksum the browser
   sent, already normal. If it is not, the count saturates and verification finds bytes missing.
   */
  method UploadAndMerge(file: seq<Byte>, chunk: nat, parallel: bool, degree: nat, sha: seq<Byte> -> string)
    returns (checksum: string, missing: multiset<nat>, bytesOnDisk: nat, r: Option<Outcome>)
    requires 0 < |file| < TWO53 && chunk > 0 && degree > 0 && IsSha256(sha)
    ensures missing == multiset{} && (bytesOnDisk == |file| <==> |file| <= MAX_INT * chunk)
    ensures r == if |file| <= MAX_INT * chunk then Some(Success(Merged(file, checksum))) else None
    ensures NormalizeChecksum(Some(checksum)) == Success(Some(checksum))
  {
    hide Sha256Spec.Digest, Sha256Spec.HexHash, NormalizeChecksum, IntCount, TotalChunks, Slice;
    checksum := Sha256.HashFile(file);
    ClientDigestIsNormal(Sha256Spec.Digest(file));
    DigestNormalizesToItself(checksum);
    var n := IntCount(|file|, chunk);
    CountBelowTwo53(|file|, chunk);
    var parts := SendSlices(file, chunk, n);
    SlicesAddUp(file, chunk, n, parts);
    missing, bytesOnDisk := VerifyChunksParallel(parts, n);
    BytesOnDiskAreJoined(parts, n);
    assert forall i: nat :: missing[i] == 0;
    if |file| <= MAX_INT * chunk {
      UploadedJoins(file, chunk, n, parts);
      UploadedFills(file, chunk, n, parts);
    } else {
      SaturatedCount(|file|, chunk);
      TooFewChunksNeverVerify(file, chunk, n, parts);
    }
    if bytesOnDisk != |file| {
      return checksum, missing, bytesOnDisk, None;
    }
    var merged: Outcome;
    if parallel {
      merged := MergeParallel(parts, n, |file|, chunk, degree, true, sha);
    } else {
      merged := MergeSinglePass(parts, n, |file|, sha);
    }
    r := Some(merged);
  }

  lemma SaturatedCount(total: nat, chunk: nat)
    requires 0 < total < TWO53 && chunk > 0 && total > MAX_INT * chunk
    ensures IntCount(total, chunk) == MAX_INT
  {
    hide IntCount, TotalChunks;
    CountBelowTwo53(total, chunk);
    TotalChunksIsTheGeometry(total, chunk, TotalChunks(total, chunk));
    var t := TotalChunks(total, chunk);
    if t <= MAX_INT {
      Monotone(t, MAX_INT, chunk);
    }
  }

  /** The chunk uploads of a run that needs no resume, in any order. */
  method SendSlices(file: seq<Byte>, chunk: nat, n: nat) returns (parts: Parts)
    ensures Uploaded(file, chunk, n, parts)
  {
    hide Indexes;
    parts := map[];
    var queue := Indexes(n);
    while queue != {}
      invariant queue <= Indexes(n)
      invariant forall i :: 0 <= i < n && i !in queue ==> i in parts && parts[i] == Slice(file, chunk, i)
      decreases queue
    {
      var i :| i in queue;
      queue := queue - {i};
      var start := i * chunk;
      var end := if start + chunk < |file| then start + chunk else |file|;
      parts := parts[i := if start <= |file| then file[start..end] else []];
    }
  }
}
