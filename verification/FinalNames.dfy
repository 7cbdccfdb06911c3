/** How FileSystemStorage.ResolveFinalPath picks the name of a final object, and why two uploads never share one. */
module FinalNames {

  predicate IsHexChar(c: char) { '0' <= c <= '9' || 'a' <= c <= 'f' }

  /** An upload id as the "N" format prints it: 32 lower-case hex digits. */
  predicate GuidText(id: string) {
    |id| == 32 && forall k :: 0 <= k < 32 ==> IsHexChar(id[k])
  }

  predicate OccursAt(s: string, t: string, k: nat) {
    k + |t| <= |s| && s[k..k + |t|] == t
  }

  ghost predicate Contains(s: string, t: string) {
    exists k: nat :: OccursAt(s, t, k)
  }

  /** The place of the last dot, or the length when there is none. */
  function LastDot(name: string): (k: nat)
    ensures k <= |name|
    ensures k < |name| ==> name[k] == '.'
  {
    LastDotBefore(name, |name|)
  }

  function LastDotBefore(name: string, end: nat): (k: nat)
    requires end <= |name|
    ensures k <= |name|
    ensures k < |name| ==> name[k] == '.'
  {
    if end == 0 then |name| else if name[end - 1] == '.' then end - 1 else LastDotBefore(name, end - 1)
  }

  /** Path.GetFileNameWithoutExtension of a bare name. */
  function Stem(name: string): string { name[..LastDot(name)] }

  /** Path.GetExtension of a bare name: from the last dot on, and empty when that dot is the last character. */
  function Extension(name: string): string {
    if LastDot(name) + 1 >= |name| then "" else name[LastDot(name)..]
  }

  function Suffixed(name: string, id: string): string {
    Stem(name) + "_" + id + Extension(name)
  }

  lemma {:induction false} LastDotIs(name: string, end: nat, k: nat)
    requires k < end <= |name| && name[k] == '.' && forall j :: k < j < end ==> name[j] != '.'
    ensures LastDotBefore(name, end) == k
  {
    if k < end - 1 {
      LastDotIs(name, end - 1, k);
    }
  }

  lemma {:induction false} NoDotIs(name: string, end: nat)
    requires end <= |name| && '.' !in name[..end]
    ensures LastDotBefore(name, end) == |name|
  {
    if end > 0 {
      assert name[..end][end - 1] == name[end - 1];
      assert name[..end - 1] == name[..end][..end - 1];
      NoDotIs(name, end - 1);
    }
  }

  /** The id goes before the last extension; a name without a dot gets it at its end, and a bare last dot is dropped. */
  lemma SuffixGoesBeforeTheExtension(stem: string, ext: string, id: string)
    requires '.' !in ext
    ensures ext != "" ==> Suffixed(stem + "." + ext, id) == stem + "_" + id + "." + ext
    ensures Suffixed(stem + ".", id) == stem + "_" + id
    ensures Suffixed(ext, id) == ext + "_" + id
  {
    var name, bare := stem + "." + ext, stem + ".";
    LastDotIs(name, |name|, |stem|);
    assert name[..|stem|] == stem && name[|stem|..] == "." + ext;
    LastDotIs(bare, |bare|, |stem|);
    assert bare[..|stem|] == stem;
    assert ext[..|ext|] == ext;
    NoDotIs(ext, |ext|);
    assert ext + "_" + id + "" == ext + "_" + id;
    assert stem + "_" + id + "" == stem + "_" + id;
    assert ext != "" ==> Suffixed(name, id) == stem + "_" + id + ("." + ext);
  }

  /** The name a merge writes to, given the names already in the final directory. */
  function ResolveFinal(existing: set<string>, id: string, name: string): string {
    if name in existing then Suffixed(name, id) else name
  }

  lemma SuffixedContainsId(name: string, id: string)
    ensures Contains(Suffixed(name, id), id)
  {
    var s := Suffixed(name, id);
    var k := |Stem(name)| + 1;
    assert s[k..k + |id|] == id;
    assert OccursAt(s, id, k);
  }

  lemma OccursWithin(whole: string, part: string, at: nat, t: string, k: nat)
    requires OccursAt(whole, part, at) && OccursAt(part, t, k)
    ensures OccursAt(whole, t, at + k)
  {
    forall j | 0 <= j < |t|
      ensures whole[at + k + j] == t[j]
    {
      assert whole[at..at + |part|][k + j] == part[k + j];
      assert part[k..k + |t|][j] == t[j];
    }
    assert whole[at + k..at + k + |t|] == t;
  }

  lemma HexWindow(s: string, t: string, k: nat, j: nat)
    requires GuidText(t) && OccursAt(s, t, k) && k <= j < k + 32
    ensures IsHexChar(s[j])
  {
    assert s[j] == t[j - k];
  }

  /** A suffixed name mentions no upload id but its own, as long as the client's name mentions none. */
  lemma SuffixedMentionsOneId(name: string, own: string, other: string)
    requires GuidText(own) && GuidText(other) && !Contains(name, other)
    requires Contains(Suffixed(name, own), other)
    ensures own == other
  {
    var stem, ext, s := Stem(name), Extension(name), Suffixed(name, own);
    var k: nat :| OccursAt(s, other, k);
    var bar := |stem|;
    assert s[bar] == '_';
    if k <= bar < k + 32 {
      HexWindow(s, other, k, bar);
    } else if k + 32 <= bar {
      assert s[k..k + 32] == stem[k..k + 32];
      assert OccursAt(name, stem, 0);
      OccursWithin(name, stem, 0, other, k);
    } else if k == bar + 1 {
      assert s[bar + 1..bar + 33] == own;
    } else {
      var dot := bar + 33;
      assert ext != "" && s[dot] == '.';
      if k <= dot {
        HexWindow(s, other, k, dot);
      } else {
        assert s[k..k + 32] == ext[k - dot..k - dot + 32];
        assert name[LastDot(name)..LastDot(name) + |ext|] == ext;
        OccursWithin(name, ext, LastDot(name), other, k - dot);
      }
    }
  }
}
