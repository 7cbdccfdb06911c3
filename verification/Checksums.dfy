/**
 UploadService.NormalizeChecksum and the comparison of digests.  Case folding covers the ASCII letters.
 */
module Checksums {
  import opened Base

  /** char.IsWhiteSpace. */
  predicate IsBlank(c: char) {
    var n := c as int;
    || 0x9 <= n <= 0xD || n == 0x20 || n == 0x85 || n == 0xA0 || n == 0x1680 || 0x2000 <= n <= 0x200A
    || n == 0x2028 || n == 0x2029 || n == 0x202F || n == 0x205F || n == 0x3000
  }

  function TrimStart(s: string): string {
    if s == "" then "" else if IsBlank(s[0]) then TrimStart(s[1..]) else s
  }

  function TrimEnd(s: string): string {
    if s == "" then "" else if IsBlank(s[|s| - 1]) then TrimEnd(s[..|s| - 1]) else s
  }

  function Trim(s: string): string { TrimEnd(TrimStart(s)) }

  function LowerChar(c: char): char {
    if 'A' <= c <= 'Z' then c - 'A' + 'a' else c
  }

  function Lower(s: string): (t: string)
    ensures |t| == |s|
    ensures forall k :: 0 <= k < |s| ==> t[k] == LowerChar(s[k])
  {
    if s == "" then "" else [LowerChar(s[0])] + Lower(s[1..])
  }

  predicate IsHexDigit(c: char) { '0' <= c <= '9' || 'a' <= c <= 'f' || 'A' <= c <= 'F' }

  predicate AllHex(s: string) { forall k :: 0 <= k < |s| ==> IsHexDigit(s[k]) }

  /** A SHA-256 digest as the server prints it: 64 lower-case hex digits. */
  predicate Digest64(s: string) { |s| == 64 && AllHex(s) && Lower(s) == s }

  const PREFIX := "sha256:"

  function StripPrefix(s: string): string { if PREFIX <= s then s[|PREFIX|..] else s }

  /** None for a blank checksum, an error for a malformed one. */
  function NormalizeChecksum(raw: Option<string>): Result<Option<string>, string> {
    if raw.None? || Trim(raw.value) == "" then Success(None)
    else
      var s := StripPrefix(Lower(Trim(raw.value)));
      if |s| == 64 && AllHex(s) then Success(Some(s)) else Failure("checksum must be a 64-character hex SHA-256 string")
  }

  predicate EqualsIgnoreCase(s: string, t: string) { Lower(s) == Lower(t) }

  lemma LowerTwice(s: string)
    ensures Lower(Lower(s)) == Lower(s)
  {
  }

  /** A normalized checksum is in the server's own form, and no two forms of one digest survive normalization. */
  lemma NormalizedIsDigest(raw: Option<string>)
    ensures NormalizeChecksum(raw).Success? && NormalizeChecksum(raw).value.Some? ==> Digest64(NormalizeChecksum(raw).value.value)
  {
    if raw.Some? && Trim(raw.value) != "" {
      var low := Lower(Trim(raw.value));
      LowerTwice(Trim(raw.value));
      assert forall k :: 0 <= k < |low| ==> LowerChar(low[k]) == low[k];
      assert Lower(StripPrefix(low)) == StripPrefix(low);
    }
  }

  lemma EndsNotBlank(s: string)
    requires s != "" && !IsBlank(s[0]) && !IsBlank(s[|s| - 1])
    ensures Trim(s) == s
  {
  }

  /** The server's own digests, with or without the prefix, normalize to themselves. */
  lemma DigestNormalizesToItself(s: string)
    requires Digest64(s)
    ensures NormalizeChecksum(Some(s)) == Success(Some(s))
    ensures NormalizeChecksum(Some("sha256:" + s)) == Success(Some(s))
  {
    hide TrimStart, TrimEnd, Trim, Lower;
    EndsNotBlank(s);
    assert IsHexDigit(s[0]) && PREFIX[0] == 's';
    var t := PREFIX + s;
    assert t[|t| - 1] == s[63] && IsHexDigit(s[63]);
    EndsNotBlank(t);
    assert Lower(t) == t;
    assert t[|PREFIX|..] == s;
  }

  // ---- What normalization accepts ----------------------------------------------------------------------

  predicate AllBlank(s: string) { forall k :: 0 <= k < |s| ==> IsBlank(s[k]) }

  /** `raw` is `t` with blanks around it. */
  predicate Padded(raw: string, a: nat, t: string) {
    a + |t| <= |raw| && raw[a..a + |t|] == t && AllBlank(raw[..a]) && AllBlank(raw[a + |t|..])
  }

  /** `t` is the digest `d` in any case, with or without the prefix. */
  predicate Spells(t: string, d: string) {
    EqualsIgnoreCase(t, d) || EqualsIgnoreCase(t, "sha256:" + d)
  }

  lemma {:induction false} TrimStartIs(s: string, a: nat)
    requires a <= |s| && AllBlank(s[..a]) && (a < |s| ==> !IsBlank(s[a]))
    ensures TrimStart(s) == s[a..]
  {
    if a > 0 {
      assert s[..a][0] == s[0];
      assert s[1..][..a - 1] == s[..a][1..];
      TrimStartIs(s[1..], a - 1);
      assert s[1..][a - 1..] == s[a..];
    }
  }

  lemma {:induction false} TrimEndIs(s: string, b: nat)
    requires b <= |s| && AllBlank(s[b..]) && (b > 0 ==> !IsBlank(s[b - 1]))
    ensures TrimEnd(s) == s[..b]
  {
    if b < |s| {
      var t := s[..|s| - 1];
      assert s[b..][|s| - 1 - b] == s[|s| - 1];
      assert t[b..] == s[b..][..|t| - b];
      TrimEndIs(t, b);
      assert t[..b] == s[..b];
    }
  }

  lemma TrimCuts(s: string) returns (a: nat)
    ensures Padded(s, a, Trim(s))
    ensures Trim(s) != "" ==> !IsBlank(Trim(s)[0])
  {
    hide TrimStart, TrimEnd, IsBlank;
    a := 0;
    while a < |s| && IsBlank(s[a])
      invariant a <= |s| && AllBlank(s[..a])
    {
      a := a + 1;
    }
    TrimStartIs(s, a);
    var rest, b := s[a..], |s| - a;
    while b > 0 && IsBlank(rest[b - 1])
      invariant 0 <= b <= |rest| && AllBlank(rest[b..])
    {
      assert rest[b - 1..] == [rest[b - 1]] + rest[b..];
      b := b - 1;
    }
    TrimEndIs(rest, b);
    assert rest[..b] == s[a..a + b] && rest[b..] == s[a + b..];
  }

  lemma TrimOfPadded(raw: string, a: nat, t: string)
    requires Padded(raw, a, t) && t != "" && !IsBlank(t[0]) && !IsBlank(t[|t| - 1])
    ensures Trim(raw) == t
  {
    assert raw[a] == t[0];
    TrimStartIs(raw, a);
    var rest := raw[a..];
    assert rest[|t| - 1] == t[|t| - 1];
    assert rest[|t|..] == raw[a + |t|..];
    TrimEndIs(rest, |t|);
  }

  lemma NoBlankInLower(c: char)
    ensures IsHexDigit(LowerChar(c)) || LowerChar(c) == 's' ==> !IsBlank(c)
  {
  }

  lemma DigestIsLower(d: string)
    requires Digest64(d)
    ensures Lower(d) == d && Lower("sha256:" + d) == "sha256:" + d
    ensures StripPrefix(d) == d && StripPrefix("sha256:" + d) == d
  {
    var p := "sha256:" + d;
    assert p[7..] == d;
    assert LowerChar('s') == 's' && LowerChar('h') == 'h' && LowerChar('a') == 'a';
    forall k | 0 <= k < |p|
      ensures LowerChar(p[k]) == p[k]
    {
      assert k >= 7 ==> p[k] == Lower(d)[k - 7];
    }
    assert IsHexDigit(d[0]) && PREFIX[0] == 's';
  }

  lemma LowerEnds(t: string)
    requires t != ""
    ensures |Lower(t)| == |t| && Lower(t)[0] == LowerChar(t[0]) && Lower(t)[|t| - 1] == LowerChar(t[|t| - 1])
  {
  }

  /** `low` begins with a hex digit or the prefix's letter and ends with a hex digit. */
  lemma SpellingEnds(low: string, d: string)
    requires |d| == 64 && AllHex(d) && (low == d || low == "sha256:" + d)
    ensures low != "" && (IsHexDigit(low[0]) || low[0] == 's') && IsHexDigit(low[|low| - 1])
  {
    assert IsHexDigit(d[0]) && IsHexDigit(d[63]);
    assert low[|low| - 1] == d[63];
  }

  lemma SpellsNoBlankEnds(t: string, d: string)
    requires Digest64(d) && Spells(t, d)
    ensures t != "" && !IsBlank(t[0]) && !IsBlank(t[|t| - 1])
    ensures StripPrefix(Lower(t)) == d
  {
    hide Lower, StripPrefix, LowerChar, IsBlank, IsHexDigit;
    DigestIsLower(d);
    SpellingEnds(Lower(t), d);
    LowerEnds(t);
    NoBlankInLower(t[0]);
    NoBlankInLower(t[|t| - 1]);
  }

  /**
   Normalization gives no checksum exactly for blank text, and the digest `d` exactly for text that spells `d`, in any
   case and with or without the prefix, between blanks; everything else is refused.
   */
  lemma NormalizesExactlyWhen(raw: string, d: string)
    ensures NormalizeChecksum(Some(raw)) == Success(None) <==> AllBlank(raw)
    ensures NormalizeChecksum(Some(raw)) == Success(Some(d)) <==> Digest64(d) && exists a, t :: Padded(raw, a, t) && Spells(t, d)
  {
    hide Trim, Lower;
    var a := TrimCuts(raw);
    var t := Trim(raw);
    if t == "" {
      assert raw == raw[..a] + raw[a..];
    }
    if NormalizeChecksum(Some(raw)) == Success(Some(d)) {
      NormalizedIsDigest(Some(raw));
      DigestIsLower(d);
      assert Lower(t) == d || Lower(t) == "sha256:" + d;
      assert Padded(raw, a, t) && Spells(t, d);
    }
    if Digest64(d) && exists a, t :: Padded(raw, a, t) && Spells(t, d) {
      var i, u :| Padded(raw, i, u) && Spells(u, d);
      SpellsNoBlankEnds(u, d);
      TrimOfPadded(raw, i, u);
    }
  }

  /** Between normalized digests the case-insensitive comparison is equality. */
  lemma DigestsCompareExactly(s: string, t: string)
    requires Digest64(s) && Digest64(t)
    ensures EqualsIgnoreCase(s, t) <==> s == t
  {
  }
}
