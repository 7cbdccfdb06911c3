/**
 The received-chunks hint of an upload session (WebApi/Domain/UploadSession.cs): a set of indexes kept as
 comma-separated text. Parsing may throw, so it returns a Result.
 */
module ReceivedCsv {
  import opened Base
  import opened Checksums

  predicate Int32(n: int) { -0x8000_0000 <= n < 0x8000_0000 }

  // ---- Printing ----------------------------------------------------------------------------------------

  function DigitOf(d: nat): char
    requires d < 10
  {
    "0123456789"[d]
  }

  function Digits(n: nat): string {
    if n < 10 then [DigitOf(n)] else Digits(n / 10) + [DigitOf(n % 10)]
  }

  function Decimal(n: int): string { if n < 0 then "-" + Digits(-n) else Digits(n) }

  lemma Pick<T>(s: set<T>) returns (x: T)
    requires |s| > 0
    ensures x in s
  {
    x :| x in s;
  }

  lemma {:induction false} LeastExists(s: set<int>)
    requires |s| > 0
    ensures exists m :: m in s && forall y :: y in s ==> m <= y
    decreases |s|
  {
    var x := Pick(s);
    var rest := s - {x};
    if |rest| == 0 {
      assert s == {x};
    } else {
      LeastExists(rest);
      var m :| m in rest && forall y :: y in rest ==> m <= y;
      var least := if m < x then m else x;
      assert least in s && forall y :: y in s ==> y == x || y in rest;
    }
  }

  function Least(s: set<int>): (m: int)
    requires s != {}
    ensures m in s && forall y :: y in s ==> m <= y
  {
    LeastExists(s);
    var m :| m in s && forall y :: y in s ==> m <= y;
    m
  }

  /** set.OrderBy(x => x). */
  function Ascending(s: set<int>): seq<int>
    decreases |s|
  {
    if s == {} then [] else [Least(s)] + Ascending(s - {Least(s)})
  }

  /** string.Join(',', parts). */
  function Join(parts: seq<string>): string {
    if parts == [] then ""
    else if |parts| == 1 then parts[0]
    else parts[0] + "," + Join(parts[1..])
  }

  function Decimals(xs: seq<int>): seq<string> { if xs == [] then [] else [Decimal(xs[0])] + Decimals(xs[1..]) }

  function Print(s: set<int>): string { Join(Decimals(Ascending(s))) }

  // ---- Parsing -----------------------------------------------------------------------------------------

  /** Split(',') without options. */
  function Split(s: string): seq<string> {
    if s == "" then [""]
    else if s[0] == ',' then [""] + Split(s[1..])
    else var rest := Split(s[1..]); [[s[0]] + rest[0]] + rest[1..]
  }

  /** TrimEntries, then RemoveEmptyEntries. */
  function Entries(parts: seq<string>): seq<string> {
    if parts == [] then []
    else
      var first := Trim(parts[0]);
      (if first == "" then [] else [first]) + Entries(parts[1..])
  }

  predicate IsDigit(c: char) { '0' <= c <= '9' }

  predicate AllDigits(s: string) { forall i :: 0 <= i < |s| ==> IsDigit(s[i]) }

  function Value(s: string): nat
    requires AllDigits(s)
  {
    if s == "" then 0 else 10 * Value(s[..|s| - 1]) + (s[|s| - 1] as int - '0' as int)
  }

  /** int.Parse of a trimmed text: an optional sign and digits, within 32 bits. */
  function ParseInt(s: string): Option<int> {
    var signed := s != "" && (s[0] == '-' || s[0] == '+');
    var body := if signed then s[1..] else s;
    if body == "" || !AllDigits(body) then None
    else
      var v: int := if signed && s[0] == '-' then -(Value(body) as int) else Value(body);
      if Int32(v) then Some(v) else None
  }

  function ParseAll(entries: seq<string>): Option<set<int>> {
    if entries == [] then Some({})
    else
      match (ParseInt(entries[0]), ParseAll(entries[1..]))
      case (Some(n), Some(rest)) => Some({n} + rest)
      case _ => None
  }

  /** GetReceivedChunks: None stands for the exception of int.Parse. */
  function Parse(text: string): Option<set<int>> {
    if forall i :: 0 <= i < |text| ==> IsBlank(text[i]) then Some({}) else ParseAll(Entries(Split(text)))
  }

  /** MarkChunkReceived: the text after the call, None when parsing throws. */
  function Marked(text: string, index: int): Option<string> {
    match Parse(text)
    case None => None
    case Some(s) => if index in s then Some(text) else Some(Print(s + {index}))
  }

  // ---- Round trips -------------------------------------------------------------------------------------

  lemma DigitValue(d: nat)
    requires d < 10
    ensures IsDigit(DigitOf(d)) && DigitOf(d) as int - '0' as int == d
  {
  }

  /** What Digits prints: digits, at least one, with the value printed. */
  lemma {:induction false} DigitsRoundTrip(n: nat)
    ensures AllDigits(Digits(n)) && Digits(n) != "" && Value(Digits(n)) == n
  {
    hide DigitOf;
    var s := Digits(n);
    DigitValue(n % 10);
    if n < 10 {
      assert s[..0] == "" && s[|s| - 1] == DigitOf(n);
    } else {
      DigitsRoundTrip(n / 10);
      assert s[..|s| - 1] == Digits(n / 10) && s[|s| - 1] == DigitOf(n % 10);
    }
  }

  /** A decimal is not empty and has neither commas nor white space. */
  predicate Plain(s: string) { s != "" && forall i :: 0 <= i < |s| ==> IsDigit(s[i]) || s[i] == '-' }

  lemma DecimalRoundTrip(n: int)
    requires Int32(n)
    ensures Plain(Decimal(n)) && ParseInt(Decimal(n)) == Some(n)
  {
    hide Digits, Value, DigitOf;
    if n < 0 {
      DigitsRoundTrip(-n);
      assert Decimal(n)[0] == '-' && Decimal(n)[1..] == Digits(-n);
    } else {
      DigitsRoundTrip(n);
      assert IsDigit(Digits(n)[0]);
    }
  }

  lemma {:induction false} SplitPlain(s: string)
    requires forall i :: 0 <= i < |s| ==> s[i] != ','
    ensures Split(s) == [s]
  {
    if s != "" {
      SplitPlain(s[1..]);
      assert [s[0]] + s[1..] == s;
    }
  }

  lemma {:induction false} SplitFirst(s: string, rest: string)
    requires forall i :: 0 <= i < |s| ==> s[i] != ','
    ensures Split(s + "," + rest) == [s] + Split(rest)
  {
    if s == "" {
      assert "" + "," + rest == "," + rest;
      assert ("," + rest)[1..] == rest;
    } else {
      SplitFirst(s[1..], rest);
      assert (s + "," + rest)[1..] == s[1..] + "," + rest;
      assert [s[0]] + s[1..] == s;
    }
  }

  lemma {:induction false} SplitJoin(parts: seq<string>)
    requires parts != [] && forall k :: 0 <= k < |parts| ==> Plain(parts[k])
    ensures Split(Join(parts)) == parts
  {
    if |parts| == 1 {
      SplitPlain(parts[0]);
    } else {
      SplitFirst(parts[0], Join(parts[1..]));
      SplitJoin(parts[1..]);
    }
  }

  lemma {:induction false} PlainEntries(parts: seq<string>)
    requires forall k :: 0 <= k < |parts| ==> Plain(parts[k])
    ensures Entries(parts) == parts
  {
    if parts != [] {
      assert parts[0][0] == parts[0][0];
      PlainEntries(parts[1..]);
    }
  }

  lemma {:induction false} ParseDecimals(xs: seq<int>)
    requires forall k :: 0 <= k < |xs| ==> Int32(xs[k])
    ensures |Decimals(xs)| == |xs| && forall k :: 0 <= k < |xs| ==> Plain(Decimals(xs)[k])
    ensures ParseAll(Decimals(xs)) == Some(set x | x in xs)
  {
    hide Decimal, ParseInt, Plain;
    if xs == [] {
      assert (set x | x in xs) == {};
    } else {
      DecimalRoundTrip(xs[0]);
      ParseDecimals(xs[1..]);
      assert Decimals(xs)[1..] == Decimals(xs[1..]);
      assert (set x | x in xs) == {xs[0]} + (set x | x in xs[1..]);
    }
  }

  // ---- Ascending order ---------------------------------------------------------------------------------

  predicate StrictlyAscending(xs: seq<int>) { forall i, j :: 0 <= i < j < |xs| ==> xs[i] < xs[j] }

  lemma PrependAscends(x: int, xs: seq<int>)
    requires StrictlyAscending(xs) && forall y :: y in xs ==> x < y
    ensures StrictlyAscending([x] + xs)
  {
    var ys := [x] + xs;
    forall i, j | 0 <= i < j < |ys|
      ensures ys[i] < ys[j]
    {
      assert ys[j] == xs[j - 1] && ys[j] in xs;
    }
  }

  lemma {:induction false} AscendingIsSorted(s: set<int>)
    ensures StrictlyAscending(Ascending(s)) && forall x :: x in Ascending(s) <==> x in s
    decreases |s|
  {
    if s != {} {
      var rest := s - {Least(s)};
      AscendingIsSorted(rest);
      PrependAscends(Least(s), Ascending(rest));
    }
  }

  /** There is only one strictly ascending sequence of a set's elements. */
  lemma {:induction false} OneAscendingOrder(xs: seq<int>, ys: seq<int>)
    requires StrictlyAscending(xs) && StrictlyAscending(ys) && forall x :: x in xs <==> x in ys
    ensures xs == ys
  {
    if xs == [] {
      assert forall k :: 0 <= k < |ys| ==> ys[k] in xs;
    } else {
      assert xs[0] in ys && xs[0] in xs;
      assert ys[0] in xs;
      assert xs[0] == ys[0];
      forall x
        ensures x in xs[1..] <==> x in ys[1..]
      {
        assert x in xs[1..] <==> x in xs && x != xs[0];
        assert x in ys[1..] <==> x in ys && x != ys[0];
      }
      OneAscendingOrder(xs[1..], ys[1..]);
    }
  }

  // ---- What the text says ------------------------------------------------------------------------------

  /** Printing and parsing are inverse. */
  lemma PrintParse(s: set<int>)
    requires forall x :: x in s ==> Int32(x)
    ensures Parse(Print(s)) == Some(s)
  {
    hide Split, Entries, ParseAll, Plain, IsBlank;
    var xs := Ascending(s);
    AscendingIsSorted(s);
    if s == {} {
      assert Decimals(xs) == [];
    } else {
      forall k | 0 <= k < |xs|
        ensures Int32(xs[k])
      {
        assert xs[k] in xs;
      }
      ParseDecimals(xs);
      SplitJoin(Decimals(xs));
      PlainEntries(Decimals(xs));
      assert (set x | x in xs) == s;
      NotBlank(Decimals(xs));
    }
  }

  lemma NotBlank(parts: seq<string>)
    requires parts != [] && Plain(parts[0])
    ensures exists i :: 0 <= i < |Join(parts)| && !IsBlank(Join(parts)[i])
  {
    assert Join(parts)[0] == parts[0][0];
    assert !IsBlank(Join(parts)[0]);
  }

  lemma {:induction false} ParsedIsInt32(entries: seq<string>)
    ensures ParseAll(entries).Some? ==> forall x :: x in ParseAll(entries).value ==> Int32(x)
  {
    if entries != [] {
      ParsedIsInt32(entries[1..]);
    }
  }

  /** Marking adds exactly one index to what any readable text says. */
  lemma MarkAddsTheIndex(text: string, index: int)
    requires Parse(text).Some? && Int32(index)
    ensures Marked(text, index).Some? && Parse(Marked(text, index).value) == Some(Parse(text).value + {index})
  {
    var s := Parse(text).value;
    ParsedIsInt32(Entries(Split(text)));
    if index in s {
      assert s + {index} == s;
    } else {
      PrintParse(s + {index});
    }
  }

  function MarkedAll(indexes: seq<int>): Option<string> {
    if indexes == [] then Some("")
    else
      match MarkedAll(indexes[..|indexes| - 1])
      case None => None
      case Some(text) => Marked(text, indexes[|indexes| - 1])
  }

  /**
   After any calls from the empty text, the text is the print of the set of marked indexes; so it parses back to
   exactly that set.
   */
  lemma {:induction false} MarksArePrinted(indexes: seq<int>)
    requires forall k :: 0 <= k < |indexes| ==> Int32(indexes[k])
    ensures MarkedAll(indexes) == Some(Print(set x | x in indexes))
    ensures Parse(Print(set x | x in indexes)) == Some(set x | x in indexes)
  {
    hide Parse, Print;
    var s := set x | x in indexes;
    PrintParse(s);
    if indexes == [] {
      assert s == {};
      PrintNothing();
    } else {
      var before, last := indexes[..|indexes| - 1], indexes[|indexes| - 1];
      MarksArePrinted(before);
      assert indexes == before + [last];
      assert s == (set x | x in before) + {last};
      if last in before {
        assert s == set x | x in before;
      }
    }
  }

  lemma PrintNothing()
    ensures Print({}) == ""
  {
    assert Decimals([]) == [];
  }

  /** The text is the strictly ascending join of the marked indexes, whatever the order and repetition of the calls. */
  lemma TextIsTheAscendingJoin(indexes: seq<int>, sorted: seq<int>)
    requires forall k :: 0 <= k < |indexes| ==> Int32(indexes[k])
    requires StrictlyAscending(sorted) && forall x :: x in sorted <==> x in indexes
    ensures MarkedAll(indexes) == Some(Join(Decimals(sorted)))
  {
    var s := set x | x in indexes;
    MarksArePrinted(indexes);
    AscendingIsSorted(s);
    OneAscendingOrder(sorted, Ascending(s));
  }

  lemma TwoDecimals()
    ensures Decimals([2, 10]) == ["2", "10"]
  {
    assert Digits(2) == "2" && Digits(1) == "1";
    assert Digits(10) == Digits(1) + [DigitOf(0)] == "10";
    assert [2, 10][1..] == [10];
    assert Decimals([10]) == ["10"];
  }

  lemma TwoJoined()
    ensures Join(["2", "10"]) == "2,10"
  {
    assert ["2", "10"][1..] == ["10"];
  }

  /** Numeric order, no repetition, no blanks: chunk 10 before chunk 2 and once more leaves "2,10". */
  lemma TenAndTwo()
    ensures MarkedAll([10, 2, 10]) == Some("2,10")
  {
    hide MarkedAll, Join, Decimals;
    TwoDecimals();
    TwoJoined();
    TextIsTheAscendingJoin([10, 2, 10], [2, 10]);
  }

  class ReceivedHint {
    var receivedChunksCsv: string

    constructor ()
      ensures receivedChunksCsv == ""
    {
      receivedChunksCsv := "";
    }

    /** `ok` is false where the source throws. */
    method MarkChunkReceived(index: int) returns (ok: bool)
      requires Int32(index)
      modifies this
      ensures ok == Parse(old(receivedChunksCsv)).Some?
      ensures !ok ==> receivedChunksCsv == old(receivedChunksCsv)
      ensures ok ==> Marked(old(receivedChunksCsv), index) == Some(receivedChunksCsv)
      ensures ok ==> Parse(receivedChunksCsv) == Some(Parse(old(receivedChunksCsv)).value + {index})
    {
      if Parse(receivedChunksCsv).Some? { MarkAddsTheIndex(receivedChunksCsv, index); }
      var parsed := Parse(receivedChunksCsv);
      ok := parsed.Some?;
      if ok && index !in parsed.value {
        receivedChunksCsv := Print(parsed.value + {index});
      }
    }
  }
}
