/** Text helpers shared by the renderers: decimal rendering of integers (what
    `std::to_string` and `operator<<` on an `int` produce) and the comma-separated
    list format used for parameter types. Each comes with its inverse. */
module Text {
  import opened Wrappers

  predicate IsDigit(c: char) {
    '0' <= c <= '9'
  }

  function DigitChar(d: int): (c: char)
    requires 0 <= d < 10
    ensures IsDigit(c) && c as int - '0' as int == d
  {
    ('0' as int + d) as char
  }

  /** Decimal digits of a natural number, most significant first, no leading zero. */
  function NatToString(n: nat): (s: string)
    ensures |s| > 0
    ensures forall i :: 0 <= i < |s| ==> IsDigit(s[i])
    ensures |s| > 1 ==> s[0] != '0'
  {
    if n < 10 then [DigitChar(n)] else NatToString(n / 10) + [DigitChar(n % 10)]
  }

  /** Decimal rendering of an `int`: a minus sign for negative values. */
  function IntToString(n: int): (s: string)
    ensures |s| > 0
    ensures (s[0] == '-') <==> n < 0
    ensures forall i :: 0 <= i < |s| ==> IsDigit(s[i]) || (i == 0 && s[i] == '-')
  {
    if n < 0 then "-" + NatToString(-n) else NatToString(n)
  }

  function DigitValue(c: char): (d: nat)
    requires IsDigit(c)
    ensures d < 10
  {
    assert '0' as int <= c as int <= '9' as int;
    c as int - '0' as int
  }

  /** The value of a non-empty string of decimal digits. */
  function DigitsValue(s: string): nat
    requires |s| > 0
    requires forall i :: 0 <= i < |s| ==> IsDigit(s[i])
  {
    var d := DigitValue(s[|s| - 1]);
    if |s| == 1 then d else DigitsValue(s[..|s| - 1]) * 10 + d
  }

  /** Reads back an optionally negative decimal numeral; None if `s` is not one. */
  function ParseInt(s: string): Option<int> {
    if |s| > 0 && s[0] == '-' then
      if |s| > 1 && forall i :: 1 <= i < |s| ==> IsDigit(s[i])
      then Some(-(DigitsValue(s[1..]) as int)) else None
    else if |s| > 0 && forall i :: 0 <= i < |s| ==> IsDigit(s[i])
    then Some(DigitsValue(s)) else None
  }

  lemma {:induction false} NatToStringValue(n: nat)
    ensures DigitsValue(NatToString(n)) == n
  {
    if n >= 10 {
      var s := NatToString(n);
      assert s[..|s| - 1] == NatToString(n / 10);
      NatToStringValue(n / 10);
    }
  }

  /** Rendering an integer and reading it back gives the integer. */
  lemma IntToStringRoundTrip(n: int)
    ensures ParseInt(IntToString(n)) == Some(n)
  {
    if n < 0 {
      var s := IntToString(n);
      assert s[1..] == NatToString(-n);
      NatToStringValue(-n);
    } else {
      NatToStringValue(n);
    }
  }

  /** Distinct integers render differently. */
  lemma IntToStringInjective(m: int, n: int)
    requires IntToString(m) == IntToString(n)
    ensures m == n
  {
    IntToStringRoundTrip(m);
    IntToStringRoundTrip(n);
  }

  /** Joins the strings with "," between consecutive elements: no trailing comma,
      and the empty list gives the empty string. */
  function Join(xs: seq<string>): string {
    if |xs| == 0 then "" else if |xs| == 1 then xs[0] else xs[0] + "," + Join(xs[1..])
  }

  lemma {:induction false} JoinSnoc(xs: seq<string>, x: string)
    requires |xs| > 0
    ensures Join(xs + [x]) == Join(xs) + "," + x
  {
    if |xs| > 1 {
      assert (xs + [x])[1..] == xs[1..] + [x];
      JoinSnoc(xs[1..], x);
    }
  }

  /** Joining one more element adds a comma and the element, except after none. */
  lemma JoinExtend(names: seq<string>, i: nat)
    requires i < |names|
    ensures Join(names[..i + 1]) == if i == 0 then names[0] else Join(names[..i]) + "," + names[i]
  {
    if i > 0 {
      assert names[..i + 1] == names[..i] + [names[i]];
      JoinSnoc(names[..i], names[i]);
    } else {
      assert names[..1] == [names[0]];
    }
  }

  /** Index of the first occurrence of `c` in `s`. */
  function IndexOf(s: string, c: char): (r: Option<nat>)
    ensures r.Some? ==> r.value < |s| && s[r.value] == c && c !in s[..r.value]
    ensures r.None? <==> c !in s
  {
    if |s| == 0 then None
    else if s[0] == c then Some(0)
    else match IndexOf(s[1..], c)
      case None => None
      case Some(k) => assert s[..k + 1] == [s[0]] + s[1..][..k]; Some(k + 1)
  }

  /** The comma-separated fields of `s`; the empty string has no fields. */
  function SplitCommas(s: string): seq<string>
    decreases |s|
  {
    if |s| == 0 then [] else
    match IndexOf(s, ',')
    case None => [s]
    case Some(k) => [s[..k]] + (if k + 1 == |s| then [""] else SplitCommas(s[k + 1..]))
  }

  predicate FieldsOk(xs: seq<string>) {
    forall i :: 0 <= i < |xs| ==> |xs[i]| > 0 && ',' !in xs[i]
  }

  /** Splitting a joined list of non-empty, comma-free strings gives the list back. */
  lemma {:induction false} SplitJoin(xs: seq<string>)
    requires FieldsOk(xs)
    ensures SplitCommas(Join(xs)) == xs
  {
    if |xs| == 1 {
      assert ',' !in xs[0];
    } else if |xs| > 1 {
      var s := Join(xs);
      var rest := Join(xs[1..]);
      assert s == xs[0] + "," + rest;
      assert ',' !in xs[0];
      assert s[|xs[0]|] == ',';
      assert s[..|xs[0]|] == xs[0];
      var k := IndexOf(s, ',');
      assert k == Some(|xs[0]|);
      JoinNonEmpty(xs[1..]);
      assert s[|xs[0]| + 1..] == rest;
      SplitJoin(xs[1..]);
    }
  }

  lemma {:induction false} JoinNonEmpty(xs: seq<string>)
    requires FieldsOk(xs) && |xs| > 0
    ensures |Join(xs)| > 0
  {
  }
}
