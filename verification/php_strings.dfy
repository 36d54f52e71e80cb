/**
 * The PHP string conversions the discussion stream relies on: integer
 * interpolation ("{$this->limit}"), implode/explode on a one-character glue,
 * and the readers that undo them.
 */
module PhpStrings {
  import opened Wrappers

  predicate IsDigit(c: char) { '0' <= c <= '9' }

  function DigitChar(d: nat): (c: char)
    requires d < 10
    ensures IsDigit(c) && DigitValue(c) == d
  {
    (('0' as int) + d) as char
  }

  function DigitValue(c: char): nat
    requires IsDigit(c)
  {
    c as int - '0' as int
  }

  /** Decimal form of a natural number, most significant digit first. */
  function NatToString(n: nat): (s: string)
    ensures |s| > 0
    ensures forall k :: 0 <= k < |s| ==> IsDigit(s[k])
    ensures n == 0 ==> s == "0"
    ensures n > 0 ==> s[0] != '0'
  {
    if n < 10 then [DigitChar(n)] else NatToString(n / 10) + [DigitChar(n % 10)]
  }

  /** What PHP produces when an int is interpolated into a string. */
  function IntToString(i: int): (s: string)
    ensures |s| > 0
    ensures forall k :: 0 <= k < |s| ==> IsDigit(s[k]) || (k == 0 && s[k] == '-')
    ensures i == 0 ==> s == "0"
    ensures i >= 0 && |s| > 1 ==> s[0] != '0'
    ensures i < 0 ==> |s| > 1 && s[0] == '-' && s[1] != '0'
  {
    if i < 0 then "-" + NatToString(-i) else NatToString(i)
  }

  /** Value of a string of digits; the empty string reads as 0. */
  function DigitsValue(s: string): nat
    requires forall k :: 0 <= k < |s| ==> IsDigit(s[k])
  {
    if s == [] then 0 else DigitsValue(s[..|s| - 1]) * 10 + DigitValue(s[|s| - 1])
  }

  /** Reads a non-empty run of decimal digits. */
  function ParseNat(s: string): Option<nat>
  {
    if s != [] && forall k :: 0 <= k < |s| ==> IsDigit(s[k]) then Some(DigitsValue(s)) else None
  }

  /** Reads an optional minus sign followed by decimal digits, as a server reads a query value. */
  function ParseInt(s: string): Option<int>
  {
    if |s| > 0 && s[0] == '-' then
      match ParseNat(s[1..])
      case Some(n) => Some(-(n as int))
      case None => None
    else
      match ParseNat(s)
      case Some(n) => Some(n)
      case None => None
  }

  lemma {:induction false} NatRoundTrip(n: nat)
    ensures ParseNat(NatToString(n)) == Some(n)
  {
    var s := NatToString(n);
    if n >= 10 {
      NatRoundTrip(n / 10);
      assert s[..|s| - 1] == NatToString(n / 10);
      assert DigitsValue(s) == (n / 10) * 10 + n % 10;
    }
  }

  /** Reading back an interpolated integer gives the integer. */
  lemma IntRoundTrip(i: int)
    ensures ParseInt(IntToString(i)) == Some(i)
  {
    if i < 0 {
      NatRoundTrip(-i);
      assert IntToString(i)[1..] == NatToString(-i);
    } else {
      NatRoundTrip(i);
    }
  }

  /** PHP's implode(glue, pieces) for a one-character glue. */
  function Implode(glue: char, pieces: seq<string>): (s: string)
    ensures pieces != [] && pieces[0] != "" ==> s != ""
  {
    if pieces == [] then ""
    else if |pieces| == 1 then pieces[0]
    else pieces[0] + [glue] + Implode(glue, pieces[1..])
  }

  /** PHP's explode(sep, s) for a one-character separator: never empty, [""] for "". */
  function Explode(sep: char, s: string): (pieces: seq<string>)
    ensures |pieces| > 0
  {
    if s == [] then [""]
    else
      var rest := Explode(sep, s[1..]);
      if s[0] == sep then [""] + rest else [[s[0]] + rest[0]] + rest[1..]
  }

  /** A character that occurs in no piece and is not the glue occurs nowhere in the result. */
  lemma {:induction false} ImplodeAvoids(glue: char, pieces: seq<string>, c: char)
    requires c != glue
    requires forall k :: 0 <= k < |pieces| ==> c !in pieces[k]
    ensures c !in Implode(glue, pieces)
  {
    if |pieces| > 1 {
      ImplodeAvoids(glue, pieces[1..], c);
    }
  }

  lemma {:induction false} ExplodeWhole(sep: char, x: string)
    requires sep !in x
    ensures Explode(sep, x) == [x]
  {
    if x != [] {
      ExplodeWhole(sep, x[1..]);
      assert [x[0]] + x[1..] == x;
    }
  }

  lemma {:induction false} ExplodeFirst(sep: char, x: string, y: string)
    requires sep !in x
    ensures Explode(sep, x + [sep] + y) == [x] + Explode(sep, y)
  {
    var s := x + [sep] + y;
    if x == [] {
      assert s[1..] == y;
    } else {
      assert s[1..] == x[1..] + [sep] + y;
      ExplodeFirst(sep, x[1..], y);
      assert [x[0]] + x[1..] == x;
    }
  }

  /** explode undoes implode when no piece contains the glue. */
  lemma {:induction false} ImplodeRoundTrip(glue: char, pieces: seq<string>)
    requires pieces != []
    requires forall k :: 0 <= k < |pieces| ==> glue !in pieces[k]
    ensures Explode(glue, Implode(glue, pieces)) == pieces
  {
    if |pieces| == 1 {
      ExplodeWhole(glue, pieces[0]);
    } else {
      ExplodeFirst(glue, pieces[0], Implode(glue, pieces[1..]));
      ImplodeRoundTrip(glue, pieces[1..]);
    }
  }
}
