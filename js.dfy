/**
 * The JavaScript primitives the pages rely on: `String.prototype.slice` with
 * negative positions, `String(n)` and `Number(s)` for integers, and the
 * truthiness of a `string | null`. Numbers are exact integers here, not
 * IEEE doubles, and strings are counted in characters, not UTF-16 code units.
 */
module Js {
  import opened Types

  /** A JavaScript number as the pages hold one: an integer or NaN. */
  datatype Number = Finite(n: int) | NaN

  function Min(a: int, b: int): int { if a < b then a else b }

  function Max(a: int, b: int): int { if a < b then b else a }

  /**
   * The index a position argument of `slice` resolves to: a negative position
   * counts back from the end, and the index is clamped to 0..len.
   */
  function RelativeIndex(pos: int, len: nat): (k: nat)
    ensures k <= len
  {
    if pos < 0 then Max(len + pos, 0) else Min(pos, len)
  }

  /**
   * `s.slice(start, end)`: the characters from the resolved start up to the
   * resolved end, none when the start is not before the end.
   */
  function Slice(s: string, start: int, end: int): (r: string)
    ensures |r| == Max(0, RelativeIndex(end, |s|) - RelativeIndex(start, |s|))
    ensures forall i :: 0 <= i < |r| ==> r[i] == s[RelativeIndex(start, |s|) + i]
    ensures 0 <= start <= end ==> r == s[Min(start, |s|)..Min(end, |s|)]
  {
    var from, to := RelativeIndex(start, |s|), RelativeIndex(end, |s|);
    if from < to then s[from..to] else []
  }

  /**
   * `s.slice(start)`: the end defaults to the length, so a non-negative start
   * drops that many characters and a negative one keeps that many at the end.
   */
  function SliceFrom(s: string, start: int): (r: string)
    ensures start >= 0 ==> r == s[Min(start, |s|)..]
    ensures start < 0 ==> r == s[Max(0, |s| + start)..]
  {
    Slice(s, start, |s|)
  }

  predicate IsDigit(c: char) { '0' <= c <= '9' }

  predicate AllDigits(s: string) { forall i :: 0 <= i < |s| ==> IsDigit(s[i]) }

  function DigitChar(d: nat): (c: char)
    requires d < 10
    ensures IsDigit(c)
  {
    ('0' as int + d) as char
  }

  function DigitValue(c: char): (d: nat)
    requires IsDigit(c)
    ensures d < 10
  {
    c as int - '0' as int
  }

  /** The decimal digits of `n`, most significant first and without leading zeros. */
  function DecimalDigits(n: nat): (r: string)
    ensures |r| >= 1 && AllDigits(r)
    ensures r[0] == '0' ==> n == 0
    decreases n
  {
    if n < 10 then [DigitChar(n)] else DecimalDigits(n / 10) + [DigitChar(n % 10)]
  }

  /** The value of a run of decimal digits, read most significant first. */
  function DigitsValue(s: string): nat
    requires AllDigits(s)
  {
    if s == [] then 0 else DigitsValue(s[..|s| - 1]) * 10 + DigitValue(s[|s| - 1])
  }

  /** Reading back the digits of `n` gives `n`. */
  lemma {:induction false} DigitsValueOfDecimal(n: nat)
    ensures DigitsValue(DecimalDigits(n)) == n
    decreases n
  {
    var r := DecimalDigits(n);
    if n >= 10 {
      DigitsValueOfDecimal(n / 10);
      assert r[..|r| - 1] == DecimalDigits(n / 10);
    }
  }

  /** `String(n)` for an integer `n`: a minus sign exactly when `n` is negative, then the digits of its magnitude. */
  function DecimalText(n: int): (r: string)
    ensures |r| >= 1
    ensures r[0] == '-' <==> n < 0
    ensures n < 0 ==> r[1..] == DecimalDigits(-n)
    ensures n >= 0 ==> r == DecimalDigits(n)
  {
    if n < 0 then
      var r := ['-'] + DecimalDigits(-n);
      assert r[1..] == DecimalDigits(-n);
      r
    else DecimalDigits(n)
  }

  /** The length of the run of decimal digits at the start of `s`. */
  function DigitRun(s: string): (k: nat)
    ensures k <= |s| && AllDigits(s[..k])
    ensures k < |s| ==> !IsDigit(s[k])
  {
    if s != [] && IsDigit(s[0]) then
      var k := 1 + DigitRun(s[1..]);
      assert s[..k] == [s[0]] + s[1..][..k - 1];
      k
    else 0
  }

  /** A digit run ends exactly where a non-digit (or the end of the text) follows it. */
  lemma {:induction false} DigitRunAppend(ds: string, rest: string)
    requires AllDigits(ds)
    requires rest == [] || !IsDigit(rest[0])
    ensures DigitRun(ds + rest) == |ds|
  {
    if ds != [] {
      assert (ds + rest)[1..] == ds[1..] + rest;
      DigitRunAppend(ds[1..], rest);
    }
  }

  /**
   * `Number(s)` for the strings a form can send: the empty string is 0, an
   * optionally signed run of decimal digits is its value, anything else NaN.
   */
  function ToNumber(s: string): (r: Number)
    ensures r.NaN? <==> s != [] && !AllDigits(s) && !((s[0] == '-' || s[0] == '+') && |s| > 1 && AllDigits(s[1..]))
    ensures AllDigits(s) ==> r == Finite(DigitsValue(s))
    ensures |s| > 1 && (s[0] == '-' || s[0] == '+') && AllDigits(s[1..]) ==>
      r == Finite(if s[0] == '-' then -(DigitsValue(s[1..]) as int) else DigitsValue(s[1..]))
  {
    if s == [] then Finite(0)
    else if (s[0] == '-' || s[0] == '+') && |s| > 1 && AllDigits(s[1..]) then
      Finite(if s[0] == '-' then -(DigitsValue(s[1..]) as int) else DigitsValue(s[1..]))
    else if AllDigits(s) then Finite(DigitsValue(s))
    else NaN
  }

  /** `Number(String(n)) === n` for every integer `n`. */
  lemma ToNumberOfDecimalText(n: int)
    ensures ToNumber(DecimalText(n)) == Finite(n)
  {
    if n < 0 {
      DigitsValueOfDecimal(-n);
    } else {
      DigitsValueOfDecimal(n);
    }
  }

  /** JavaScript truthiness of a `string | null`: null and the empty string are falsy. */
  predicate Truthy(s: Option<string>) { s.Some? && s.value != [] }
}
