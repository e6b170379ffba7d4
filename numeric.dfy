/** Python's `float(s)` and `int(s)` on decimal strings, and `int(x)` on
    numbers (truncation toward zero). */
module Numeric {
  import opened Common

  predicate AllDigits(s: string) {
    forall i :: 0 <= i < |s| ==> IsDigit(s[i])
  }

  function DigitValue(c: char): nat
    requires IsDigit(c)
  {
    c as int - '0' as int
  }

  /** The value of a string of decimal digits ("" reads as 0). */
  function DigitsValue(s: string): nat
    requires AllDigits(s)
  {
    if |s| == 0 then 0 else DigitsValue(s[..|s| - 1]) * 10 + DigitValue(s[|s| - 1])
  }

  /** The decimal digits of a natural number, without leading zeros. */
  function ShowNat(n: nat): (s: string)
    ensures |s| >= 1 && AllDigits(s)
  {
    if n < 10 then [('0' as int + n) as char]
    else ShowNat(n / 10) + [('0' as int + n % 10) as char]
  }

  lemma {:induction false} DigitsValueShowNat(n: nat)
    ensures DigitsValue(ShowNat(n)) == n
  {
    var s := ShowNat(n);
    if n >= 10 {
      DigitsValueShowNat(n / 10);
      assert s[..|s| - 1] == ShowNat(n / 10);
    }
  }

  /** The first index of `c` in `s`, or `|s|` when it does not occur. */
  function Find(s: string, c: char): (i: nat)
    ensures i <= |s|
    ensures forall j :: 0 <= j < i ==> s[j] != c
    ensures i < |s| ==> s[i] == c
  {
    if |s| == 0 then 0 else if s[0] == c then 0 else 1 + Find(s[1..], c)
  }

  /** The first occurrence of `c` is where `Find` stops. */
  lemma FindAt(s: string, c: char, k: nat)
    requires k < |s| && s[k] == c
    requires forall j :: 0 <= j < k ==> s[j] != c
    ensures Find(s, c) == k
  {
  }

  /** An unsigned decimal: digits with at most one '.', at least one digit. */
  function ParseUnsigned(s: string): (r: Option<real>)
    ensures r.Some? ==> r.value >= 0.0
  {
    var i := Find(s, '.');
    var whole := s[..i];
    var frac := if i < |s| then s[i + 1..] else "";
    if |s| == 0 || s == "." || !AllDigits(whole) || !AllDigits(frac) then None
    else if frac == "" then Some(DigitsValue(whole) as real)
    else Some(DigitsValue(whole) as real + FractionValue(frac))
  }

  /** The value of the digits after a decimal point. */
  function FractionValue(frac: string): real
    requires AllDigits(frac)
  {
    (DigitsValue(frac) as real) / Pow10(|frac|)
  }

  /** An optionally signed decimal, no surrounding blanks. */
  function ParseSigned(s: string): Option<real> {
    if |s| > 0 && (s[0] == '-' || s[0] == '+') then
      match ParseUnsigned(s[1..])
      case None => None
      case Some(x) => Some(if s[0] == '-' then -x else x)
    else ParseUnsigned(s)
  }

  /** `float(s)` for a string: surrounding whitespace is ignored. */
  function ParseFloat(s: string): Option<real> {
    ParseSigned(Strip(s))
  }

  /** `int(s)` for a string: an optionally signed run of digits. */
  function ParseInt(s: string): (r: Option<int>)
    ensures r.Some? ==> ParseFloat(s) == Some(r.value as real)
  {
    var t := Strip(s);
    var neg := |t| > 0 && t[0] == '-';
    var body := if |t| > 0 && (t[0] == '-' || t[0] == '+') then t[1..] else t;
    if |body| == 0 || !AllDigits(body) then None
    else
      assert Find(body, '.') == |body|;
      assert body[..|body|] == body;
      Some(if neg then -(DigitsValue(body) as int) else DigitsValue(body) as int)
  }

  /** Python `int(x)` of a float: truncation toward zero. */
  function Truncate(x: real): (r: int)
    ensures x >= 0.0 ==> r as real <= x < r as real + 1.0
    ensures x < 0.0 ==> r as real - 1.0 < x <= r as real
  {
    if x >= 0.0 then x.Floor else -((-x).Floor)
  }

  /** `float(v)` of a Python scalar; a bool reads as 0/1, None fails. */
  function ValueToFloat(v: Value): (r: Option<real>)
    ensures IsNumeric(v) ==> r == Some(AsReal(v))
    ensures v.VNone? ==> r.None?
  {
    match v
    case VNone => None
    case VStr(s) => ParseFloat(s)
    case _ => Some(AsReal(v))
  }

  /** A run of digits parses as its value. */
  lemma ParseDigits(s: string)
    requires |s| >= 1 && AllDigits(s)
    ensures ParseUnsigned(s) == Some(DigitsValue(s) as real)
  {
    assert forall k :: 0 <= k < |s| ==> s[k] != '.';
    assert Find(s, '.') == |s|;
    assert s[..|s|] == s;
    assert s != "." by {
      assert s[0] != '.';
    }
  }

  /** Printing a natural number and reading it back gives the number. */
  lemma ParseShowNat(n: nat)
    ensures ParseFloat(ShowNat(n)) == Some(n as real)
  {
    var s := ShowNat(n);
    assert IsDigit(s[0]) && IsDigit(s[|s| - 1]);
    StripKeeps(s);
    ParseDigits(s);
    DigitsValueShowNat(n);
  }

  /** `int(str(n))` is `n`. */
  lemma ParseIntShowNat(n: nat)
    ensures ParseInt(ShowNat(n)) == Some(n as int)
  {
    var s := ShowNat(n);
    StripKeeps(s);
    assert IsDigit(s[0]);
    assert s[0] != '-' && s[0] != '+';
    DigitsValueShowNat(n);
  }
}
