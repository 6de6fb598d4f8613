/** `parseInt` (decimal) and `Number.parseFloat` as partial parsers from a
    value to a number, with NaN standing for "no number could be read". */
module JsNumbers {
  import opened JsValues
  import opened JsStrings

  predicate IsDigit(c: char)
  {
    '0' <= c <= '9'
  }

  predicate AllDigits(s: string)
  {
    forall i :: 0 <= i < |s| ==> IsDigit(s[i])
  }

  /** Length of the longest prefix of `s` made of decimal digits. */
  function DigitPrefixLen(s: string): (n: nat)
    ensures n <= |s| && AllDigits(s[..n])
    ensures n < |s| ==> !IsDigit(s[n])
  {
    if s != [] && IsDigit(s[0]) then
      var n := 1 + DigitPrefixLen(s[1..]);
      assert s[..n] == [s[0]] + s[1..][..n - 1];
      n
    else 0
  }

  /** The natural number written by a string of decimal digits. */
  function DigitsValue(ds: string): nat
    requires AllDigits(ds)
  {
    if ds == [] then 0 else 10 * DigitsValue(ds[..|ds| - 1]) + (ds[|ds| - 1] as int - '0' as int)
  }

  function Pow10(n: nat): (p: nat)
    ensures p >= 1
  {
    if n == 0 then 1 else 10 * Pow10(n - 1)
  }

  /** `m * 10^e` for a possibly negative exponent. */
  function Scale(m: real, e: int): real
  {
    if e >= 0 then m * Pow10(e) as real else m / Pow10(-e) as real
  }

  /** Truncation toward zero, what `parseInt` does to the decimal rendering
      of a number with a fractional part. */
  function Trunc(r: real): (t: int)
    ensures 0.0 <= r ==> 0 <= t && t as real <= r < t as real + 1.0
    ensures r < 0.0 ==> t <= 0 && t as real - 1.0 < r <= t as real
  {
    if r >= 0.0 then r.Floor else -((-r).Floor)
  }

  /** A NaN or a whole number. */
  predicate IsIntegral(n: Number)
  {
    n.Finite? ==> n.r == n.r.Floor as real
  }

  /** Splits off an optional leading `+` or `-`; the flag says "negative". */
  function SplitSign(s: string): (bool, string)
  {
    if s != [] && (s[0] == '+' || s[0] == '-') then (s[0] == '-', s[1..]) else (false, s)
  }

  /** `parseInt(s)` on a string, radix 10: after leading white space and an
      optional sign, the longest run of decimal digits; NaN if there is none. */
  function ParseIntText(s: string): (r: Number)
    ensures IsIntegral(r)
    ensures r.Finite? <==> var u := SplitSign(TrimStart(s)).1; u != [] && IsDigit(u[0])
  {
    ReadInteger(TrimStart(s))
  }

  /** The digit scan of `ParseIntText`, once leading white space is gone. */
  function ReadInteger(t: string): (r: Number)
    ensures IsIntegral(r)
    ensures r.Finite? <==> var u := SplitSign(t).1; u != [] && IsDigit(u[0])
  {
    var (neg, u) := SplitSign(t);
    var n := DigitPrefixLen(u);
    if n == 0 then NaN
    else
      var v: int := DigitsValue(u[..n]);
      Finite((if neg then -v else v) as real)
  }

  /** Value of an optional exponent part `e[+-]digits` at the front of `s`;
      0 when `s` does not start with a complete one. */
  function ExponentOf(s: string): int
  {
    if |s| >= 2 && (s[0] == 'e' || s[0] == 'E') then
      var (neg, u) := SplitSign(s[1..]);
      var n := DigitPrefixLen(u);
      if n == 0 then 0
      else if neg then -(DigitsValue(u[..n]) as int) else DigitsValue(u[..n])
    else 0
  }

  /** `Number.parseFloat(s)` on a string: after leading white space, the
      longest prefix of the form `[+-] digits [. digits] [exponent]` or
      `[+-] . digits [exponent]`, read exactly; NaN if there is none. */
  function ParseFloatText(s: string): (r: Number)
    ensures r.Finite? <==>
      var u := SplitSign(TrimStart(s)).1;
      u != [] && (IsDigit(u[0]) || (|u| >= 2 && u[0] == '.' && IsDigit(u[1])))
  {
    ReadDecimal(TrimStart(s))
  }

  /** The literal scan of `ParseFloatText`, once leading white space is gone. */
  function ReadDecimal(t: string): (r: Number)
    ensures r.Finite? <==>
      var u := SplitSign(t).1;
      u != [] && (IsDigit(u[0]) || (|u| >= 2 && u[0] == '.' && IsDigit(u[1])))
  {
    var (neg, u) := SplitSign(t);
    var ip := DigitPrefixLen(u);
    var rest := u[ip..];
    var fp := if rest != [] && rest[0] == '.' then DigitPrefixLen(rest[1..]) else 0;
    if ip == 0 && fp == 0 then NaN
    else
      var frac := if fp == 0 then "" else rest[1..][..fp];
      var after := if rest != [] && rest[0] == '.' then rest[1..][fp..] else rest;
      var m := DigitsValue(u[..ip]) as real + DigitsValue(frac) as real / Pow10(|frac|) as real;
      var x := Scale(m, ExponentOf(after));
      Finite(if neg then -x else x)
  }

  /** `parseInt(v)`: the argument is first converted to a string. A number
      renders as its decimal form, so a finite number is truncated toward
      zero; an array renders as its elements joined by `,`, which the digit
      scan stops at, so only its first element matters; `undefined`,
      `null`, booleans, objects and dates render as text without a leading
      digit. */
  function ParseInt(v: Value): (r: Number)
    ensures IsIntegral(r)
    ensures v.Str? ==> r == ParseIntText(v.s)
    ensures v.Num? && v.n.Finite? ==> r == Finite(Trunc(v.n.r) as real)
  {
    match v
    case Str(s) => ParseIntText(s)
    case Num(n) => if n.NaN? then NaN else Finite(Trunc(n.r) as real)
    case Arr(es) => if es == [] then NaN else ParseInt(es[0])
    case _ => NaN
  }

  /** `Number.parseFloat(v)`, with the same string conversion as `ParseInt`;
      a number renders as text that reads back as the same number. Only a
      string, a number or an array can give a finite result: undefined, null,
      a boolean, a plain object and a date all parse to NaN. */
  function ParseFloat(v: Value): (r: Number)
    ensures r.Finite? ==> v.Num? || v.Str? || v.Arr?
    ensures v.Str? ==> r == ParseFloatText(v.s)
    ensures v.Num? ==> r == v.n
  {
    match v
    case Str(s) => ParseFloatText(s)
    case Num(n) => n
    case Arr(es) => if es == [] then NaN else ParseFloat(es[0])
    case _ => NaN
  }

  /** `parseInt` of a whole number (or NaN) is that number: re-parsing
      what `parseInt` produced changes nothing. */
  lemma ParseIntOfWhole(n: Number)
    requires IsIntegral(n)
    ensures ParseInt(Num(n)) == n
  {
    if n.Finite? {
      var k := n.r.Floor;
      assert n.r == k as real;
      if k < 0 {
        assert (-n.r).Floor == -k;
      }
    }
  }

  /** Leading white space has no effect on `TrimStart`. */
  lemma {:induction false} TrimStartSkipsSpace(w: string, s: string)
    requires AllSpace(w)
    ensures TrimStart(w + s) == TrimStart(s)
  {
    if w == [] {
      assert w + s == s;
    } else {
      assert (w + s)[0] == w[0] && (w + s)[1..] == w[1..] + s;
      TrimStartSkipsSpace(w[1..], s);
    }
  }

  /** White space in front of the text never changes what is parsed. */
  lemma LeadingSpaceIgnored(w: string, s: string)
    requires AllSpace(w)
    ensures ParseFloatText(w + s) == ParseFloatText(s)
    ensures ParseIntText(w + s) == ParseIntText(s)
  {
    TrimStartSkipsSpace(w, s);
  }
}
