/**
 * The few JavaScript values that reach the core through loosely typed payloads
 * (push data, socket events, order attributes), with the coercions the source
 * applies to them: truthiness (`!x`, `if (x)`) and `String(x)` / template literals.
 * Numbers are the safe integers, |n| <= 2^53 - 1: each is a distinct JavaScript number and
 * `String(n)` writes it in plain decimal. Fractional numbers, larger magnitudes (inexact, and
 * written in exponent form from 1e21 on), NaN and the infinities are not modelled.
 */
module JsValues {

  /** `Number.MAX_SAFE_INTEGER` */
  const MAX_SAFE_INTEGER: int := 0x1F_FFFF_FFFF_FFFF

  type SafeInteger = n: int | -MAX_SAFE_INTEGER <= n <= MAX_SAFE_INTEGER

  datatype JsValue = Undefined | Null | Bool(b: bool) | Num(n: SafeInteger) | Str(s: string)

  /** JavaScript truthiness: `undefined`, `null`, `false`, `0` and `""` are falsy. */
  predicate Truthy(v: JsValue) {
    match v
    case Undefined => false
    case Null => false
    case Bool(b) => b
    case Num(n) => n != 0
    case Str(s) => s != ""
  }

  predicate IsDigit(c: char) {
    '0' <= c <= '9'
  }

  predicate AllDigits(s: string) {
    forall i :: 0 <= i < |s| ==> IsDigit(s[i])
  }

  function DigitChar(d: nat): (c: char)
    requires d < 10
    ensures IsDigit(c) && c as int - '0' as int == d
  {
    ('0' as int + d) as char
  }

  /** Decimal digits of a natural number, most significant first, without leading zeros. */
  function NatToString(n: nat): (r: string)
    ensures r != [] && AllDigits(r)
    ensures |r| > 1 ==> r[0] != '0'
    decreases n
  {
    if n < 10 then [DigitChar(n)] else NatToString(n / 10) + [DigitChar(n % 10)]
  }

  /** Decimal text of an integer, with a leading '-' when negative: `String(n)` for a safe integer `n`. */
  function IntToString(n: int): (r: string)
    ensures r != ""
    ensures n >= 0 ==> AllDigits(r)
    ensures n < 0 ==> r[0] == '-' && AllDigits(r[1..])
  {
    if n < 0 then "-" + NatToString(-n) else NatToString(n)
  }

  /** Reads a string of decimal digits back as a number: the left inverse of NatToString. */
  function DecimalValue(s: string): nat
    requires AllDigits(s)
    decreases |s|
  {
    if s == [] then 0
    else DecimalValue(s[..|s| - 1]) * 10 + (s[|s| - 1] as int - '0' as int)
  }

  lemma {:induction false} DecimalRoundTrip(n: nat)
    ensures DecimalValue(NatToString(n)) == n
    decreases n
  {
    if n >= 10 {
      var s := NatToString(n);
      assert s == NatToString(n / 10) + [DigitChar(n % 10)];
      assert s[..|s| - 1] == NatToString(n / 10);
      DecimalRoundTrip(n / 10);
    }
  }

  /** Distinct integers have distinct string forms, so numeric ids never collide as storage keys. */
  lemma IntToStringInjective(a: int, b: int)
    requires IntToString(a) == IntToString(b)
    ensures a == b
  {
    if a < 0 && b < 0 {
      assert NatToString(-a) == IntToString(a)[1..] == NatToString(-b);
      NatToStringInjective(-a, -b);
    } else if a < 0 {
      NegativeSign(b, a);
    } else if b < 0 {
      NegativeSign(a, b);
    } else {
      NatToStringInjective(a, b);
    }
  }

  /** A non-negative number's string has no sign, so it never equals a negative number's string. */
  lemma NegativeSign(a: int, b: int)
    requires a >= 0 && b < 0
    ensures IntToString(a) != IntToString(b)
  {
    assert IsDigit(IntToString(a)[0]);
  }

  lemma NatToStringInjective(a: nat, b: nat)
    requires NatToString(a) == NatToString(b)
    ensures a == b
  {
    DecimalRoundTrip(a);
    DecimalRoundTrip(b);
  }

  /** `String(v)`, as also produced by a template literal `${v}`. */
  function ToJsString(v: JsValue): (r: string)
    ensures r == "" <==> v == Str("")
    ensures v.Str? ==> r == v.s
  {
    match v
    case Undefined => "undefined"
    case Null => "null"
    case Bool(b) => if b then "true" else "false"
    case Num(n) => IntToString(n)
    case Str(s) => s
  }

  /** `s.startsWith(prefix)` */
  predicate StartsWith(s: string, prefix: string) {
    |prefix| <= |s| && s[..|prefix|] == prefix
  }
}
