/**
 * The few JavaScript value semantics the modelled code relies on: truthiness,
 * the `||` and `??` operators, and the decimal rendering and parsing of
 * non-negative integers (`String(n)`, `${n}` and unary `+` on digit text).
 */
module JsValues {

  /**
   * A loosely typed field of a response object: a string, a non-negative
   * number, or `undefined`/`null`.
   */
  datatype Val = Str(s: string) | Num(n: nat) | Nil

  /** JavaScript truthiness: `""`, `0`, `undefined` and `null` are falsy. */
  predicate Truthy(v: Val) {
    match v
    case Str(s) => s != ""
    case Num(n) => n != 0
    case Nil => false
  }

  /** `a || b`: the left operand when it is truthy, otherwise the right one. */
  function Or(a: Val, b: Val): (r: Val)
    ensures Truthy(a) ==> r == a
    ensures !Truthy(a) ==> r == b
  {
    if Truthy(a) then a else b
  }

  /** `a ?? b`: the left operand unless it is `undefined` or `null`. */
  function Coalesce(a: Val, b: Val): (r: Val)
    ensures a != Nil ==> r == a
    ensures a == Nil ==> r == b
  {
    if a.Nil? then b else a
  }

  predicate IsDigit(c: char) {
    '0' <= c <= '9'
  }

  predicate IsDigits(s: string) {
    forall i :: 0 <= i < |s| ==> IsDigit(s[i])
  }

  function DigitChar(d: nat): (c: char)
    requires d < 10
    ensures IsDigit(c) && (c as int) - ('0' as int) == d
  {
    ('0' as int + d) as char
  }

  function DigitValue(c: char): (d: nat)
    requires IsDigit(c)
    ensures d < 10 && DigitChar(d) == c
  {
    (c as int) - ('0' as int)
  }

  /** `String(n)` for a non-negative integer: its decimal digits, no leading zero. */
  function NatToString(n: nat): (s: string)
    ensures |s| >= 1 && IsDigits(s)
    ensures |s| > 1 ==> s[0] != '0'
    ensures n < 10 <==> |s| == 1
    decreases n
  {
    if n < 10 then [DigitChar(n)] else NatToString(n / 10) + [DigitChar(n % 10)]
  }

  /** Unary `+` on a digit string: its decimal value, with `+""` being 0. */
  function ParseDecimal(s: string): nat
    requires IsDigits(s)
  {
    if s == [] then 0 else 10 * ParseDecimal(s[..|s| - 1]) + DigitValue(s[|s| - 1])
  }

  /** Parsing the rendering of a number gives the number back. */
  lemma {:induction false} ParseNatToString(n: nat)
    ensures ParseDecimal(NatToString(n)) == n
    decreases n
  {
    var s := NatToString(n);
    if n >= 10 {
      assert s[..|s| - 1] == NatToString(n / 10);
      ParseNatToString(n / 10);
    }
  }

  /** A leading zero does not change the parsed value. */
  lemma {:induction false} ParseLeadingZero(s: string)
    requires IsDigits(s)
    ensures IsDigits("0" + s) && ParseDecimal("0" + s) == ParseDecimal(s)
    decreases |s|
  {
    if s != [] {
      var t := "0" + s;
      assert t[..|t| - 1] == "0" + s[..|s| - 1];
      ParseLeadingZero(s[..|s| - 1]);
    }
  }

  /** `${v}` of a value. */
  function ToText(v: Val): (t: string)
    ensures v.Str? ==> t == v.s
    ensures v.Num? ==> IsDigits(t) && ParseDecimal(t) == v.n
  {
    match v
    case Str(s) => s
    case Num(n) => ParseNatToString(n); NatToString(n)
    case Nil => "undefined"
  }
}
