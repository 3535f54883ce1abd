/**
 * The untyped JavaScript values that node payloads and records carry, with the
 * three conversions the code relies on: `??` (nullish), `||` (truthiness) and
 * `String(v)` / template-literal interpolation. Numbers are integers here.
 */
module Values {

  datatype Value =
    | VUndefined
    | VNull
    | VBool(b: bool)
    | VNum(n: int)
    | VNaN
    | VStr(s: string)

  /** A plain object used as a payload: field name to value. */
  type Data = map<string, Value>

  /** `d.f`: a missing field reads as `undefined`. */
  function Get(d: Data, f: string): Value
  {
    if f in d then d[f] else VUndefined
  }

  predicate Nullish(v: Value)
  {
    v.VUndefined? || v.VNull?
  }

  /** `a ?? b` */
  function Coalesce(a: Value, b: Value): (r: Value)
  {
    if Nullish(a) then b else a
  }

  /** JavaScript truthiness: `undefined`, `null`, `false`, `0`, `NaN` and `""` are falsy. */
  predicate Truthy(v: Value)
  {
    match v
    case VUndefined => false
    case VNull => false
    case VBool(b) => b
    case VNum(n) => n != 0
    case VNaN => false
    case VStr(s) => s != ""
  }

  /** `a || b` */
  function Or(a: Value, b: Value): (r: Value)
  {
    if Truthy(a) then a else b
  }

  predicate IsDigit(c: char)
  {
    '0' <= c <= '9'
  }

  predicate AllDigits(s: string)
  {
    forall i :: 0 <= i < |s| ==> IsDigit(s[i])
  }

  function DigitChar(d: nat): char
    requires d < 10
  {
    "0123456789"[d]
  }

  function DigitValue(c: char): nat
    requires IsDigit(c)
  {
    (c as int - '0' as int) as nat
  }

  /** The decimal digits of `n`, most significant first, without leading zeros. */
  function NatToString(n: nat): (r: string)
    ensures |r| >= 1 && AllDigits(r)
  {
    if n < 10 then [DigitChar(n)] else NatToString(n / 10) + [DigitChar(n % 10)]
  }

  /** `String(n)` for an integer `n`. */
  function IntToString(n: int): (r: string)
  {
    if n < 0 then "-" + NatToString(-n) else NatToString(n)
  }

  /** The value of a string of decimal digits. */
  function DigitsValue(s: string): nat
    requires AllDigits(s)
  {
    if |s| == 0 then 0 else 10 * DigitsValue(s[..|s| - 1]) + DigitValue(s[|s| - 1])
  }

  /**
   * `Number(s)` on the forms the keys produce: the empty string is 0, an optional
   * sign followed by at least one decimal digit is that integer, anything else is NaN.
   */
  function NumberOf(s: string): (r: Value)
    ensures r.VNum? || r.VNaN?
  {
    if s == "" then VNum(0)
    else if s[0] == '-' && |s| > 1 && AllDigits(s[1..]) then VNum(0 - DigitsValue(s[1..]))
    else if s[0] == '+' && |s| > 1 && AllDigits(s[1..]) then VNum(DigitsValue(s[1..]))
    else if AllDigits(s) then VNum(DigitsValue(s))
    else VNaN
  }

  /** `Number(v)` for a destructured key part: a missing part (`undefined`) is NaN. */
  function ToNumber(v: Value): (r: Value)
  {
    match v
    case VStr(s) => NumberOf(s)
    case VNum(n) => VNum(n)
    case VBool(b) => VNum(if b then 1 else 0)
    case VNull => VNum(0)
    case VUndefined => VNaN
    case VNaN => VNaN
  }

  /** `String(v)`, as a template literal interpolates it. */
  function ToStr(v: Value): string
  {
    match v
    case VUndefined => "undefined"
    case VNull => "null"
    case VBool(b) => if b then "true" else "false"
    case VNum(n) => IntToString(n)
    case VNaN => "NaN"
    case VStr(s) => s
  }

  lemma {:induction false} NatToStringValue(n: nat)
    ensures DigitsValue(NatToString(n)) == n
  {
    if n >= 10 {
      var s := NatToString(n);
      assert s[..|s| - 1] == NatToString(n / 10);
      NatToStringValue(n / 10);
    }
  }

  lemma NumberOfDigits(s: string)
    requires |s| >= 1 && AllDigits(s)
    ensures NumberOf(s) == VNum(DigitsValue(s))
  {
    assert IsDigit(s[0]);
  }

  lemma NumberOfNegative(s: string)
    requires |s| > 1 && s[0] == '-' && AllDigits(s[1..])
    ensures NumberOf(s) == VNum(0 - DigitsValue(s[1..]))
  {
  }

  /** `Number(String(n)) == n`: the id printed into a key parses back to itself. */
  lemma NumberOfIntToString(n: int)
    ensures NumberOf(IntToString(n)) == VNum(n)
  {
    if n < 0 {
      var m: nat := -n;
      var digits := NatToString(m);
      var s := "-" + digits;
      assert s[1..] == digits;
      NumberOfNegative(s);
      NatToStringValue(m);
      assert NumberOf(s) == VNum(0 - m);
      assert IntToString(n) == s;
    } else {
      var digits := NatToString(n);
      NumberOfDigits(digits);
      NatToStringValue(n);
      assert IntToString(n) == digits;
    }
  }

  /** A printed integer is `-` followed by digits, or digits: it never holds a colon. */
  lemma IntToStringNoColon(n: int)
    ensures forall i :: 0 <= i < |IntToString(n)| ==> IntToString(n)[i] != ':'
    ensures |IntToString(n)| >= 1
  {
  }
}
