/**
 * The JavaScript values a parsed request body can hold, with the three
 * operations the handler applies to them: truthiness (`!x`), property access
 * (`x.key`) and string conversion (`String(x)`).
 */
module JsValues {

  /** Integers a JavaScript number holds exactly (Number.MAX_SAFE_INTEGER is 2^53 - 1). */
  newtype SafeInteger = n: int | -0x1F_FFFF_FFFF_FFFF <= n <= 0x1F_FFFF_FFFF_FFFF

  datatype JsValue =
    | Undefined
    | Null
    | Bool(b: bool)
    | Num(n: SafeInteger)
    | Str(s: string)
    | Obj(properties: map<string, JsValue>)

  /** ECMAScript ToBoolean: undefined, null, false, 0 and "" are falsy; every object is truthy. */
  predicate IsTruthy(v: JsValue) {
    match v
    case Undefined => false
    case Null => false
    case Bool(b) => b
    case Num(n) => n != 0
    case Str(s) => s != ""
    case Obj(_) => true
  }

  /**
   * `v.key` on a value that is neither undefined nor null (on those two
   * JavaScript throws a TypeError). Booleans, numbers and strings have no own
   * property of the names used here, so only an object can supply one.
   */
  function Get(v: JsValue, key: string): JsValue
    requires !v.Undefined? && !v.Null?
  {
    match v
    case Obj(props) => if key in props then props[key] else Undefined
    case _ => Undefined
  }

  predicate IsDigit(c: char) {
    '0' <= c <= '9'
  }

  function DigitChar(d: nat): (c: char)
    requires d < 10
  {
    "0123456789"[d]
  }

  function DigitValue(c: char): (d: nat)
    requires IsDigit(c)
  {
    (c as int - '0' as int) as nat
  }

  /** The decimal numeral of n: digits only, no leading zero unless n is 0. */
  function DecimalString(n: nat): (s: string)
    ensures |s| > 0
    ensures forall i :: 0 <= i < |s| ==> IsDigit(s[i])
    ensures s[0] == '0' ==> n == 0
  {
    if n < 10 then [DigitChar(n)] else DecimalString(n / 10) + [DigitChar(n % 10)]
  }

  /** Reads a string of decimal digits back as a number (the partner of DecimalString). */
  function ParseDecimal(s: string): nat
    requires forall i :: 0 <= i < |s| ==> IsDigit(s[i])
  {
    if s == [] then 0 else ParseDecimal(s[..|s| - 1]) * 10 + DigitValue(s[|s| - 1])
  }

  lemma {:induction false} DecimalRoundTrip(n: nat)
    ensures ParseDecimal(DecimalString(n)) == n
  {
    if n >= 10 {
      var s := DecimalString(n);
      assert s[..|s| - 1] == DecimalString(n / 10);
      DecimalRoundTrip(n / 10);
    }
  }

  /** `String(n)` for a safe integer: an optional minus sign, then the decimal numeral. */
  function NumberToString(n: SafeInteger): string {
    if n < 0 then "-" + DecimalString(-(n as int)) else DecimalString(n as int)
  }

  /**
   * `String(v)` throws a TypeError. For an object, ToString first calls
   * ToPrimitive(v, string), which tries `toString` and then `valueOf`. A parsed
   * JSON object with an own `toString` key holds data there, not a function, so
   * that step cannot produce a primitive. The inherited `valueOf` returns the
   * object itself, which is not a primitive either. An object whose
   * `toString` is the inherited one converts normally.
   */
  predicate ToStringThrows(v: JsValue) {
    v.Obj? && "toString" in v.properties
  }

  /** ECMAScript ToString, as `String(v)` computes it when it does not throw. */
  function ToJsString(v: JsValue): string
    requires !ToStringThrows(v)
  {
    match v
    case Undefined => "undefined"
    case Null => "null"
    case Bool(b) => if b then "true" else "false"
    case Num(n) => NumberToString(n)
    case Str(s) => s
    case Obj(_) => "[object Object]"
  }

  /** Reads the result of NumberToString back. */
  function ParseInteger(s: string): int
    requires IsNumeral(s)
  {
    if s[0] == '-' then -(ParseDecimal(s[1..]) as int) else ParseDecimal(s)
  }

  /** A well-formed numeral for ParseInteger: a non-empty string of digits after an optional minus sign. */
  predicate IsNumeral(s: string) {
    s != [] && forall i :: (if s[0] == '-' then 1 else 0) <= i < |s| ==> IsDigit(s[i])
  }

  /** `String(n)` loses nothing: it is a numeral, and it reads back as n. */
  lemma NumberToStringRoundTrip(n: SafeInteger)
    ensures IsNumeral(NumberToString(n))
    ensures ParseInteger(NumberToString(n)) == n as int
  {
    var m: nat := if n < 0 then -(n as int) else n as int;
    if n < 0 {
      assert NumberToString(n) == "-" + DecimalString(m);
      NegativeNumeral(m);
    } else {
      assert NumberToString(n) == DecimalString(m);
      NonNegativeNumeral(m);
    }
  }

  lemma NonNegativeNumeral(m: nat)
    ensures IsNumeral(DecimalString(m))
    ensures ParseInteger(DecimalString(m)) == m
  {
    var d := DecimalString(m);
    assert IsDigit(d[0]);
    DecimalRoundTrip(m);
  }

  lemma NegativeNumeral(m: nat)
    ensures IsNumeral("-" + DecimalString(m))
    ensures ParseInteger("-" + DecimalString(m)) == -(m as int)
  {
    var d := DecimalString(m);
    var s := "-" + d;
    forall i | 1 <= i < |s| ensures IsDigit(s[i]) {
      assert s[i] == d[i - 1];
    }
    assert s[1..] == d;
    DecimalRoundTrip(m);
  }
}
