/**
 * The JSON values that request options carry (`serde_json::Value`), restricted to what
 * query serialisation distinguishes: strings, integers, floats, booleans, and everything
 * else (null, arrays, objects) lumped together as `Other`.
 */
module Json {
  import opened Wrappers

  datatype Value =
    | Str(s: string)
    | Num(n: int)
    // An IEEE-754 binary64 number, by its bit pattern. A serde_json number is always finite, so
    // in the source only finite patterns reach an option map; the model does not restrict the
    // patterns in caller-supplied maps, and no property below depends on their finiteness.
    | Float(bits: bv64)
    | Bool(b: bool)
    | Other

  /** Not NaN and not an infinity: the exponent field is not all ones. */
  predicate IsFinite(bits: bv64) {
    (bits >> 52) & 0x7FF != 0x7FF
  }

  /** `serde_json::Number::from_f64`: a JSON number for a finite float, nothing for NaN or an infinity. */
  function FromF64(bits: bv64): (r: Option<Value>)
    ensures r.Some? <==> IsFinite(bits)
    ensures r.Some? ==> r.value == Float(bits)
  {
    if IsFinite(bits) then Some(Float(bits)) else None
  }

  predicate IsDigit(c: char) {
    '0' <= c <= '9'
  }

  predicate IsDecimal(s: string) {
    forall i :: 0 <= i < |s| ==> IsDigit(s[i])
  }

  function DigitChar(d: nat): char
    requires d < 10
  {
    "0123456789"[d]
  }

  /** The decimal text of `n`: digits only, never empty, no leading zero. */
  function NatToDecimal(n: nat): (s: string)
    ensures |s| > 0 && IsDecimal(s)
    ensures s[0] == '0' ==> n == 0 && s == "0"
  {
    if n < 10 then [DigitChar(n)] else NatToDecimal(n / 10) + [DigitChar(n % 10)]
  }

  /** The number a string of decimal digits denotes. */
  function DecimalToNat(s: string): nat
    requires IsDecimal(s)
  {
    if s == [] then 0 else DecimalToNat(s[..|s| - 1]) * 10 + (s[|s| - 1] as int - '0' as int)
  }

  lemma {:induction false} DecimalRoundTrip(n: nat)
    ensures DecimalToNat(NatToDecimal(n)) == n
  {
    var s := NatToDecimal(n);
    if n >= 10 {
      DecimalRoundTrip(n / 10);
      assert s[..|s| - 1] == NatToDecimal(n / 10);
    }
  }

  /** The text serde_json gives an integer: an optional minus sign, then its decimal digits. */
  function IntToDecimal(n: int): (s: string)
    ensures |s| > 0
    ensures s[0] == '-' <==> n < 0
    ensures n >= 0 ==> IsDecimal(s)
    ensures n < 0 ==> IsDecimal(s[1..])
  {
    if n < 0 then "-" + NatToDecimal(-n) else NatToDecimal(n)
  }

  /** Reads back the text of an integer. */
  function DecimalToInt(s: string): Option<int> {
    if |s| > 0 && s[0] == '-' && IsDecimal(s[1..]) then Some(-(DecimalToNat(s[1..]) as int))
    else if IsDecimal(s) then Some(DecimalToNat(s) as int)
    else None
  }

  lemma IntDecimalRoundTrip(n: int)
    ensures DecimalToInt(IntToDecimal(n)) == Some(n)
  {
    var s := IntToDecimal(n);
    if n < 0 {
      assert s[1..] == NatToDecimal(-n);
      DecimalRoundTrip(-n);
    } else {
      assert !IsDigit('-');
      DecimalRoundTrip(n);
    }
  }

  /**
   * The text a scalar value contributes to a query string, or `None` for a non-scalar;
   * `formatFloat` is serde_json's textual rendering of a float.
   */
  function Render(v: Value, formatFloat: bv64 -> string): (r: Option<string>)
    ensures r.None? <==> v.Other?
  {
    match v
    case Str(s) => Some(s)
    case Num(n) => Some(IntToDecimal(n))
    case Float(bits) => Some(formatFloat(bits))
    case Bool(b) => Some(if b then "true" else "false")
    case Other => None
  }
}
