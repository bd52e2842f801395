/** Values the client code reads from JavaScript: optional strings (an environment
    variable or a property that may be `undefined`), JSON payloads, and JavaScript
    truthiness for them. */
module Js {

  datatype Option<+T> = None | Some(value: T)

  /** A JSON value as an HTTP response body can hold it. */
  datatype Value =
    | Null
    | Bool(b: bool)
    | Num(n: int)
    | Str(s: string)
    | Arr(items: seq<Value>)
    | Obj(fields: map<string, Value>)

  /** `s` used as a condition: `undefined` and `""` are falsy, every other string is truthy. */
  predicate Truthy(s: Option<string>) {
    s.Some? && s.value != ""
  }

  /** `s || fallback` for an optional string. */
  function OrElse(s: Option<string>, fallback: string): (r: string)
    ensures Truthy(s) ==> r == s.value
    ensures !Truthy(s) ==> r == fallback
  {
    if s.Some? && s.value != "" then s.value else fallback
  }

  /** `s || null` for an optional string: only a non-empty string survives. */
  function OrNull(s: Option<string>): (r: Option<string>)
    ensures r.Some? <==> Truthy(s)
    ensures r.Some? ==> r == s
  {
    if s.Some? && s.value != "" then s else None
  }

  /** `v && typeof v === 'object'`: an object or an array (null is falsy). */
  predicate IsObject(v: Option<Value>)
    ensures IsObject(v) <==> v.Some? && !(v.value.Null? || v.value.Bool? || v.value.Num? || v.value.Str?)
  {
    v.Some? && (v.value.Obj? || v.value.Arr?)
  }

  /** `key in v && typeof v[key] === 'string'` for a value that `IsObject` accepts;
      arrays have no property named like a field of an error body. */
  function StringProperty(v: Value, key: string): (r: Option<string>)
    ensures r.Some? <==> v.Obj? && key in v.fields && v.fields[key].Str?
    ensures r.Some? ==> v.fields[key] == Str(r.value)
  {
    if v.Obj? && key in v.fields && v.fields[key].Str? then Some(v.fields[key].s) else None
  }

  /** The decimal digits of `n`, as a template literal renders a non-negative integer. */
  function NatToDecimal(n: nat): (r: string)
    ensures |r| >= 1
    ensures forall i :: 0 <= i < |r| ==> '0' <= r[i] <= '9'
    ensures n >= 10 ==> r[0] != '0'
    ensures n < 10 ==> |r| == 1
  {
    if n < 10 then [Digit(n)] else NatToDecimal(n / 10) + [Digit(n % 10)]
  }

  function Digit(d: nat): (c: char)
    requires d < 10
    ensures '0' <= c <= '9' && c as int - '0' as int == d
  {
    ['0', '1', '2', '3', '4', '5', '6', '7', '8', '9'][d]
  }

  /** `${n}` for an integer `n`: a minus sign followed by the digits of `-n` when negative. */
  function IntToDecimal(n: int): (r: string)
    ensures |r| >= 1
    ensures n < 0 <==> r[0] == '-'
    ensures forall i :: (if n < 0 then 1 else 0) <= i < |r| ==> '0' <= r[i] <= '9'
    ensures n < 0 ==> |r| >= 2 && r[1] != '0'
    ensures n >= 0 ==> r == "0" || r[0] != '0'
  {
    if n < 0 then "-" + NatToDecimal(-n) else NatToDecimal(n)
  }

  /** The number a string of decimal digits denotes, read left to right; independent
      of how `NatToDecimal` produces the digits. */
  function DecimalValue(s: string): int
    decreases |s|
  {
    if s == [] then 0 else DecimalValue(s[..|s| - 1]) * 10 + (s[|s| - 1] as int - '0' as int)
  }

  /** The number a decimal string with an optional leading minus sign denotes. */
  function SignedDecimalValue(s: string): int {
    if |s| > 0 && s[0] == '-' then -DecimalValue(s[1..]) else DecimalValue(s)
  }

  /** The digits `NatToDecimal` prints denote `n` itself. */
  lemma {:induction false} NatToDecimalValue(n: nat)
    ensures DecimalValue(NatToDecimal(n)) == n
  {
    if n >= 10 {
      var r := NatToDecimal(n);
      assert r == NatToDecimal(n / 10) + [Digit(n % 10)];
      assert r[..|r| - 1] == NatToDecimal(n / 10);
      NatToDecimalValue(n / 10);
    }
  }

  /** `${n}` reads back as `n`, for every integer. */
  lemma {:induction false} IntToDecimalValue(n: int)
    ensures SignedDecimalValue(IntToDecimal(n)) == n
  {
    if n < 0 {
      var m: nat := -n;
      var v := DecimalValue(NatToDecimal(m));
      assert SignedDecimalValue(IntToDecimal(n)) == -v by { NegativeParts(n); }
      assert v == m by { NatToDecimalValue(m); }
    } else {
      var v := DecimalValue(NatToDecimal(n));
      assert SignedDecimalValue(IntToDecimal(n)) == v by { UnsignedDigits(NatToDecimal(n)); }
      assert v == n by { NatToDecimalValue(n); }
    }
  }

  /** Digits without a sign denote their plain value. */
  lemma UnsignedDigits(digits: string)
    requires |digits| >= 1 && '0' <= digits[0] <= '9'
    ensures SignedDecimalValue(digits) == DecimalValue(digits)
  {
  }

  /** A negative number prints as a minus sign followed by the digits of its magnitude. */
  lemma NegativeParts(n: int)
    requires n < 0
    ensures SignedDecimalValue(IntToDecimal(n)) == -DecimalValue(NatToDecimal(-n))
  {
    var r := IntToDecimal(n);
    assert r[1..] == NatToDecimal(-n);
  }

  /** Rendering integers is injective: distinct numbers never print the same. */
  lemma IntToDecimalInjective(m: int, n: int)
    requires IntToDecimal(m) == IntToDecimal(n)
    ensures m == n
  {
    IntToDecimalValue(m);
    IntToDecimalValue(n);
  }
}
