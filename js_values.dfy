/** The fragment of JavaScript's value model that the client's decisions depend
    on: truthiness, `typeof … === 'boolean'`, `instanceof Uint8Array`,
    `Array.isArray`, property lookup on plain objects, and the decimal text
    that `Number.prototype.toString` gives a non-negative integer. */
module JsValues {

  /** A JavaScript value. Numbers are integers here (see README, Left out). */
  datatype Value =
    | Undefined
    | Null
    | Bool(b: bool)
    | Num(n: int)
    | Str(s: string)
    | Bytes(bytes: seq<bv8>)              // a Uint8Array; Node's Buffer is one
    | Arr(elems: seq<Value>)              // an Array
    | Obj(fields: map<string, Value>)     // a plain object

  /** JavaScript's ToBoolean: `undefined`, `null`, `false`, `0` and `''` are
      falsy; every object, array and typed array is truthy. */
  predicate Truthy(v: Value) {
    match v
    case Undefined => false
    case Null => false
    case Bool(b) => b
    case Num(n) => n != 0
    case Str(s) => s != ""
    case Bytes(_) => true
    case Arr(_) => true
    case Obj(_) => true
  }

  /** `object[key]` on a plain object: a missing key reads as `undefined`. */
  function Lookup(m: map<string, Value>, key: string): Value {
    if key in m then m[key] else Undefined
  }

  // ---------------------------------------------------------------------
  // Number.prototype.toString on a non-negative integer

  predicate IsDigit(c: char) {
    '0' <= c <= '9'
  }

  predicate IsDecimal(s: string) {
    forall i :: 0 <= i < |s| ==> IsDigit(s[i])
  }

  function DigitChar(d: nat): (c: char)
    requires d < 10
    ensures IsDigit(c) && c as int - '0' as int == d
  {
    ('0' as int + d) as char
  }

  /** The decimal text of `n`, most significant digit first. */
  function NatToDecimal(n: nat): (s: string)
    ensures 1 <= |s|
    ensures IsDecimal(s)
    ensures |s| > 1 ==> s[0] != '0'
    ensures n == 0 <==> s == "0"
    decreases n
  {
    if n < 10 then [DigitChar(n)] else NatToDecimal(n / 10) + [DigitChar(n % 10)]
  }

  /** The number a string of decimal digits denotes; the inverse of
      NatToDecimal. */
  function DecimalValue(s: string): nat
    requires IsDecimal(s)
  {
    if s == [] then 0
    else 10 * DecimalValue(s[..|s| - 1]) + (s[|s| - 1] as int - '0' as int)
  }

  /** Reading the decimal text of `n` back gives `n`. */
  lemma {:induction false} DecimalRoundTrip(n: nat)
    ensures DecimalValue(NatToDecimal(n)) == n
    decreases n
  {
    var s := NatToDecimal(n);
    if n < 10 {
      assert s[..|s| - 1] == [];
    } else {
      DecimalRoundTrip(n / 10);
      assert s[..|s| - 1] == NatToDecimal(n / 10);
    }
  }

  /** Distinct numbers print as distinct texts. */
  lemma DecimalInjective(a: nat, b: nat)
    ensures NatToDecimal(a) == NatToDecimal(b) <==> a == b
  {
    DecimalRoundTrip(a);
    DecimalRoundTrip(b);
  }
}
