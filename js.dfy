/**
 * The fragment of JavaScript value semantics the logger relies on: plain
 * objects as finite maps, truthiness (`!x`, `a || b`), `String(x)`, property
 * lookup and object spread (`{ ...a, ...b }`, `Object.assign({}, a, b)`).
 * Numbers are integers here; floating point and NaN literals are not modelled.
 */
module Js {

  /** A JavaScript value as it occurs in options, traces and log records. */
  datatype Value =
    | Undefined
    | Null
    | Bool(b: bool)
    | Num(n: int)
    | Str(s: string)
    | Obj(fields: Fields)
    | Fn(id: nat)          // a function value, e.g. an injected stream callback

  /** The own enumerable properties of a plain object. */
  type Fields = map<string, Value>

  /** JavaScript truthiness: `!!v`. */
  predicate Truthy(v: Value) {
    match v
    case Undefined => false
    case Null => false
    case Bool(b) => b
    case Num(n) => n != 0
    case Str(s) => s != ""
    case Obj(_) => true
    case Fn(_) => true
  }

  /** `a || b` */
  function Or(a: Value, b: Value): (r: Value)
    ensures Truthy(a) ==> r == a
    ensures !Truthy(a) ==> r == b
  {
    if Truthy(a) then a else b
  }

  /** `m[k]` on a plain object: a missing key reads as `undefined`. */
  function Get(m: Fields, k: string): (r: Value)
    ensures k in m ==> r == m[k]
    ensures k !in m ==> r == Undefined
  {
    if k in m then m[k] else Undefined
  }

  /** `v[k]` for a non-nullish value: only objects carry properties here. */
  function GetProp(v: Value, k: string): (r: Value)
    ensures v.Obj? ==> r == Get(v.fields, k)
    ensures !v.Obj? ==> r == Undefined
  {
    if v.Obj? then Get(v.fields, k) else Undefined
  }

  /** True when reading a property of `v` throws a TypeError. */
  predicate Nullish(v: Value) {
    v.Undefined? || v.Null?
  }

  /**
   * The properties `{ ...v }` copies: those of an object, none for
   * `undefined`, `null`, numbers, booleans and functions without own
   * properties. (Spreading a string copies its characters; see README.)
   */
  function Spread(v: Value): (r: Fields)
    ensures v.Obj? ==> r == v.fields
    ensures !v.Obj? ==> r == map[]
  {
    if v.Obj? then v.fields else map[]
  }

  /**
   * Objects and functions take new properties; in strict code (every class
   * body) writing a property of any other non-nullish value throws a
   * TypeError. A function is modelled without own enumerable properties.
   */
  predicate IsObjectLike(v: Value) {
    v.Obj? || v.Fn?
  }

  /** The decimal digit character for `d`. */
  function DigitChar(d: nat): (c: char)
    requires d < 10
    ensures '0' <= c <= '9'
    ensures c as int - '0' as int == d
  {
    (48 + d) as char
  }

  /** `n.toString()` for a non-negative integer. */
  function NatToDecimal(n: nat): (s: string)
    ensures |s| >= 1
    ensures forall i :: 0 <= i < |s| ==> '0' <= s[i] <= '9'
  {
    if n < 10 then [DigitChar(n)] else NatToDecimal(n / 10) + [DigitChar(n % 10)]
  }

  predicate AllDigits(s: string) {
    forall i :: 0 <= i < |s| ==> '0' <= s[i] <= '9'
  }

  /** `Number(s)` for a string of decimal digits (the empty string reads as 0). */
  function DecimalValue(s: string): (n: nat)
    requires AllDigits(s)
  {
    if s == [] then 0 else DecimalValue(s[..|s| - 1]) * 10 + (s[|s| - 1] as int - '0' as int)
  }

  /** `Number(String(n)) === n` for a non-negative integer. */
  lemma {:induction false} DecimalRoundTrip(n: nat)
    ensures AllDigits(NatToDecimal(n))
    ensures DecimalValue(NatToDecimal(n)) == n
  {
    var s := NatToDecimal(n);
    if n >= 10 {
      DecimalRoundTrip(n / 10);
      assert s[..|s| - 1] == NatToDecimal(n / 10);
    }
  }

  /** `String(v)` */
  function ToJsString(v: Value): string {
    match v
    case Undefined => "undefined"
    case Null => "null"
    case Bool(b) => if b then "true" else "false"
    case Num(n) => if n < 0 then "-" + NatToDecimal(-n) else NatToDecimal(n)
    case Str(s) => s
    case Obj(_) => "[object Object]"
    case Fn(_) => "function"
  }

  /** The names every plain object inherits from `Object.prototype`. */
  const ObjectPrototypeKeys: set<string> := {
    "constructor", "hasOwnProperty", "isPrototypeOf", "propertyIsEnumerable",
    "toLocaleString", "toString", "valueOf", "__proto__",
    "__defineGetter__", "__defineSetter__", "__lookupGetter__", "__lookupSetter__"
  }

  /**
   * `table[key]` for a plain object literal `table` and an arbitrary key:
   * the key is converted with `String`, and names inherited from
   * `Object.prototype` are found too (a function, or the prototype object).
   */
  function Lookup(table: Fields, key: Value): (r: Value)
    ensures ToJsString(key) in table ==> r == table[ToJsString(key)]
    ensures ToJsString(key) !in table && ToJsString(key) !in ObjectPrototypeKeys ==> r == Undefined
    ensures ToJsString(key) !in table && ToJsString(key) in ObjectPrototypeKeys ==> Truthy(r) && !r.Num?
  {
    var k := ToJsString(key);
    if k in table then table[k]
    else if k == "__proto__" then Obj(map[])
    else if k in ObjectPrototypeKeys then Fn(0)
    else Undefined
  }
}
