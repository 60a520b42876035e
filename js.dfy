// JavaScript values as the modelled front end and proxy see them: JSON data,
// `undefined`, truthiness, the `||` and `??` operators, property reads and
// template-string conversion.

module Js {
  import opened Strings

  datatype Option<+T> = None | Some(value: T)

  datatype Result<+T, +E> = Ok(value: T) | Err(error: E)

  /** A JSON value. Numbers are integers: floating point is not modelled. */
  datatype Json =
    | Null
    | Bool(b: bool)
    | Num(n: int)
    | Str(s: string)
    | Arr(items: seq<Json>)
    | Obj(fields: map<string, Json>)

  /** A JavaScript value: `undefined` or a JSON value. */
  datatype Val = Undefined | Defined(json: Json)

  /** JavaScript truthiness (`!!v`). */
  predicate Truthy(v: Val)
  {
    match v
    case Undefined => false
    case Defined(j) =>
      match j
      case Null => false
      case Bool(b) => b
      case Num(n) => n != 0
      case Str(s) => s != ""
      case Arr(_) => true
      case Obj(_) => true
  }

  /** `v === null || v === undefined`, the test of `??` and `?.`. */
  predicate Nullish(v: Val)
  {
    v == Undefined || v == Defined(Null)
  }

  /** `v.key` is truthy: `v` is an object that holds `key` with a truthy value. */
  predicate HasTruthy(v: Json, key: string)
  {
    v.Obj? && key in v.fields && Truthy(Defined(v.fields[key]))
  }

  /** `v.key` is neither null nor undefined: `v` is an object that holds `key` with a non-null value. */
  predicate HasNonNull(v: Json, key: string)
  {
    v.Obj? && key in v.fields && v.fields[key] != Null
  }

  /** `a || b` */
  function Or(a: Val, b: Val): (r: Val)
    ensures Truthy(a) ==> r == a
    ensures !Truthy(a) ==> r == b
  {
    if Truthy(a) then a else b
  }

  /** `id || null` on a string id: the id when it is non-empty, else null. */
  function IdOrNull(id: string): (r: Option<string>)
    ensures r.Some? <==> id != ""
    ensures r.Some? ==> r.value == id
  {
    if id != "" then Some(id) else None
  }

  /** `a || d` with a JSON default: always a JSON value, truthy unless `d` is not. */
  function OrDefault(a: Val, d: Json): (r: Json)
    ensures Truthy(a) ==> Defined(r) == a
    ensures !Truthy(a) ==> r == d
  {
    if Truthy(a) then a.json else d
  }

  /** `v.key || d` on a JSON value that is not null. */
  function PropOr(v: Json, key: string, d: Json): (r: Json)
    requires v != Null
    ensures HasTruthy(v, key) ==> r == v.fields[key]
    ensures !HasTruthy(v, key) ==> r == d
  {
    OrDefault(GetProp(Defined(v), key).value, d)
  }

  /** `a ?? d` with a JSON default: keeps every present non-null value, falsy ones included. */
  function Coalesce(a: Val, d: Json): (r: Json)
    ensures !Nullish(a) ==> Defined(r) == a
    ensures Nullish(a) ==> r == d
  {
    if Nullish(a) then d else a.json
  }

  /**
   * `v.key`: None when the read throws a TypeError (v is null or undefined).
   * A missing key, and any key of a primitive, array or string, reads as
   * undefined (built-in properties such as `length` are not modelled).
   */
  function GetProp(v: Val, key: string): (r: Option<Val>)
    ensures r.None? <==> Nullish(v)
    ensures r.Some? && r.value.Defined? ==> v.Defined? && v.json.Obj? && key in v.json.fields
  {
    match v
    case Undefined => None
    case Defined(j) =>
      match j
      case Null => None
      case Obj(m) => Some(if key in m then Defined(m[key]) else Undefined)
      case _ => Some(Undefined)
  }

  /** `v?.key`: undefined when v is nullish, otherwise the property read. */
  function OptProp(v: Val, key: string): (r: Val)
    ensures Nullish(v) ==> r == Undefined
    ensures !Nullish(v) ==> Some(r) == GetProp(v, key)
  {
    if Nullish(v) then Undefined else GetProp(v, key).value
  }

  /** `v[0]`: throws on null and undefined; the first element of an array or character of a string. */
  function First(v: Val): (r: Option<Val>)
    ensures r.None? <==> Nullish(v)
  {
    match v
    case Undefined => None
    case Defined(j) =>
      match j
      case Null => None
      case Arr(items) => Some(if |items| > 0 then Defined(items[0]) else Undefined)
      case Str(s) => Some(if |s| > 0 then Defined(Str([s[0]])) else Undefined)
      case Obj(m) => Some(if "0" in m then Defined(m["0"]) else Undefined)
      case _ => Some(Undefined)
  }

  predicate IsArray(v: Val)
  {
    v.Defined? && v.json.Arr?
  }

  /** Decimal rendering of an integer, as `String(n)` gives it. */
  function IntToString(n: int): (s: string)
    ensures 0 <= n ==> s == NatToString(n)
    ensures n < 0 ==> s == "-" + NatToString(-n)
  {
    if n < 0 then "-" + NatToString(-n) else NatToString(n)
  }

  /** `String(v)` / `${v}` in a template string, for JSON values. */
  function ToJsString(v: Json): (s: string)
    ensures v.Str? ==> s == v.s
    decreases v, 1
  {
    match v
    case Null => "null"
    case Bool(b) => if b then "true" else "false"
    case Num(n) => IntToString(n)
    case Str(s) => s
    case Arr(items) => JoinElements(items)
    case Obj(_) => "[object Object]"
  }

  /** `${v}` for any value: `undefined` renders as "undefined". */
  function ValToString(v: Val): (s: string)
    ensures v.Defined? ==> s == ToJsString(v.json)
    ensures v == Undefined ==> s == "undefined"
  {
    if v.Defined? then ToJsString(v.json) else "undefined"
  }

  /** `Array.prototype.join(",")`: null elements render as the empty string. */
  function JoinElements(items: seq<Json>): string
    decreases items, 0
  {
    if |items| == 0 then ""
    else
      var head := if items[0] == Null then "" else ToJsString(items[0]);
      if |items| == 1 then head else head + "," + JoinElements(items[1..])
  }
}
