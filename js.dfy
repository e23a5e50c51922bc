/**
 * The JavaScript values that reach the widget untyped: transport payloads and the
 * result of `JSON.parse`. Numbers are integers. Object properties keep their
 * insertion order, which is the order `Object.entries` reports for non-numeric keys.
 */
module Js {

  import opened Wrappers
  import opened Text

  datatype JsValue =
    | Undefined
    | Null
    | Bool(b: bool)
    | Num(n: int)
    | Str(s: string)
    | Arr(items: seq<JsValue>)
    | Obj(props: seq<Prop>)

  datatype Prop = Prop(key: string, val: JsValue)

  /** JavaScript truthiness: `if (v)`, `!!v`. */
  predicate Truthy(v: JsValue) {
    match v
    case Undefined => false
    case Null => false
    case Bool(b) => b
    case Num(n) => n != 0
    case Str(s) => s != ""
    case Arr(_) => true
    case Obj(_) => true
  }

  predicate Nullish(v: JsValue) {
    v.Undefined? || v.Null?
  }

  /** `a || b` */
  function Or(a: JsValue, b: JsValue): JsValue {
    if Truthy(a) then a else b
  }

  /** The value of the last property named `key` (JSON.parse keeps the last duplicate). */
  function Lookup(props: seq<Prop>, key: string): JsValue {
    if props == [] then Undefined
    else if props[|props| - 1].key == key then props[|props| - 1].val
    else Lookup(props[..|props| - 1], key)
  }

  /**
   * `v?.key`: the property of an object, `undefined` for anything else. (None of
   * the property names the widget reads exists on strings, arrays, numbers or booleans.)
   */
  function Get(v: JsValue, key: string): JsValue {
    if v.Obj? then Lookup(v.props, key) else Undefined
  }

  /** `v?.[i]` */
  function At(v: JsValue, i: nat): JsValue {
    match v
    case Arr(items) => if i < |items| then items[i] else Undefined
    case Str(s) => if i < |s| then Str([s[i]]) else Undefined
    case Obj(props) => Lookup(props, NatToDecimal(i))
    case _ => Undefined
  }

  /** `v === Str(s)` */
  predicate IsString(v: JsValue, s: string) {
    v == Str(s)
  }

  /** `String(v)`, as a template literal `${v}` converts it. */
  function ToJsString(v: JsValue): string
    decreases v, 1
  {
    match v
    case Undefined => "undefined"
    case Null => "null"
    case Bool(b) => if b then "true" else "false"
    case Num(n) => IntToDecimal(n)
    case Str(s) => s
    case Arr(items) => JoinItems(v, items)
    case Obj(_) => "[object Object]"
  }

  /** `Array.prototype.join(",")`: `null` and `undefined` elements become empty. */
  function JoinItems(whole: JsValue, items: seq<JsValue>): string
    requires forall x :: x in items ==> x < whole
    decreases whole, 0, |items|
  {
    if items == [] then ""
    else
      assert items[0] in items;
      assert forall x :: x in items[1..] ==> x in items;
      var first := if Nullish(items[0]) then "" else ToJsString(items[0]);
      if |items| == 1 then first else first + "," + JoinItems(whole, items[1..])
  }

  /**
   * `v?.toLowerCase()`: `undefined` for a nullish value, the lower-cased string for a
   * string, and a TypeError (None) for anything else, which has no such method.
   */
  function CallLower(v: JsValue): (r: Option<JsValue>)
    ensures r.None? <==> !Nullish(v) && !v.Str?
    ensures r.Some? && v.Str? ==> r.value == Str(Lower(v.s))
    ensures r.Some? && !v.Str? ==> r.value == Undefined
  {
    if Nullish(v) then Some(Undefined)
    else if v.Str? then Some(Str(Lower(v.s)))
    else None
  }

  /** `typeof v === "string" ? v.toLowerCase() : ""` */
  function LowerOrEmpty(v: JsValue): (r: string)
    ensures v.Str? ==> r == Lower(v.s)
    ensures !v.Str? ==> r == ""
  {
    if v.Str? then Lower(v.s) else ""
  }

  /** `Array.isArray(v) && v.length > 0` */
  predicate IsNonEmptyArray(v: JsValue) {
    v.Arr? && |v.items| > 0
  }
}
