/** JavaScript values as the application sees them: optional values, dynamically
    typed JSON-like values, and the truthiness rules behind `||`, `??` and `?.`. */
module Js {

  /** A value that may be absent (`null` / `undefined` in the source). */
  datatype Option<+T> = None | Some(value: T) {

    /** The `??` operator: the carried value, or `default` when absent. */
    function GetOr(default: T): T
    {
      match this
      case Some(v) => v
      case None => default
    }
  }

  /** A dynamically typed value. Numbers are modelled as integers (floating
      point and NaN are not part of this model). */
  datatype JsValue =
    | Undefined
    | Null
    | Bool(b: bool)
    | Num(n: int)
    | Str(s: string)
    | Arr(items: seq<JsValue>)
    | Obj(fields: map<string, JsValue>)

  /** JavaScript truthiness (`Boolean(v)`). */
  predicate Truthy(v: JsValue)
  {
    match v
    case Undefined => false
    case Null => false
    case Bool(b) => b
    case Num(n) => n != 0
    case Str(s) => s != ""
    case Arr(_) => true
    case Obj(_) => true
  }

  /** Optional-chained property read `v?.key`: `undefined` unless `v` is an
      object holding `key`. */
  function Field(v: JsValue, key: string): JsValue
  {
    if v.Obj? && key in v.fields then v.fields[key] else Undefined
  }

  /** The `||` operator on JavaScript values: the left operand when truthy,
      otherwise the right operand (whatever it is). */
  function Or(a: JsValue, b: JsValue): JsValue
  {
    if Truthy(a) then a else b
  }

  /** The `??` operator on JavaScript values: the right operand only when the
      left is `null` or `undefined`. */
  function Coalesce(a: JsValue, b: JsValue): JsValue
  {
    if a.Undefined? || a.Null? then b else a
  }

  /** Truthiness of an optional string: present and non-empty. */
  predicate Present(o: Option<string>)
  {
    o.Some? && o.value != ""
  }

  /** The `||` operator on optional strings. */
  function OrElse(a: Option<string>, b: Option<string>): Option<string>
  {
    if Present(a) then a else b
  }

  /** The value of an optional string as a JavaScript value. */
  function FromOption(o: Option<string>): JsValue
  {
    match o
    case Some(s) => Str(s)
    case None => Null
  }
}
