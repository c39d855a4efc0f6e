/**
 * JavaScript values as the map's data module sees them: the JSON values plus
 * `undefined`, with the three pieces of JavaScript semantics the validator
 * relies on — truthiness, `typeof`, and reading a property.
 */
module JsValues {

  /** A JavaScript value. Numbers are reals (NaN and the infinities are not
      modelled); an object is given by its own properties. */
  datatype Json =
    | Undefined
    | Null
    | Bool(b: bool)
    | Num(n: real)
    | Str(s: string)
    | Arr(items: seq<Json>)
    | Obj(props: map<string, Json>)

  /** The only error the data module can raise: reading a property of null or undefined. */
  datatype JsError = TypeError

  /** How evaluating an expression ends: with a value, or with a thrown error. */
  datatype Completion<T> = Normal(value: T) | Threw(error: JsError)

  /** ToBoolean: null, undefined, false, 0 and "" are falsy; every object and
      every array, even an empty one, is truthy. */
  predicate Truthy(v: Json) {
    match v
    case Undefined => false
    case Null => false
    case Bool(b) => b
    case Num(n) => n != 0.0
    case Str(s) => s != ""
    case Arr(_) => true
    case Obj(_) => true
  }

  /** The `typeof` operator; note that `typeof null` is "object". */
  function TypeOf(v: Json): string {
    match v
    case Undefined => "undefined"
    case Null => "object"
    case Bool(_) => "boolean"
    case Num(_) => "number"
    case Str(_) => "string"
    case Arr(_) => "object"
    case Obj(_) => "object"
  }

  /** Values whose properties cannot be read: `v.key` throws TypeError on them. */
  predicate IsNullish(v: Json) {
    v.Undefined? || v.Null?
  }

  /** The value `v.key` reads when `v` is not nullish: an object's own property,
      or undefined. The keys the data module reads ("type", "features",
      "geometry", "properties" and attribute names) are not built-in properties
      of arrays, strings, numbers or booleans, so those give undefined.
      On a nullish `v` this gives undefined, which is what `v?.key` reads. */
  function Get(v: Json, key: string): Json {
    match v
    case Obj(props) => if key in props then props[key] else Undefined
    case _ => Undefined
  }
}
