/** The JavaScript values the TypeScript helpers inspect. */
module Js {
  import opened Common

  /** A JavaScript number: a finite value, NaN, or one of the two infinities. */
  datatype Num = Finite(v: real) | NaN | PosInf | NegInf

  /** `Number.isFinite`. */
  predicate IsFinite(n: Num)
  {
    n.Finite?
  }

  /** A JavaScript value with the shapes a message listener can receive. A missing
      property reads as `Undefined`. */
  datatype Value =
    | Undefined
    | Null
    | Bool(b: bool)
    | Number(n: Num)
    | Str(s: string)
    | Array(elements: seq<Value>)
    | Object(properties: map<string, Value>)

  /** `value[key]` on an object; arrays and all other values have none of the
      properties read here. */
  function Get(value: Value, key: string): Value
  {
    if value.Object? && key in value.properties then value.properties[key] else Undefined
  }

  /** `typeof value === 'object' && value !== null`: plain objects and arrays. */
  predicate IsNonNullObject(value: Value)
  {
    value.Object? || value.Array?
  }
}
