/** JavaScript values as the client and the search proxy handle them after
    JSON parsing, together with the three language rules the source relies on:
    truthiness, the `||` operator, and property access (plain and `?.`). */
module Js {
  datatype Value =
    | Undefined
    | Null
    | Bool(b: bool)
    | Num(n: real)
    | Str(s: string)
    | Arr(elems: seq<Value>)
    | Obj(fields: map<string, Value>)

  /** `null` and `undefined`: the values whose property access throws. */
  predicate Nullish(v: Value) {
    v.Undefined? || v.Null?
  }

  /** JavaScript truthiness. NaN is not representable, so every number but 0 is truthy. */
  predicate Truthy(v: Value) {
    match v
    case Undefined | Null => false
    case Bool(b) => b
    case Num(n) => n != 0.0
    case Str(s) => s != ""
    case Arr(_) | Obj(_) => true
  }

  /** `a || b`: the left operand when it is truthy, the right one otherwise. */
  function Or(a: Value, b: Value): (r: Value)
    ensures Truthy(r) <==> Truthy(a) || Truthy(b)
    ensures Truthy(a) ==> r == a
    ensures !Truthy(a) ==> r == b
  {
    if Truthy(a) then a else b
  }

  /** `v.k` on a value that is not nullish (on a nullish one it throws).
      Only own properties of parsed objects are modelled: none of the
      property names the source reads exists on strings, numbers, booleans
      or arrays, so those give `undefined`. */
  function Prop(v: Value, k: string): Value
    requires !Nullish(v)
  {
    if v.Obj? && k in v.fields then v.fields[k] else Undefined
  }

  /** `v?.k`: `undefined` when `v` is nullish, `v.k` otherwise; never throws. */
  function OptProp(v: Value, k: string): Value
  {
    if Nullish(v) then Undefined else Prop(v, k)
  }
}
