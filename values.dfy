/**
 * JavaScript values as the profile record holds them, with the truthiness
 * that the `||` fallbacks and the `&&` section guards rely on.
 */
module Values {

  datatype Value =
    | Undefined
    | Null
    | Str(s: string)
    | Num(x: real)
    | Bool(b: bool)
    | Arr(items: seq<Value>)
    | Obj(fields: map<string, Value>)
    | Time(millis: nat)   // a `Date`

  /** A plain object's own properties. */
  type Record = map<string, Value>

  /** JavaScript truthiness: `undefined`, `null`, `""`, `0` and `false` are falsy. */
  predicate Truthy(v: Value) {
    match v
    case Undefined => false
    case Null => false
    case Str(s) => s != ""
    case Num(x) => x != 0.0
    case Bool(b) => b
    case Arr(_) => true
    case Obj(_) => true
    case Time(_) => true
  }

  /** `a || b`. */
  function Or(a: Value, b: Value): (r: Value)
    ensures Truthy(a) ==> r == a
    ensures !Truthy(a) ==> r == b
  {
    if Truthy(a) then a else b
  }

  /** `v?.key`: the property when `v` is an object that has it, `undefined`
      otherwise (a missing object included). */
  function Get(v: Value, key: string): (r: Value)
    ensures v.Obj? && key in v.fields ==> r == v.fields[key]
    ensures !(v.Obj? && key in v.fields) ==> r == Undefined
  {
    if v.Obj? && key in v.fields then v.fields[key] else Undefined
  }

  /** `a || b || c` picks the first truthy operand, or the last one. */
  lemma OrPicksFirstTruthy(a: Value, b: Value, c: Value)
    ensures Or(a, Or(b, c)) == Or(Or(a, b), c)
    ensures Truthy(Or(a, Or(b, c))) <==> Truthy(a) || Truthy(b) || Truthy(c)
  {
  }
}
