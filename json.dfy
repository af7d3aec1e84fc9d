/**
 * JavaScript values as the data-access layer sees them: response bodies and
 * cached data are untyped (`any`), so the model keeps them as a small value
 * universe with the three JavaScript tests the code applies to them:
 * truthiness (`if (!body)`), nullishness (`??`, `!= null`) and object spread.
 */
module Json {

  datatype Value =
    | Undefined
    | Null
    | Bool(b: bool)
    | Num(n: real)
    | Str(s: string)
    | Obj(fields: map<string, Value>)
    | Arr(items: seq<Value>)

  /** `!!v` in JavaScript (NaN is not a value of this model). */
  predicate Truthy(v: Value) {
    match v
    case Undefined => false
    case Null => false
    case Bool(b) => b
    case Num(n) => n != 0.0
    case Str(s) => s != ""
    case Obj(_) => true
    case Arr(_) => true
  }

  /** `v != null` (loose inequality): neither `null` nor `undefined`. */
  predicate Present(v: Value) {
    !v.Undefined? && !v.Null?
  }

  /** `v ?? d`. */
  function Coalesce(v: Value, d: Value): (r: Value)
    ensures Present(v) ==> r == v
    ensures !Present(v) ==> r == d
  {
    if Present(v) then v else d
  }

  /** The own enumerable properties that `...v` copies into an object literal. */
  function OwnFields(v: Value): map<string, Value> {
    if v.Obj? then v.fields else map[]
  }

  /** `{...a, ...b}`: every property of `b` wins; properties only in `a` are kept. */
  function Spread(a: Value, b: Value): (r: Value)
    ensures r.Obj?
    ensures r.fields.Keys == OwnFields(a).Keys + OwnFields(b).Keys
    ensures forall k :: k in OwnFields(b) ==> r.fields[k] == OwnFields(b)[k]
    ensures forall k :: k in OwnFields(a) && k !in OwnFields(b) ==> r.fields[k] == OwnFields(a)[k]
  {
    Obj(OwnFields(a) + OwnFields(b))
  }
}
