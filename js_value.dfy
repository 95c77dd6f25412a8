/** The slice of JavaScript's value model that the user-parameters normaliser
    relies on: the raw payload the portal returns, the profile it builds,
    truthiness, the `&&` and `||` operators, property reads and the TypeError
    that destructuring `undefined` or calling `.map` on a non-array raises. */
module JsValue {

  /** A JavaScript value. Numbers are reals (NaN and the infinities are not
      represented); a `Date` object is represented by its time in minutes. */
  datatype Value =
    | Undefined
    | Null
    | Bool(b: bool)
    | Num(n: real)
    | Str(s: string)
    | Arr(items: seq<Value>)
    | Obj(props: map<string, Value>)
    | DateVal(time: int)

  datatype Option<T> = None | Some(value: T)

  /** The exceptions this code can raise. */
  datatype JsError = TypeError(message: string)

  /** A computation that returns a value or throws. */
  datatype Result<T> = Ok(value: T) | Thrown(error: JsError) {
    predicate IsFailure() { Thrown? }
    function PropagateFailure<U>(): Result<U> requires Thrown? { Thrown(error) }
    function Extract(): T requires Ok? { value }
  }

  /** JavaScript's ToBoolean: `undefined`, `null`, `false`, `0` and `""` are
      falsy; every array and every object (even an empty one) is truthy. */
  predicate Truthy(v: Value)
  {
    match v
    case Undefined => false
    case Null => false
    case Bool(b) => b
    case Num(n) => n != 0.0
    case Str(s) => s != ""
    case Arr(_) => true
    case Obj(_) => true
    case DateVal(_) => true
  }

  /** `a && b`: the first operand when it is falsy, the second otherwise. */
  function And(a: Value, b: Value): (r: Value)
    ensures Truthy(r) <==> Truthy(a) && Truthy(b)
    ensures r == a || r == b
  {
    if Truthy(a) then b else a
  }

  /** `a || b`: the first operand when it is truthy, the second otherwise. */
  function Or(a: Value, b: Value): (r: Value)
    ensures Truthy(r) <==> Truthy(a) || Truthy(b)
    ensures r == a || r == b
  {
    if Truthy(a) then a else b
  }

  /** Reading property `k`: the own property of an object, `undefined` when
      the object has no such property. Primitives, arrays and dates carry none
      of the portal's property names, so they read as `undefined` as well. */
  function Prop(v: Value, k: string): Value
  {
    if v.Obj? && k in v.props then v.props[k] else Undefined
  }

  /** Whether destructuring `const { ... } = v` throws: it does for `undefined`
      and `null` only. */
  predicate Destructurable(v: Value)
  {
    !v.Undefined? && !v.Null?
  }

  /** `Array.prototype.map` over a list of results: JavaScript stops at the
      first callback that throws and rethrows its exception. */
  function Collect<T>(rs: seq<Result<T>>): (r: Result<seq<T>>)
    ensures r.Ok? <==> forall i :: 0 <= i < |rs| ==> rs[i].Ok?
    ensures r.Ok? ==> |r.value| == |rs| && forall i :: 0 <= i < |rs| ==> rs[i] == Ok(r.value[i])
    ensures r.Thrown? ==> exists i :: 0 <= i < |rs| && rs[i] == Thrown(r.error) && forall j :: 0 <= j < i ==> rs[j].Ok?
  {
    if rs == [] then Ok([])
    else if rs[0].Thrown? then Thrown(rs[0].error)
    else
      var rest :- Collect(rs[1..]);
      assert forall i :: 1 <= i < |rs| ==> rs[i] == rs[1..][i - 1];
      Ok([rs[0].value] + rest)
  }
}
