/** JavaScript values as the router sees them: the request data a caller
    passes in, JavaScript truthiness, and the `data || {}` default. */
module JsValues {

  datatype Option<+T> = None | Some(value: T)

  datatype Result<+T, +E> = Ok(value: T) | Err(error: E)

  /** A JavaScript value. Numbers are modelled as integers (NaN and -0 are
      not represented); arrays and objects are plain values. */
  datatype JsValue =
    | Undefined
    | Null
    | Bool(b: bool)
    | Num(n: int)
    | Str(s: string)
    | Arr(items: seq<JsValue>)
    | Obj(fields: map<string, JsValue>)

  /** JavaScript truthiness: `undefined`, `null`, `false`, `0` and `""` are
      falsy; every array and every object, even an empty one, is truthy. */
  predicate Truthy(v: JsValue) {
    match v
    case Undefined => false
    case Null => false
    case Bool(b) => b
    case Num(n) => n != 0
    case Str(s) => s != ""
    case Arr(_) => true
    case Obj(_) => true
  }

  /** The object literal `{}`. */
  const EmptyObject: JsValue := Obj(map[])

  /** `data || {}`: the payload the standard handler sends, never undefined. */
  function Payload(data: JsValue): (p: JsValue)
    ensures Truthy(p)
    ensures p != Undefined && p != Null
    ensures Truthy(data) <==> p == data
    ensures !Truthy(data) ==> p == EmptyObject
  {
    if Truthy(data) then data else EmptyObject
  }
}
