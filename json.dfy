/**
 * Parsed JSON request bodies and stored documents, with JavaScript property
 * access and truthiness over them.
 */
module Json {
  import opened Js

  /** A JavaScript value as produced by `request.json()`, plus `Date` and object-id values a handler adds. */
  datatype JsValue =
    | Null
    | Bool(b: bool)
    | Num(x: Number)
    | Str(s: string)
    | Arr(items: seq<JsValue>)
    | Obj(fields: map<string, JsValue>)
    | Date(iso: string)
    | ObjectId(hex: string)

  /**
   * `v.key` for a value that is not `null`: the member of an object, or
   * `undefined` (here `None`) for a missing member and for every other kind of value.
   */
  function Member(v: JsValue, key: string): (r: Option<JsValue>)
    ensures r.Some? <==> v.Obj? && key in v.fields
    ensures r.Some? ==> r.value == v.fields[key]
  {
    if v.Obj? && key in v.fields then Some(v.fields[key]) else None
  }

  /** Truthiness of a possibly undefined value: `undefined`, `null`, `false`, 0, NaN and "" are falsy. */
  predicate Truthy(v: Option<JsValue>)
  {
    match v
    case None => false
    case Some(Null) => false
    case Some(Bool(b)) => b
    case Some(Num(x)) => NumberTruthy(x)
    case Some(Str(s)) => s != ""
    case Some(_) => true
  }

  /** Some key of `keys` names a falsy member of `v`: the `!a.x || !a.y || ...` test of a validator. */
  predicate MissingAny(v: JsValue, keys: seq<string>)
  {
    exists i :: 0 <= i < |keys| && !Truthy(Member(v, keys[i]))
  }

  /** A handler's answer: a JSON body with status 200, or `{ error: message }` with an error status. */
  datatype Response<T> = Ok(body: T) | Error(status: int, message: string)
}
