/**
 * Parsed JSON values as Python's `json` module hands them to the weather
 * function, and the few pieces of Python's dynamic semantics that the
 * flattening code relies on: `dict.get`, subscripting with a string key,
 * and iterating a value in a `for` clause. Python exceptions become the
 * `Err` case of a `Result`.
 */
module Json {

  /** A JSON value. The model only ever copies numbers; a `real` cannot hold
      NaN or the infinities and does not tell 1 from 1.0, which copying
      never needs. */
  datatype Json =
    | JNull
    | JBool(b: bool)
    | JNum(n: real)
    | JStr(s: string)     // Dafny chars: a lone surrogate such as "\ud800" is not representable
    | JArr(items: seq<Json>)
    | JObj(fields: map<string, Json>)

  /** The Python exceptions the modelled code can raise. */
  datatype PyError =
    | KeyError(key: string)  // d[k] on a dict that has no key k
    | TypeError              // subscripting or iterating a value that does not support it
    | AttributeError         // calling .get on a value that is not a dict
    | JsonDecodeError        // response.json() on a body that is not JSON

  datatype Option<+T> = None | Some(value: T)

  /** A value, or the exception that was raised while computing it. */
  datatype Result<+T> = Ok(value: T) | Err(error: PyError) {
    predicate IsFailure() { Err? }
    function PropagateFailure<U>(): Result<U> requires Err? { Err(error) }
    function Extract(): T requires Ok? { value }
  }

  const EmptyObj: Json := JObj(map[])

  /** `d.get(key, default)` on a value already known to be a dict. */
  function DictGet(d: map<string, Json>, key: string, default: Json := JNull): (r: Json)
    ensures key in d ==> r == d[key]
    ensures key !in d ==> r == default
  {
    if key in d then d[key] else default
  }

  /** The dict a `.get` call is made on; any other value has no `.get`. */
  function AsDict(v: Json): (r: Result<map<string, Json>>)
    ensures r.Ok? <==> v.JObj?
    ensures r.Ok? ==> r.value == v.fields
    ensures r.Err? ==> r.error == AttributeError
  {
    match v
    case JObj(m) => Ok(m)
    case _ => Err(AttributeError)
  }

  /** `v.get(key, default)`: the default is used only when the key is absent. */
  function Get(v: Json, key: string, default: Json): (r: Result<Json>)
    ensures r.Ok? <==> v.JObj?
    ensures r.Ok? ==> r.value == DictGet(v.fields, key, default)
    ensures r.Err? ==> r.error == AttributeError
  {
    var d :- AsDict(v);
    Ok(DictGet(d, key, default))
  }

  /** `v[key]` with a string key: a KeyError on a dict without the key,
      a TypeError on anything that is not a dict. */
  function Subscript(v: Json, key: string): (r: Result<Json>)
    ensures r.Ok? <==> v.JObj? && key in v.fields
    ensures r.Ok? ==> r.value == v.fields[key]
    ensures v.JObj? && key !in v.fields ==> r == Err(KeyError(key))
    ensures !v.JObj? ==> r == Err(TypeError)
  {
    match v
    case JObj(m) => if key in m then Ok(m[key]) else Err(KeyError(key))
    case _ => Err(TypeError)
  }

  /**
   * The elements that `for x in v` visits when the loop body calls `x.get`.
   * A list yields its items and a string its one-character strings. A dict
   * yields its keys: an empty dict yields nothing, and a non-empty one yields
   * a string on which the first `.get` raises AttributeError, so that error is
   * returned here at once. None, booleans and numbers are not iterable.
   */
  function Elements(v: Json): (r: Result<seq<Json>>)
    ensures v.JArr? ==> r == Ok(v.items)
    ensures v.JStr? ==> r.Ok? && |r.value| == |v.s|
    ensures v.JStr? ==> forall i :: 0 <= i < |r.value| ==> r.value[i] == JStr([v.s[i]])
    ensures v.JObj? ==> r == if v.fields == map[] then Ok([]) else Err(AttributeError)
    ensures v.JNull? || v.JBool? || v.JNum? ==> r == Err(TypeError)
    ensures r.Err? <==> (v.JNull? || v.JBool? || v.JNum? || (v.JObj? && v.fields != map[]))
  {
    match v
    case JArr(items) => Ok(items)
    case JStr(s) => Ok(seq(|s|, i requires 0 <= i < |s| => JStr([s[i]])))
    case JObj(m) => if m == map[] then Ok([]) else Err(AttributeError)
    case _ => Err(TypeError)
  }
}
