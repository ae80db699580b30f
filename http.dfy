/**
 * What the browse client sees of its base class: the request it hands to
 * `_get`, the decoded JSON it gets back, and the two Python operations it
 * applies to that JSON (`json[key]` and `**json`).
 */
module Http {
  import opened Wrappers

  /** A query-parameter value as the browse methods pass it: a string, an integer or Python's `None`. */
  datatype Value = Str(s: string) | Int(i: int) | Null

  /** One call `_get(path, **params)`. */
  datatype Request = Request(path: string, params: map<string, Value>)

  /** A decoded JSON document (numbers are integers here). */
  datatype Json =
    | JNull
    | JBool(b: bool)
    | JInt(i: int)
    | JStr(s: string)
    | JArray(items: seq<Json>)
    | JObject(fields: map<string, Json>)

  /** The exceptions a browse method can raise. */
  datatype Error =
    | KeyError(key: string)                 // `json[key]` on an object without that key
    | TypeError                             // `json[key]` or `**json` on something that is not an object
    | UnpackError(name: string, parts: nat) // `p, a = name.split('_')` where the split did not give two parts
    | Remote(reason: string)                // whatever `_get` raised, passed through unchanged

  /** `_get`: the authenticated HTTP round trip of the base class, which is not part of this model. */
  type Transport = Request -> Result<Json, Error>

  /** What one method invocation did: the requests it sent, in order, and what it returned or raised. */
  datatype Call<+T> = Call(sent: seq<Request>, result: Result<T, Error>)

  /** An optional string argument as it is passed on: `None` stays `None`. */
  function OptStr(s: Option<string>): (v: Value)
    ensures v.Null? <==> s.None?
    ensures ArgOf(v) == s
  {
    match s
    case None => Null
    case Some(t) => Str(t)
  }

  /** Reads a string-or-`None` parameter back; the inverse of `OptStr`. */
  function ArgOf(v: Value): Option<string> {
    match v
    case Str(t) => Some(t)
    case _ => None
  }

  /** Python's `json[key]` on a decoded JSON document. */
  function Subscript(json: Json, key: string): (r: Result<Json, Error>)
    ensures r.Success? <==> json.JObject? && key in json.fields
    ensures r.Success? ==> r.value == json.fields[key]
    ensures json.JObject? && key !in json.fields ==> r == Failure(KeyError(key))
    ensures !json.JObject? ==> r == Failure(TypeError)
  {
    match json
    case JObject(fields) => if key in fields then Success(fields[key]) else Failure(KeyError(key))
    case _ => Failure(TypeError)
  }

  /** Python's `**json`: only an object can be spread into keyword arguments. */
  function Kwargs(json: Json): (r: Result<map<string, Json>, Error>)
    ensures r.Success? <==> json.JObject?
    ensures r.Success? ==> r.value == json.fields
    ensures !json.JObject? ==> r == Failure(TypeError)
  {
    match json
    case JObject(fields) => Success(fields)
    case _ => Failure(TypeError)
  }

  /** `json` is an object whose field `key` is itself an object, so `Cls(**json[key])` can be called. */
  predicate HasObjectField(json: Json, key: string) {
    json.JObject? && key in json.fields && json.fields[key].JObject?
  }
}
