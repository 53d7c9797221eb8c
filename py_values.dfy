/**
  The Python values the Canvas code handles: decoded JSON, the exceptions
  it raises or passes on, and the builtins `bool`, `int` and `str` as they
  apply to JSON values.
*/
module PyValues {
  import opened Wrappers
  import opened Text

  /** A value as `resp.json()` decodes it (JSON numbers are integers here). */
  datatype Json =
    | JNull
    | JBool(b: bool)
    | JInt(i: int)
    | JStr(s: string)
    | JArray(items: seq<Json>)
    | JObject(fields: map<string, Json>)

  datatype ErrorKind = ValueError | KeyError | TypeError | RuntimeError | OtherError

  /** A raised exception: its class and `str(exc)`. */
  datatype PyError = PyError(kind: ErrorKind, text: string)

  /** `KeyError(key)`; its `str` is the key's repr, quoted. */
  function MissingKey(key: string): PyError {
    PyError(KeyError, "'" + key + "'")
  }

  /** Python's truth value of a JSON value. */
  predicate Truthy(v: Json) {
    match v
    case JNull => false
    case JBool(b) => b
    case JInt(i) => i != 0
    case JStr(s) => s != []
    case JArray(items) => items != []
    case JObject(fields) => fields != map[]
  }

  /**
    `int(v)`: an integer as is, a bool as 0 or 1, a string by its decimal
    text (ValueError otherwise); `None`, lists and dicts are a TypeError.
  */
  function PyInt(v: Json): (r: Result<int, PyError>)
    ensures r.Ok? <==> v.JInt? || v.JBool? || (v.JStr? && ParseInt(v.s).Some?)
    ensures r.Err? ==> r.error.kind == (if v.JStr? then ValueError else TypeError)
    ensures v.JStr? && r.Ok? ==> ParseInt(v.s) == Some(r.value)
    ensures v.JInt? ==> r == Ok(v.i)
    ensures v.JBool? ==> r == Ok(if v.b then 1 else 0)
  {
    match v
    case JInt(i) => Ok(i)
    case JBool(b) => Ok(if b then 1 else 0)
    case JStr(s) =>
      (match ParseInt(s)
       case Some(n) => Ok(n)
       case None => Err(PyError(ValueError, "")))
    case _ => Err(PyError(TypeError, ""))
  }

  /**
    `str(v)` of a scalar. The text Python gives a list or dict is its repr,
    which this model does not reproduce: those are `None` here.
  */
  function PyStr(v: Json): (r: Option<string>)
    ensures r.Some? <==> !v.JArray? && !v.JObject?
    ensures v.JStr? ==> r == Some(v.s)
    ensures v.JInt? ==> r == Some(IntToString(v.i))
    ensures v.JBool? ==> r == Some(if v.b then "True" else "False")
    ensures v.JNull? ==> r == Some("None")
  {
    match v
    case JNull => Some("None")
    case JBool(b) => Some(if b then "True" else "False")
    case JInt(i) => Some(IntToString(i))
    case JStr(s) => Some(s)
    case _ => None
  }

  /** `str(int(v))` recovers `v` whenever `v` is already an integer. */
  lemma PyStrOfInt(n: int)
    ensures PyStr(JInt(n)).Some? && PyInt(JStr(PyStr(JInt(n)).value)) == Ok(n)
  {
    IntRoundTrip(n);
  }

  /** `d.get(key)`: the value under `key`, `None` (here `JNull`) when absent. */
  function GetOrNull(fields: map<string, Json>, key: string): Json {
    if key in fields then fields[key] else JNull
  }
}
