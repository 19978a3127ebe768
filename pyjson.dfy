/** The JSON values an upstream HTTP response decodes to, and the handful of
    Python built-ins (truthiness, `dict.get`, `len`, `x[0]`, `float`) that the
    weather normalisation applies to them. An operation Python would raise on
    yields `Err` carrying the exception's class name. */
module PyJson {
  import opened Results

  datatype Json =
    | JNull
    | JBool(b: bool)
    | JNum(n: real)
    | JStr(s: string)
    | JList(items: seq<Json>)
    | JObj(fields: map<string, Json>)

  const ATTRIBUTE_ERROR := "AttributeError"
  const TYPE_ERROR := "TypeError"
  const INDEX_ERROR := "IndexError"
  const KEY_ERROR := "KeyError"
  const VALUE_ERROR := "ValueError"

  /** Python's `bool(x)`: null, false, zero and empty containers are falsy. */
  predicate Truthy(j: Json)
  {
    match j
    case JNull => false
    case JBool(b) => b
    case JNum(n) => n != 0.0
    case JStr(s) => s != ""
    case JList(items) => items != []
    case JObj(fields) => fields != map[]
  }

  /** `d.get(key, default)` on a dictionary. */
  function Get(d: map<string, Json>, key: string, default: Json): (v: Json)
    ensures key in d ==> v == d[key]
    ensures key !in d ==> v == default
  {
    if key in d then d[key] else default
  }

  /** `x.get(key, default)` on an arbitrary value: only dictionaries have `.get`. */
  function GetAttr(x: Json, key: string, default: Json): (r: Result<Json>)
    ensures r.Ok? <==> x.JObj?
    ensures r.Ok? ==> r.value == Get(x.fields, key, default)
    ensures r.Err? ==> r.error == ATTRIBUTE_ERROR
  {
    if x.JObj? then Ok(Get(x.fields, key, default)) else Err(ATTRIBUTE_ERROR)
  }

  /** `x[key]` with a string key: a dictionary lookup that raises KeyError
      when the key is missing; no other JSON value accepts a string index. */
  function Subscript(x: Json, key: string): (r: Result<Json>)
    ensures r.Ok? <==> x.JObj? && key in x.fields
    ensures r.Ok? ==> r.value == x.fields[key]
    ensures x.JObj? && key !in x.fields ==> r == Err(KEY_ERROR)
    ensures !x.JObj? ==> r == Err(TYPE_ERROR)
  {
    if !x.JObj? then Err(TYPE_ERROR)
    else if key in x.fields then Ok(x.fields[key])
    else Err(KEY_ERROR)
  }

  /** `len(x)`: defined on strings, lists and dictionaries only. */
  function Len(x: Json): (r: Result<nat>)
    ensures r.Ok? <==> (x.JStr? || x.JList? || x.JObj?)
    ensures x.JList? ==> r == Ok(|x.items|)
  {
    match x
    case JStr(s) => Ok(|s|)
    case JList(items) => Ok(|items|)
    case JObj(fields) => Ok(|fields|)
    case _ => Err(TYPE_ERROR)
  }

  /** `x[0]`: the first element of a list, the first character of a string;
      a dictionary decoded from JSON has only string keys, so `[0]` misses. */
  function First(x: Json): (r: Result<Json>)
    ensures x.JList? && x.items != [] ==> r == Ok(x.items[0])
    ensures x.JList? && x.items == [] ==> r.Err?
    ensures r.Ok? ==> x.JList? || x.JStr?
  {
    match x
    case JList(items) => if items == [] then Err(INDEX_ERROR) else Ok(items[0])
    case JStr(s) => if s == "" then Err(INDEX_ERROR) else Ok(JStr(s[..1]))
    case JObj(_) => Err(KEY_ERROR)
    case _ => Err(TYPE_ERROR)
  }

  /** `float(x)`. Python's string-to-float parser is an input of the model
      (`parse`), since the model does not describe floating-point syntax. */
  function ToFloat(x: Json, parse: string -> Option<real>): (r: Result<real>)
    ensures x.JNum? ==> r == Ok(x.n)
    ensures (x.JNull? || x.JList? || x.JObj?) ==> r.Err?
  {
    match x
    case JNum(n) => Ok(n)
    case JBool(b) => Ok(if b then 1.0 else 0.0)
    case JStr(s) => if parse(s).Some? then Ok(parse(s).value) else Err(VALUE_ERROR)
    case _ => Err(TYPE_ERROR)
  }
}
