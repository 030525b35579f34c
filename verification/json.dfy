/** JSON values as Python's `json` module and JavaScript's `JSON` see them.
    Numbers are integers only; objects are keyed maps (a duplicate key in a
    document keeps its last value in both languages). */
module Json {
  import opened Base
  import Text

  datatype Json =
    | JNull
    | JBool(b: bool)
    | JNum(n: int)
    | JStr(s: string)
    | JArr(items: seq<Json>)
    | JObj(fields: map<string, Json>)

  /** Python's `bool(v)`: empty containers, "", 0, False and None are false. */
  predicate PyTruthy(v: Json) {
    match v
    case JNull => false
    case JBool(b) => b
    case JNum(n) => n != 0
    case JStr(s) => s != ""
    case JArr(items) => items != []
    case JObj(fields) => fields != map[]
  }

  /** JavaScript truthiness: every array and object is true, even empty. */
  predicate JsTruthy(v: Json) {
    match v
    case JNull => false
    case JBool(b) => b
    case JNum(n) => n != 0
    case JStr(s) => s != ""
    case JArr(_) => true
    case JObj(_) => true
  }

  /** `obj.get(key)` on a dict / `obj[key]` on an object: `None` when absent. */
  function Field(fields: map<string, Json>, key: string): Option<Json> {
    if key in fields then Some(fields[key]) else None
  }

  /** JavaScript `x ?? y` treats both a missing property and `null` as absent. */
  predicate Nullish(v: Option<Json>) {
    v.None? || v.value.JNull?
  }

  /** Python's `int(v)` on the JSON values a token endpoint may send; strings
      are read as `int()` reads text (`Text.ParseInt`). */
  function PyInt(v: Json): Result<int> {
    match v
    case JNum(n) => Ok(n)
    case JBool(b) => Ok(if b then 1 else 0)
    case JStr(s) =>
      var p := Text.ParseInt(s);
      if p.Some? then Ok(p.value) else Err("invalid literal for int() with base 10")
    case _ => Err("int() argument must be a string or a number")
  }

  /** Whitespace around a number sent as text does not change what it reads as. */
  lemma PyIntStripsWhitespace(pre: string, body: string, post: string, n: int)
    requires Text.Blank(pre) && Text.Blank(post)
    requires body != [] && !Text.IsSpace(body[0]) && !Text.IsSpace(body[|body| - 1])
    requires Text.ParseSigned(body) == Some(n)
    ensures PyInt(JStr(pre + body + post)) == Ok(n)
  {
    Text.IntStripsWhitespace(pre, body, post);
  }
}
