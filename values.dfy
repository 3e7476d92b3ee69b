/** JSON values as Python's `json` module produces them, the exceptions a
    lookup into them can raise, and the lookups themselves. */
module Values {
  import opened Wrappers
  import Text

  datatype Json =
    | JNull
    | JBool(b: bool)
    | JInt(i: int)
    | JNum(r: real)
    | JStr(s: string)
    | JList(items: seq<Json>)
    | JObj(fields: map<string, Json>)

  /** The Python exceptions the modelled code can raise. */
  datatype Error =
    | KeyError(key: string)
    | IndexError
    | ValueError
    | TypeError
    | AttributeError
    | AssertionError

  /** Python truthiness of a JSON value. */
  predicate Truthy(j: Json)
  {
    match j
    case JNull => false
    case JBool(b) => b
    case JInt(i) => i != 0
    case JNum(r) => r != 0.0
    case JStr(s) => s != ""
    case JList(xs) => xs != []
    case JObj(m) => m != map[]
  }

  /** The falsy values are exactly None, `False`, zero, the empty string and
      the empty containers. */
  lemma FalsyValues(j: Json)
    ensures !Truthy(j) <==> j in {JNull, JBool(false), JInt(0), JNum(0.0), JStr(""), JList([]), JObj(map[])}
  {
  }

  /** `j[key]` for a string key. */
  function Field(j: Json, key: string): (r: Result<Json, Error>)
    ensures r.Ok? <==> j.JObj? && key in j.fields
    ensures r.Ok? ==> r.value == j.fields[key]
    ensures j.JObj? && key !in j.fields ==> r == Err(KeyError(key))
  {
    match j
    case JObj(m) => if key in m then Ok(m[key]) else Err(KeyError(key))
    case _ => Err(TypeError)
  }

  /** `j[key1][key2]...` */
  function Path(j: Json, keys: seq<string>): Result<Json, Error>
  {
    if keys == [] then Ok(j)
    else
      var next :- Field(j, keys[0]);
      Path(next, keys[1..])
  }

  /** `j[i]` for an integer index, negative indices counting from the end. */
  function Index(j: Json, i: int): (r: Result<Json, Error>)
    ensures j.JList? && -|j.items| <= i < |j.items| ==>
      r == Ok(j.items[if i < 0 then i + |j.items| else i])
    ensures j.JList? && !(-|j.items| <= i < |j.items|) ==> r == Err(IndexError)
  {
    match j
    case JList(xs) =>
      if -|xs| <= i < |xs| then Ok(xs[if i < 0 then i + |xs| else i]) else Err(IndexError)
    case JStr(s) =>
      if -|s| <= i < |s| then Ok(JStr([s[if i < 0 then i + |s| else i]])) else Err(IndexError)
    case JObj(_) => Err(KeyError(Text.IntToString(i)))
    case _ => Err(TypeError)
  }

  /** `j.get(key, default)`; only a dictionary has `get`. */
  function GetOr(j: Json, key: string, default: Json): (r: Result<Json, Error>)
    ensures j.JObj? <==> r.Ok?
    ensures j.JObj? ==> r.value == if key in j.fields then j.fields[key] else default
  {
    match j
    case JObj(m) => Ok(if key in m then m[key] else default)
    case _ => Err(AttributeError)
  }

  /** The elements a `for` loop over `j` visits. A list gives its items;
      an empty string or dictionary gives none. A non-empty string or
      dictionary gives strings (characters, keys), and the loop bodies
      modelled here fail on the first of them with `onString`. Anything
      else is not iterable. */
  function Elements(j: Json, onString: Error): (r: Result<seq<Json>, Error>)
    ensures j.JList? ==> r == Ok(j.items)
    ensures r.Ok? <==> j.JList? || j == JStr("") || j == JObj(map[])
  {
    match j
    case JList(xs) => Ok(xs)
    case JStr(s) => if s == "" then Ok([]) else Err(onString)
    case JObj(m) => if m == map[] then Ok([]) else Err(onString)
    case _ => Err(TypeError)
  }

  /** `str(j)` for the values whose text form is modelled: strings, integers,
      booleans and None. */
  function PyStr(j: Json): (r: Option<string>)
    ensures j.JStr? ==> r == Some(j.s)
    ensures r.Some? <==> j.JStr? || j.JInt? || j.JBool? || j.JNull?
  {
    match j
    case JStr(s) => Some(s)
    case JInt(i) => Some(Text.IntToString(i))
    case JBool(b) => Some(if b then "True" else "False")
    case JNull => Some("None")
    case _ => None
  }
}
