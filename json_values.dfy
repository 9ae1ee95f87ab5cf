/**
 * JSON values as Python holds them after json.loads or a database read,
 * with the dictionary and truthiness operations the WhatsApp and SQL-agent
 * code applies to them.  A call on a value of the wrong type raises
 * AttributeError, modelled as an Err result.
 */
module JsonValues {
  import opened Wrappers
  import opened Numbers
  import opened Text

  datatype Json =
    | JNull
    | JBool(b: bool)
    | JNum(n: int)
    | JFloat(f: Decimal)
    | JStr(s: string)
    | JList(items: seq<Json>)
    | JObj(fields: map<string, Json>)

  const AttributeError := "AttributeError"

  /** Python's bool(v). */
  predicate Truthy(v: Json)
  {
    match v
    case JNull => false
    case JBool(b) => b
    case JNum(n) => n != 0
    case JFloat(f) => f.mant != 0
    case JStr(s) => s != ""
    case JList(items) => items != []
    case JObj(fields) => fields != map[]
  }

  /** a or b */
  function Or(a: Json, b: Json): (r: Json)
    ensures Truthy(a) ==> r == a
    ensures !Truthy(a) ==> r == b
  {
    if Truthy(a) then a else b
  }

  /** v.get(k, default): the value under k, or the default when k is absent; AttributeError on a non-dict. */
  function GetOr(v: Json, k: string, default: Json): (r: Result<Json>)
    ensures r.Ok? <==> v.JObj?
    ensures v.JObj? && k in v.fields ==> r == Ok(v.fields[k])
    ensures v.JObj? && k !in v.fields ==> r == Ok(default)
  {
    if !v.JObj? then Err(AttributeError)
    else if k in v.fields then Ok(v.fields[k]) else Ok(default)
  }

  /** v.get(k) */
  function Get(v: Json, k: string): Result<Json>
  {
    GetOr(v, k, JNull)
  }

  /** An empty dict, the usual default after "or". */
  const Empty := JObj(map[])

  /** The first element of a non-empty list; None for anything else. */
  function GetFirst(v: Json): (r: Json)
    ensures v.JList? && v.items != [] ==> r == v.items[0]
    ensures !(v.JList? && v.items != []) ==> r == JNull
  {
    if v.JList? && v.items != [] then v.items[0] else JNull
  }

  /** v.strip() on a value that must be a string; AttributeError otherwise. */
  function StripValue(v: Json): (r: Result<string>)
    ensures r.Ok? <==> v.JStr?
    ensures v.JStr? ==> r == Ok(Strip(v.s))
  {
    if v.JStr? then Ok(Strip(v.s)) else Err(AttributeError)
  }

  /** str(v); lists and dicts are rendered by repr, which is left abstract. */
  function PyStr(v: Json, repr: Json -> string): (r: string)
    ensures v.JStr? ==> r == v.s
  {
    match v
    case JNull => "None"
    case JBool(b) => if b then "True" else "False"
    case JNum(n) => IntStr(n)
    case JFloat(f) => FloatStr(f)
    case JStr(s) => s
    case _ => repr(v)
  }
}
