/** JSON values as the upstream API delivers them, with Python's view of them:
    `dict.get` on a record, truthiness, and `str()`. */
module Json {
  import opened Digits

  datatype Json =
    | JNull
    | JBool(b: bool)
    | JInt(i: int)
    | JStr(s: string)
    | JArr(items: seq<Json>)
    | JObj(fields: map<string, Json>)

  /** One upstream JSON object (a queue item, a job or a folder). */
  type Record = map<string, Json>

  /** `record.get(key)`: a missing key and a JSON null both read as None. */
  function Get(r: Record, key: string): (v: Json)
    ensures key !in r ==> v == JNull
    ensures key in r ==> v == r[key]
  {
    if key in r then r[key] else JNull
  }

  /** Python truthiness of the decoded value. */
  predicate Truthy(v: Json) {
    match v
    case JNull => false
    case JBool(b) => b
    case JInt(i) => i != 0
    case JStr(s) => s != ""
    case JArr(items) => items != []
    case JObj(fields) => fields != map[]
  }

  /** The two foreign text encoders the source relies on: `json.dumps` and Python's `str`
      of a list or dict. */
  datatype Codec = Codec(dumps: Json -> string, reprNested: Json -> string)

  /** Python's `str(value)`. */
  function PyStr(v: Json, codec: Codec): (s: string)
    ensures v.JStr? ==> s == v.s
    ensures v.JNull? ==> s == "None"
    ensures v.JInt? ==> s == IntText(v.i)
  {
    match v
    case JNull => "None"
    case JBool(b) => if b then "True" else "False"
    case JInt(i) => IntText(i)
    case JStr(s) => s
    case _ => codec.reprNested(v)
  }
}
