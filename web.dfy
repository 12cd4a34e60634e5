/**
 * JSON values as the route handlers build and receive them, and the HTTP
 * responses `NextResponse.json(body, { status })` produces.
 */
module Web {
  import opened Options

  /** A JSON value (NaN and the infinities are not modelled). */
  datatype Json =
    | JNull
    | JBool(b: bool)
    | JNum(n: real)
    | JStr(s: string)
    | JArr(items: seq<Json>)
    | JObj(fields: map<string, Json>)

  /** JavaScript truthiness of a parsed JSON value. */
  predicate Truthy(j: Json) {
    match j
    case JNull => false
    case JBool(b) => b
    case JNum(n) => n != 0.0
    case JStr(s) => s != ""
    case JArr(_) => true
    case JObj(_) => true
  }

  /** `j.key` on a value that is not null: `None` stands for `undefined`. */
  function Member(j: Json, key: string): Option<Json> {
    if j.JObj? && key in j.fields then Some(j.fields[key]) else None
  }

  /** The own fields that `...j` copies into an object literal. */
  function SpreadFields(j: Json): map<string, Json> {
    if j.JObj? then j.fields else map[]
  }

  /** `{ ...base, ...j }`: the spread fields override the literal keys written before them. */
  function WithSpread(base: map<string, Json>, j: Json): (r: map<string, Json>)
    ensures r.Keys == base.Keys + SpreadFields(j).Keys
    ensures forall k :: k in SpreadFields(j) ==> r[k] == SpreadFields(j)[k]
    ensures forall k :: k in base && k !in SpreadFields(j) ==> r[k] == base[k]
  {
    base + SpreadFields(j)
  }

  /** A JSON response; `NextResponse.json` without a status answers 200. */
  datatype Response = Response(status: int, body: map<string, Json>)

  /** The body `{ success: false, error: message }`. */
  function Failure(message: string): map<string, Json> {
    map["success" := JBool(false), "error" := JStr(message)]
  }
}
