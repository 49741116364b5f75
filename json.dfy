/** Decoded JSON values as both proxies handle them, the parts of Python's
    standard library that turn them into text and back, and the shapes of
    the HTTP exchanges on either side of a proxy. */
module Json {

  datatype Option<+T> = None | Some(value: T)

  /** A decoded JSON document. Numbers are kept as reals; object key order
      is not part of the model. */
  datatype Json =
    | JNull
    | JBool(b: bool)
    | JNum(n: real)
    | JStr(s: string)
    | JArr(items: seq<Json>)
    | JObj(fields: map<string, Json>)

  /** Python truthiness of a decoded value (`if not x`, `bool(x)`). */
  predicate Truthy(j: Json) {
    match j
    case JNull => false
    case JBool(b) => b
    case JNum(n) => n != 0.0
    case JStr(s) => s != ""
    case JArr(items) => items != []
    case JObj(fields) => fields != map[]
  }

  /** `d.get(key, default)` on a dictionary. */
  function Get(d: map<string, Json>, key: string, default: Json): Json {
    if key in d then d[key] else default
  }

  const EmptyObject: Json := JObj(map[])

  /** The library functions the proxies call but the model does not define:
      `json.loads` (None where it raises JSONDecodeError), `json.dumps`,
      `str()` of a value that is not a string, and the text of the
      AttributeError that `.get` raises on a value that is not an object. */
  datatype Codec = Codec(
    loads: string -> Option<Json>,
    dumps: Json -> string,
    str: Json -> string,
    noGetError: Json -> string)

  /** `str(value)`: a string is its own text; anything else is rendered. */
  function PyStr(j: Json, codec: Codec): string {
    if j.JStr? then j.s else codec.str(j)
  }

  /** What the upstream chat API answered, as seen through `requests`:
      either the call raised before a status arrived, or a status, the whole
      body text (`resp.text`, used by non-streaming callers), the lines that
      `iter_lines` delivered (decoded), and whether iteration then raised
      (`failure` holds the exception's description). */
  datatype Upstream =
    | Unreachable(error: string)
    | Answered(status: int, text: string, lines: seq<string>, failure: Option<string>)

  /** What a Flask handler hands back. `ServerError` stands for an exception
      that escaped the handler, which Flask answers with status 500. */
  datatype Reply =
    | RawReply(status: int, text: string)
    | JsonReply(status: int, body: Json)
    | EventStream(frames: seq<string>)
    | ServerError
}
