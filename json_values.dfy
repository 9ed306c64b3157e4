/**
 * JSON values as Python's `json.loads` hands them to the scripts: dicts,
 * lists, strings, integers, booleans and `None`.  Objects are maps, so the
 * insertion order of their keys is not kept.
 */
module JsonValues {
  import opened PyText

  datatype Json =
    | JNull
    | JBool(b: bool)
    | JNum(n: int)
    | JStr(s: string)
    | JArr(items: seq<Json>)
    | JObj(fields: map<string, Json>)

  type JsonObject = map<string, Json>

  /** The outcome of `json.loads`: a value, or the text of a `JSONDecodeError`. */
  datatype ParseResult = Parsed(value: Json) | DecodeError(message: string)

  /** `json.loads` is not modelled: every operation that parses takes it as a parameter. */
  type JsonParser = string -> ParseResult

  /** Python truthiness, as in `if actions:`. */
  predicate Truthy(j: Json) {
    match j
    case JNull => false
    case JBool(b) => b
    case JNum(n) => n != 0
    case JStr(s) => s != ""
    case JArr(xs) => xs != []
    case JObj(m) => m != map[]
  }

  /** `o.get(key, default)`. */
  function Get(o: JsonObject, key: string, default: Json): Json {
    if key in o then o[key] else default
  }

  /**
   * `str(v)` as an f-string renders a value.  Scalars are rendered as Python
   * does; lists and dicts are rendered by a placeholder.
   */
  function PyStr(j: Json): string {
    match j
    case JNull => "None"
    case JBool(b) => if b then "True" else "False"
    case JNum(n) => IntToDecimal(n)
    case JStr(s) => s
    case JArr(_) => "[...]"
    case JObj(_) => "{...}"
  }

  /** `type(v).__name__`. */
  function PyTypeName(j: Json): string {
    match j
    case JNull => "NoneType"
    case JBool(_) => "bool"
    case JNum(_) => "int"
    case JStr(_) => "str"
    case JArr(_) => "list"
    case JObj(_) => "dict"
  }

  /** The text of the `AttributeError` raised by `v.attr` on a value that lacks it. */
  function NoAttribute(j: Json, attr: string): string {
    "'" + PyTypeName(j) + "' object has no attribute '" + attr + "'"
  }
}
