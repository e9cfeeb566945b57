/**
 * Decoded JSON values as PHP sees them after `json_decode($s, true)`, together
 * with the three PHP value tests the source leans on: truthiness (`if ($x)`),
 * `isset` of an array member, and loose equality (`==`) against a string.
 */
module PhpValues {

  /**
   * A decoded JSON value. Objects become string-keyed arrays (`JObject`), JSON
   * arrays become lists. Floating-point numbers are not modelled.
   */
  datatype Json =
    | JNull
    | JBool(b: bool)
    | JInt(i: int)
    | JStr(s: string)
    | JList(items: seq<Json>)
    | JObject(fields: map<string, Json>)

  /** PHP truthiness of a string: only "" and "0" are falsy. */
  predicate TruthyText(s: string) {
    s != "" && s != "0"
  }

  /** PHP truthiness of a decoded value, the test behind `if ($x)` and `!$x`. */
  predicate Truthy(v: Json) {
    match v
    case JNull => false
    case JBool(b) => b
    case JInt(i) => i != 0
    case JStr(s) => TruthyText(s)
    case JList(items) => |items| > 0
    case JObject(fields) => |fields| > 0
  }

  /**
   * Reading `$v[$key]`: the member's value, or null when `$v` is not a
   * string-keyed array or has no such key.
   */
  function Member(v: Json, key: string): Json
  {
    if v.JObject? && key in v.fields then v.fields[key] else JNull
  }

  /** `isset` of a member read with `Member`: present and not null. */
  predicate IsSet(v: Json) {
    !v.JNull?
  }

  /**
   * PHP 8 loose equality `$v == $text` for a `text` that is not a numeric
   * string (such as 'active' or an IP literal): strings compare as strings,
   * booleans against the text's truthiness, null against the empty string, and
   * integers and arrays never match.
   */
  predicate LooseEqualsText(v: Json, text: string) {
    match v
    case JNull => text == ""
    case JBool(b) => b == TruthyText(text)
    case JInt(_) => false
    case JStr(s) => s == text
    case JList(_) => false
    case JObject(_) => false
  }
}
