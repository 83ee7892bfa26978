/**
 * The Python values that flow through the bot: decoded JSON bodies, homework
 * records, the cursor. A dictionary is a map from its string keys; only lookup
 * is ever done on one, so insertion order is not kept.
 */
module Values {

  datatype Value =
    | JNull
    | JBool(b: bool)
    | JInt(i: int)
    | JStr(s: string)
    | JList(items: seq<Value>)
    | JDict(fields: map<string, Value>)

  /** Python truthiness: `None`, `False`, `0` and empty containers are false. */
  predicate Truthy(v: Value)
  {
    match v
    case JNull => false
    case JBool(b) => b
    case JInt(i) => i != 0
    case JStr(s) => s != ""
    case JList(items) => items != []
    case JDict(fields) => fields != map[]
  }

  /** `d.get(key, default)` on a dictionary. */
  function Get(fields: map<string, Value>, key: string, default: Value): Value
  {
    if key in fields then fields[key] else default
  }

  /** Decimal digits of a natural number. */
  function NatText(n: nat): string
    decreases n
  {
    var digit := "0123456789"[n % 10];
    if n < 10 then [digit] else NatText(n / 10) + [digit]
  }

  /**
   * `str(v)`, as an f-string interpolates it. Strings, numbers, `None` and
   * booleans are rendered as Python renders them; a list or dictionary is
   * rendered as a fixed placeholder.
   */
  function Str(v: Value): string
  {
    match v
    case JNull => "None"
    case JBool(b) => if b then "True" else "False"
    case JInt(i) => if i < 0 then "-" + NatText(-i) else NatText(i)
    case JStr(s) => s
    case JList(_) => "[...]"
    case JDict(_) => "{...}"
  }
}
