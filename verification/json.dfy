/** A decoded JSON document, as `response.json()` hands it to the bot, and Python's `str()` of it. */
module Json {
  import Decimal

  /** JSON objects decode to `dict`, arrays to `list`, `null` to `None`. */
  datatype Value =
    | Null
    | Bool(b: bool)
    | Number(n: int)
    | Str(s: string)
    | Array(items: seq<Value>)
    | Object(fields: map<string, Value>)

  /** Joins `parts` with `sep` between neighbours, as Python's `sep.join(parts)`. */
  function Join(parts: seq<string>, sep: string): string
  {
    if |parts| == 0 then ""
    else if |parts| == 1 then parts[0]
    else parts[0] + sep + Join(parts[1..], sep)
  }

  /** Python's `str(v)`, which an f-string interpolates. */
  function Show(v: Value): string
    decreases v, 1
  {
    match v
    case Null => "None"
    case Bool(b) => if b then "True" else "False"
    case Number(n) => Decimal.FromInt(n)
    case Str(s) => s
    case Array(items) =>
      "[" + Join(seq(|items|, i requires 0 <= i < |items| => Repr(items[i])), ", ") + "]"
    case Object(_) => "{...}"
  }

  /** Python's `repr(v)`, used for the elements of a list. */
  function Repr(v: Value): string
    decreases v, 2
  {
    if v.Str? then "'" + v.s + "'" else Show(v)
  }

  /** `key in d` for a decoded dict. */
  predicate HasKey(v: Value, key: string) {
    v.Object? && key in v.fields
  }
}
