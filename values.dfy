/**
  The decoded data that travels between the client and the server: what the
  CBOR decoder hands back and what the caller passes as parameters. Only the
  shapes the connection looks at are distinguished.
*/
module Values {

  datatype Value =
    | Null                                   // Python None
    | Bool(b: bool)
    | Int(i: int)
    | Text(s: string)
    | List(items: seq<Value>)
    | Dict(entries: map<string, Value>)
    | Record(table: string, ident: string)   // a RecordID
    | TableRef(name: string)                 // a Table

  /** Python truthiness, as used by `if self.token:`. */
  predicate Truthy(v: Value) {
    match v
    case Null => false
    case Bool(b) => b
    case Int(i) => i != 0
    case Text(s) => s != ""
    case List(items) => items != []
    case Dict(entries) => entries != map[]
    case Record(_, _) => true
    case TableRef(_) => true
  }

  /** `dict.get(key)`: the bound value, or None when the key is absent. */
  function Get(m: map<string, Value>, key: string): (v: Value)
    ensures key in m ==> v == m[key]
    ensures key !in m ==> v == Null
  {
    if key in m then m[key] else Null
  }

  function DigitChar(d: nat): char
    requires d < 10
  {
    "0123456789"[d]
  }

  /** Decimal digits of a natural number, most significant first. */
  function Digits(n: nat): string
    decreases n
  {
    if n < 10 then [DigitChar(n)] else Digits(n / 10) + [DigitChar(n % 10)]
  }

  /**
    Python's `str(v)`, which the connection uses to render a token. Exact for
    None, booleans, integers and strings; a record reference is rendered as
    `table:id`, a table reference by its name, and lists and dictionaries by a
    fixed placeholder.
  */
  function Render(v: Value): (r: string)
    ensures v.Text? ==> r == v.s
  {
    match v
    case Null => "None"
    case Bool(b) => if b then "True" else "False"
    case Int(i) => if i < 0 then "-" + Digits(-i) else Digits(i)
    case Text(s) => s
    case List(_) => "[...]"
    case Dict(_) => "{...}"
    case Record(t, id) => t + ":" + id
    case TableRef(name) => name
  }
}
