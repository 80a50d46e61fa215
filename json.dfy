// JSON values as the pipeline's manifests and batch files hold them, with the Python
// operations the code applies to them (`dict.get`, truthiness, `str()`).
module Json {
  import opened PyStrings
  import Optional

  /** A JSON value; lists only ever hold procedure names in this system. */
  datatype Value = Null | Str(s: string) | Int(i: int) | Bool(b: bool) | Names(names: seq<string>)

  /** A JSON object such as one manifest file entry. */
  type Entry = map<string, Value>

  /** `e.get(k)`: `None` for a missing key. */
  function Get(e: Entry, k: string): (v: Value)
    ensures k !in e ==> v == Null
  {
    if k in e then e[k] else Null
  }

  /** `e.get(k, d)` */
  function GetOr(e: Entry, k: string, d: Value): (v: Value)
    ensures k !in e ==> v == d
  {
    if k in e then e[k] else d
  }

  /** Python truthiness of a JSON value. */
  predicate Truthy(v: Value) {
    match v
    case Null => false
    case Str(s) => s != ""
    case Int(i) => i != 0
    case Bool(b) => b
    case Names(ns) => ns != []
  }

  function IntText(i: int): string {
    if i < 0 then "-" + ToDecimal(-i) else ToDecimal(i)
  }

  function QuoteEach(ns: seq<string>): (r: seq<string>)
    ensures |r| == |ns|
  {
    seq(|ns|, i requires 0 <= i < |ns| => "'" + ns[i] + "'")
  }

  /** `str(v)` */
  function Text(v: Value): string {
    match v
    case Null => "None"
    case Str(s) => s
    case Int(i) => IntText(i)
    case Bool(b) => if b then "True" else "False"
    case Names(ns) => "[" + Join(", ", QuoteEach(ns)) + "]"
  }

  /** `(v or "")` read as text. */
  function TextOrEmpty(v: Value): (r: string)
    ensures !Truthy(v) ==> r == ""
    ensures v.Str? ==> r == v.s
  {
    if Truthy(v) then Text(v) else ""
  }

  /** A Python value that is a string or `None`, as a JSON value. */
  function OfOption(o: Optional.Option<string>): (v: Value)
    ensures o.None? <==> v == Null
  {
    match o
    case None => Null
    case Some(s) => Str(s)
  }
}
