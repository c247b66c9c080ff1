/** Dynamically typed Python values as the model sees them: JSON decoded from
    the orchestra API, form `cleaned_data`, template contexts. Numbers are
    exact rationals; Python's float rounding is not modelled. */
module PyValues {
  import Numerals
  import opened Wrappers

  type Pos = n: int | n > 0 witness 1

  /** An exact rational number `num / den`. */
  datatype Rat = Rat(num: int, den: Pos)

  function IntRat(n: int): Rat { Rat(n, 1) }

  /** A server of the orchestration layer (`Server` model): id and name. */
  datatype Server = Server(id: int, name: string)

  datatype Value =
    | VNone
    | VBool(b: bool)
    | VNum(r: Rat)
    | VStr(s: string)
    | VList(items: seq<Value>)
    | VDict(entries: map<string, Value>)
    | VServer(server: Server)
    | VObject(kind: string, attrs: map<string, Value>)

  /** The Python exceptions the modelled code raises or lets escape. */
  datatype Exception =
    | KeyError(key: string)
    | ValueError(message: string)
    | IndexError(message: string)
    | TypeError(message: string)
    | AttributeError(message: string)
    | AssertionError
    | NoReverseMatch(message: string)
    | DoesNotExist(message: string)
    | HttpError(status: int)
    | ValidationError(message: string)

  /** Python truthiness (`bool(v)`); model objects are always truthy. */
  predicate Truthy(v: Value) {
    match v
    case VNone => false
    case VBool(b) => b
    case VNum(r) => r.num != 0
    case VStr(s) => s != ""
    case VList(items) => items != []
    case VDict(entries) => entries != map[]
    case VServer(_) => true
    case VObject(_, _) => true
  }

  /** The numeric view Python arithmetic takes of a value (`bool` is an `int`);
      `None` for values on which `/` raises TypeError. */
  function AsNumber(v: Value): Option<Rat> {
    match v
    case VNum(r) => Some(r)
    case VBool(b) => Some(if b then IntRat(1) else IntRat(0))
    case _ => None
  }

  /** `str(v)` for the values that reach string templates. Fractions are
      written num/den (Python's float repr is not modelled); a server prints
      as its name. */
  function Str(v: Value): string {
    match v
    case VNone => "None"
    case VBool(b) => if b then "True" else "False"
    case VNum(r) =>
      if r.den == 1 then Numerals.IntToString(r.num)
      else Numerals.IntToString(r.num) + "/" + Numerals.IntToString(r.den)
    case VStr(s) => s
    case VList(_) => "[...]"
    case VDict(_) => "{...}"
    case VServer(sv) => sv.name
    case VObject(kind, _) => "<" + kind + ">"
  }
}
