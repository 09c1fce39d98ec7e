/** The loosely typed values the source moves around (`any` fields of API responses) and the
    three JavaScript conversions it applies to them: template-literal text, truthiness
    (`x || d`) and loose comparison with `undefined` (`x != undefined ? x : d`). */
module JsValue {
  import opened Wrappers
  import opened Text

  /** Numbers are integral here: every count the core prints is. */
  datatype Val = Undefined | Null | Num(n: int) | Str(s: string)

  /** The text of `${v}`. */
  function Show(v: Val): string
  {
    match v
    case Undefined => "undefined"
    case Null => "null"
    case Num(n) => IntToString(n)
    case Str(s) => s
  }

  predicate Truthy(v: Val)
  {
    match v
    case Undefined => false
    case Null => false
    case Num(n) => n != 0
    case Str(s) => s != ""
  }

  /** `v || d`. */
  function Or(v: Val, d: Val): (r: Val)
    ensures Truthy(v) ==> r == v
    ensures !Truthy(v) ==> r == d
  {
    if Truthy(v) then v else d
  }

  /** `v != undefined ? v : d`; loose inequality also treats `null` as undefined. */
  function DefinedOr(v: Val, d: Val): (r: Val)
    ensures (v == Undefined || v == Null) ==> r == d
    ensures !(v == Undefined || v == Null) ==> r == v
  {
    if v.Undefined? || v.Null? then d else v
  }

  /** A JSON object with arbitrary keys, such as a hitting line or a stats group. */
  type StatMap = map<string, Val>

  /** `m?.key` on an object that may itself be undefined. */
  function Field(m: Option<StatMap>, key: string): Val
  {
    match m
    case None => Undefined
    case Some(o) => if key in o then o[key] else Undefined
  }

  /** `Object.keys(m).length > 0`. */
  predicate HasKeys(m: StatMap)
  {
    |m| > 0
  }

  /** An optional typed string field as a loose value. */
  function OfStr(o: Option<string>): Val
  {
    match o
    case None => Undefined
    case Some(s) => Str(s)
  }

  function OfInt(o: Option<int>): Val
  {
    match o
    case None => Undefined
    case Some(n) => Num(n)
  }

  /** `s || ""` for an optional string field. */
  function StrOrEmpty(o: Option<string>): (r: string)
    ensures o.Some? ==> r == o.value
    ensures o.None? ==> r == ""
  {
    match o
    case None => ""
    case Some(s) => s
  }

  /** `n || 0` for an optional numeric field. */
  function IntOrZero(o: Option<int>): (r: int)
    ensures o.Some? ==> r == o.value
    ensures o.None? ==> r == 0
  {
    match o
    case None => 0
    case Some(n) => n
  }
}
