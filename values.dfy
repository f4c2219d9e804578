/** The Ruby values that flow through the audit: a normalized row is a Hash
    from attribute name to one of these. */
module Values {

  datatype Value =
    | Nil
    | Bool(b: bool)
    | Str(s: string)
    | Sym(name: string)
      /** Any other plain object (Integer, Float, ...), known through its `to_s`. */
    | Scalar(text: string)
    | TimeV(instant: int)
    | DateTimeV(at: int)
      /** A calendar Date, as a day number counted from 1970-01-01. */
    | DateV(day: int)
    | Arr(items: seq<Value>)
      /** A Hash keeps insertion order; keys are held as their `to_s`. */
    | Hash(entries: seq<(string, Value)>)

  /** A normalized record: attribute name to value. */
  type Row = map<string, Value>

  /** `row[key]`: a missing key reads as nil. */
  function Get(row: Row, key: string): (v: Value)
    ensures key !in row ==> v == Nil
  {
    if key in row then row[key] else Nil
  }

  /** Ruby truthiness: everything except nil and false. */
  predicate Truthy(v: Value) {
    !(v.Nil? || v == Bool(false))
  }

  /** Ruby's `a || b`. */
  function Or(a: Value, b: Value): (r: Value)
    ensures Truthy(a) ==> r == a
    ensures !Truthy(a) ==> r == b
  {
    if Truthy(a) then a else b
  }

  /** `to_s` for the values whose text the audit compares. Times, dates,
      arrays and hashes render as the empty text here. */
  function ToS(v: Value): string {
    match v
    case Nil => ""
    case Bool(b) => if b then "true" else "false"
    case Str(s) => s
    case Sym(name) => name
    case Scalar(text) => text
    case _ => ""
  }
}
