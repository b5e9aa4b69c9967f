/**
 * Keyword records as the phrase-analytics service returns them: JSON objects,
 * held as maps from field name to a scalar JSON value, and read with the
 * `dict.get(key, default)` idiom of the client.
 */
module Records {

  /** A scalar JSON value (Python `None`, `bool`, `int`, `float` or `str`). */
  datatype Value = Null | Bool(b: bool) | Int(i: int) | Real(r: real) | Str(s: string)

  /** One keyword candidate: field name to value. */
  type Record = map<string, Value>

  /** Python truthiness of a value. */
  predicate Truthy(v: Value) {
    match v
    case Null => false
    case Bool(b) => b
    case Int(i) => i != 0
    case Real(r) => r != 0.0
    case Str(s) => s != ""
  }

  /** Python's `v == k` for an integer literal `k`: true for the equal `int`, `float` or `bool`. */
  predicate NumEquals(v: Value, k: int) {
    match v
    case Int(i) => i == k
    case Real(r) => r == k as real
    case Bool(b) => (if b then 1 else 0) == k
    case _ => false
  }

  /** `kw.get(key, default)`. */
  function Get(kw: Record, key: string, default: Value): Value {
    if key in kw then kw[key] else default
  }

  /** `kw.get("destination_key") or kw.get("word", "")`: the value that identifies a candidate. */
  function PhraseValue(kw: Record): (v: Value)
    ensures "destination_key" in kw && Truthy(kw["destination_key"]) ==> v == kw["destination_key"]
    ensures !("destination_key" in kw && Truthy(kw["destination_key"])) ==>
      v == (if "word" in kw then kw["word"] else Str(""))
  {
    var key := Get(kw, "destination_key", Null);
    if Truthy(key) then key else Get(kw, "word", Str(""))
  }

  /** The phrase of a candidate as text; a phrase value that is not a string reads as "". */
  function Phrase(kw: Record): string {
    match PhraseValue(kw)
    case Str(s) => s
    case _ => ""
  }

  /**
   * `kw.get(key, default)` read as a number, for a comparison with an integer
   * bound: `int`, `float` and `bool` compare by value; a value Python could not
   * compare with an integer reads as the default.
   */
  function NumField(kw: Record, key: string, default: int): real {
    if key in kw then
      match kw[key]
      case Int(i) => i as real
      case Real(r) => r
      case Bool(b) => if b then 1.0 else 0.0
      case _ => default as real
    else default as real
  }
}
