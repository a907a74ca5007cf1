/** JSON-like configuration values: what `json.load` / `yaml.safe_load`
    produce and what the configuration dictionaries hold. Python keeps the
    insertion order of dict keys; a `map` does not, so key order is not part
    of this model. Python's `int` and `float` are kept apart as `Int` and
    `Num`. */
module Values {
  import opened Seqs

  datatype Value =
    | Null
    | Bool(b: bool)
    | Int(i: int)
    | Num(r: real)
    | Str(s: string)
    | List(items: seq<Value>)
    | Dict(entries: map<string, Value>)

  /** The numeric value of an `int` or a `float`; `None` for anything else. */
  function AsNumber(v: Value): (r: Option<real>)
    ensures r.Some? <==> v.Int? || v.Num?
    ensures v.Int? ==> r == Some(v.i as real)
    ensures v.Num? ==> r == Some(v.r)
  {
    match v
    case Int(i) => Some(i as real)
    case Num(r) => Some(r)
    case _ => None
  }
}
