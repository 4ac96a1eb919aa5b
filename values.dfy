/** Python values as they flow through the metadata dicts. */
module Values {

  datatype Option<+T> = None | Some(value: T)

  /** A Python value. The metadata dicts only ever have string keys. Any other
      object (a float, a `Decimal`, a date, a set, a lazy translation string, a
      model instance) is opaque: it is told apart from the others by its
      identity, and carries what `bool()` says of it and whether it can be
      hashed (a set cannot). */
  datatype Value =
    | Null
    | Bool(b: bool)
    | Int(i: int)
    | Str(s: string)
    | List(items: seq<Value>)
    | Dict(entries: map<string, Value>)
    | Obj(id: nat, truthy: bool, hashable: bool)

  /** Python truthiness, `bool(v)`. */
  predicate Truthy(v: Value) {
    match v
    case Null => false
    case Bool(b) => b
    case Int(i) => i != 0
    case Str(s) => s != ""
    case List(items) => items != []
    case Dict(entries) => entries != map[]
    case Obj(_, t, _) => t
  }

  /** Key `k` of `m` holds `o`'s value when `o` is Some, and is absent when `o` is None. */
  predicate OptEntry(m: map<string, Value>, k: string, o: Option<Value>) {
    if o.Some? then k in m && m[k] == o.value else k !in m
  }
}
