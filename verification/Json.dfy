/** JSON documents as `json.loads` gives them. */
module Json {
  datatype Value =
    | Null
    | Bool(b: bool)
    | Int(n: int)
    | Float(x: real)
    | Str(s: string)
    | Arr(items: seq<Value>)
    | Obj(fields: map<string, Value>)

  /** `dict.get(key)`: a missing key reads as `None`. */
  function Get(v: Value, key: string): Value
    requires v.Obj?
  {
    if key in v.fields then v.fields[key] else Null
  }

  /** `v == n` for a Python integer `n`: a float of the same value and `True` for one count as equal. */
  predicate EqualsInt(v: Value, n: int) {
    match v
    case Int(m) => m == n
    case Float(x) => x == n as real
    case Bool(b) => (if b then 1 else 0) == n
    case _ => false
  }

  /** Whether Python can hash the value, as a set or dictionary needs. */
  predicate Hashable(v: Value) {
    !v.Arr? && !v.Obj?
  }

  /** Whether the value counts as true in `v or default`. */
  predicate Truthy(v: Value) {
    match v
    case Null => false
    case Bool(b) => b
    case Int(n) => n != 0
    case Float(x) => x != 0.0
    case Str(s) => s != ""
    case Arr(items) => items != []
    case Obj(fields) => fields != map[]
  }

  function Strings(texts: seq<string>): (v: Value)
    ensures v.Arr? && |v.items| == |texts|
    ensures forall i | 0 <= i < |texts| :: v.items[i] == Str(texts[i])
  {
    Arr(seq(|texts|, i requires 0 <= i < |texts| => Str(texts[i])))
  }
}
