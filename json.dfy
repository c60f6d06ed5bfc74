/**
 * JSON values as the editor host's `encode_value` / `decode_value` see them.
 * Numbers are integers only; floating point is not part of this model.
 */
module Json {

  datatype Json =
    | Null
    | Bool(b: bool)
    | Num(n: int)
    | Str(s: string)
    | Arr(items: seq<Json>)
    | Obj(fields: map<string, Json>)

  /** The empty object `{}` that variables start as. */
  const EmptyObject: Json := Obj(map[])

  /**
   * Python's `b == v` for a boolean `b` and a decoded JSON value `v`:
   * `True == 1` and `False == 0` hold in Python, every other non-boolean differs.
   */
  function BoolEquals(b: bool, v: Json): bool {
    match v
    case Bool(x) => x == b
    case Num(n) => n == (if b then 1 else 0)
    case _ => false
  }
}
