/** JSON values as the engine sees them after decoding, and the Go idioms used to read them. */
module Json {
  datatype Option<+T> = None | Some(value: T)

  datatype Json =
    | Null
    | Bool(b: bool)
    | Num(n: real)
    | Str(s: string)
    | Arr(xs: seq<Json>)
    | Obj(m: Dict)

  type Dict = map<string, Json>

  /** Indexing a Go map: a missing key reads as nil. */
  function Get(m: Dict, key: string): Json {
    if key in m then m[key] else Null
  }

  /** The comma-ok type assertion to a map, with nil (here: empty) when it fails. */
  function AsObj(v: Json): Dict {
    if v.Obj? then v.m else map[]
  }

  function AsStr(v: Json): string {
    if v.Str? then v.s else ""
  }

  /** Conversion of a float to an integer truncates toward zero. */
  function Trunc(r: real): int {
    if r >= 0.0 then r.Floor else -((-r).Floor)
  }

  function AsInt(v: Json): int {
    if v.Num? then Trunc(v.n) else 0
  }

  function HasPrefix(s: string, prefix: string): bool {
    prefix <= s
  }
}
