/** Dynamically typed values (Go's `interface{}` / `any` as the configuration
    reader and the JSON codec see them) and the configuration reader. */
module Values {
  import opened Wrappers

  /** A JSON-like dynamic value. `VNull` is JSON `null` (Go's `nil`);
      `VOpaque` stands for a Go value that has no JSON encoding (a func, a
      chan): `json.Marshal` fails on it. */
  datatype Value =
    | VNull
    | VStr(s: string)
    | VInt(i: int)
    | VBool(b: bool)
    | VList(items: seq<Value>)
    | VMap(entries: map<string, Value>)
    | VOpaque(tag: string)

  /** `json.Marshal` succeeds exactly on values without an opaque part. */
  predicate Marshalable(v: Value)
  {
    match v
    case VList(items) => forall i | 0 <= i < |items| :: Marshalable(items[i])
    case VMap(entries) => forall k | k in entries :: Marshalable(entries[k])
    case VOpaque(_) => false
    case _ => true
  }

  /** The configuration as the application reads it: dotted keys to values. */
  type Config = map<string, Value>

  /** `GetString`: the string under `key`, `""` when absent or not a string. */
  function GetString(cfg: Config, key: string): (r: string)
    ensures key !in cfg ==> r == ""
  {
    if key in cfg && cfg[key].VStr? then cfg[key].s else ""
  }

  /** `GetInt`: the integer under `key`, `0` when absent or not an integer. */
  function GetInt(cfg: Config, key: string): (r: int)
    ensures key !in cfg ==> r == 0
  {
    if key in cfg && cfg[key].VInt? then cfg[key].i else 0
  }

  /** `GetBool`: the boolean under `key`, `false` when absent or not a boolean. */
  function GetBool(cfg: Config, key: string): (r: bool)
    ensures key !in cfg ==> !r
  {
    key in cfg && cfg[key].VBool? && cfg[key].b
  }

  /** `GetStringMap`: the section under `key`, empty when absent. */
  function GetStringMap(cfg: Config, key: string): (r: map<string, Value>)
    ensures key !in cfg ==> r == map[]
  {
    if key in cfg && cfg[key].VMap? then cfg[key].entries else map[]
  }

  /** `GetSliceOfObjects`: the list under `key`, empty when absent. */
  function GetSlice(cfg: Config, key: string): (r: seq<Value>)
    ensures key !in cfg ==> r == []
  {
    if key in cfg && cfg[key].VList? then cfg[key].items else []
  }

  /** The `if v == 0 { v = default }` of the configuration readers. */
  function OrDefault(v: int, default: int): (r: int)
    ensures v == 0 ==> r == default
    ensures v != 0 ==> r == v
  {
    if v == 0 then default else v
  }

  /** The panic of a failed Go type assertion on a dynamic value. */
  const InterfaceConversion: string := "interface conversion"

  /** The entry `name` of a configuration object, as `v.(map[string]interface{})[name]`. */
  function Field(v: Value, name: string): Option<Value>
  {
    if v.VMap? && name in v.entries then Some(v.entries[name]) else None
  }

  predicate HasString(v: Value, name: string)
  {
    Field(v, name).Some? && Field(v, name).value.VStr?
  }

  predicate HasBool(v: Value, name: string)
  {
    Field(v, name).Some? && Field(v, name).value.VBool?
  }

  function StringField(v: Value, name: string): string
    requires HasString(v, name)
  {
    Field(v, name).value.s
  }

  function BoolField(v: Value, name: string): bool
    requires HasBool(v, name)
  {
    Field(v, name).value.b
  }

  // 64-bit arithmetic of Go's `int`, `int64` and `time.Duration`

  const TwoTo64: int := 0x1_0000_0000_0000_0000
  const MaxInt64: int := 0x7FFF_FFFF_FFFF_FFFF
  const MinInt64: int := -0x8000_0000_0000_0000

  predicate IsInt64(x: int) { MinInt64 <= x <= MaxInt64 }

  /** Two's complement wrap-around of a signed 64-bit result. */
  function Wrap64(x: int): (r: int)
    ensures IsInt64(r)
    ensures IsInt64(x) ==> r == x
  {
    var m := x % TwoTo64;
    if m <= MaxInt64 then m else m - TwoTo64
  }

  /** `uint64(n)` for a signed 64-bit `n`. */
  function ToUint64(n: int): (r: int)
    requires IsInt64(n)
    ensures 0 <= r < TwoTo64
    ensures n >= 0 ==> r == n
    ensures n < 0 ==> r == n + TwoTo64
  {
    n % TwoTo64
  }
}
