/** The part of `serde_json::Value` the core navigates: indexing an object
    by key and the `as_str`, `as_array` and `as_u64` views. Numbers are
    modelled as integers only. */
module JsonValues {
  import opened Wrappers

  const U64_MAX: nat := 18446744073709551615

  datatype Json =
    | Null
    | Bool(b: bool)
    | Number(n: int)
    | Str(s: string)
    | Array(items: seq<Json>)
    | Object(fields: map<string, Json>)

  /** `value[key]`: the member under `key` of an object, and `Null` for a
      missing key or a value that is not an object. */
  function Index(v: Json, key: string): Json
  {
    if v.Object? && key in v.fields then v.fields[key] else Null
  }

  function AsStr(v: Json): Option<string>
  {
    if v.Str? then Some(v.s) else None
  }

  function AsArray(v: Json): Option<seq<Json>>
  {
    if v.Array? then Some(v.items) else None
  }

  /** A number that fits an unsigned 64-bit integer. */
  function AsU64(v: Json): Option<nat>
  {
    if v.Number? && 0 <= v.n <= U64_MAX then Some(v.n) else None
  }
}
