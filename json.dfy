/**
 * A small model of serde_json's `Value`, with the accessors the source uses
 * (`value[key]`, `as_str`, `as_u64`, `as_object`) and the conversion of an
 * i64 into a JSON number.
 */
module Json {
  import opened Wrappers
  import opened Numbers

  /** serde_json keeps an integer as unsigned when it is not negative. */
  datatype Number = UInt(u: nat) | NegInt(i: int) | Float(x: real)

  datatype Json =
    | Null
    | Bool(b: bool)
    | Num(n: Number)
    | Str(s: string)
    | Arr(items: seq<Json>)
    | Obj(fields: map<string, Json>)

  /** `value[key]` on a `Value`: `Null` unless `value` is an object holding `key`. */
  function Field(j: Json, key: string): (r: Json)
    ensures j.Obj? && key in j.fields ==> r == j.fields[key]
    ensures !(j.Obj? && key in j.fields) ==> r == Null
  {
    if j.Obj? && key in j.fields then j.fields[key] else Null
  }

  function AsStr(j: Json): (r: Option<string>)
    ensures r.Some? <==> j.Str?
    ensures r.Some? ==> j == Str(r.value)
  {
    if j.Str? then Some(j.s) else None
  }

  function AsU64(j: Json): (r: Option<u64>)
    ensures r.Some? <==> j.Num? && j.n.UInt? && j.n.u < U64_LIMIT
    ensures r.Some? ==> j == Num(UInt(r.value))
  {
    if j.Num? && j.n.UInt? && j.n.u < U64_LIMIT then Some(j.n.u) else None
  }

  function AsObject(j: Json): (r: Option<map<string, Json>>)
    ensures r.Some? <==> j.Obj?
    ensures r.Some? ==> j == Obj(r.value)
  {
    if j.Obj? then Some(j.fields) else None
  }

  /** `json!` of an i64. */
  function FromI64(x: i64): (r: Json)
    ensures x >= 0 ==> r == Num(UInt(x))
    ensures x < 0 ==> r == Num(NegInt(x))
  {
    if x >= 0 then Num(UInt(x)) else Num(NegInt(x))
  }
}
