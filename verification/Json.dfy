/** JSON values with the accessors of serde_json, and the printer/parser pair the program relies on. */
module Json {
  import opened Wrappers

  type U32 = n: nat | n < 0x1_0000_0000
  type U64 = n: nat | n < 0x1_0000_0000_0000_0000

  /** What a JSON integer can be: an `i64` or a `u64`. */
  type Integer = n: int | -0x8000_0000_0000_0000 <= n < 0x1_0000_0000_0000_0000

  /** An `f64` by its bits; all exponent bits are set in infinities and in values that are not numbers. */
  predicate IsFinite(bits: U64) {
    (bits / 0x10_0000_0000_0000) % 0x800 != 0x7ff
  }

  /** By sign, exponent and fraction: only the exponent 0x7ff is not finite. */
  lemma FiniteByExponent(sign: nat, exponent: nat, fraction: nat)
    requires sign <= 1 && exponent <= 0x7ff && fraction < 0x10_0000_0000_0000
    ensures var bits := sign * 0x8000_0000_0000_0000 + exponent * 0x10_0000_0000_0000 + fraction;
            bits < 0x1_0000_0000_0000_0000 && (IsFinite(bits) <==> exponent != 0x7ff)
  {
    var bits := sign * 0x8000_0000_0000_0000 + exponent * 0x10_0000_0000_0000 + fraction;
    assert bits / 0x10_0000_0000_0000 == sign * 0x800 + exponent;
  }

  /** A JSON number that is not an integer. */
  type Double = bits: U64 | IsFinite(bits)

  datatype Json =
    | Null
    | Bool(flag: bool)
    | Int(n: Integer)
    | Float(bits: Double)
    | Str(text: string)
    | Arr(items: seq<Json>)
    | Obj(fields: map<string, Json>)

  /** `value["key"]`: null where there is nothing to index. */
  function At(j: Json, key: string): Json {
    if j.Obj? && key in j.fields then j.fields[key] else Null
  }

  /** `value[i]`. */
  function Item(j: Json, i: nat): Json {
    if j.Arr? && i < |j.items| then j.items[i] else Null
  }

  /** `value.get("key")`. */
  function Get(j: Json, key: string): Option<Json> {
    if j.Obj? && key in j.fields then Some(j.fields[key]) else None
  }

  /** `value.get(i)`. */
  function GetItem(j: Json, i: nat): Option<Json> {
    if j.Arr? && i < |j.items| then Some(j.items[i]) else None
  }

  function AsStr(j: Json): Option<string> {
    if j.Str? then Some(j.text) else None
  }

  function AsArr(j: Json): Option<seq<Json>> {
    if j.Arr? then Some(j.items) else None
  }

  function AsU64(j: Json): Option<U64> {
    if j.Int? && 0 <= j.n then Some(j.n) else None
  }

  /** `json!` of a float: null unless it is finite. */
  function OfF64(bits: U64): Json {
    if IsFinite(bits) then Float(bits) else Null
  }

  /** `as u32`. */
  function ToU32(n: nat): U32 {
    n % 0x1_0000_0000
  }

  /** The text form of JSON: `to_string` and `from_str`. */
  datatype Codec = Codec(show: Json -> string, parse: string -> Option<Json>)

  /** The end marker of a stream is not JSON. */
  predicate EndIsNoJson(c: Codec) {
    c.parse("[DONE]").None?
  }

  /** `serde_json::from_str(text).unwrap_or(json!({}))`. */
  function ParseOrEmpty(c: Codec, text: string): Json {
    c.parse(text).GetOr(Obj(map[]))
  }
}
