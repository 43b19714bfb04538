/**
 * Decoded JSON values as the Go client sees them after `json.Unmarshal`
 * into `interface{}`: numbers are (unbounded-precision) reals standing for
 * float64, objects are maps.  The two Go idioms the client relies on are
 * modelled here: the checked type assertion `v.(string)` /
 * `v.(map[string]interface{})` / `v.(float64)` on a map lookup, and the
 * conversion `int(x)` of a float, which truncates toward zero.
 */
module JsonValues {
  import opened Wrappers

  datatype Json =
    | JNull
    | JBool(b: bool)
    | JNum(n: real)
    | JStr(s: string)
    | JArr(items: seq<Json>)
    | JObj(fields: map<string, Json>)

  /** `v, ok := m[k]`: present keys only, whatever their value (JSON null included). */
  function Field(m: map<string, Json>, k: string): (r: Option<Json>)
    ensures r.Some? <==> k in m
    ensures r.Some? ==> r.value == m[k]
  {
    if k in m then Some(m[k]) else None
  }

  /** `s, ok := m[k].(string)`. */
  function StringField(m: map<string, Json>, k: string): (r: Option<string>)
    ensures r.Some? <==> k in m && m[k].JStr?
    ensures r.Some? ==> m[k] == JStr(r.value)
  {
    if k in m && m[k].JStr? then Some(m[k].s) else None
  }

  /** `x, ok := m[k].(float64)`. */
  function NumberField(m: map<string, Json>, k: string): (r: Option<real>)
    ensures r.Some? <==> k in m && m[k].JNum?
    ensures r.Some? ==> m[k] == JNum(r.value)
  {
    if k in m && m[k].JNum? then Some(m[k].n) else None
  }

  /** `o, ok := m[k].(map[string]interface{})`; a JSON null is not a map. */
  function ObjectField(m: map<string, Json>, k: string): (r: Option<map<string, Json>>)
    ensures r.Some? <==> k in m && m[k].JObj?
    ensures r.Some? ==> m[k] == JObj(r.value)
  {
    if k in m && m[k].JObj? then Some(m[k].fields) else None
  }

  /**
   * `json.Unmarshal(body, &m)` with `m` of type `map[string]interface{}`:
   * an object decodes to its map, `null` succeeds and leaves the nil map
   * (every lookup then misses), anything else, or a body that is not JSON
   * (`None`), is an unmarshalling error.
   */
  function DecodeObject(json: Option<Json>): (r: Option<map<string, Json>>)
    ensures r.Some? <==> json.Some? && (json.value.JObj? || json.value.JNull?)
    ensures r.Some? && json.value.JObj? ==> r.value == json.value.fields
    ensures r.Some? && json.value.JNull? ==> r.value == map[]
  {
    match json
    case Some(JObj(m)) => Some(m)
    case Some(JNull) => Some(map[])
    case _ => None
  }

  /** Go's `int(x)` for a float: the integer part, rounding toward zero. */
  function Trunc(x: real): (n: int)
    ensures 0.0 <= x ==> 0 <= n && n as real <= x < n as real + 1.0
    ensures x < 0.0 ==> n <= 0 && n as real - 1.0 < x <= n as real
  {
    if 0.0 <= x then x.Floor else -((-x).Floor)
  }

  /** The KiB to GB conversion `int(m / 1024 / 1024)` on the reals. */
  function KibToGb(kib: real): int {
    Trunc(kib / 1024.0 / 1024.0)
  }

  /** For a whole, non-negative number of KiB the conversion is integer division by 1024 * 1024. */
  lemma KibToGbWhole(kib: nat)
    ensures KibToGb(kib as real) == kib / 1048576
  {
    var q, r := kib / 1048576, kib % 1048576;
    assert kib == q * 1048576 + r;
    assert kib as real / 1024.0 / 1024.0 == q as real + r as real / 1048576.0;
    assert 0.0 <= r as real / 1048576.0 < 1.0;
  }
}
