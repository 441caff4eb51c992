/**
 * JSON values as the server receives and returns them (request bodies are
 * parsed by `express.json()`). Numbers are JavaScript numbers without NaN and
 * the infinities; an object is a map from member names to values (member order
 * is not modelled).
 */
module Json {
  import opened Wrappers

  datatype Json =
    | JNull
    | JBool(b: bool)
    | JNum(n: real)
    | JStr(s: string)
    | JArr(items: seq<Json>)
    | JObj(members: map<string, Json>)

  /** JavaScript truthiness of a present value. */
  predicate Truthy(j: Json) {
    match j
    case JNull => false
    case JBool(b) => b
    case JNum(n) => n != 0.0
    case JStr(s) => s != ""
    case _ => true
  }

  /** JavaScript truthiness of a possibly absent (`undefined`) value. */
  predicate TruthyOpt(j: Option<Json>) {
    j.Some? && Truthy(j.value)
  }

  /** `x || {}`: an absent or falsy value is replaced by the empty object. */
  function OrEmpty(j: Option<Json>): (r: Json)
    ensures TruthyOpt(j) ==> r == j.value
    ensures !TruthyOpt(j) ==> r == JObj(map[])
  {
    if TruthyOpt(j) then j.value else JObj(map[])
  }

  /** `obj.key` on an object; every other value has no members. */
  function Member(j: Json, key: string): (r: Option<Json>)
    ensures r.Some? <==> j.JObj? && key in j.members
  {
    if j.JObj? && key in j.members then Some(j.members[key]) else None
  }

  /** The object literal `{k1: v1, k2: v2}`. */
  function Object2(k1: string, v1: Json, k2: string, v2: Json): (j: Json)
    requires k1 != k2
    ensures j.JObj? && j.members.Keys == {k1, k2}
    ensures Member(j, k1) == Some(v1) && Member(j, k2) == Some(v2)
  {
    JObj(map[k1 := v1, k2 := v2])
  }

  /** Whether a JavaScript number is an integer (`Number.isInteger`). */
  predicate IsInteger(n: real) {
    n.Floor as real == n
  }

  /**
   * `Math.max(1, Math.min(Number(n) || fallback, hi))` for a count `n` that is
   * a number or absent; the result need not be a whole number.
   */
  function Clamp(n: Option<real>, fallback: nat, hi: nat): (v: real)
    requires 1 <= fallback <= hi
    ensures 1.0 <= v <= hi as real
    ensures n.None? || n == Some(0.0) ==> v == fallback as real
    ensures n.Some? && n.value != 0.0 && 1.0 <= n.value <= hi as real ==> v == n.value
    ensures n.Some? && n.value != 0.0 && n.value <= 1.0 ==> v == 1.0
    ensures n.Some? && n.value >= hi as real ==> v == hi as real
  {
    var v := if n.None? || n.value == 0.0 then fallback as real else n.value;
    if v < 1.0 then 1.0 else if v > hi as real then hi as real else v
  }

  /** The clamped count as the whole number of elements `slice(0, ·)` keeps: `slice` truncates it. */
  function ClampCount(n: Option<real>, fallback: nat, hi: nat): (c: int)
    requires 1 <= fallback <= hi
    ensures 1 <= c <= hi
    ensures n.None? || n == Some(0.0) ==> c == fallback
    ensures n.Some? && IsInteger(n.value) && 1.0 <= n.value <= hi as real ==> c as real == n.value
    ensures n.Some? && n.value != 0.0 && n.value <= 1.0 ==> c == 1
    ensures n.Some? && n.value >= hi as real ==> c == hi
    ensures c as real <= Clamp(n, fallback, hi) < c as real + 1.0
  {
    Clamp(n, fallback, hi).Floor
  }
}
