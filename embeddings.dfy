/**
 * Text embeddings: the vector the embedding provider returns, or, when there
 * is no provider key or the provider call fails, a 256-entry hash embedding
 * computed from the UTF-16 code units of the text (what `charCodeAt` reads)
 * and then scaled to unit length. The provider's answer and the square root
 * are inputs.
 */
module Embeddings {
  import opened Wrappers
  import opened Vectors
  import opened Strings

  const Dim: nat := 256

  /** `((c % 31) + 1) / 31`: what a code unit `c` adds to its entry. */
  function Increment(c: nat): (w: real)
    ensures 1.0 / 31.0 <= w <= 1.0
  {
    ((c % 31) + 1) as real / 31.0
  }

  /** `(c + i) % 256`: the entry the `i`-th code unit, `c`, adds to. */
  function Bucket(c: nat, i: nat): (idx: nat)
    ensures idx < Dim
  {
    (c + i) % Dim
  }

  function Zeros(): (v: seq<real>)
    ensures |v| == Dim && forall j :: 0 <= j < Dim ==> v[j] == 0.0
  {
    seq(Dim, _ => 0.0)
  }

  /** The fallback vector before it is scaled: every code unit adds its increment to its entry. */
  function Raw(units: seq<nat>): (v: seq<real>)
    ensures |v| == Dim
    ensures forall j :: 0 <= j < Dim ==> v[j] >= 0.0
  {
    if units == [] then Zeros()
    else
      var i := |units| - 1;
      var prev := Raw(units[..i]);
      var c := units[i];
      prev[Bucket(c, i) := prev[Bucket(c, i)] + Increment(c)]
  }

  /** The sum of the increments of all code units. */
  function IncrementTotal(units: seq<nat>): real {
    if units == [] then 0.0 else IncrementTotal(units[..|units| - 1]) + Increment(units[|units| - 1])
  }

  /** Some code unit adds to entry `j`. */
  predicate Hit(units: seq<nat>, j: nat) {
    exists i :: 0 <= i < |units| && Bucket(units[i], i) == j
  }

  /** Before scaling, the entries add up to the sum of the per-unit increments. */
  lemma {:induction false} RawSum(units: seq<nat>)
    ensures Sum(Raw(units)) == IncrementTotal(units)
  {
    if units == [] {
      ZerosSum(Dim);
    } else {
      var i := |units| - 1;
      var c := units[i];
      RawSum(units[..i]);
      SumUpdate(Raw(units[..i]), Bucket(c, i), Increment(c));
    }
  }

  lemma {:induction false} ZerosSum(n: nat)
    ensures Sum(seq(n, _ => 0.0)) == 0.0
  {
    if n > 0 {
      var z: seq<real> := seq(n, _ => 0.0);
      assert z[..n - 1] == seq(n - 1, _ => 0.0);
      ZerosSum(n - 1);
    }
  }

  /** Before scaling, an entry is positive exactly when some code unit lands in it, and zero otherwise. */
  lemma {:induction false} RawPositive(units: seq<nat>, j: nat)
    requires j < Dim
    ensures Raw(units)[j] > 0.0 <==> Hit(units, j)
  {
    if units != [] {
      var i := |units| - 1;
      var prefix := units[..i];
      RawPositive(prefix, j);
      assert forall k :: 0 <= k < i ==> units[k] == prefix[k];
      if Hit(units, j) && !Hit(prefix, j) {
        assert Bucket(units[i], i) == j;
      }
    }
  }

  /**
   * A character beyond the Basic Multilingual Plane adds to two entries, one
   * per code unit: U+1F600 puts 23/31 in entry 61 and 10/31 in entry 1.
   */
  lemma AstralCharAddsTwice()
    ensures var v := Raw(Utf16("\U{1F600}"));
      v[61] == 23.0 / 31.0 && v[1] == 10.0 / 31.0 && Hit(Utf16("\U{1F600}"), 1)
  {
    AstralCharIsPair();
    var u: seq<nat> := [0xD83D, 0xDE00];
    assert u[..1] == [0xD83D] && [0xD83D][..0] == [];
    assert Bucket(u[1], 1) == 1;
  }

  /** `vec.map(v => v / norm)` with `norm = Math.sqrt(sum of squares) || 1`. */
  function Normalise(v: seq<real>, sqrt: real -> real): (r: seq<real>)
    ensures |r| == |v|
    ensures forall j :: 0 <= j < |v| && v[j] == 0.0 ==> r[j] == 0.0
  {
    var s := sqrt(SumSq(v, |v|));
    var norm := if s == 0.0 then 1.0 else s;
    seq(|v|, j requires 0 <= j < |v| => v[j] / norm)
  }

  /**
   * The fallback embedding as the source computes it: a 256-entry array
   * updated in place, one code unit of the text at a time, then scaled.
   */
  method Fallback(text: string, sqrt: real -> real) returns (r: seq<real>)
    ensures r == Normalise(Raw(Utf16(text)), sqrt)
    ensures |r| == Dim
  {
    r := HashUnits(Utf16(text), sqrt);
  }

  /** The loop of the fallback over the code units `units`, then the scaling. */
  method HashUnits(units: seq<nat>, sqrt: real -> real) returns (r: seq<real>)
    ensures r == Normalise(Raw(units), sqrt)
    ensures |r| == Dim
  {
    var vec := new real[Dim](_ => 0.0);
    assert vec[..] == Zeros();
    for i := 0 to |units|
      invariant vec[..] == Raw(units[..i])
    {
      var c := units[i];
      var idx := (c + i) % Dim;
      assert units[..i + 1][..i] == units[..i];
      vec[idx] := vec[idx] + ((c % 31) + 1) as real / 31.0;
    }
    assert units[..|units|] == units;
    var s := sqrt(SumSq(vec[..], vec.Length));
    var norm := if s == 0.0 then 1.0 else s;
    r := seq(vec.Length, j requires 0 <= j < vec.Length reads vec => vec[j] / norm);
  }

  /** Empty text gives the all-zero vector, whatever the square root yields. */
  lemma EmptyTextGivesZeros(sqrt: real -> real)
    ensures Normalise(Raw(Utf16("")), sqrt) == Zeros()
  {
  }

  /** A truthy provider key. */
  predicate HasKey(apiKey: Option<string>) {
    apiKey.Some? && apiKey.value != ""
  }

  /**
   * `getEmbedding(text)`: `provider` is what the provider call gave, `None`
   * when it threw. The provider is asked only when there is a key; its answer
   * is used only when the call succeeded.
   */
  function GetEmbedding(text: string, apiKey: Option<string>, provider: Option<seq<real>>, sqrt: real -> real): (v: seq<real>)
    ensures HasKey(apiKey) && provider.Some? ==> v == provider.value
    ensures !HasKey(apiKey) || provider.None? ==> |v| == Dim && v == Normalise(Raw(Utf16(text)), sqrt)
  {
    if HasKey(apiKey) && provider.Some? then provider.value else Normalise(Raw(Utf16(text)), sqrt)
  }
}
