/**
 * The `rag_query` handler: score every stored document chunk (at most 500, in
 * the store's order, newest first) by cosine similarity with the query's
 * embedding, sort by score, highest first, keeping the store's order among
 * equal scores, and answer the first `k`. The square root and the
 * three-decimal rendering of a score are inputs.
 */
module RagQuery {
  import opened Wrappers
  import opened Json
  import opened Strings
  import opened Seqs
  import opened Vectors

  datatype Chunk = Chunk(id: string, content: string, source: string, embedding: Option<seq<real>>)

  datatype ScoredChunk = ScoredChunk(id: string, content: string, source: string, score: real)

  datatype RagResult = RagResult(query: string, topK: real, results: seq<ScoredChunk>, context: string)

  /** The number of chunks the store is asked for. */
  const FetchLimit: nat := 500

  /**
   * `cosineSim(a, b)`: the sums run over the positions both vectors have, and
   * a zero denominator is replaced by 1.
   */
  function Cosine(a: seq<real>, b: seq<real>, sqrt: real -> real): (r: real)
    ensures Dot(a, b, Min(|a|, |b|)) == 0.0 ==> r == 0.0
  {
    var len := Min(|a|, |b|);
    var p := sqrt(SumSq(a, len)) * sqrt(SumSq(b, len));
    var denom := if p == 0.0 then 1.0 else p;
    Dot(a, b, len) / denom
  }

  /** The loop of `cosineSim`, accumulating the three sums position by position. */
  method CosineSim(a: seq<real>, b: seq<real>, sqrt: real -> real) returns (sim: real)
    ensures sim == Cosine(a, b, sqrt)
  {
    var len := if |a| <= |b| then |a| else |b|;
    var dot, na, nb := 0.0, 0.0, 0.0;
    for i := 0 to len
      invariant dot == Dot(a, b, i) && na == SumSq(a, i) && nb == SumSq(b, i)
    {
      var x := a[i];
      var y := b[i];
      dot := dot + x * y;
      na := na + x * x;
      nb := nb + y * y;
    }
    assert len == Min(|a|, |b|);
    var p := sqrt(na) * sqrt(nb);
    var denom := if p == 0.0 then 1.0 else p;
    assert dot == Dot(a, b, Min(|a|, |b|));
    sim := dot / denom;
  }

  /** Entries beyond the shorter vector's length play no part. */
  lemma CosineSharedPrefix(a: seq<real>, b: seq<real>, sqrt: real -> real)
    ensures var len := Min(|a|, |b|); Cosine(a, b, sqrt) == Cosine(a[..len], b[..len], sqrt)
  {
    var len := Min(|a|, |b|);
    DotPrefix(a, b, len, len);
    SumSqPrefix(a, len, len);
    SumSqPrefix(b, len, len);
  }

  /** A chunk whose embedding is missing, empty or all zeros scores 0. */
  lemma CosineWithZeros(a: seq<real>, b: seq<real>, sqrt: real -> real)
    requires forall i :: 0 <= i < |b| ==> b[i] == 0.0
    ensures Cosine(a, b, sqrt) == 0.0
  {
    DotWithZeros(a, b, Min(|a|, |b|));
  }

  /**
   * A vector that is not all zeros is as similar to itself as can be: its
   * cosine with itself is 1, given a square root that is one.
   */
  lemma CosineSelf(v: seq<real>, sqrt: real -> real)
    requires SumSq(v, |v|) > 0.0
    requires forall x :: x >= 0.0 ==> sqrt(x) >= 0.0 && sqrt(x) * sqrt(x) == x
    ensures Cosine(v, v, sqrt) == 1.0
  {
    SumSqIsDot(v, |v|);
    var n := SumSq(v, |v|);
    assert Min(|v|, |v|) == |v|;
    assert Dot(v, v, |v|) == n;
    assert sqrt(n) * sqrt(n) == n;
    assert Cosine(v, v, sqrt) == n / n;
    assert n / n == 1.0;
  }

  lemma CosineSymmetric(a: seq<real>, b: seq<real>, sqrt: real -> real)
    ensures Cosine(a, b, sqrt) == Cosine(b, a, sqrt)
  {
    DotSymmetric(a, b, Min(|a|, |b|));
  }

  /**
   * The order the sort puts two chunks in: a higher score first, and between
   * equal scores the earlier chunk first (the sort is stable).
   */
  predicate Before(score: seq<real>, x: nat, y: nat)
    requires x < |score| && y < |score|
  {
    score[x] > score[y] || (score[x] == score[y] && x < y)
  }

  /** `order` lists chunk positions, each earlier one `Before` each later one. */
  predicate Ranked(score: seq<real>, order: seq<nat>) {
    && (forall k :: 0 <= k < |order| ==> order[k] < |score|)
    && (forall k, l :: 0 <= k < l < |order| ==> Before(score, order[k], order[l]))
  }

  /** Puts `x` in front of the first position it comes `Before`. */
  function Insert(score: seq<real>, x: nat, order: seq<nat>): (r: seq<nat>)
    requires x < |score| && Ranked(score, order) && x !in order
    ensures |r| == |order| + 1
    ensures forall e :: e in r <==> e == x || e in order
    ensures Ranked(score, r)
  {
    if order == [] then [x]
    else if Before(score, x, order[0]) then
      [x] + order
    else
      assert Ranked(score, order[1..]) by {
        assert forall k :: 0 <= k < |order[1..]| ==> order[1..][k] == order[k + 1];
      }
      var rest := Insert(score, x, order[1..]);
      assert forall e :: e in order[1..] ==> e in order;
      assert forall e :: e in rest ==> Before(score, order[0], e) by {
        forall e | e in rest ensures Before(score, order[0], e) {
          if e != x {
            var k :| 0 <= k < |order[1..]| && order[1..][k] == e;
            assert order[k + 1] == e;
          }
        }
      }
      [order[0]] + rest
  }

  /** The chunk positions `lo`, ..., `|score| - 1`, as the sort orders them. */
  function Rank(score: seq<real>, lo: nat): (order: seq<nat>)
    requires lo <= |score|
    ensures |order| == |score| - lo
    ensures forall e :: e in order <==> lo <= e < |score|
    ensures Ranked(score, order)
    decreases |score| - lo
  {
    if lo == |score| then [] else Insert(score, lo, Rank(score, lo + 1))
  }

  /**
   * The positions of the first `k` chunks after sorting: distinct, in score
   * order with ties in chunk order, and no chunk left out scores higher than
   * one kept, nor as high when it comes earlier.
   */
  function TopIndices(score: seq<real>, k: nat): (top: seq<nat>)
    ensures |top| == Min(k, |score|)
    ensures Ranked(score, top)
    ensures forall i, j :: 0 <= i < j < |top| ==> top[i] != top[j]
    ensures forall m, i :: 0 <= m < |score| && m !in top && 0 <= i < |top| ==> Before(score, top[i], m)
    ensures k >= |score| ==> forall m :: 0 <= m < |score| ==> m in top
  {
    var order := Rank(score, 0);
    var top := Prefix(order, k);
    RankingPrefix(score, order, top);
    top
  }

  /** A prefix of a ranking of all chunks leaves out none that ranks before a kept one. */
  lemma RankingPrefix(score: seq<real>, order: seq<nat>, top: seq<nat>)
    requires |order| == |score| && (forall e :: e in order <==> 0 <= e < |score|) && Ranked(score, order)
    requires |top| <= |order| && top == order[..|top|]
    ensures forall m, i :: 0 <= m < |score| && m !in top && 0 <= i < |top| ==> Before(score, top[i], m)
    ensures |top| == |score| ==> forall m :: 0 <= m < |score| ==> m in top
  {
    forall m, i | 0 <= m < |score| && m !in top && 0 <= i < |top| ensures Before(score, top[i], m) {
      assert m in order;
      var j :| 0 <= j < |order| && order[j] == m;
      assert forall t :: 0 <= t < |top| ==> top[t] == order[t];
      assert j >= |top|;
      assert order[i] == top[i];
    }
    if |top| == |score| {
      assert top == order;
    }
  }

  /** The score of every fetched chunk; a missing embedding counts as the empty vector. */
  function Scores(qVec: seq<real>, chunks: seq<Chunk>, sqrt: real -> real): (s: seq<real>)
    ensures |s| == |chunks|
    ensures forall i :: 0 <= i < |chunks| ==> s[i] == Cosine(qVec, chunks[i].embedding.GetOr([]), sqrt)
  {
    seq(|chunks|, i requires 0 <= i < |chunks| => Cosine(qVec, chunks[i].embedding.GetOr([]), sqrt))
  }

  /** One context line, `- (<score to 3 decimals>) <content>`: it opens with "- (" and ends with the content. */
  function ContextLine(c: ScoredChunk, fixed3: real -> string): (line: string)
    ensures StartsWith(line, "- (")
    ensures |line| >= |c.content| && line[|line| - |c.content|..] == c.content
  {
    var line := "- (" + fixed3(c.score) + ") " + c.content;
    assert line[..3] == "- (";
    line
  }

  /** The chunks at the positions `top`, each with its score; they come in non-increasing score order. */
  function Pick(chunks: seq<Chunk>, score: seq<real>, top: seq<nat>): (results: seq<ScoredChunk>)
    requires |score| == |chunks| && Ranked(score, top)
    ensures |results| == |top|
    ensures forall i :: 0 <= i < |top| ==>
      results[i] == ScoredChunk(chunks[top[i]].id, chunks[top[i]].content, chunks[top[i]].source, score[top[i]])
    ensures forall i, j :: 0 <= i < j < |results| ==> results[i].score >= results[j].score
  {
    var results := seq(|top|, i requires 0 <= i < |top| =>
      var c := chunks[top[i]]; ScoredChunk(c.id, c.content, c.source, score[top[i]]));
    assert forall i, j :: 0 <= i < j < |results| ==> Before(score, top[i], top[j]);
    results
  }

  /** `scored.map(c => "- (" + score + ") " + content).join("\n")`. */
  function Context(results: seq<ScoredChunk>, fixed3: real -> string): (context: string)
    ensures results == [] ==> context == ""
    ensures forall i :: 0 <= i < |results| ==> Contains(context, results[i].content)
  {
    var lines := seq(|results|, i requires 0 <= i < |results| => ContextLine(results[i], fixed3));
    forall i | 0 <= i < |results| ensures Contains(Join(lines, "\n"), results[i].content) {
      JoinContains(lines, "\n", i);
      var l := lines[i];
      ContainsAt(l, results[i].content, |l| - |results[i].content|);
      ContainsTrans(Join(lines, "\n"), l, results[i].content);
    }
    Join(lines, "\n")
  }

  /**
   * `ragQueryHandler({query, topK = 3})` with the query's embedding `qVec`
   * against the given store: the top `k` chunks by score, each with its id,
   * content, source and score; the echoed query; the clamped `k` as it is,
   * not rounded, while `slice(0, k)` keeps its whole part; the joined context
   * lines.
   */
  function Rag(query: string, topK: Option<real>, store: seq<Chunk>, qVec: seq<real>,
               sqrt: real -> real, fixed3: real -> string): (r: RagResult)
    ensures r.query == query && r.topK == Clamp(topK, 3, 10) && 1.0 <= r.topK <= 10.0
    ensures |r.results| == Min(ClampCount(topK, 3, 10), Min(|store|, FetchLimit))
    ensures r.results == Pick(Prefix(store, FetchLimit), Scores(qVec, Prefix(store, FetchLimit), sqrt),
                              TopIndices(Scores(qVec, Prefix(store, FetchLimit), sqrt), ClampCount(topK, 3, 10)))
    ensures forall i, j :: 0 <= i < j < |r.results| ==> r.results[i].score >= r.results[j].score
    ensures r.context == Context(r.results, fixed3)
  {
    var k := ClampCount(topK, 3, 10);
    var chunks := Prefix(store, FetchLimit);
    var score := Scores(qVec, chunks, sqrt);
    var results := Pick(chunks, score, TopIndices(score, k));
    RagResult(query, Clamp(topK, 3, 10), results, Context(results, fixed3))
  }

  /** A `topK` of 2.5 is answered as 2.5, with (at most) two results. */
  lemma FractionalTopK(query: string, store: seq<Chunk>, qVec: seq<real>, sqrt: real -> real, fixed3: real -> string)
    ensures var r := Rag(query, Some(2.5), store, qVec, sqrt, fixed3);
      r.topK == 2.5 && |r.results| == Min(2, Min(|store|, FetchLimit))
  {
    assert (2.5).Floor == 2;
  }

  /** Among the results, equal scores come in the store's order. */
  lemma TiesKeepStoreOrder(score: seq<real>, k: nat, i: nat, j: nat)
    requires i < j < |TopIndices(score, k)|
    requires score[TopIndices(score, k)[i]] == score[TopIndices(score, k)[j]]
    ensures TopIndices(score, k)[i] < TopIndices(score, k)[j]
  {
  }

  /** With no chunks stored, there are no results and no context. */
  lemma EmptyStore(query: string, topK: Option<real>, qVec: seq<real>, sqrt: real -> real, fixed3: real -> string)
    ensures Rag(query, topK, [], qVec, sqrt, fixed3).results == []
    ensures Rag(query, topK, [], qVec, sqrt, fixed3).context == ""
  {
  }
}
