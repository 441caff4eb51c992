/**
 * The `search_db` handler. The product store is an input: the rows it holds,
 * newest first (the query orders by `createdAt` descending). The handler asks
 * the store for at most 200 rows, of the given category when one is given,
 * keeps those whose lower-cased name or category contains the trimmed,
 * lower-cased search text, and answers the first `take` of them.
 */
module SearchDb {
  import opened Wrappers
  import opened Json
  import opened Strings
  import opened Seqs

  datatype Product = Product(id: string, name: string, category: string, price: real)

  datatype SearchResult = SearchResult(hits: seq<Product>, total: nat, query: Option<Json>, category: Option<string>)

  /** The number of rows the store is asked for. */
  const FetchLimit: nat := 200

  /** `take`: an absent or zero limit means 10, and the count is kept within [1, 100]. */
  function Take(limit: Option<real>): (take: int)
    ensures 1 <= take <= 100
  {
    ClampCount(limit, 10, 100)
  }

  /** A category filter applies when the category is a non-empty string. */
  predicate HasCategory(category: Option<string>) {
    category.Some? && category.value != ""
  }

  /** What the store answers: up to 200 rows, in its order, of the category when one is given. */
  function Fetch(store: seq<Product>, category: Option<string>): (rows: seq<Product>)
    ensures |rows| <= FetchLimit
    ensures forall p :: p in rows ==> p in store
    ensures HasCategory(category) ==> forall p :: p in rows ==> p.category == category.value
    ensures !HasCategory(category) ==> rows == Prefix(store, FetchLimit)
    ensures HasCategory(category) ==> rows == Prefix(Filter(store, (p: Product) => p.category == category.value), FetchLimit)
    ensures HasCategory(category) && |store| <= FetchLimit ==>
      forall p :: p in rows <==> p in store && p.category == category.value
    ensures IsSubsequence(rows, store)
  {
    if HasCategory(category) then
      var matching := Filter(store, (p: Product) => p.category == category.value);
      FilterIsSubsequence(store, (p: Product) => p.category == category.value);
      PrefixOfSubsequence(matching, store, FetchLimit);
      Prefix(matching, FetchLimit)
    else
      IsSubsequenceRefl(store);
      PrefixOfSubsequence(store, store, FetchLimit);
      Prefix(store, FetchLimit)
  }

  /** The text filter, `q.trim().toLowerCase()`; it applies only when non-empty. */
  function SearchText(q: Option<Json>): (text: string)
    ensures q.Some? && q.value.JStr? ==> text == Lower(Trim(q.value.s))
    ensures !(q.Some? && q.value.JStr?) ==> text == ""
  {
    if q.Some? && q.value.JStr? && q.value.s != "" then Lower(Trim(q.value.s)) else ""
  }

  predicate Matches(p: Product, text: string) {
    Contains(Lower(p.name), text) || Contains(Lower(p.category), text)
  }

  function KeepMatching(rows: seq<Product>, text: string): (kept: seq<Product>)
    ensures text == "" ==> kept == rows
    ensures forall p :: p in kept <==> p in rows && (text == "" || Matches(p, text))
    ensures IsSubsequence(kept, rows)
  {
    if text == "" then
      IsSubsequenceRefl(rows);
      rows
    else
      FilterIsSubsequence(rows, (p: Product) => Matches(p, text));
      Filter(rows, (p: Product) => Matches(p, text))
  }

  lemma {:induction false} IsSubsequenceRefl<T>(s: seq<T>)
    ensures IsSubsequence(s, s)
  {
    if s != [] {
      IsSubsequenceRefl(s[1..]);
    }
  }

  /**
   * `searchDbHandler({q, category, limit = 10})` against the given store:
   * the hits are the first `take` of the fetched rows that match, in order;
   * `total` is their number; `q` and `category` are echoed untouched.
   */
  function Search(store: seq<Product>, q: Option<Json>, category: Option<string>, limit: Option<real>): (r: SearchResult)
    ensures r.total == |r.hits| <= Take(limit)
    ensures r.query == q && r.category == category
    ensures var kept := KeepMatching(Fetch(store, category), SearchText(q));
      |r.hits| == Min(Take(limit), |kept|) && r.hits == kept[..|r.hits|]
    ensures forall p :: p in r.hits ==> p in store
    ensures IsSubsequence(r.hits, store)
    ensures HasCategory(category) ==> forall p :: p in r.hits ==> p.category == category.value
    ensures SearchText(q) != "" ==> forall p :: p in r.hits ==> Matches(p, SearchText(q))
  {
    var kept := KeepMatching(Fetch(store, category), SearchText(q));
    var hits := Prefix(kept, Take(limit));
    assert forall p :: p in hits ==> p in kept;
    PrefixOfSubsequence(kept, Fetch(store, category), Take(limit));
    SubsequenceTrans(hits, Fetch(store, category), store);
    SearchResult(hits, |hits|, q, category)
  }

  /** A blank or white-space-only search text filters nothing: the hits are the first fetched rows. */
  lemma BlankQueryFiltersNothing(store: seq<Product>, q: string, category: Option<string>, limit: Option<real>)
    requires AllSpace(q)
    ensures Search(store, Some(JStr(q)), category, limit).hits == Prefix(Fetch(store, category), Take(limit))
  {
    assert Trim(q) == [];
  }

  /** When fewer rows match than `take` allows, every fetched row that matches is a hit. */
  lemma FewMatchesAllReturned(store: seq<Product>, q: Option<Json>, category: Option<string>, limit: Option<real>, p: Product)
    requires |KeepMatching(Fetch(store, category), SearchText(q))| <= Take(limit)
    requires p in Fetch(store, category) && (SearchText(q) == "" || Matches(p, SearchText(q)))
    ensures p in Search(store, q, category, limit).hits
  {
    var kept := KeepMatching(Fetch(store, category), SearchText(q));
    KeptIfMatches(Fetch(store, category), SearchText(q), p);
    HitsArePrefix(store, q, category, limit);
    PrefixOfShort(kept, Take(limit));
  }

  /** The hits are the first `take` of the matching rows. */
  lemma HitsArePrefix(store: seq<Product>, q: Option<Json>, category: Option<string>, limit: Option<real>)
    ensures Search(store, q, category, limit).hits == Prefix(KeepMatching(Fetch(store, category), SearchText(q)), Take(limit))
  {
  }

  lemma KeptIfMatches(rows: seq<Product>, text: string, p: Product)
    requires p in rows && (text == "" || Matches(p, text))
    ensures p in KeepMatching(rows, text)
  {
  }

  /** A search text that is already trimmed and lower-case is used as it is. */
  lemma NormalisedTextKept(s: string)
    requires s != [] && !IsJsSpace(s[0]) && !IsJsSpace(s[|s| - 1])
    requires forall i :: 0 <= i < |s| ==> !('A' <= s[i] <= 'Z')
    ensures SearchText(Some(JStr(s))) == s
  {
    TrimOfUntrimmed(s);
    LowerWithoutUpper(s);
  }

  /**
   * Searching for an already normalised text with an integer limit in
   * [1, 100] gives at most `limit` hits, each matching that text.
   */
  lemma NormalisedSearch(store: seq<Product>, q: string, category: Option<string>, limit: real)
    requires q != [] && !IsJsSpace(q[0]) && !IsJsSpace(q[|q| - 1])
    requires forall i :: 0 <= i < |q| ==> !('A' <= q[i] <= 'Z')
    requires IsInteger(limit) && 1.0 <= limit <= 100.0
    ensures var r := Search(store, Some(JStr(q)), category, Some(limit));
      |r.hits| as real <= limit && forall p :: p in r.hits ==> Matches(p, q)
  {
    NormalisedTextKept(q);
    assert Take(Some(limit)) as real == limit;
  }

  /** The search text is matched case-insensitively and without surrounding white space. */
  lemma TextIsNormalised(a: string, b: string)
    requires Lower(Trim(a)) == Lower(Trim(b))
    ensures forall store, category, limit :: Search(store, Some(JStr(a)), category, limit).hits ==
                                             Search(store, Some(JStr(b)), category, limit).hits
  {
  }
}
