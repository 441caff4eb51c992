/**
 * The `run_query` handler: a mock query runner that refuses any query whose
 * lower-cased text contains one of four destructive keywords, and otherwise
 * answers three fixed sample rows.
 */
module RunQuery {
  import opened Wrappers
  import opened Json
  import opened Strings
  import opened Dispatch

  const DangerousKeywords: seq<string> := ["drop", "delete", "truncate", "alter"]

  datatype Row = Row(id: nat, value: string)

  /** The mock result: the echoed query and database, the rows, their count and a fixed time. */
  datatype QueryResult = QueryResult(database: Json, query: string, rows: seq<Row>, rowCount: nat, executionTime: string)

  /** The refusal message quotes the keyword. */
  function DangerMessage(keyword: string): (msg: string)
    ensures Contains(msg, "'" + keyword + "'")
  {
    var msg := "Dangerous operation '" + keyword + "' not allowed via this tool";
    assert msg == "Dangerous operation " + ("'" + keyword + "'") + " not allowed via this tool";
    ContainsPart("Dangerous operation ", "'" + keyword + "'", " not allowed via this tool");
    msg
  }

  /** The first keyword, in list order, that occurs in `text`. */
  function FirstDangerous(text: string, keywords: seq<string>): (r: Option<nat>)
    ensures r.None? <==> forall i :: 0 <= i < |keywords| ==> !Contains(text, keywords[i])
    ensures r.Some? ==> r.value < |keywords| && Contains(text, keywords[r.value])
                        && forall j :: 0 <= j < r.value ==> !Contains(text, keywords[j])
  {
    if keywords == [] then None
    else if Contains(text, keywords[0]) then Some(0)
    else match FirstDangerous(text, keywords[1..])
      case None => None
      case Some(i) => Some(i + 1)
  }

  const SampleRows: seq<Row> := [Row(1, "Sample Row 1"), Row(2, "Sample Row 2"), Row(3, "Sample Row 3")]

  /**
   * What `runQueryHandler({query, database = "default"})` resolves with or throws.
   * It throws exactly when some keyword occurs in the lower-cased query, naming
   * the first one in list order; otherwise it echoes query and database and
   * answers three rows, `rowCount` being their number.
   */
  function RunQuery(query: string, database: Option<Json>): (r: HandlerResult<QueryResult>)
    ensures r.Err? <==> exists k :: k in DangerousKeywords && Contains(Lower(query), k)
    ensures r.Err? ==> exists i :: (0 <= i < |DangerousKeywords|
      && r.message == DangerMessage(DangerousKeywords[i])
      && Contains(Lower(query), DangerousKeywords[i])
      && forall j :: 0 <= j < i ==> !Contains(Lower(query), DangerousKeywords[j]))
    ensures r.Ok? ==> r.result.query == query && r.result.database == database.GetOr(JStr("default"))
    ensures r.Ok? ==> r.result.rowCount == |r.result.rows| == 3
    ensures r.Ok? ==> forall i :: 0 <= i < |r.result.rows| ==> r.result.rows[i].id == i + 1
  {
    match FirstDangerous(Lower(query), DangerousKeywords)
    case Some(i) => Err(DangerMessage(DangerousKeywords[i]))
    case None =>
      Ok(QueryResult(database.GetOr(JStr("default")), query, SampleRows, |SampleRows|, "0.042s"))
  }

  /** The handler as the source writes it: a loop over the keywords that stops at the first one found. */
  method RunQueryHandler(query: string, database: Option<Json>) returns (r: HandlerResult<QueryResult>)
    ensures r == RunQuery(query, database)
  {
    var queryLower := Lower(query);
    for i := 0 to |DangerousKeywords|
      invariant forall j :: 0 <= j < i ==> !Contains(queryLower, DangerousKeywords[j])
    {
      if Contains(queryLower, DangerousKeywords[i]) {
        FirstIsFirst(queryLower, DangerousKeywords, i);
        return Err(DangerMessage(DangerousKeywords[i]));
      }
    }
    var rows := [Row(1, "Sample Row 1"), Row(2, "Sample Row 2"), Row(3, "Sample Row 3")];
    return Ok(QueryResult(database.GetOr(JStr("default")), query, rows, |rows|, "0.042s"));
  }

  /** The first keyword found is the one `FirstDangerous` names. */
  lemma FirstIsFirst(text: string, keywords: seq<string>, i: nat)
    requires i < |keywords| && Contains(text, keywords[i])
    requires forall j :: 0 <= j < i ==> !Contains(text, keywords[j])
    ensures FirstDangerous(text, keywords) == Some(i)
  {
  }

  /** Casing does not matter: two queries that agree once lower-cased get the same answer. */
  lemma CaseInsensitive(q1: string, q2: string, database: Option<Json>)
    requires Lower(q1) == Lower(q2)
    ensures RunQuery(q1, database).Err? <==> RunQuery(q2, database).Err?
    ensures RunQuery(q1, database).Err? ==> RunQuery(q1, database) == RunQuery(q2, database)
  {
  }

  /** Surrounding text does not matter: a refused query stays refused inside any larger text. */
  lemma RefusedWithinAnyText(pre: string, query: string, post: string, database: Option<Json>)
    requires RunQuery(query, database).Err?
    ensures RunQuery(pre + query + post, database).Err?
  {
    var k :| k in DangerousKeywords && Contains(Lower(query), k);
    LowerAppend(pre, query);
    LowerAppend(pre + query, post);
    ContainsWithin(Lower(pre), Lower(query), Lower(post), k);
  }

  /** A query in which "drop" occurs is refused for "drop", the first keyword of the list. */
  lemma DropComesFirst(query: string, database: Option<Json>)
    requires Contains(Lower(query), "drop")
    ensures RunQuery(query, database) == Err(DangerMessage("drop"))
  {
    var l := Lower(query);
    assert Contains(l, DangerousKeywords[0]);
    assert FirstDangerous(l, DangerousKeywords) == Some(0);
  }

  /** A query that names a column such as `dropped_at` is refused for "drop". */
  lemma RefusesInsideIdentifiers()
    ensures RunQuery("SELECT dropped_at FROM t", None) == Err(DangerMessage("drop"))
  {
    var q := "SELECT dropped_at FROM t";
    var l := Lower(q);
    assert l[7] == 'd' && l[8] == 'r' && l[9] == 'o' && l[10] == 'p';
    assert l[7..11] == "drop";
    ContainsAt(l, "drop", 7);
    DropComesFirst(q, None);
  }

  /** "DROP TABLE products" is refused for "drop", whatever its casing. */
  lemma RefusesUpperCaseDrop()
    ensures RunQuery("DROP TABLE products", None) == Err(DangerMessage("drop"))
  {
    var q := "DROP TABLE products";
    var l := Lower(q);
    assert l[0] == 'd' && l[1] == 'r' && l[2] == 'o' && l[3] == 'p';
    assert l[0..4] == "drop";
    ContainsAt(l, "drop", 0);
    DropComesFirst(q, None);
  }
}
