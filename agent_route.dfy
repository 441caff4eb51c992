/**
 * `POST /agent/ask`: a keyword router picks at most one tool for a chat
 * message and builds its input; the input is validated against the tool's
 * schema, the tool's handler runs, and its result is phrased as a reply.
 * The agent path has no role check: the caller's role plays no part.
 */
module AgentRoute {
  import opened Wrappers
  import opened Json
  import opened Strings
  import opened Seqs
  import opened Schema
  import opened Dispatch
  import Registry
  import Tools
  import RunQuery
  import SearchDb
  import RagQuery

  /** Words that send a message to `rag_query`; checked first. */
  const RagWords: seq<string> :=
    ["battery", "policy", "return", "warranty", "manual", "doc", "spec", "details", "information", "context"]

  /** Words that send a message to `search_db`. */
  const SearchWords: seq<string> := ["search", "find", "product", "laptop", "mouse", "chair"]

  /** Words that send a message to `create_ticket`. */
  const TicketWords: seq<string> := ["ticket", "issue", "problem"]

  /** Words that send a message to `run_query`. */
  const QueryWords: seq<string> := ["query", "database"]

  /** Tokens that never become part of a search text. */
  const StopWords: set<string> := {
    "search", "find", "for", "product", "products", "item", "items", "give", "me", "show",
    "list", "of", "all", "please", "the", "a", "an", "i", "want", "need", "looking"}

  /** The search text used when no token is left. */
  const DefaultSearch: string := "laptop"

  /** The query the router sends to `run_query`. */
  const AgentQuery: string := "SELECT * FROM products LIMIT 5"

  /** The message of the `TypeError` a message that is not a string raises at `toLowerCase`. */
  const NotAString: string := "message.toLowerCase is not a function"

  /** The reply message of a 500 whose error has an empty message. */
  const AgentFailed: string := "Agent failed to process request"

  /** The `reasoning` of each decision. */
  const RagReason: string := "User asks for knowledge/context; using RAG"
  const SearchReason: string := "User wants to search products"
  const TicketReason: string := "User wants to create a support ticket"
  const QueryReason: string := "User wants to query database"
  const NoToolReason: string := "No tool needed, general conversation"

  /** The characters `[a-z0-9]`. */
  predicate IsWordChar(c: char) {
    'a' <= c <= 'z' || '0' <= c <= '9'
  }

  predicate IsWord(t: string) {
    forall i :: 0 <= i < |t| ==> IsWordChar(t[i])
  }

  /**
   * `s.split(/[^a-z0-9]+/)`: the pieces between maximal runs of other
   * characters, with an empty piece at an end where such a run is.
   */
  function Pieces(s: string): (ps: seq<string>)
    ensures |ps| >= 1
    ensures forall t :: t in ps ==> IsWord(t)
    decreases |s|
  {
    if s == [] then [""]
    else
      var rest := Pieces(s[1..]);
      if IsWordChar(s[0]) then
        assert rest[0] in rest;
        assert IsWord([s[0]] + rest[0]) by {
          assert forall i :: 1 <= i < |[s[0]] + rest[0]| ==> ([s[0]] + rest[0])[i] == rest[0][i - 1];
        }
        [[s[0]] + rest[0]] + rest[1..]
      else if |s| > 1 && !IsWordChar(s[1]) then rest
      else [""] + rest
  }

  /** The pieces laid end to end. */
  function Concat(ps: seq<string>): string {
    if ps == [] then "" else ps[0] + Concat(ps[1..])
  }

  /** Splitting drops exactly the separators: the pieces hold every word character of `s`, in order. */
  lemma {:induction false} PiecesKeepWordChars(s: string)
    ensures Concat(Pieces(s)) == Filter(s, IsWordChar)
    decreases |s|
  {
    if s != [] {
      var rest := Pieces(s[1..]);
      PiecesKeepWordChars(s[1..]);
      assert Concat(rest) == rest[0] + Concat(rest[1..]);
      if IsWordChar(s[0]) {
        var ps := [[s[0]] + rest[0]] + rest[1..];
        assert ps[1..] == rest[1..];
        assert Concat(ps) == [s[0]] + rest[0] + Concat(rest[1..]);
      } else if |s| > 1 && !IsWordChar(s[1]) {
      } else {
        assert ([""] + rest)[1..] == rest;
      }
    }
  }

  /** The tokens of a lower-cased message: the non-empty pieces that are not stop words. */
  function Tokens(lower: string): (ts: seq<string>)
    ensures forall t :: t in ts <==> t in Pieces(lower) && t != "" && t !in StopWords
    ensures forall t :: t in ts ==> IsWord(t)
  {
    Filter(Pieces(lower), (t: string) => t != "" && t !in StopWords)
  }

  /** The search text: the tokens joined by single spaces, or "laptop" when there are none. */
  function SearchText(message: string): (q: string)
    ensures q != ""
    ensures Tokens(Lower(message)) == [] ==> q == DefaultSearch
    ensures forall t :: t in Tokens(Lower(message)) ==> Contains(q, t)
  {
    var ts := Tokens(Lower(message));
    if |ts| > 0 then
      assert ts[0] in ts;
      JoinFacts(ts, " ");
      Join(ts, " ")
    else DefaultSearch
  }

  /** A join of non-empty parts is non-empty and holds each part. */
  lemma JoinFacts(parts: seq<string>, sep: string)
    requires |parts| > 0 && parts[0] != ""
    ensures Join(parts, sep) != ""
    ensures forall t :: t in parts ==> Contains(Join(parts, sep), t)
  {
    forall t | t in parts ensures Contains(Join(parts, sep), t) {
      var i :| 0 <= i < |parts| && parts[i] == t;
      JoinContains(parts, sep, i);
    }
    assert |Join(parts, sep)| >= |parts[0]|;
  }

  /** A run of separators at the front splits off one empty piece. */
  lemma {:induction false} PiecesAfterSeparators(sep: string, s: string)
    requires sep != [] && forall i :: 0 <= i < |sep| ==> !IsWordChar(sep[i])
    requires s == [] || IsWordChar(s[0])
    ensures Pieces(sep + s) == [""] + Pieces(s)
    decreases |sep|
  {
    assert (sep + s)[1..] == sep[1..] + s;
    if |sep| > 1 {
      PiecesAfterSeparators(sep[1..], s);
    }
  }

  /**
   * The split falls at every maximal run of characters outside `[a-z0-9]`:
   * a word followed by such a run is one piece, and splitting goes on after it.
   */
  lemma {:induction false} PiecesSplit(w: string, sep: string, s: string)
    requires IsWord(w)
    requires sep != [] && forall i :: 0 <= i < |sep| ==> !IsWordChar(sep[i])
    requires s == [] || IsWordChar(s[0])
    ensures Pieces(w + sep + s) == [w] + Pieces(s)
    decreases |w|
  {
    if w == [] {
      assert w + sep + s == sep + s;
      PiecesAfterSeparators(sep, s);
    } else {
      assert (w + sep + s)[1..] == w[1..] + sep + s;
      PiecesSplit(w[1..], sep, s);
      assert [w[0]] + w[1..] == w;
    }
  }

  /** A word on its own is a single piece. */
  lemma {:induction false} PiecesOfWord(w: string)
    requires IsWord(w)
    ensures Pieces(w) == [w]
    decreases |w|
  {
    if w != [] {
      PiecesOfWord(w[1..]);
      assert [w[0]] + w[1..] == w;
    }
  }

  /** Non-empty words joined by single spaces split back into exactly those words. */
  lemma {:induction false} JoinedWordsSplit(ts: seq<string>)
    requires |ts| >= 1 && forall i :: 0 <= i < |ts| ==> ts[i] != "" && IsWord(ts[i])
    ensures Pieces(Join(ts, " ")) == ts
  {
    if |ts| == 1 {
      PiecesOfWord(ts[0]);
    } else {
      var rest := Join(ts[1..], " ");
      JoinedWordsSplit(ts[1..]);
      JoinHead(ts[1..], " ");
      assert !IsWordChar(" "[0]);
      PiecesSplit(ts[0], " ", rest);
      assert [ts[0]] + ts[1..] == ts;
    }
  }

  /** A join starts with its first part. */
  lemma JoinHead(parts: seq<string>, sep: string)
    requires |parts| >= 1
    ensures |Join(parts, sep)| >= |parts[0]| && Join(parts, sep)[..|parts[0]|] == parts[0]
  {
    if |parts| > 1 {
      assert Join(parts, sep) == parts[0] + sep + Join(parts[1..], sep);
    }
  }

  /**
   * The search text holds the message's tokens in order, separated by single
   * spaces: splitting it again gives back exactly those tokens, and so does
   * tokenising it.
   */
  lemma SearchTextSplits(message: string)
    requires Tokens(Lower(message)) != []
    ensures Pieces(SearchText(message)) == Tokens(Lower(message))
    ensures Tokens(Lower(SearchText(message))) == Tokens(Lower(message))
  {
    var ts := Tokens(Lower(message));
    forall i | 0 <= i < |ts| ensures ts[i] != "" && IsWord(ts[i]) {
      assert ts[i] in ts;
    }
    JoinedWordsSplit(ts);
    var q := SearchText(message);
    assert q == Join(ts, " ");
    JoinWordsLower(ts);
    LowerWithoutUpper(q);
    FilterAll(ts, (t: string) => t != "" && t !in StopWords);
  }

  predicate NoUpper(s: string) {
    forall i :: 0 <= i < |s| ==> !('A' <= s[i] <= 'Z')
  }

  /** Words joined by spaces have no upper-case letter. */
  lemma {:induction false} JoinWordsLower(ts: seq<string>)
    requires forall i :: 0 <= i < |ts| ==> IsWord(ts[i])
    ensures NoUpper(Join(ts, " "))
  {
    if |ts| > 1 {
      JoinWordsLower(ts[1..]);
      var q := Join(ts, " ");
      var rest := Join(ts[1..], " ");
      assert q == ts[0] + " " + rest;
      forall i | 0 <= i < |q| ensures !('A' <= q[i] <= 'Z') {
        if i < |ts[0]| {
          assert IsWord(ts[0]) && q[i] == ts[0][i];
        } else if i == |ts[0]| {
          assert q[i] == ' ';
        } else {
          assert q[i] == rest[i - |ts[0]| - 1];
        }
      }
    }
  }

  /** What the router decides: a tool with its input, or a plain reply. */
  datatype Decision =
    | UseTool(tool: string, input: Json, reasoning: string)
    | NoTool(reasoning: string)

  /** The whole message is the RAG query, with three results asked for. */
  function RagInput(message: string): (j: Json)
    ensures Member(j, "query") == Some(JStr(message)) && Member(j, "topK") == Some(JNum(3.0))
  {
    JObj(map["query" := JStr(message), "topK" := JNum(3.0)])
  }

  /** The search text of the message, with five results asked for. */
  function SearchInput(message: string): (j: Json)
    ensures Member(j, "q") == Some(JStr(SearchText(message))) && Member(j, "limit") == Some(JNum(5.0))
  {
    JObj(map["q" := JStr(SearchText(message)), "limit" := JNum(5.0)])
  }

  /** The title is the first 100 characters of the message, the body all of it, the priority "medium". */
  function TicketInput(message: string): (j: Json)
    ensures Member(j, "title").Some? && Member(j, "title").value.JStr?
    ensures var title := Member(j, "title").value.s;
      |title| == Min(100, |message|) && title == message[..|title|]
    ensures Member(j, "body") == Some(JStr(message)) && Member(j, "priority") == Some(JStr("medium"))
  {
    JObj(map["title" := JStr(Prefix(message, 100)), "body" := JStr(message), "priority" := JStr("medium")])
  }

  /** The fixed query the router sends to `run_query`. */
  function QueryInput(): (j: Json)
    ensures Member(j, "query") == Some(JStr(AgentQuery)) && Member(j, "database").None?
  {
    JObj(map["query" := JStr(AgentQuery)])
  }

  /**
   * `decideToolUsage(message)`: the first rule whose words the lower-cased
   * message contains names the tool, in the order RAG, search, ticket, query.
   */
  function Decide(message: string): (d: Decision)
    ensures var l := Lower(message);
      && (d.UseTool? && d.tool == "rag_query" <==> Mentions(l, RagWords))
      && (d.UseTool? && d.tool == "search_db" <==> !Mentions(l, RagWords) && Mentions(l, SearchWords))
      && (d.UseTool? && d.tool == "create_ticket" <==>
            !Mentions(l, RagWords) && !Mentions(l, SearchWords) && Mentions(l, TicketWords))
      && (d.UseTool? && d.tool == "run_query" <==>
            !Mentions(l, RagWords) && !Mentions(l, SearchWords) && !Mentions(l, TicketWords) && Mentions(l, QueryWords))
    ensures d.UseTool? ==> d.tool in {"rag_query", "search_db", "create_ticket", "run_query"}
    ensures d.UseTool? && d.tool == "rag_query" ==> d.input == RagInput(message)
    ensures d.UseTool? && d.tool == "search_db" ==> d.input == SearchInput(message)
    ensures d.UseTool? && d.tool == "create_ticket" ==> d.input == TicketInput(message)
    ensures d.UseTool? && d.tool == "run_query" ==> d.input == QueryInput()
  {
    var l := Lower(message);
    if Mentions(l, RagWords) then
      UseTool("rag_query", RagInput(message), RagReason)
    else if Mentions(l, SearchWords) then
      UseTool("search_db", SearchInput(message), SearchReason)
    else if Mentions(l, TicketWords) then
      UseTool("create_ticket", TicketInput(message), TicketReason)
    else if Mentions(l, QueryWords) then
      UseTool("run_query", QueryInput(), QueryReason)
    else
      NoTool(NoToolReason)
  }

  /** A message that mentions one of `words` is at least as long as the shortest of them. */
  lemma MentionsLength(message: string, words: seq<string>, n: nat)
    requires Mentions(Lower(message), words)
    requires forall w :: w in words ==> |w| >= n
    ensures |message| >= n
  {
    var w :| w in words && Contains(Lower(message), w);
    ContainsLength(Lower(message), w);
  }

  /**
   * The router's inputs always satisfy the chosen tool's schema, except a
   * ticket whose message is shorter than the 10 characters `body` needs.
   */
  lemma DecidedInputConforms(message: string)
    requires Decide(message).UseTool?
    ensures var d := Decide(message);
      Registry.GetTool(d.tool).Registered? &&
      (Conforms(Registry.GetTool(d.tool).tool.schema, d.input) <==> !(d.tool == "create_ticket" && |message| < 10))
  {
    var d := Decide(message);
    Registry.GetToolRegistered(d.tool);
    if d.tool == "rag_query" {
      RagDecisionConforms(message);
    } else if d.tool == "search_db" {
      SearchInputConforms(message);
    } else if d.tool == "create_ticket" {
      TicketDecisionConforms(message);
    } else {
      Registry.RunQueryInput(QueryInput().members);
    }
  }

  lemma RagDecisionConforms(message: string)
    requires Decide(message).UseTool? && Decide(message).tool == "rag_query"
    ensures Conforms(Registry.RagQuerySchema, RagInput(message))
  {
    MentionsLength(message, RagWords, 3);
    RagInputConforms(message);
  }

  lemma TicketDecisionConforms(message: string)
    requires Decide(message).UseTool? && Decide(message).tool == "create_ticket"
    ensures Conforms(Registry.CreateTicketSchema, TicketInput(message)) <==> |message| >= 10
  {
    MentionsLength(message, TicketWords, 5);
    TicketInputConforms(message);
  }

  lemma RagInputConforms(message: string)
    requires |message| >= 3
    ensures Conforms(Registry.RagQuerySchema, RagInput(message))
  {
    Registry.RagQueryInput(RagInput(message).members);
    assert IsInteger(3.0);
  }

  lemma SearchInputConforms(message: string)
    ensures Conforms(Registry.SearchDbSchema, SearchInput(message))
  {
    Registry.SearchDbInput(SearchInput(message).members);
    assert IsInteger(5.0);
  }

  lemma TicketInputConforms(message: string)
    requires |message| >= 5
    ensures Conforms(Registry.CreateTicketSchema, TicketInput(message)) <==> |message| >= 10
  {
    Registry.CreateTicketInput(TicketInput(message).members);
  }

  /** The router's fixed query holds none of the keywords `run_query` refuses. */
  lemma AgentQueryIsSafe()
    ensures RunQuery.RunQuery(AgentQuery, None).Ok?
  {
    var front, back := "select * from pro", "ducts limit 5";
    LowerAgentQuery(front, back);
    forall k | k in RunQuery.DangerousKeywords ensures !Contains(front + back, k) {
      Absent(front, back, k);
    }
  }

  lemma LowerAgentQuery(front: string, back: string)
    requires front == "select * from pro" && back == "ducts limit 5"
    ensures Lower(AgentQuery) == front + back
  {
    var l := Lower(AgentQuery);
    assert forall i :: 0 <= i < |l| ==> l[i] == (front + back)[i];
  }

  lemma Absent(front: string, back: string, k: string)
    requires front == "select * from pro" && back == "ducts limit 5"
    requires k in RunQuery.DangerousKeywords
    ensures !Contains(front + back, k)
  {
    var rest := "ucts limit 5";
    if k == "drop" || k == "delete" {
      ContainsSkip(front, back, k);
      assert back == ['d'] + rest;
      ContainsCons('d', rest, k);
      NotContainsWithoutHead(rest, k);
      assert back[1] != k[1];
    } else if k == "truncate" {
      assert k[3] !in front + back;
      if Contains(front + back, k) {
        ContainsChar(front + back, k, 3);
      }
    } else {
      NotContainsWithoutHead(front + back, k);
    }
  }

  /** The answer to `/agent/ask`. */
  datatype Answer =
    | MissingMessage                                  // 400 bad_request "Message is required"
    | Direct(response: string)                        // 200, no tool used
    | UnknownTool(tool: string)                       // 404 not_found
    | InputRejected(details: set<Violation>)          // 400 validation_error "Tool input validation failed"
    | Answered(response: string, toolName: string, toolInput: Json, toolResult: Tools.ToolResult, reasoning: string)
    | Failed(message: string)                         // 500 execution_error

  /** The reply without a tool: it quotes the message after a fixed opening. */
  function Echo(message: string): (r: string)
    ensures StartsWith(r, EchoHead) && Contains(r, message)
  {
    ContainsPart(EchoHead, message, EchoTail);
    EchoHead + message + EchoTail
  }

  const EchoHead: string := "I understand you said: \""

  const EchoTail: string :=
    "\". How can I help you? You can ask me to search products, create tickets, or query the database."

  const RagIntro: string := "Here is relevant context based on your question:\n"

  const NoContext: string := "No relevant context found."

  /** `I found N product(s): ` and each hit as `name ($price)`, joined by ", ". */
  function SearchReply(hits: seq<SearchDb.Product>, price: real -> string): (s: string)
    ensures StartsWith(s, "I found " + NatToString(|hits|) + " product(s): ")
    ensures forall i :: 0 <= i < |hits| ==> Contains(s, hits[i].name)
  {
    var items := seq(|hits|, i requires 0 <= i < |hits| => hits[i].name + " ($" + price(hits[i].price) + ")");
    var head := "I found " + NatToString(|hits|) + " product(s): ";
    assert forall i :: 0 <= i < |hits| ==> Contains(items[i], hits[i].name) by {
      forall i | 0 <= i < |hits| ensures Contains(items[i], hits[i].name) {
        ContainsPart("", hits[i].name, " ($" + price(hits[i].price) + ")");
        assert "" + hits[i].name + (" ($" + price(hits[i].price) + ")") == items[i];
      }
    }
    PhraseHolds(head, items, ", ", seq(|hits|, i requires 0 <= i < |hits| => hits[i].name));
    head + Join(items, ", ")
  }

  /** The reply naming the new ticket's id and title. */
  function TicketReply(t: Tools.Ticket): (s: string)
    ensures Contains(s, t.id) && Contains(s, t.title)
  {
    var s := "I've created ticket " + t.id + " with title \"" + t.title + "\". Our team will review it shortly.";
    ContainsBoth("I've created ticket ", t.id, " with title \"", t.title, "\". Our team will review it shortly.");
    s
  }

  /** The context lines `- content (source: source)` after an introduction, or a fixed reply when there are none. */
  function RagReply(items: seq<RagQuery.ScoredChunk>): (s: string)
    ensures s == NoContext <==> items == []
    ensures items != [] ==> StartsWith(s, RagIntro)
    ensures forall i :: 0 <= i < |items| ==> Contains(s, items[i].content)
  {
    if |items| > 0 then
      var lines := seq(|items|, i requires 0 <= i < |items| => "- " + items[i].content + " (source: " + items[i].source + ")");
      assert forall i :: 0 <= i < |items| ==> Contains(lines[i], items[i].content) by {
        forall i | 0 <= i < |items| ensures Contains(lines[i], items[i].content) {
          ContainsPart("- ", items[i].content, " (source: " + items[i].source + ")");
          assert "- " + items[i].content + (" (source: " + items[i].source + ")") == lines[i];
        }
      }
      PhraseHolds(RagIntro, lines, "\n", seq(|items|, i requires 0 <= i < |items| => items[i].content));
      assert |RagIntro + Join(lines, "\n")| > |NoContext|;
      RagIntro + Join(lines, "\n")
    else NoContext
  }

  /**
   * The reply phrasing a tool's result: the hit count and each hit's name and
   * price (JavaScript's rendering of the price is `price`), the new ticket's id
   * and title, the row count, or the context lines with their sources.
   */
  function Phrase(r: Tools.ToolResult, price: real -> string): (s: string)
    ensures r.SearchOut? ==> s == SearchReply(r.search.hits, price)
    ensures r.TicketOut? ==> s == TicketReply(r.created.ticket)
    ensures r.QueryOut? ==> s == "Query executed successfully. Found " + NatToString(r.rows.rowCount) + " rows."
    ensures r.RagOut? ==> s == RagReply(r.rag.results)
  {
    match r
    case SearchOut(result) => SearchReply(result.hits, price)
    case TicketOut(created) => TicketReply(created.ticket)
    case QueryOut(result) => "Query executed successfully. Found " + NatToString(result.rowCount) + " rows."
    case RagOut(result) => RagReply(result.results)
  }

  /** `head` followed by the joined items starts with `head` and holds the part `keys[i]` of each item. */
  lemma PhraseHolds(head: string, items: seq<string>, sep: string, keys: seq<string>)
    requires |keys| == |items|
    requires forall i :: 0 <= i < |items| ==> Contains(items[i], keys[i])
    ensures StartsWith(head + Join(items, sep), head)
    ensures forall i :: 0 <= i < |items| ==> Contains(head + Join(items, sep), keys[i])
  {
    var s := head + Join(items, sep);
    assert s[..|head|] == head;
    forall i | 0 <= i < |items| ensures Contains(s, keys[i]) {
      JoinContains(items, sep, i);
      ContainsWithin(head, Join(items, sep), "", items[i]);
      assert head + Join(items, sep) + "" == s;
      ContainsTrans(s, items[i], keys[i]);
    }
  }

  /** A ticket body shorter than 10 characters is reported as a `minLength` violation of `body`. */
  lemma ShortBodyReported(message: string)
    requires |message| < 10
    ensures Violation(MinLength, "body") in Violations(Registry.CreateTicketSchema, TicketInput(message))
  {
    var m := TicketInput(message).members;
    var p := Registry.CreateTicketSchema.properties[1];
    assert p.name == "body" && p.schema.minLength == Some(10);
    Schema.ReportsValueViolations(Registry.CreateTicketSchema, m, 1);
    assert Violation(MinLength, "body") in ValueViolations(p, m["body"]);
  }

  /**
   * Running a decided tool on its input: validation against the tool's
   * schema, then the handler, whose result is phrased as the reply.
   */
  function Execute(env: Tools.Env, name: string, input: Json, reasoning: string, price: real -> string): (a: Answer)
    requires name in {"rag_query", "search_db", "create_ticket", "run_query"}
    ensures Registry.GetTool(name).Registered?
    ensures var tool := Registry.GetTool(name).tool;
      && (a.InputRejected? <==> !Conforms(tool.schema, input))
      && (a.InputRejected? ==> a.details == Violations(tool.schema, input))
      && ((a.Answered? || a.Failed?) <==> Conforms(tool.schema, input))
      && (a.Answered? ==> a.toolName == name && a.toolInput == input && a.reasoning == reasoning
                          && Tools.Run(env, tool.handler, input) == Ok(a.toolResult)
                          && a.response == Phrase(a.toolResult, price))
      && (a.Failed? ==> Tools.Run(env, tool.handler, input).Err?
                        && a.message == if Tools.Run(env, tool.handler, input).message == "" then AgentFailed
                                        else Tools.Run(env, tool.handler, input).message)
  {
    Registry.GetToolRegistered(name);
    var tool := Registry.GetTool(name).tool;
    match Validate(tool.schema, input)
    case Invalid(errors) => InputRejected(errors)
    case Valid =>
      match Tools.Run(env, tool.handler, input)
      case Ok(result) => Answered(Phrase(result, price), name, input, result, reasoning)
      case Err(m) => Failed(if m == "" then AgentFailed else m)
  }

  /**
   * The reply to a message that is a string: the router's decision, then,
   * when it names a tool, that tool's validation and its handler's outcome.
   */
  function Respond(env: Tools.Env, message: string, price: real -> string): (a: Answer)
    ensures !a.MissingMessage? && !a.UnknownTool?
    ensures a.Direct? <==> Decide(message).NoTool?
    ensures a.Direct? ==> a.response == Echo(message)
    ensures var d := Decide(message); d.UseTool? ==> a == Execute(env, d.tool, d.input, d.reasoning, price)
  {
    match Decide(message)
    case NoTool(_) => Direct(Echo(message))
    case UseTool(name, input, reasoning) => Execute(env, name, input, reasoning, price)
  }

  /**
   * Search and RAG are never refused, nor is the fixed query; a ticket is
   * refused exactly when the message is shorter than the 10 characters
   * `body` needs, with that `minLength` violation among the details.
   */
  lemma RespondRejects(env: Tools.Env, message: string, price: real -> string)
    ensures var a := Respond(env, message, price);
      && (a.InputRejected? <==> Decide(message).UseTool? && Decide(message).tool == "create_ticket" && |message| < 10)
      && (a.InputRejected? ==>
            a.details == Violations(Registry.CreateTicketSchema, TicketInput(message))
            && Violation(MinLength, "body") in a.details)
  {
    var d := Decide(message);
    if d.UseTool? {
      DecidedInputConforms(message);
      if d.tool == "create_ticket" {
        Registry.GetToolRegistered(d.tool);
        if |message| < 10 {
          ShortBodyReported(message);
        }
      }
    }
  }

  /**
   * A reply fails exactly when it is a ticket the store refuses, and then
   * carries the store's message, or the generic one when that is empty.
   */
  lemma RespondFails(env: Tools.Env, message: string, price: real -> string)
    ensures var a := Respond(env, message, price);
      && (a.Failed? <==>
            Decide(message).UseTool? && Decide(message).tool == "create_ticket" && |message| >= 10 && env.ticketWrite.Err?)
      && (a.Failed? ==> a.message == if env.ticketWrite.message == "" then AgentFailed else env.ticketWrite.message)
  {
    var d := Decide(message);
    if d.UseTool? {
      DecidedInputConforms(message);
      var tool := Registry.GetTool(d.tool).tool;
      if Conforms(tool.schema, d.input) {
        RunsAsDecided(env, message, tool);
      }
    }
  }

  /** On the router's conforming input, only a ticket the store refuses fails, with the store's message. */
  lemma RunsAsDecided(env: Tools.Env, message: string, tool: Registry.Tool)
    requires Decide(message).UseTool? && Registry.GetTool(Decide(message).tool) == Registry.Registered(tool)
    requires Conforms(tool.schema, Decide(message).input)
    ensures var r := Tools.Run(env, tool.handler, Decide(message).input);
      && (r.Err? <==> Decide(message).tool == "create_ticket" && env.ticketWrite.Err?)
      && (r.Err? ==> r.message == env.ticketWrite.message)
  {
    var d := Decide(message);
    Registry.GetToolRegistered(d.tool);
    assert (tool.name, tool) in Registry.Table;
    Tools.ConformingInputIsWellTyped(tool, d.input);
    if d.tool == "run_query" {
      AgentQueryIsSafe();
      assert Member(d.input, "query") == Some(JStr(AgentQuery));
      assert Member(d.input, "database") == None;
    } else if d.tool == "create_ticket" {
      Tools.TicketRun(env, d.input);
    }
  }

  /**
   * `POST /agent/ask` with body member `message`: a missing or falsy message
   * is a 400 before any routing; a message that is not a string makes
   * `toLowerCase` throw, a 500; a string gets `Respond`'s reply.
   */
  function Ask(env: Tools.Env, message: Option<Json>, price: real -> string): (a: Answer)
    ensures a.MissingMessage? <==> !TruthyOpt(message)
    ensures TruthyOpt(message) && !message.value.JStr? ==> a == Failed(NotAString)
    ensures TruthyOpt(message) && message.value.JStr? ==> a == Respond(env, message.value.s, price)
    ensures !a.UnknownTool?
  {
    if !TruthyOpt(message) then MissingMessage
    else if !message.value.JStr? then Failed(NotAString)
    else Respond(env, message.value.s, price)
  }
}
