/**
 * The four handlers wired into the `/invoke` pipeline: the registry's schemas
 * checked by the draft-07 validator, and each handler reading its arguments
 * from the validated input. Everything outside the server (the product and
 * document stores, the ticket store's answer to a write, the embedding
 * provider, square roots and number formatting) is an `Env`.
 */
module Tools {
  import opened Wrappers
  import opened Json
  import opened Schema
  import opened Dispatch
  import Strings
  import Registry
  import SearchDb
  import RunQuery
  import RagQuery
  import Embeddings

  datatype Ticket = Ticket(id: string, title: string, body: string, priority: Json, status: string)

  datatype TicketResult = TicketResult(success: bool, ticket: Ticket)

  /** What a handler resolves with. */
  datatype ToolResult =
    | SearchOut(search: SearchDb.SearchResult)
    | TicketOut(created: TicketResult)
    | QueryOut(rows: RunQuery.QueryResult)
    | RagOut(rag: RagQuery.RagResult)

  /** The world outside the server, as far as the handlers see it. */
  datatype Env = Env(
    products: seq<SearchDb.Product>,
    chunks: seq<RagQuery.Chunk>,
    openAiKey: Option<string>,
    provider: string -> Option<seq<real>>,
    sqrt: real -> real,
    fixed3: real -> string,
    ticketWrite: HandlerResult<string>)

  /**
   * `createTicketHandler({title, body, priority = "medium"})`: the store either
   * assigns the new ticket an id or fails with a message. A new ticket is "open".
   */
  function CreateTicket(title: string, body: string, priority: Option<Json>, write: HandlerResult<string>): (r: HandlerResult<TicketResult>)
    ensures r.Ok? <==> write.Ok?
    ensures r.Ok? ==> r.result.success && r.result.ticket.id == write.result
    ensures r.Ok? ==> r.result.ticket.title == title && r.result.ticket.body == body
    ensures r.Ok? ==> r.result.ticket.status == "open"
    ensures r.Ok? ==> r.result.ticket.priority == (if priority.Some? then priority.value else JStr("medium"))
    ensures r.Err? ==> r.message == write.message
  {
    match write
    case Ok(id) => Ok(TicketResult(true, Ticket(id, title, body, priority.GetOr(JStr("medium")), "open")))
    case Err(m) => Err(m)
  }

  /** The failure of a handler given an argument of the wrong type; validated input never has one. */
  const BadArgument: string := "Invalid tool argument"

  predicate IsString(j: Option<Json>) {
    j.Some? && j.value.JStr?
  }

  /** An optional member must be absent or a string. */
  predicate OptString(j: Option<Json>) {
    j.None? || j.value.JStr?
  }

  /** An optional member must be absent or a number. */
  predicate OptNumber(j: Option<Json>) {
    j.None? || j.value.JNum?
  }

  function AsString(j: Option<Json>): Option<string>
    requires OptString(j)
  {
    if j.Some? then Some(j.value.s) else None
  }

  function AsNumber(j: Option<Json>): Option<real>
    requires OptNumber(j)
  {
    if j.Some? then Some(j.value.n) else None
  }

  /** The handler finds its arguments with the types it reads them as. */
  predicate WellTyped(h: Registry.Handler, input: Json) {
    match h
    case SearchDbHandler => OptString(Member(input, "category")) && OptNumber(Member(input, "limit"))
    case CreateTicketHandler => IsString(Member(input, "title")) && IsString(Member(input, "body"))
    case RunQueryHandler => IsString(Member(input, "query"))
    case RagQueryHandler => IsString(Member(input, "query")) && OptNumber(Member(input, "topK"))
  }

  /** `tool.handler(input)`: each handler reads its arguments from the input object. */
  function Run(env: Env, h: Registry.Handler, input: Json): (r: HandlerResult<ToolResult>)
    ensures !WellTyped(h, input) ==> r == Err(BadArgument)
    ensures WellTyped(h, input) && (h.SearchDbHandler? || h.RagQueryHandler?) ==> r.Ok?
  {
    if !WellTyped(h, input) then Err(BadArgument)
    else match h
      case SearchDbHandler =>
        Ok(SearchOut(SearchDb.Search(env.products, Member(input, "q"),
                                     AsString(Member(input, "category")), AsNumber(Member(input, "limit")))))
      case CreateTicketHandler =>
        (match CreateTicket(Member(input, "title").value.s, Member(input, "body").value.s,
                            Member(input, "priority"), env.ticketWrite)
         case Ok(t) => Ok(TicketOut(t))
         case Err(m) => Err(m))
      case RunQueryHandler =>
        (match RunQuery.RunQuery(Member(input, "query").value.s, Member(input, "database"))
         case Ok(q) => Ok(QueryOut(q))
         case Err(m) => Err(m))
      case RagQueryHandler =>
        var text := Member(input, "query").value.s;
        var qVec := Embeddings.GetEmbedding(text, env.openAiKey, env.provider(text), env.sqrt);
        Ok(RagOut(RagQuery.Rag(text, AsNumber(Member(input, "topK")), env.chunks, qVec, env.sqrt, env.fixed3)))
  }

  /**
   * `POST /invoke` with the draft-07 validator and the four handlers. A
   * validation failure reports every violation; a handler only ever runs on
   * conforming, hence well-typed, input; and only `create_ticket` (when the
   * store fails) and `run_query` (on a dangerous query) can fail.
   */
  function InvokeTool(env: Env, toolName: Option<string>, input: Option<Json>, role: Option<string>,
                      duration: nat, requestId: string): (o: Outcome<set<Violation>, ToolResult>)
    ensures !Authorized(toolName, role) ==> !o.ValidationError? && !o.Success? && !o.ExecutionError?
    ensures Authorized(toolName, role) ==> var tool := Registry.GetTool(toolName.value).tool;
      && (o.ValidationError? ==> o.details != {} && o.details == Violations(tool.schema, OrEmpty(input)))
      && (o.Success? || o.ExecutionError? ==> Conforms(tool.schema, OrEmpty(input)) && WellTyped(tool.handler, OrEmpty(input)))
    ensures o.ExecutionError? ==> toolName in {Some("create_ticket"), Some("run_query")}
  {
    var o := Invoke(toolName, input, role, Validate, (h, j) => Run(env, h, j), duration, requestId);
    if o.Success? || o.ExecutionError? then
      var tool := Registry.GetTool(toolName.value).tool;
      ConformingInputIsWellTyped(tool, OrEmpty(input));
      o
    else o
  }

  /** The registry's schemas guarantee every handler the argument types it reads. */
  lemma ConformingInputIsWellTyped(tool: Registry.Tool, v: Json)
    requires (tool.name, tool) in Registry.Table
    requires Conforms(tool.schema, v)
    ensures WellTyped(tool.handler, v)
  {
    var m := v.members;
    if tool == Registry.SearchDb {
      Registry.SearchDbInput(m);
    } else if tool == Registry.CreateTicket {
      Registry.CreateTicketInput(m);
    } else if tool == Registry.RunQuery {
      Registry.RunQueryInput(m);
    } else {
      Registry.RagQueryInput(m);
    }
  }

  /** The validator and handlers `InvokeTool` passes to the pipeline. */
  lemma InvokeToolUnfold(env: Env, toolName: Option<string>, input: Option<Json>, role: Option<string>,
                         duration: nat, requestId: string)
    ensures InvokeTool(env, toolName, input, role, duration, requestId)
         == Invoke(toolName, input, role, Validate, (h, j) => Run(env, h, j), duration, requestId)
  {
  }

  /** An authorised call with a conforming input object answers exactly what the handler gives. */
  lemma ConformingInputRuns(env: Env, name: string, input: Json, role: Option<string>, duration: nat, requestId: string)
    requires Authorized(Some(name), role) && Truthy(input)
    requires Conforms(Registry.GetTool(name).tool.schema, input)
    ensures var o := InvokeTool(env, Some(name), Some(input), role, duration, requestId);
      match Run(env, Registry.GetTool(name).tool.handler, input)
      case Ok(x) => o == Success(name, x, ExecutionTime(duration), requestId)
      case Err(m) => o == ExecutionError(if m == "" then "Tool execution failed" else m, name, requestId)
  {
    InvokeToolUnfold(env, Some(name), Some(input), role, duration, requestId);
    var run := (h, j) => Run(env, h, j);
    if run(Registry.GetTool(name).tool.handler, input).Ok? {
      HandlerSuccess(name, Some(input), role, Validate, run, duration, requestId);
    } else {
      HandlerFailure(name, Some(input), role, Validate, run, duration, requestId);
    }
  }

  /**
   * An admin asking `run_query` for any query in which "drop" occurs, such as
   * "DROP TABLE products", gets a 500 naming that keyword.
   */
  lemma DropQueryIsExecutionError(env: Env, query: string, duration: nat, requestId: string)
    requires |query| >= 5 && Strings.Contains(Strings.Lower(query), "drop")
    ensures InvokeTool(env, Some("run_query"), Some(JObj(map["query" := JStr(query)])), Some("admin"), duration, requestId)
         == ExecutionError(RunQuery.DangerMessage("drop"), "run_query", requestId)
  {
    var input := JObj(map["query" := JStr(query)]);
    QueryInputConforms(query);
    RunQuery.DropComesFirst(query, None);
    ConformingInputRuns(env, "run_query", input, Some("admin"), duration, requestId);
  }

  /** A `query` of at least 5 characters is an input `run_query` accepts, and the handler runs it. */
  lemma QueryInputConforms(query: string)
    requires |query| >= 5
    ensures var input := JObj(map["query" := JStr(query)]);
      && Authorized(Some("run_query"), Some("admin")) && Truthy(input)
      && Conforms(Registry.GetTool("run_query").tool.schema, input)
      && forall env: Env :: Run(env, Registry.GetTool("run_query").tool.handler, input) ==
           match RunQuery.RunQuery(query, None) case Ok(x) => Ok(QueryOut(x)) case Err(m) => Err(m)
  {
    var m := map["query" := JStr(query)];
    Registry.GetToolRegistered("run_query");
    Registry.RunQueryInput(m);
    assert Member(JObj(m), "query") == Some(JStr(query));
    assert Member(JObj(m), "database") == None;
  }

  /** `search_db` with an empty input is a validation error that reports the missing `q`. */
  lemma EmptySearchIsValidationError(env: Env, duration: nat, requestId: string)
    ensures var o := InvokeTool(env, Some("search_db"), Some(JObj(map[])), Some("admin"), duration, requestId);
      o.ValidationError? && Violation(Required, "q") in o.details
  {
    Registry.GetToolRegistered("search_db");
    ReportsMissingAndExtra(Registry.SearchDbSchema, map[], "q");
  }

  /** `search_db` reads `q`, `category` and `limit` from its input. */
  lemma SearchRun(env: Env, input: Json)
    requires WellTyped(Registry.SearchDbHandler, input)
    ensures Run(env, Registry.SearchDbHandler, input) ==
      Ok(SearchOut(SearchDb.Search(env.products, Member(input, "q"), AsString(Member(input, "category")), AsNumber(Member(input, "limit")))))
  {
  }

  /**
   * `rag_query` embeds the `query` member and ranks the stored chunks against
   * it, taking `topK` from its input; without a provider key the query's
   * embedding is the hash fallback of its text.
   */
  lemma RagRun(env: Env, input: Json)
    requires WellTyped(Registry.RagQueryHandler, input)
    ensures var q := Member(input, "query").value.s;
      var qVec := Embeddings.GetEmbedding(q, env.openAiKey, env.provider(q), env.sqrt);
      Run(env, Registry.RagQueryHandler, input) ==
        Ok(RagOut(RagQuery.Rag(q, AsNumber(Member(input, "topK")), env.chunks, qVec, env.sqrt, env.fixed3)))
    ensures var q := Member(input, "query").value.s;
      !Embeddings.HasKey(env.openAiKey) ==>
        Run(env, Registry.RagQueryHandler, input) ==
          Ok(RagOut(RagQuery.Rag(q, AsNumber(Member(input, "topK")), env.chunks,
                                 Embeddings.Normalise(Embeddings.Raw(Strings.Utf16(q)), env.sqrt), env.sqrt, env.fixed3)))
  {
  }

  /** `create_ticket` reads `title`, `body` and `priority` from its input, and fails exactly when the store does. */
  lemma TicketRun(env: Env, input: Json)
    requires WellTyped(Registry.CreateTicketHandler, input)
    ensures var r := Run(env, Registry.CreateTicketHandler, input);
      && (r.Err? <==> env.ticketWrite.Err?)
      && (r.Err? ==> r.message == env.ticketWrite.message)
      && (env.ticketWrite.Ok? ==>
            var t := Ticket(env.ticketWrite.result, Member(input, "title").value.s, Member(input, "body").value.s,
                            Member(input, "priority").GetOr(JStr("medium")), "open");
            r == Ok(TicketOut(TicketResult(true, t))))
  {
  }

  /**
   * `search_db` for a trimmed, lower-case text such as "laptop", with an
   * integer limit in [1, 100] such as 5, succeeds with at most `limit` hits,
   * each naming or categorised as the text.
   */
  lemma SearchWithLimit(env: Env, q: string, limit: real, duration: nat, requestId: string)
    requires q != [] && !Strings.IsJsSpace(q[0]) && !Strings.IsJsSpace(q[|q| - 1]) && forall i :: 0 <= i < |q| ==> !('A' <= q[i] <= 'Z')
    requires IsInteger(limit) && 1.0 <= limit <= 100.0
    ensures var o := InvokeTool(env, Some("search_db"), Some(JObj(map["q" := JStr(q), "limit" := JNum(limit)])), Some("admin"), duration, requestId);
      && o.Success? && o.tool == "search_db" && o.executionTime == ExecutionTime(duration)
      && o.result.SearchOut? && |o.result.search.hits| as real <= limit
      && forall p :: p in o.result.search.hits ==> SearchDb.Matches(p, q)
  {
    var input := JObj(map["q" := JStr(q), "limit" := JNum(limit)]);
    SearchInputConforms(q, limit);
    SearchRun(env, input);
    ConformingInputRuns(env, "search_db", input, Some("admin"), duration, requestId);
    SearchDb.NormalisedSearch(env.products, q, None, limit);
  }

  /** A non-empty `q` with an integer `limit` in [1, 100] is an input `search_db` accepts. */
  lemma SearchInputConforms(q: string, limit: real)
    requires q != [] && IsInteger(limit) && 1.0 <= limit <= 100.0
    ensures var input := JObj(map["q" := JStr(q), "limit" := JNum(limit)]);
      && Authorized(Some("search_db"), Some("admin")) && Truthy(input)
      && Conforms(Registry.GetTool("search_db").tool.schema, input)
      && Member(input, "q") == Some(JStr(q)) && Member(input, "category") == None
      && AsNumber(Member(input, "limit")) == Some(limit)
  {
    var m := map["q" := JStr(q), "limit" := JNum(limit)];
    Registry.GetToolRegistered("search_db");
    Registry.SearchDbInput(m);
  }

  /** "laptop" is such a text. */
  lemma LaptopText()
    ensures SearchDb.SearchText(Some(JStr("laptop"))) == "laptop"
  {
    var s := "laptop";
    assert s[0] == 'l' && s[|s| - 1] == 'p';
    assert forall i :: 0 <= i < |s| ==> 'a' <= s[i] <= 'z';
    SearchDb.NormalisedTextKept(s);
  }

  /**
   * A ticket whose title has 5 to 200 characters and whose body has at least
   * 10, such as "Test Ticket" and "This is a test ticket description", is
   * created "open" with that title, body and priority when the store accepts it.
   */
  lemma TicketCreated(env: Env, title: string, body: string, duration: nat, requestId: string)
    requires env.ticketWrite.Ok? && 5 <= |title| <= 200 && |body| >= 10
    ensures var o := InvokeTool(env, Some("create_ticket"),
                                Some(JObj(map["title" := JStr(title), "body" := JStr(body), "priority" := JStr("medium")])),
                                Some("admin"), duration, requestId);
      && o.Success? && o.result.TicketOut?
      && o.result.created.ticket == Ticket(env.ticketWrite.result, title, body, JStr("medium"), "open")
  {
    var input := JObj(map["title" := JStr(title), "body" := JStr(body), "priority" := JStr("medium")]);
    TicketInputConforms(title, body);
    TicketRun(env, input);
    ConformingInputRuns(env, "create_ticket", input, Some("admin"), duration, requestId);
  }

  /** A title of 5 to 200 characters and a body of at least 10 make an input `create_ticket` accepts. */
  lemma TicketInputConforms(title: string, body: string)
    requires 5 <= |title| <= 200 && |body| >= 10
    ensures var input := JObj(map["title" := JStr(title), "body" := JStr(body), "priority" := JStr("medium")]);
      && Authorized(Some("create_ticket"), Some("admin")) && Truthy(input)
      && Conforms(Registry.GetTool("create_ticket").tool.schema, input)
      && Registry.GetTool("create_ticket").tool.handler == Registry.CreateTicketHandler
      && Member(input, "title") == Some(JStr(title)) && Member(input, "body") == Some(JStr(body))
      && Member(input, "priority") == Some(JStr("medium"))
  {
    var m := map["title" := JStr(title), "body" := JStr(body), "priority" := JStr("medium")];
    Registry.GetToolRegistered("create_ticket");
    Registry.CreateTicketInput(m);
  }
}
