/**
 * The tool registry: a constant table of four tool descriptors, in the
 * insertion order of the object literal, with a listing view that drops the
 * handler and a lookup by name.
 */
module Registry {
  import opened Wrappers
  import opened Json
  import opened Schema

  /** The handler a descriptor points at, as a closed set of variants. */
  datatype Handler = SearchDbHandler | CreateTicketHandler | RunQueryHandler | RagQueryHandler

  datatype Metadata = Metadata(
    cost: string,
    estimatedLatency: string,
    requiredPermissions: seq<string>,
    requiresConfirmation: Option<bool>)

  datatype Tool = Tool(
    name: string,
    description: string,
    schema: ObjectSchema,
    metadata: Metadata,
    handler: Handler)

  /** What the listing shows of a tool: everything but the handler. */
  datatype ToolView = ToolView(
    name: string,
    description: string,
    schema: ObjectSchema,
    metadata: Metadata)

  /** A string-typed member carrying only a description. */
  function StringProperty(name: string, description: string): Property {
    Property(name, PropertySchema(TString, description, None, None, None, None, None, None))
  }

  /** An integer-typed member with inclusive bounds and a default. */
  function IntegerProperty(name: string, description: string, min: real, max: real, default: real): Property {
    Property(name, PropertySchema(TInteger, description, None, None, None, Some(min), Some(max), Some(JNum(default))))
  }

  function WithMinLength(p: Property, n: nat): Property {
    p.(schema := p.schema.(minLength := Some(n)))
  }

  const SearchDbSchema := ObjectSchema(
    [ WithMinLength(StringProperty("q", "Search query"), 1),
      var c := StringProperty("category", "Filter by category");
      c.(schema := c.schema.(enumValues := Some([JStr("Electronics"), JStr("Furniture"), JStr("Stationery")]))),
      IntegerProperty("limit", "Maximum number of results", 1.0, 100.0, 10.0) ],
    ["q"],
    false)

  const CreateTicketSchema := ObjectSchema(
    [ var t := WithMinLength(StringProperty("title", "Ticket title"), 5);
      t.(schema := t.schema.(maxLength := Some(200))),
      WithMinLength(StringProperty("body", "Ticket description"), 10),
      var p := StringProperty("priority", "Ticket priority level");
      p.(schema := p.schema.(enumValues := Some([JStr("low"), JStr("medium"), JStr("high"), JStr("urgent")]),
                             default := Some(JStr("medium")))) ],
    ["title", "body"],
    false)

  const RunQuerySchema := ObjectSchema(
    [ WithMinLength(StringProperty("query", "SQL query to execute"), 5),
      var d := StringProperty("database", "Target database");
      d.(schema := d.schema.(default := Some(JStr("default")))) ],
    ["query"],
    false)

  const RagQuerySchema := ObjectSchema(
    [ WithMinLength(StringProperty("query", "User query to retrieve relevant context"), 3),
      IntegerProperty("topK", "Number of chunks to retrieve", 1.0, 10.0, 3.0) ],
    ["query"],
    false)

  const SearchDb := Tool(
    "search_db", "Search product database by keywords and filters", SearchDbSchema,
    Metadata("low", "100ms", ["admin", "user"], None), SearchDbHandler)

  const CreateTicket := Tool(
    "create_ticket", "Create a support ticket in the ticketing system", CreateTicketSchema,
    Metadata("medium", "150ms", ["admin", "user"], Some(false)), CreateTicketHandler)

  const RunQuery := Tool(
    "run_query", "Execute a database query (admin only, read-only)", RunQuerySchema,
    Metadata("high", "200ms", ["admin"], Some(true)), RunQueryHandler)

  const RagQuery := Tool(
    "rag_query", "Retrieve relevant context chunks using embeddings (basic RAG)", RagQuerySchema,
    Metadata("medium", "200ms", ["admin", "user"], None), RagQueryHandler)

  /** The `tools` object literal: its keys in insertion order, each with its descriptor. */
  const Table: seq<(string, Tool)> := [
    ("search_db", SearchDb),
    ("create_ticket", CreateTicket),
    ("run_query", RunQuery),
    ("rag_query", RagQuery)
  ]

  /** The keys of a table, in order; `Names(Table)` is `Object.keys(tools)`. */
  function Names(table: seq<(string, Tool)>): (names: seq<string>)
    ensures |names| == |table|
    ensures forall i :: 0 <= i < |table| ==> names[i] == table[i].0
  {
    seq(|table|, i requires 0 <= i < |table| => table[i].0)
  }

  /** The four tools, in order; every key is its descriptor's name, and no key repeats. */
  lemma TableShape()
    ensures Names(Table) == ["search_db", "create_ticket", "run_query", "rag_query"]
    ensures forall i :: 0 <= i < |Table| ==> Table[i].0 == Table[i].1.name
    ensures forall i, j :: 0 <= i < j < |Table| ==> Table[i].0 != Table[j].0
  {
    assert Names(Table) == ["search_db", "create_ticket", "run_query", "rag_query"];
  }

  /** Every tool admits some role; run_query admits only "admin", the other three "admin" and "user". */
  lemma PermissionsShape()
    ensures forall i :: 0 <= i < |Table| ==> Table[i].1.metadata.requiredPermissions != []
    ensures RunQuery.metadata.requiredPermissions == ["admin"]
    ensures forall t :: t in [SearchDb, CreateTicket, RagQuery] ==> t.metadata.requiredPermissions == ["admin", "user"]
  {
  }

  /** Every schema's `required` names are declared properties, and no schema admits extra members. */
  lemma SchemasWellFormed()
    ensures forall i :: 0 <= i < |Table| ==>
      && !Table[i].1.schema.additionalProperties
      && forall r :: r in Table[i].1.schema.required ==> r in PropertyNames(Table[i].1.schema)
  {
    assert PropertyNames(SearchDbSchema) == ["q", "category", "limit"];
    assert PropertyNames(CreateTicketSchema) == ["title", "body", "priority"];
    assert PropertyNames(RunQuerySchema) == ["query", "database"];
    assert PropertyNames(RagQuerySchema) == ["query", "topK"];
  }

  /** `getAllTools()`, as `GetAllTools(Table)`: one view per tool in table order, with all but the handler. */
  function GetAllTools(table: seq<(string, Tool)>): (views: seq<ToolView>)
    ensures |views| == |table|
    ensures forall i :: 0 <= i < |table| ==>
      && views[i].name == table[i].1.name
      && views[i].description == table[i].1.description
      && views[i].schema == table[i].1.schema
      && views[i].metadata == table[i].1.metadata
  {
    seq(|table|, i requires 0 <= i < |table| =>
      var t := table[i].1; ToolView(t.name, t.description, t.schema, t.metadata))
  }

  /**
   * The names that `tools[name]` finds on `Object.prototype` rather than in the
   * table: for these the lookup yields a built-in function or object, which is truthy.
   */
  const ObjectPrototypeKeys: set<string> := {
    "constructor", "__proto__", "hasOwnProperty", "isPrototypeOf", "propertyIsEnumerable",
    "toLocaleString", "toString", "valueOf",
    "__defineGetter__", "__defineSetter__", "__lookupGetter__", "__lookupSetter__"
  }

  /** What `tools[name]` yields: a descriptor, an inherited built-in, or `undefined`. */
  datatype ToolLookup = Registered(tool: Tool) | Inherited | Absent

  function Find(entries: seq<(string, Tool)>, name: string): (r: Option<Tool>)
    ensures r.Some? <==> exists i :: 0 <= i < |entries| && entries[i].0 == name
    ensures r.Some? ==> exists i :: 0 <= i < |entries| && entries[i] == (name, r.value)
  {
    if entries == [] then None
    else if entries[0].0 == name then Some(entries[0].1)
    else
      var r := Find(entries[1..], name);
      assert forall i :: 1 <= i < |entries| ==> entries[i] == entries[1..][i - 1];
      r
  }

  /** `getTool(name)`. */
  function GetTool(name: string): (r: ToolLookup)
    ensures r.Registered? <==> name in Names(Table)
    ensures r.Registered? ==> r.tool.name == name && (name, r.tool) in Table
    ensures r.Inherited? <==> name !in Names(Table) && name in ObjectPrototypeKeys
    ensures r.Absent? <==> name !in Names(Table) && name !in ObjectPrototypeKeys
  {
    match Find(Table, name)
    case Some(t) => Registered(t)
    case None => if name in ObjectPrototypeKeys then Inherited else Absent
  }

  /** The names of the table are exactly the four registered ones, none of them a prototype key. */
  lemma GetToolRegistered(name: string)
    ensures GetTool(name).Registered? <==> name in {"search_db", "create_ticket", "run_query", "rag_query"}
    ensures name == "search_db" ==> GetTool(name) == Registered(SearchDb)
    ensures name == "create_ticket" ==> GetTool(name) == Registered(CreateTicket)
    ensures name == "run_query" ==> GetTool(name) == Registered(RunQuery)
    ensures name == "rag_query" ==> GetTool(name) == Registered(RagQuery)
  {
    TableShape();
  }

  /** The input `search_db` accepts: `q` a non-empty string, `category` one of three, `limit` an integer in [1, 100], nothing else. */
  lemma SearchDbInput(m: map<string, Json>)
    ensures Conforms(SearchDbSchema, JObj(m)) <==>
      && "q" in m && m["q"].JStr? && |m["q"].s| >= 1
      && ("category" in m ==> m["category"] in {JStr("Electronics"), JStr("Furniture"), JStr("Stationery")})
      && ("limit" in m ==> m["limit"].JNum? && IsInteger(m["limit"].n) && 1.0 <= m["limit"].n <= 100.0)
      && forall k :: k in m ==> k in {"q", "category", "limit"}
  {
    assert PropertyNames(SearchDbSchema) == ["q", "category", "limit"];
  }

  /** The input `create_ticket` accepts: `title` of 5 to 200 characters, `body` of at least 10, `priority` one of four. */
  lemma CreateTicketInput(m: map<string, Json>)
    ensures Conforms(CreateTicketSchema, JObj(m)) <==>
      && "title" in m && m["title"].JStr? && 5 <= |m["title"].s| <= 200
      && "body" in m && m["body"].JStr? && |m["body"].s| >= 10
      && ("priority" in m ==> m["priority"] in {JStr("low"), JStr("medium"), JStr("high"), JStr("urgent")})
      && forall k :: k in m ==> k in {"title", "body", "priority"}
  {
    var ps := CreateTicketSchema.properties;
    assert PropertyNames(CreateTicketSchema) == ["title", "body", "priority"];
    assert ps[0].schema == PropertySchema(TString, "Ticket title", None, Some(5), Some(200), None, None, None);
    assert ps[1].schema == PropertySchema(TString, "Ticket description", None, Some(10), None, None, None, None);
    assert ps[2].schema.ty == TString && ps[2].schema.minLength.None? && ps[2].schema.maxLength.None?;
  }

  /** The input `run_query` accepts: `query` a string of at least 5 characters, `database` a string. */
  lemma RunQueryInput(m: map<string, Json>)
    ensures Conforms(RunQuerySchema, JObj(m)) <==>
      && "query" in m && m["query"].JStr? && |m["query"].s| >= 5
      && ("database" in m ==> m["database"].JStr?)
      && forall k :: k in m ==> k in {"query", "database"}
  {
    assert PropertyNames(RunQuerySchema) == ["query", "database"];
  }

  /** The input `rag_query` accepts: `query` a string of at least 3 characters, `topK` an integer in [1, 10]. */
  lemma RagQueryInput(m: map<string, Json>)
    ensures Conforms(RagQuerySchema, JObj(m)) <==>
      && "query" in m && m["query"].JStr? && |m["query"].s| >= 3
      && ("topK" in m ==> m["topK"].JNum? && IsInteger(m["topK"].n) && 1.0 <= m["topK"].n <= 10.0)
      && forall k :: k in m ==> k in {"query", "topK"}
  {
    assert PropertyNames(RagQuerySchema) == ["query", "topK"];
  }
}
