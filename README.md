# mcp-chat-query, modelled in Dafny

A model of the core of the MCP chat-query server and its command-line agent.

The server keeps a fixed table of four tools: `search_db`, `create_ticket`, `run_query` and `rag_query`. Each tool has a JSON-Schema input constraint, a list of allowed roles and a handler.

`POST /invoke` is a chain of early exits:
- a missing tool name is 400 bad_request;
- an unknown tool is 404 not_found;
- a role that is not allowed is 403 forbidden;
- an input that fails validation is 400 validation_error;
- otherwise the handler runs, and its success (200) or failure (500 execution_error) is the answer.

`GET /tools` lists the tools without their handlers. The permission table and the API-key middleware are small decision functions. The audit middleware appends one entry per `/invoke` response to an in-memory log, and the admin route reads the last N entries.

`POST /agent/ask` routes a chat message by keywords to at most one tool, builds that tool's input, validates it, runs the handler and phrases a reply. The command-line agent picks an intent from the prompt, extracts a search text, truncates ticket titles and, without a chat-completion key, answers with a fixed template.

The handlers are modelled with their stores as inputs:
- the dangerous-keyword filter of `run_query`;
- the clamp, filter and prefix of `search_db`;
- the cosine score, stable sort and cut of `rag_query`;
- the hash embedding used when no embedding provider is available.

Layout, one module per file:
- `wrappers.dfy`, `json.dfy`, `strings.dfy`, `seqs.dfy`, `vectors.dfy`: values and helpers.
  - JSON values hold JavaScript numbers as reals.
  - A string is a sequence of Unicode code points; `Strings.Utf16` gives its UTF-16 code units where the code reads them (`charCodeAt`). Lowercasing is ASCII-only, and `trim` uses JavaScript's white-space set.
  - Sequences get filter and slice; vectors get sums.
- `schema.dfy`: the draft-07 keyword subset the registry uses, and a validator that collects every violation.
- `registry.dfy`: the tool table, `getAllTools`, `getTool`.
- `permissions.dfy`, `auth.dfy`: `checkPermission`, `authMiddleware`.
- `dispatch.dfy`: the `/invoke` pipeline, generic in validator and handlers, and the `/tools` listing.
- `run_query.dfy`, `search_db.dfy`, `rag_query.dfy`, `embeddings.dfy`: the handlers and `getEmbedding`.
- `tools.dfy`: the pipeline with the real validator and the four handlers.
- `agent_route.dfy`: `decideToolUsage` and `/agent/ask`.
- `audit.dfy`: the audit log as a class, and `GET /admin/audit`.
- `cli_agent.dfy`: `detectIntent`, `extractQuery`, the title rule and the template answer.

Points of behaviour the model keeps as the code has them:
- The RAG handler reads each chunk's stored embedding and computes only the query's.
- The router's search words are "search", "find", "product", "laptop", "mouse" and "chair".
- The audit read is `slice(-limit)` for every integer: zero keeps the whole log and a negative limit drops entries from the front.

## Model

| member | source | states |
|---|---|---|
| Registry.TableShape | server/src/tools/registry.js:9-140 | The table holds exactly search_db, create_ticket, run_query, rag_query in insertion order; each key equals its descriptor's name; no key repeats. |
| Registry.PermissionsShape | server/src/tools/registry.js:9-140 | Every tool's requiredPermissions is non-empty; run_query allows only "admin"; the other three allow "admin" and "user". |
| Registry.SchemasWellFormed | server/src/tools/registry.js:9-140 | Every schema forbids additional properties, and every required name is a declared property. |
| Registry.Names | server/src/tools/registry.js:9 | The keys of a table, one per entry, in order. |
| Registry.GetAllTools | server/src/tools/registry.js:145-152 | One view per tool, in table order, carrying name, description, schema and metadata (the view type has no handler). |
| Registry.Find | server/src/tools/registry.js:158 | Finds a value exactly when the key occurs, and the value found is paired with that key in the table. |
| Registry.GetTool | server/src/tools/registry.js:157-159 | A registered name yields its descriptor (named so, taken from the table); an Object.prototype key yields an inherited built-in; any other name yields undefined. |
| Registry.GetToolRegistered | server/src/tools/registry.js:157-159 | A name is registered iff it is one of the four, and each of the four yields its own descriptor. |
| Registry.SearchDbInput | server/src/tools/registry.js:13-36 | An object conforms iff q is a string of length >= 1, category (if present) is one of Electronics/Furniture/Stationery, limit (if present) is an integer in [1, 100], and there are no other members. |
| Registry.CreateTicketInput | server/src/tools/registry.js:48-71 | Conforms iff title is a string of 5 to 200 characters, body a string of at least 10, priority (if present) one of low/medium/high/urgent, nothing else. |
| Registry.RunQueryInput | server/src/tools/registry.js:84-100 | Conforms iff query is a string of at least 5 characters, database (if present) a string, nothing else. |
| Registry.RagQueryInput | server/src/tools/registry.js:113-132 | Conforms iff query is a string of at least 3 characters, topK (if present) an integer in [1, 10], nothing else. |
| Schema.PropertyNames | server/src/tools/registry.js:15 | The declared property names, in order. |
| Schema.ValueViolations | server/src/validators/schema-validator.js:4 | A member's violations are empty iff the member satisfies every keyword of its schema, and each names that member. |
| Schema.Violations | server/src/validators/schema-validator.js:4 | A value that is not an object has exactly the type violation; an object's violations each name a required or a present member. |
| Schema.PropertiesViolationsPresent | server/src/validators/schema-validator.js:4 | Violations of declared members name only members that are present. |
| Schema.PropertiesViolationsEmpty | server/src/validators/schema-validator.js:4 | The members' violations are empty iff every declared, present member conforms. |
| Schema.ViolationsEmptyIffConforms | server/src/validators/schema-validator.js:10-21 | The validator reports no violation exactly when the value conforms: nothing missed, nothing invented. |
| Schema.ReportsValueViolations | server/src/validators/schema-validator.js:4 | With allErrors, every violation of any declared member is among the object's errors. |
| Schema.ReportsMissingAndExtra | server/src/validators/schema-validator.js:4 | A required-member violation is reported for k iff k is required and missing; an additional-property violation iff additional properties are forbidden and k is present but undeclared. |
| Schema.Validate | server/src/validators/schema-validator.js:10-21 | Valid iff the value conforms; otherwise invalid with the full, non-empty set of violations. |
| Json.OrEmpty | server/src/routes/tools.js:63 | `input \|\| {}`: a truthy input is kept, anything else becomes the empty object. |
| Json.Member | server/src/routes/tools.js:33 | A member is found exactly when the value is an object that has that key. |
| Json.Object2 | server/src/routes/agent.js:31 | A two-member object literal has exactly those keys, each with its value. |
| Json.Clamp | server/src/tools/handlers/rag-query.js:22 | `Math.max(1, Math.min(Number(n) \|\| d, hi))`: in [1, hi]; absent or 0 gives the fallback; a value in range is kept, fractions included; at most 1 gives 1; at least hi gives hi. |
| Json.ClampCount | server/src/tools/handlers/search-db.js:9 | The count `slice` keeps: in [1, hi], the whole part of the clamp; absent or 0 gives the fallback; an integer in range is kept; at most 1 gives 1; at least hi gives hi. |
| Wrappers.OrDefault | server/src/middleware/permissions.js:16 | `s \|\| d` on an optional string: a present, non-empty string is kept, otherwise the default. |
| Permissions.EffectiveRole | server/src/middleware/permissions.js:16 | A missing or empty role is "guest"; any other role is kept; the result is never empty. |
| Permissions.Listed | server/src/middleware/permissions.js:17 | Finds the allowed roles exactly when the tool is listed, paired with that tool. |
| Permissions.CheckPermission | server/src/middleware/permissions.js:14-28 | `next()` iff the listed roles of the tool contain the effective role; a denial is 403 forbidden with the role/tool message; it throws exactly for an unlisted Object.prototype key. |
| Permissions.PermissionsKeysDistinct | server/src/middleware/permissions.js:4-9 | Each tool of the permission table is listed with a single role list. |
| Permissions.GuestAllowedNowhere | server/src/middleware/permissions.js:4-19 | A request without a role, or with role "guest", is allowed for no tool. |
| Permissions.UnlistedToolDenied | server/src/middleware/permissions.js:17-26 | A tool the table does not list (such as rag_query) that is not an Object.prototype key is denied to every role with a 403. |
| Permissions.DenyMessageNames | server/src/middleware/permissions.js:22-23 | The denial message contains both the role and the tool name. |
| Permissions.DenyMessage | server/src/middleware/permissions.js:22 | The message starts with "Role 'role'" and ends with the quoted tool name. |
| Permissions.AgreesWithRegistry | server/src/middleware/permissions.js:5-7 | For search_db, create_ticket and run_query the table's roles are exactly the registry's requiredPermissions. |
| Auth.ConfiguredApiKey | server/src/config/index.js:6 | The configured key is the environment's non-empty key, or "dev-key". |
| Auth.Authenticate | server/src/middleware/auth.js:7-27 | A missing or empty header is "API key is required"; a different key is "Invalid API key"; it authenticates iff the header equals the key, and then the role is "admin". |
| Auth.OnlyTheConfiguredKeyPasses | server/src/middleware/auth.js:17 | Authentication succeeds iff the header is exactly the configured key. |
| Auth.Request.constructor | server/src/middleware/auth.js:8 | A request carries its header and no user yet. |
| Auth.Request.AuthMiddleware | server/src/middleware/auth.js:7-27 | A rejection is a 401 with Authenticate's message and leaves the user unchanged; otherwise the user's role becomes "admin". Passing happens iff Authenticate authenticates. |
| Dispatch.Status | server/src/routes/tools.js:36-111 | The status is 200 exactly for a success. |
| Dispatch.ErrorMember | server/src/routes/tools.js:36-111 | The body has a truthy `error` member exactly when the answer is not a success. |
| Dispatch.ExecutionTime | server/src/routes/tools.js:92 | `${duration}ms`: decimal digits followed by "ms". |
| Dispatch.Invoke | server/src/routes/tools.js:32-113 | Each answer kind is characterised exactly by its guard, in order: bad request iff no name; not found iff unknown; forbidden iff inherited or the role is not allowed; validation error iff authorised and invalid; success or execution error iff authorised and valid. A success echoes the tool and request id; an execution error has a non-empty message. |
| Dispatch.MissingNameIsBadRequest | server/src/routes/tools.js:36-41 | A missing or empty name is "Tool name is required", whatever the rest of the call. |
| Dispatch.UnknownToolNotFound | server/src/routes/tools.js:44-50 | An unregistered name is not found with its message, for every role, input, validator and handler. |
| Dispatch.ForbiddenBeforeValidation | server/src/routes/tools.js:52-70 | A role the tool does not allow is forbidden, whatever the input and validator. |
| Dispatch.GuestIsForbidden | server/src/routes/tools.js:53-60 | A caller without a role is forbidden from every registered tool. |
| Dispatch.InvalidInputNeverRunsHandler | server/src/routes/tools.js:63-70 | An invalid input gets the validator's full error list, and the answer does not depend on the handler. |
| Dispatch.HandlerSuccess | server/src/routes/tools.js:73-95 | A handler that resolves gives success with the tool name, its result and the execution time. |
| Dispatch.HandlerFailure | server/src/routes/tools.js:96-111 | A handler that throws gives a 500 with its message, or "Tool execution failed" when that is empty. |
| Dispatch.ListTools | server/src/routes/tools.js:12-19 | The listing succeeds with one entry per tool, `count` equal to the list's length, in table order. |
| Dispatch.ListedNames | server/src/routes/tools.js:14-18 | The server's listing has count 4 and names the four tools in registration order. |
| RunQuery.DangerMessage | server/src/tools/handlers/run-query.js:16-18 | The error message names the keyword in single quotes. |
| RunQuery.FirstDangerous | server/src/tools/handlers/run-query.js:14-20 | None iff no keyword occurs; otherwise the index of a keyword that occurs with none before it occurring. |
| RunQuery.RunQuery | server/src/tools/handlers/run-query.js:6-34 | Throws iff some dangerous keyword occurs in the lower-cased query, naming the first in list order; otherwise echoes query and database (default "default") with 3 rows numbered 1 to 3 and rowCount equal to their number. |
| RunQuery.RunQueryHandler | server/src/tools/handlers/run-query.js:6-34 | The loop over the keywords, stopping at the first found, answers exactly RunQuery. |
| RunQuery.FirstIsFirst | server/src/tools/handlers/run-query.js:14-18 | The first keyword the loop finds is the one FirstDangerous names. |
| RunQuery.CaseInsensitive | server/src/tools/handlers/run-query.js:12 | Queries equal after lowercasing are refused alike and with the same message. |
| RunQuery.RefusedWithinAnyText | server/src/tools/handlers/run-query.js:15 | A refused query stays refused with any text around it. |
| RunQuery.DropComesFirst | server/src/tools/handlers/run-query.js:11-18 | A query in which "drop" occurs is refused naming "drop". |
| RunQuery.RefusesInsideIdentifiers | server/src/tools/handlers/run-query.js:12-15 | "SELECT dropped_at FROM t" is refused naming "drop". |
| RunQuery.RefusesUpperCaseDrop | server/src/tools/handlers/run-query.js:12-15 | "DROP TABLE products" is refused naming "drop". |
| Seqs.PrefixOfSubsequence | server/src/tools/handlers/search-db.js:34 | A prefix of a subsequence of s is a subsequence of s. |
| Seqs.SubsequenceTrans | server/src/tools/handlers/search-db.js:15-34 | A subsequence of a subsequence of s is a subsequence of s. |
| SearchDb.Take | server/src/tools/handlers/search-db.js:9 | take is in [1, 100]. |
| SearchDb.Fetch | server/src/tools/handlers/search-db.js:11-19 | At most 200 rows, a subsequence of the store in its order; with a category, exactly the first 200 rows of that category (all of them when the store is small); without, the store's first 200. |
| SearchDb.SearchText | server/src/tools/handlers/search-db.js:22-24 | A string q gives its trimmed, lower-cased form; anything else gives no filter. |
| SearchDb.KeepMatching | server/src/tools/handlers/search-db.js:21-31 | An empty text keeps all rows; otherwise a row is kept iff its lower-cased name or category contains the text, in order (a subsequence). |
| SearchDb.Search | server/src/tools/handlers/search-db.js:8-41 | hits is the prefix of length min(take, matching) of the matching fetched rows; total is its length; q and category are echoed; every hit is in the store, of the category, and matches the text; the hits are a subsequence of the store, in its order. |
| SearchDb.BlankQueryFiltersNothing | server/src/tools/handlers/search-db.js:24 | A blank or white-space-only q gives the first fetched rows. |
| SearchDb.FewMatchesAllReturned | server/src/tools/handlers/search-db.js:25-33 | When no more rows match than take allows, every matching fetched row is a hit. |
| SearchDb.NormalisedTextKept | server/src/tools/handlers/search-db.js:23 | A trimmed, lower-case q is used as it is. |
| SearchDb.NormalisedSearch | server/src/tools/handlers/search-db.js:22-33 | With such a q and an integer limit in [1, 100], there are at most limit hits, each matching q. |
| SearchDb.TextIsNormalised | server/src/tools/handlers/search-db.js:23 | Two q's equal after trimming and lowercasing give the same hits. |
| Strings.CharUnits | server/src/lib/embeddings.js:8 | A code point below U+10000 is one code unit equal to it; any other is a high surrogate followed by a low surrogate that together encode it. |
| Strings.Utf16 | server/src/lib/embeddings.js:7-8 | The code units of a text are at least as many as its characters, each below 0x10000, and equal to the characters one by one when all are in the Basic Multilingual Plane. |
| Strings.AstralCharIsPair | server/src/lib/embeddings.js:8 | U+1F600 is the code units 0xD83D, 0xDE00. |
| Embeddings.Increment | server/src/lib/embeddings.js:10 | A character adds a value in [1/31, 1]. |
| Embeddings.Bucket | server/src/lib/embeddings.js:9 | The entry index is in [0, 256). |
| Embeddings.Zeros | server/src/lib/embeddings.js:6 | 256 zeros. |
| Embeddings.Raw | server/src/lib/embeddings.js:5-11 | The unscaled vector of a sequence of UTF-16 code units has 256 non-negative entries. |
| Embeddings.RawSum | server/src/lib/embeddings.js:6-11 | The unscaled entries add up to the sum of the per-code-unit increments. |
| Embeddings.ZerosSum | server/src/lib/embeddings.js:6 | The zero vector sums to 0. |
| Embeddings.RawPositive | server/src/lib/embeddings.js:6-11 | An unscaled entry is positive iff some code unit lands in it. |
| Embeddings.Normalise | server/src/lib/embeddings.js:12-13 | Scaling keeps the length, and a zero entry stays zero. |
| Embeddings.Fallback | server/src/lib/embeddings.js:4-14 | The fallback embedding of a text is the scaled Raw vector of its UTF-16 code units, of 256 entries. |
| Embeddings.HashUnits | server/src/lib/embeddings.js:6-13 | The in-place array loop over the code units followed by the scaling computes the scaled Raw vector, of 256 entries. |
| Embeddings.AstralCharAddsTwice | server/src/lib/embeddings.js:8-10 | A character beyond the Basic Multilingual Plane (U+1F600) is hashed as its two surrogates: entry 61 gets 23/31 from the first and entry 1 gets 10/31 from the second. |
| Embeddings.EmptyTextGivesZeros | server/src/lib/embeddings.js:12-13 | Empty text gives the all-zero vector, whatever the square root. |
| Embeddings.GetEmbedding | server/src/lib/embeddings.js:3-29 | With a key and a successful provider call, the provider's vector; otherwise the 256-entry fallback of the text. |
| Vectors.SumSq | server/src/tools/handlers/rag-query.js:13-14 | A sum of squares is non-negative. |
| Vectors.SumSqIsDot | server/src/tools/handlers/rag-query.js:12-14 | A vector's sum of squares is its dot product with itself. |
| Vectors.DotSymmetric | server/src/tools/handlers/rag-query.js:12 | The dot product does not depend on the order of its arguments. |
| Vectors.DotPrefix | server/src/tools/handlers/rag-query.js:5 | Only the summed positions matter for the dot product. |
| Vectors.SumSqPrefix | server/src/tools/handlers/rag-query.js:5 | Only the summed positions matter for a sum of squares. |
| Vectors.DotWithZeros | server/src/tools/handlers/rag-query.js:32 | A vector of zeros has dot product 0 with every vector. |
| Vectors.SumUpdate | server/src/lib/embeddings.js:10 | Adding d to one entry adds d to the sum. |
| RagQuery.Cosine | server/src/tools/handlers/rag-query.js:4-18 | The cosine over the shared length is 0 whenever the dot product over that length is 0, whatever the magnitudes. |
| RagQuery.CosineSim | server/src/tools/handlers/rag-query.js:4-18 | The loop computes the cosine over the shared length, with a zero denominator replaced by 1. |
| RagQuery.CosineSharedPrefix | server/src/tools/handlers/rag-query.js:5 | Entries beyond the shorter vector play no part. |
| RagQuery.CosineWithZeros | server/src/tools/handlers/rag-query.js:16 | An empty, missing or all-zero embedding scores 0. |
| RagQuery.CosineSymmetric | server/src/tools/handlers/rag-query.js:4-17 | The score is symmetric in its two vectors. |
| RagQuery.CosineSelf | server/src/tools/handlers/rag-query.js:4-18 | A vector that is not all zeros has cosine 1 with itself, for a square root that is one. |
| RagQuery.Insert | server/src/tools/handlers/rag-query.js:35 | Inserting a chunk into a ranking gives a ranking of one more, with the same elements plus it. |
| RagQuery.Rank | server/src/tools/handlers/rag-query.js:35 | The stable sort: every chunk position exactly once, higher scores first, ties in chunk order. |
| RagQuery.TopIndices | server/src/tools/handlers/rag-query.js:35-36 | min(k, n) distinct positions, ranked; no omitted chunk ranks before a kept one; with k >= n all are kept. |
| RagQuery.RankingPrefix | server/src/tools/handlers/rag-query.js:36 | A prefix of a full ranking leaves out no chunk that ranks before a kept one. |
| RagQuery.Scores | server/src/tools/handlers/rag-query.js:30-34 | One score per chunk, the cosine with its embedding (missing read as empty). |
| RagQuery.Pick | server/src/tools/handlers/rag-query.js:30-36 | The chosen chunks with id, content, source and score, in non-increasing score order. |
| RagQuery.ContextLine | server/src/tools/handlers/rag-query.js:39 | A context line starts with "- (" and ends with the chunk's content. |
| RagQuery.Context | server/src/tools/handlers/rag-query.js:38-40 | No results give the empty context; otherwise the context contains every result's content. |
| RagQuery.Rag | server/src/tools/handlers/rag-query.js:20-48 | Echoes the query; topK is the clamped k in [1, 10], unrounded; min(whole part of k, chunks) results, the top-ranked ones, non-increasing by score; context is the joined lines. |
| RagQuery.FractionalTopK | server/src/tools/handlers/rag-query.js:22-44 | topK 2.5 is answered as 2.5 with at most two results. |
| RagQuery.TiesKeepStoreOrder | server/src/tools/handlers/rag-query.js:35 | Among the results, equal scores come in the store's order. |
| RagQuery.EmptyStore | server/src/tools/handlers/rag-query.js:38-40 | With no chunks there are no results and the context is empty. |
| Tools.RagRun | server/src/tools/handlers/rag-query.js:20-48 | rag_query answers Rag of its query and topK, scored against the query's embedding; without a provider key that is the fallback embedding of the query's code units. |
| Tools.CreateTicket | server/src/tools/handlers/create-ticket.js:7-18 | Succeeds iff the store write does; the ticket has the store's id, the title and body, priority default "medium", status "open"; a failure carries the store's message. |
| Tools.Run | server/src/routes/tools.js:75 | An ill-typed argument fails; search_db and rag_query never fail on well-typed input. |
| Tools.InvokeTool | server/src/routes/tools.js:32-113 | An unauthorised call never validates or runs; a validation error reports all violations, non-empty; a handler runs only on conforming, well-typed input; only create_ticket and run_query can fail. |
| Tools.ConformingInputIsWellTyped | server/src/tools/registry.js:13-132 | Input that conforms to a registered schema gives its handler the argument types it reads. |
| Tools.ConformingInputRuns | server/src/routes/tools.js:73-111 | An authorised call with a conforming object answers exactly its handler's result or failure. |
| Tools.SearchRun | server/src/tools/handlers/search-db.js:8 | search_db reads q, category and limit from its input. |
| Tools.TicketRun | server/src/tools/handlers/create-ticket.js:7-18 | create_ticket fails exactly when the store fails, with its message; otherwise it answers the new open ticket. |
| Tools.DropQueryIsExecutionError | server/__tests__/tools.test.js:112-124 | An admin's run_query with any query containing "drop" (such as "DROP TABLE products") gets a 500 naming it. |
| Tools.QueryInputConforms | server/src/tools/registry.js:84-100 | A query of at least 5 characters is accepted and run as RunQuery with no database. |
| Tools.EmptySearchIsValidationError | server/__tests__/tools.test.js:48-59 | search_db with `{}` is a validation error reporting the missing q. |
| Tools.SearchWithLimit | server/__tests__/tools.test.js:61-76 | An admin's search_db for a normalised text with an integer limit succeeds, with the execution time, at most limit hits, each matching. |
| Tools.SearchInputConforms | server/src/tools/registry.js:13-36 | A non-empty q with an integer limit in [1, 100] is accepted. |
| Tools.LaptopText | server/__tests__/tools.test.js:67 | "laptop" is a normalised search text. |
| Tools.TicketCreated | server/__tests__/tools.test.js:78-96 | A ticket with a valid title and body is created open with that title, body and priority when the store accepts it. |
| Tools.TicketInputConforms | server/src/tools/registry.js:48-71 | A title of 5 to 200 characters and a body of at least 10 are accepted. |
| Strings.Lower | server/src/routes/agent.js:13 | Lowercasing keeps the length and maps each character. |
| Strings.Trim | server/src/tools/handlers/search-db.js:23 | `trim()` leaves a piece of the string with only white space around it. |
| AgentRoute.Pieces | server/src/routes/agent.js:70 | The split yields at least one piece, each made only of `[a-z0-9]`. |
| AgentRoute.PiecesKeepWordChars | server/src/routes/agent.js:70 | The pieces laid end to end are exactly the word characters of the text, in order. |
| AgentRoute.Tokens | server/src/routes/agent.js:68-71 | A token is a non-empty piece that is not a stop word. |
| AgentRoute.SearchText | server/src/routes/agent.js:72 | Never empty; "laptop" when no token is left; it contains every token. |
| AgentRoute.JoinFacts | server/src/routes/agent.js:72 | A join of non-empty parts is non-empty and holds each part. |
| AgentRoute.PiecesAfterSeparators | server/src/routes/agent.js:70 | A run of separators before a word or the end of the text splits off one empty piece. |
| AgentRoute.PiecesSplit | server/src/routes/agent.js:70 | A word followed by a run of separators splits off exactly that word. |
| AgentRoute.PiecesOfWord | server/src/routes/agent.js:70 | A text made only of word characters is a single piece. |
| AgentRoute.JoinedWordsSplit | server/src/routes/agent.js:70-72 | Non-empty words joined by spaces split back into exactly those words. |
| AgentRoute.JoinWordsLower | server/src/routes/agent.js:72 | Words joined by spaces contain no upper-case letter. |
| AgentRoute.SearchTextSplits | server/src/routes/agent.js:68-72 | When tokens remain, the search text splits back into exactly the tokens, and tokenising it again gives the same tokens. |
| AgentRoute.Decide | server/src/routes/agent.js:12-116 | Each tool is chosen iff its words occur and no earlier rule's do, in the order RAG, search, ticket, query; each decision carries that rule's input. |
| AgentRoute.MentionsLength | server/src/routes/agent.js:16-27 | A message that mentions a word is at least as long as the shortest word. |
| AgentRoute.DecidedInputConforms | server/src/routes/agent.js:154-161 | The decided tool is registered, and its input conforms except for a ticket message shorter than 10 characters. |
| AgentRoute.RagDecisionConforms | server/src/routes/agent.js:28-33 | A RAG decision's input conforms. |
| AgentRoute.TicketDecisionConforms | server/src/routes/agent.js:89-98 | A ticket decision's input conforms iff the message has at least 10 characters. |
| AgentRoute.RagInput | server/src/routes/agent.js:31 | The query member is the message and topK is 3. |
| AgentRoute.SearchInput | server/src/routes/agent.js:76-79 | q is the search text of the message and limit is 5. |
| AgentRoute.TicketInput | server/src/routes/agent.js:92-96 | The title is the first min(100, length) characters of the message, the body is the message, the priority "medium". |
| AgentRoute.QueryInput | server/src/routes/agent.js:105-107 | The query member is the fixed SELECT, and no database is given. |
| AgentRoute.RagInputConforms | server/src/routes/agent.js:31 | A query of at least 3 characters with topK 3 conforms. |
| AgentRoute.SearchInputConforms | server/src/routes/agent.js:76-79 | The synthesised search input always conforms. |
| AgentRoute.TicketInputConforms | server/src/routes/agent.js:92-96 | For a message of at least 5 characters, the ticket input conforms iff it has at least 10. |
| AgentRoute.AgentQueryIsSafe | server/src/routes/agent.js:106 | The router's fixed query is never refused. |
| AgentRoute.LowerAgentQuery | server/src/routes/agent.js:106 | The fixed query lower-cased. |
| AgentRoute.Absent | server/src/routes/agent.js:106 | No dangerous keyword occurs in the lower-cased fixed query. |
| AgentRoute.SearchReply | server/src/routes/agent.js:168-172 | Starts with "I found N product(s): " for the hit count and names every hit. |
| AgentRoute.TicketReply | server/src/routes/agent.js:173-174 | Names the ticket's id and title. |
| AgentRoute.RagReply | server/src/routes/agent.js:177-186 | "No relevant context found." iff there are no results; otherwise starts with the introduction and contains every result's content. |
| AgentRoute.Phrase | server/src/routes/agent.js:166-187 | Each tool's result is phrased by its own rule; a query reply names the row count. |
| AgentRoute.Echo | server/src/routes/agent.js:139 | The direct reply starts with "I understand you said: \"" and contains the message. |
| AgentRoute.PhraseHolds | server/src/routes/agent.js:170-183 | A heading followed by joined items starts with the heading and holds each item's key. |
| AgentRoute.ShortBodyReported | server/src/tools/registry.js:57-61 | A ticket message shorter than 10 characters is reported as a body minLength violation. |
| AgentRoute.Execute | server/src/routes/agent.js:145-197 | Rejected iff the input does not conform, carrying all violations; otherwise the handler's result, phrased, with the tool, input and reasoning; or its failure with its message or "Agent failed to process request". |
| AgentRoute.Respond | server/src/routes/agent.js:133-197 | A direct echo reply iff no tool is decided; otherwise the decided tool's execution; never not found. |
| AgentRoute.RespondRejects | server/src/routes/agent.js:153-161 | The agent's input is rejected iff it is a ticket shorter than 10 characters, with the body minLength violation among the details. |
| AgentRoute.RespondFails | server/src/routes/agent.js:198-204 | The agent fails iff it is a conforming ticket the store refuses, with the store's message or the generic one. |
| AgentRoute.RunsAsDecided | server/src/routes/agent.js:164 | On conforming decided input only a refused ticket write fails, with the store's message. |
| AgentRoute.Ask | server/src/routes/agent.js:121-205 | A missing or falsy message is a 400 before routing; a non-string message is a 500; a string gets Respond's reply; never not found. |
| Audit.UserOf | server/src/middleware/audit.js:37 | The caller's non-empty role, or "unknown". |
| Audit.EntryFor | server/src/middleware/audit.js:31-39 | The entry carries the request id, timestamp and ip; success iff the response has no truthy error; the user; the body's tool and input. |
| Audit.Recorded | server/src/middleware/audit.js:28-39 | On /invoke the log grows by exactly this response's entry at the end; elsewhere it is unchanged. |
| Audit.LastEntries | server/src/middleware/audit.js:61 | `slice(-limit)`: a positive limit keeps the last min(limit, n) entries in order; 0 keeps all; a negative limit drops the first -limit. |
| Audit.AuditLog.constructor | server/src/middleware/audit.js:5 | The log starts empty. |
| Audit.AuditLog.Record | server/src/middleware/audit.js:28-52 | The response body is passed on unchanged, and the log becomes Recorded of the old log. |
| Audit.AuditLog.GetAuditLogs | server/src/middleware/audit.js:60-62 | The last entries for the given limit, 100 by default: the last min(100, n). |
| Audit.AdminLimit | server/src/routes/admin.js:11 | `parseInt(limit) \|\| 100`: NaN or 0 gives 100; otherwise the parsed number; never 0. |
| Audit.AdminAudit | server/src/routes/admin.js:10-19 | Succeeds with the selected entries, and count equals their number. |
| Audit.AdminDefault | server/src/routes/admin.js:11 | Without a usable limit the admin route reads the same entries as the default, the last min(100, n). |
| Audit.AppendOnly | server/src/middleware/audit.js:31 | Recording never changes or removes an existing entry and adds at most one. |
| Audit.TwoRecordsInOrder | server/src/middleware/audit.js:11-39 | Two /invoke responses with distinct ids give two distinct entries at the end of the log, in response order. |
| Audit.LatestIsLastRead | server/src/middleware/audit.js:60-62 | After a record, the newest entry comes last in every positive-limit read, after the last limit-1 entries of the old log. |
| CliAgent.DetectIntent | agent.js:48-59 | One of three intents, always: a ticket iff a ticket word occurs; a search iff no ticket word and a search word occurs; otherwise RAG. |
| CliAgent.VerbPromptSearches | agent.js:50-57 | A prompt opening with "search" or "find" in any casing, with no ticket word, is a search. |
| CliAgent.VerbLength | agent.js:62 | 6 iff the lower-cased prompt starts with "search", else 4 iff with "find", else 0. |
| CliAgent.StripVerb | agent.js:62 | Removes the verb and exactly the white space after it: a suffix of the prompt, only white space dropped after the verb, starting with a non-space. |
| CliAgent.ExtractQuery | agent.js:61-63 | Empty iff the prompt is blank; no white space at either end; a piece of the prompt; the trimmed prompt when no verb opens it. |
| CliAgent.RemainderFacts | agent.js:62 | The trimmed remainder is a piece of the prompt, blank only for a blank prompt, and the trimmed prompt when there is no verb. |
| CliAgent.VerbRemoved | agent.js:62 | "search"/"find" in any casing, then white space, then untrimmed text, gives exactly that text. |
| CliAgent.TicketTitle | agent.js:157 | Up to 80 characters unchanged; longer gives exactly 80, the first 77 then "...". |
| CliAgent.TitleLength | agent.js:157 | A title is at most 80 characters, and at least 5 iff the prompt is. |
| CliAgent.RagRequest | agent.js:129-130 | The query member is the extracted text and topK is 3. |
| CliAgent.SearchRequest | agent.js:143-144 | q is the extracted text and limit is 5. |
| CliAgent.TicketRequest | agent.js:157-162 | The title is the title rule's, the body the prompt, the priority "medium". |
| CliAgent.SearchRequestConforms | agent.js:143-144 | The search input conforms iff the prompt is not blank. |
| CliAgent.RagRequestConforms | agent.js:129-130 | The RAG input conforms iff the extracted text has at least 3 characters. |
| CliAgent.TicketRequestConforms | agent.js:157-162 | The ticket input conforms iff the prompt has at least 10 characters. |
| CliAgent.Bullets | agent.js:71-73 | One "- c" line per context, in order. |
| CliAgent.TemplateLines | agent.js:67-79 | "User: prompt", "", "Context:", the bullets, "", and the two answer lines. |
| CliAgent.SynthesizeTemplate | agent.js:66-80 | The lines pushed one by one, joined by newlines, are the template's lines joined. |
| CliAgent.TemplateOpensWithPrompt | agent.js:68 | The answer starts with "User: " and the prompt. |
| CliAgent.TemplateQuotes | agent.js:71-73 | The answer contains every context. |

## Left out

- I/O is not modelled: Prisma reads and writes, the embedding and chat-completion providers, and `fetch`. Fetched rows, stored chunks, the provider's answer and the ticket store's answer are inputs (`Tools.Env`).
- `Math.sqrt` and `toFixed(3)` are not modelled: both are function parameters. JavaScript's rendering of a price is a parameter of the agent's phrasing.
- Floating-point arithmetic is not modelled: scores and embeddings are exact reals.
- `a[i] || 0` in `cosineSim` is not modelled: vectors of reals have no missing or NaN entries.
- `Date.now`, `uuidv4`, ISO timestamps, `req.ip` and the 200 ms delay in `run_query` are not modelled. Durations, request ids, timestamps and addresses are inputs.
- Concurrency is not modelled: requests run one at a time, so audit entries come in the order responses are sent.
- Express plumbing is not modelled: `index.js`, helmet, CORS, rate limits, logging and the mechanics of patching `res.json`. `Audit.AuditLog.Record` is the patched `res.json`.
- The admin routes `/admin/tickets` and `/admin/health` are left out, because they only read the store or process statistics.
- The `/tools` try/catch is left out, because `getAllTools` cannot throw on the fixed table.
- The command-line agent's `main`, `invokeTool`, `readServerApiKey`, console output and the OpenAI branch of `synthesizeFinal` are left out, because they are network and process I/O. The agent's request inputs (`CliAgent.RagRequest`, `SearchRequest`, `TicketRequest`) and their acceptance are modelled.
- Strings are sequences of Unicode code points (Dafny characters), while JavaScript's `length`, `slice` and `substring` count UTF-16 code units. The embedding reads code units through `Strings.Utf16`, as `charCodeAt` does. Ajv's `minLength` and `maxLength` count code points, as the model does. Lowercasing is ASCII-only, and `trim` uses JavaScript's white-space set.
- CliAgent.TicketTitle: the 80-character test and the 77-character cut count code points; JavaScript counts UTF-16 code units, so a prompt with characters beyond the Basic Multilingual Plane is cut elsewhere, and a cut through a surrogate pair leaves a lone surrogate that a Dafny string cannot hold.
- AgentRoute.Decide: the ticket title's `substring(0, 100)` is taken as the first 100 code points, not code units, for the same reason (also `AgentRoute.TicketInput`).
- Dispatch.Invoke: only string tool names, or none, are modelled. A `tool` that is another JSON value is not: 0, false or null would be 400, a number such as 5 would be 404, and `["run_query"]` would be looked up as "run_query". The same holds for `Tools.InvokeTool`.
- Ajv's error objects, their order and their messages are left out. A validation failure carries the set of violated keywords and members.
- JSON member order is not modelled: objects are maps.
- `parseInt` is not modelled. Its result is an input: `None` stands for NaN.
- Tools.Run: a handler given an argument of the wrong type answers `Err(BadArgument)` instead of JavaScript's own exception. Validated input never has the wrong type.
- AgentRoute.Ask: a message that is not a string fails with the message V8 gives for `toLowerCase` (`NotAString`). Other engines word it differently.
- `toolPermissions` lists `delete_data`, but no such tool is registered; it is modelled only as a table entry.
- `getTool` with an `Object.prototype` key is modelled as a third lookup outcome (`Inherited`). `/invoke` then answers forbidden, and `checkPermission` throws. Neither is excluded by a precondition.
- `server/src/openapi.js` is not part of this model, because it is static documentation data. The front end is not part of this model either.
