/**
 * The `/invoke` pipeline and the `/tools` listing. The pipeline is a chain of
 * early exits: a missing tool name, an unknown tool, a role that is not
 * allowed, an input that fails validation; only then is the handler run, and
 * its success or failure becomes the answer. It is generic in the validator
 * (any function from schema and input to `Valid` or `Invalid(errors)`) and in
 * the handlers (any function from handler and input to `Ok(result)` or
 * `Err(message)`); the time the handler took is an input.
 */
module Dispatch {
  import opened Wrappers
  import opened Json
  import opened Schema
  import Strings
  import Registry
  import Permissions

  /** What an awaited handler does: resolve with a result, or throw an error with a message. */
  datatype HandlerResult<R> = Ok(result: R) | Err(message: string)

  /** The five kinds of answer of `/invoke`, with the fields of each JSON body. */
  datatype Outcome<E, R> =
    | BadRequest(message: string)
    | NotFound(message: string)
    | Forbidden(message: string)
    | ValidationError(message: string, details: E)
    | Success(tool: string, result: R, executionTime: string, requestId: string)
    | ExecutionError(message: string, tool: string, requestId: string)

  /** The HTTP status of each answer. */
  function Status<E, R>(o: Outcome<E, R>): (status: int)
    ensures o.Success? <==> status == 200
  {
    match o
    case BadRequest(_) => 400
    case NotFound(_) => 404
    case Forbidden(_) => 403
    case ValidationError(_, _) => 400
    case Success(_, _, _, _) => 200
    case ExecutionError(_, _, _) => 500
  }

  /** The `error` member of the JSON body; a success body has none. */
  function ErrorMember<E, R>(o: Outcome<E, R>): (e: Option<Json>)
    ensures TruthyOpt(e) <==> !o.Success?
  {
    match o
    case BadRequest(_) => Some(JStr("bad_request"))
    case NotFound(_) => Some(JStr("not_found"))
    case Forbidden(_) => Some(JStr("forbidden"))
    case ValidationError(_, _) => Some(JStr("validation_error"))
    case Success(_, _, _, _) => None
    case ExecutionError(_, _, _) => Some(JStr("execution_error"))
  }

  /** `${duration}ms`. */
  function ExecutionTime(duration: nat): (s: string)
    ensures |s| >= 3 && s[|s| - 2..] == "ms"
    ensures forall i :: 0 <= i < |s| - 2 ==> '0' <= s[i] <= '9'
  {
    Strings.NatToString(duration) + "ms"
  }

  /** The pipeline got as far as a registered tool that the caller's role may use. */
  predicate Authorized(toolName: Option<string>, role: Option<string>) {
    && toolName.Some? && toolName.value != ""
    && Registry.GetTool(toolName.value).Registered?
    && Permissions.Allowed(Registry.GetTool(toolName.value).tool.metadata.requiredPermissions, Permissions.EffectiveRole(role))
  }

  /**
   * `POST /invoke` with body `{tool: toolName, input}` from a caller with role `role`.
   * The handler, when it runs, gets the input that was validated, `input || {}`.
   */
  function Invoke<E, R>(
    toolName: Option<string>, input: Option<Json>, role: Option<string>,
    validate: (ObjectSchema, Json) -> Validation<E>,
    run: (Registry.Handler, Json) -> HandlerResult<R>,
    duration: nat, requestId: string): (o: Outcome<E, R>)
    ensures o.BadRequest? <==> toolName.None? || toolName.value == ""
    ensures o.NotFound? <==> toolName.Some? && toolName.value != "" && Registry.GetTool(toolName.value).Absent?
    ensures o.Forbidden? <==>
      && toolName.Some? && toolName.value != ""
      && (|| Registry.GetTool(toolName.value).Inherited?
          || (Registry.GetTool(toolName.value).Registered? && !Authorized(toolName, role)))
    ensures o.ValidationError? <==>
      Authorized(toolName, role) && validate(Registry.GetTool(toolName.value).tool.schema, OrEmpty(input)).Invalid?
    ensures o.Success? || o.ExecutionError? <==>
      Authorized(toolName, role) && validate(Registry.GetTool(toolName.value).tool.schema, OrEmpty(input)).Valid?
    ensures o.Success? ==> o.tool == toolName.value && o.requestId == requestId
    ensures o.ExecutionError? ==> o.tool == toolName.value && o.message != ""
  {
    if toolName.None? || toolName.value == "" then
      BadRequest("Tool name is required")
    else
      var name := toolName.value;
      match Registry.GetTool(name)
      case Absent => NotFound("Tool '" + name + "' not found")
      case Inherited =>
        // An inherited built-in has no `metadata`, so the allowed roles default to [].
        var userRole := Permissions.EffectiveRole(role);
        assert !Permissions.Allowed([], userRole);
        Forbidden("Role '" + userRole + "' not authorized to use tool '" + name + "'")
      case Registered(tool) =>
        var userRole := Permissions.EffectiveRole(role);
        if !Permissions.Allowed(tool.metadata.requiredPermissions, userRole) then
          Forbidden("Role '" + userRole + "' not authorized to use tool '" + name + "'")
        else
          var data := OrEmpty(input);
          match validate(tool.schema, data)
          case Invalid(errors) => ValidationError("Input validation failed", errors)
          case Valid =>
            match run(tool.handler, data)
            case Ok(result) => Success(name, result, ExecutionTime(duration), requestId)
            case Err(message) =>
              ExecutionError(if message != "" then message else "Tool execution failed", name, requestId)
  }

  /** A missing or empty tool name is a bad request, whatever else the call carries. */
  lemma MissingNameIsBadRequest<E, R>(
    toolName: Option<string>, input: Option<Json>, role: Option<string>,
    validate: (ObjectSchema, Json) -> Validation<E>, run: (Registry.Handler, Json) -> HandlerResult<R>,
    duration: nat, requestId: string)
    requires toolName.None? || toolName == Some("")
    ensures Invoke(toolName, input, role, validate, run, duration, requestId) == BadRequest("Tool name is required")
  {
  }

  /** An unregistered name is not found, for every role, input, validator and handler. */
  lemma UnknownToolNotFound<E, R>(
    name: string, input: Option<Json>, role: Option<string>,
    validate: (ObjectSchema, Json) -> Validation<E>, run: (Registry.Handler, Json) -> HandlerResult<R>,
    duration: nat, requestId: string)
    requires name !in {"search_db", "create_ticket", "run_query", "rag_query"}
    requires name != "" && name !in Registry.ObjectPrototypeKeys
    ensures Invoke(Some(name), input, role, validate, run, duration, requestId) == NotFound("Tool '" + name + "' not found")
  {
    Registry.GetToolRegistered(name);
  }

  /**
   * The role check comes before validation: a caller whose role the tool does
   * not allow is told "forbidden", even when its input is invalid.
   */
  lemma ForbiddenBeforeValidation<E, R>(
    name: string, input: Option<Json>, role: Option<string>,
    validate: (ObjectSchema, Json) -> Validation<E>, run: (Registry.Handler, Json) -> HandlerResult<R>,
    duration: nat, requestId: string)
    requires Registry.GetTool(name).Registered?
    requires Permissions.EffectiveRole(role) !in Registry.GetTool(name).tool.metadata.requiredPermissions
    ensures Invoke(Some(name), input, role, validate, run, duration, requestId) ==
      Forbidden("Role '" + Permissions.EffectiveRole(role) + "' not authorized to use tool '" + name + "'")
  {
  }

  /** A caller without a role is a guest, and no registered tool admits guests. */
  lemma GuestIsForbidden<E, R>(
    name: string, input: Option<Json>,
    validate: (ObjectSchema, Json) -> Validation<E>, run: (Registry.Handler, Json) -> HandlerResult<R>,
    duration: nat, requestId: string)
    requires Registry.GetTool(name).Registered?
    ensures Invoke(Some(name), input, None, validate, run, duration, requestId).Forbidden?
  {
    Registry.TableShape();
    Registry.PermissionsShape();
  }

  /**
   * Input that fails validation is answered with the validator's full error
   * list, and the handler is not consulted: any other handler gives the same answer.
   */
  lemma InvalidInputNeverRunsHandler<E, R>(
    name: string, input: Option<Json>, role: Option<string>,
    validate: (ObjectSchema, Json) -> Validation<E>,
    run: (Registry.Handler, Json) -> HandlerResult<R>, otherRun: (Registry.Handler, Json) -> HandlerResult<R>,
    duration: nat, requestId: string)
    requires Authorized(Some(name), role)
    requires validate(Registry.GetTool(name).tool.schema, OrEmpty(input)).Invalid?
    ensures Invoke(Some(name), input, role, validate, run, duration, requestId) ==
      ValidationError("Input validation failed", validate(Registry.GetTool(name).tool.schema, OrEmpty(input)).errors)
    ensures Invoke(Some(name), input, role, validate, run, duration, requestId) ==
      Invoke(Some(name), input, role, validate, otherRun, duration, requestId)
  {
  }

  /** A handler that resolves yields a success answer echoing the tool, the result and the time taken. */
  lemma HandlerSuccess<E, R>(
    name: string, input: Option<Json>, role: Option<string>,
    validate: (ObjectSchema, Json) -> Validation<E>, run: (Registry.Handler, Json) -> HandlerResult<R>,
    duration: nat, requestId: string)
    requires Authorized(Some(name), role)
    requires validate(Registry.GetTool(name).tool.schema, OrEmpty(input)).Valid?
    requires run(Registry.GetTool(name).tool.handler, OrEmpty(input)).Ok?
    ensures Invoke(Some(name), input, role, validate, run, duration, requestId) ==
      Success(name, run(Registry.GetTool(name).tool.handler, OrEmpty(input)).result, ExecutionTime(duration), requestId)
  {
  }

  /** A handler that throws yields a 500 carrying its message, or a fixed one when the message is empty. */
  lemma HandlerFailure<E, R>(
    name: string, input: Option<Json>, role: Option<string>,
    validate: (ObjectSchema, Json) -> Validation<E>, run: (Registry.Handler, Json) -> HandlerResult<R>,
    duration: nat, requestId: string)
    requires Authorized(Some(name), role)
    requires validate(Registry.GetTool(name).tool.schema, OrEmpty(input)).Valid?
    requires run(Registry.GetTool(name).tool.handler, OrEmpty(input)).Err?
    ensures var m := run(Registry.GetTool(name).tool.handler, OrEmpty(input)).message;
      Invoke(Some(name), input, role, validate, run, duration, requestId) ==
      ExecutionError(if m == "" then "Tool execution failed" else m, name, requestId)
  {
  }

  /** The `GET /tools` body. */
  datatype ToolsListing = ToolsListing(success: bool, tools: seq<Registry.ToolView>, count: nat)

  /**
   * `GET /tools` over a registry table (the server's is `Registry.Table`):
   * every tool's view, with `count` equal to the number of views.
   */
  function ListTools(table: seq<(string, Registry.Tool)>): (r: ToolsListing)
    ensures r.success && r.count == |r.tools| == |table|
    ensures forall i :: 0 <= i < |r.tools| ==> r.tools[i].name == table[i].1.name
  {
    var tools := Registry.GetAllTools(table);
    ToolsListing(true, tools, |tools|)
  }

  /** The server's listing names the four tools in registration order. */
  lemma ListedNames()
    ensures var r := ListTools(Registry.Table);
      r.count == 4 && forall i :: 0 <= i < 4 ==> r.tools[i].name == ["search_db", "create_ticket", "run_query", "rag_query"][i]
  {
    Registry.TableShape();
  }
}
