/**
 * Role-based access control: the `toolPermissions` table and the
 * `checkPermission(toolName)` middleware, which either lets the request go on
 * (`next()`) or answers 403 forbidden.
 */
module Permissions {
  import opened Wrappers
  import Strings
  import Registry

  /** `req.user?.role || "guest"`: a missing or empty role is the least-privileged one. */
  function EffectiveRole(role: Option<string>): (r: string)
    ensures r != ""
    ensures role.Some? && role.value != "" ==> r == role.value
    ensures role.None? || role.value == "" ==> r == "guest"
  {
    OrDefault(role, "guest")
  }

  /** The gate itself: exact membership of the role in the allowed roles, no wildcard. */
  predicate Allowed(allowedRoles: seq<string>, role: string) {
    role in allowedRoles
  }

  /** The `toolPermissions` object literal, in insertion order. */
  const ToolPermissions: seq<(string, seq<string>)> := [
    ("search_db", ["admin", "user"]),
    ("create_ticket", ["admin", "user"]),
    ("run_query", ["admin"]),
    ("delete_data", ["admin"])
  ]

  function Listed(entries: seq<(string, seq<string>)>, toolName: string): (r: Option<seq<string>>)
    ensures r.Some? <==> exists i :: 0 <= i < |entries| && entries[i].0 == toolName
    ensures r.Some? ==> (toolName, r.value) in entries
  {
    if entries == [] then None
    else if entries[0].0 == toolName then Some(entries[0].1)
    else
      var r := Listed(entries[1..], toolName);
      assert forall i :: 1 <= i < |entries| ==> entries[i] == entries[1..][i - 1];
      r
  }

  /**
   * What the middleware does: call `next()`, answer 403 with a message, or
   * throw. It throws when `toolPermissions[toolName]` is a built-in inherited
   * from `Object.prototype`, which has no `includes` method; the error handler
   * then answers 500 internal_error.
   */
  datatype Decision = Next | Deny(status: int, error: string, message: string) | Throws

  /** The denial message: it opens by quoting the role and closes by quoting the tool. */
  function DenyMessage(role: string, toolName: string): (msg: string)
    ensures Strings.StartsWith(msg, "Role '" + role + "'")
    ensures |msg| >= |toolName| + 2 && msg[|msg| - |toolName| - 2..] == "'" + toolName + "'"
  {
    var msg := "Role '" + role + "' not authorized to use tool '" + toolName + "'";
    assert msg[..|"Role '" + role + "'"|] == "Role '" + role + "'";
    msg
  }

  /** `checkPermission(toolName)` applied to a request whose user has the given role. */
  function CheckPermission(toolName: string, role: Option<string>): (d: Decision)
    ensures d.Next? <==> exists roles :: (toolName, roles) in ToolPermissions && EffectiveRole(role) in roles
    ensures d.Deny? ==> d == Deny(403, "forbidden", DenyMessage(EffectiveRole(role), toolName))
    ensures d.Throws? <==> Listed(ToolPermissions, toolName).None? && toolName in Registry.ObjectPrototypeKeys
  {
    var userRole := EffectiveRole(role);
    match Listed(ToolPermissions, toolName)
    case Some(allowed) =>
      PermissionsKeysDistinct(toolName, allowed);
      if Allowed(allowed, userRole) then Next else Deny(403, "forbidden", DenyMessage(userRole, toolName))
    case None =>
      if toolName in Registry.ObjectPrototypeKeys then Throws
      else Deny(403, "forbidden", DenyMessage(userRole, toolName))
  }

  lemma PermissionsKeysDistinct(toolName: string, allowed: seq<string>)
    requires (toolName, allowed) in ToolPermissions
    ensures forall roles :: (toolName, roles) in ToolPermissions ==> roles == allowed
  {
  }

  /** A request without a role is treated as "guest", and "guest" is allowed for no tool. */
  lemma GuestAllowedNowhere(toolName: string, role: Option<string>)
    requires role.None? || role == Some("") || role == Some("guest")
    ensures CheckPermission(toolName, role) != Next
  {
  }

  /** A tool the table does not list, such as rag_query, is denied to every role. */
  lemma UnlistedToolDenied(toolName: string, role: Option<string>)
    requires toolName !in {"search_db", "create_ticket", "run_query", "delete_data"}
    requires toolName !in Registry.ObjectPrototypeKeys
    ensures CheckPermission(toolName, role) == Deny(403, "forbidden", DenyMessage(EffectiveRole(role), toolName))
  {
  }

  /** The denial message names both the role and the tool. */
  lemma DenyMessageNames(role: string, toolName: string)
    ensures Strings.Contains(DenyMessage(role, toolName), role)
    ensures Strings.Contains(DenyMessage(role, toolName), toolName)
  {
    var m := DenyMessage(role, toolName);
    Strings.ContainsAt(m, role, 6);
    Strings.ContainsAt(m, toolName, |m| - |toolName| - 1);
  }

  /** For the three tools it lists, the table agrees with the registry's `requiredPermissions`. */
  lemma AgreesWithRegistry(toolName: string, roles: seq<string>)
    requires toolName in {"search_db", "create_ticket", "run_query"}
    ensures (toolName, roles) in ToolPermissions <==>
      exists t :: (toolName, t) in Registry.Table && t.metadata.requiredPermissions == roles
  {
  }
}
