/**
 * The audit log: a module-level array that grows by one entry for every
 * response sent on the `/invoke` path, and a read of its last `limit`
 * entries. The request id, the timestamp and the client address are inputs;
 * the response body is passed on untouched.
 */
module Audit {
  import opened Wrappers
  import opened Json
  import opened Seqs

  /** One recorded invocation. */
  datatype Entry = Entry(
    id: string,
    timestamp: string,
    tool: Option<Json>,
    input: Option<Json>,
    success: bool,
    user: string,
    ip: string)

  /** The only path whose responses are recorded. */
  const InvokePath: string := "/invoke"

  /** The number of entries read when no limit is given. */
  const DefaultLimit: int := 100

  /** `req.user?.role || "unknown"`. */
  function UserOf(role: Option<string>): (user: string)
    ensures user != ""
    ensures role.Some? && role.value != "" ==> user == role.value
  {
    OrDefault(role, "unknown")
  }

  /**
   * The entry for a response `data` to the request with body `body`:
   * `success` is `!data.error`, `tool` and `input` are `req.body?.tool`
   * and `req.body?.input`.
   */
  function EntryFor(requestId: string, timestamp: string, body: Option<Json>, data: Json,
                    role: Option<string>, ip: string): (e: Entry)
    ensures e.id == requestId && e.timestamp == timestamp && e.ip == ip
    ensures e.success <==> !TruthyOpt(Member(data, "error"))
    ensures e.user == UserOf(role)
    ensures body.Some? ==> e.tool == Member(body.value, "tool") && e.input == Member(body.value, "input")
    ensures body.None? ==> e.tool.None? && e.input.None?
  {
    var tool := if body.Some? then Member(body.value, "tool") else None;
    var input := if body.Some? then Member(body.value, "input") else None;
    Entry(requestId, timestamp, tool, input, !TruthyOpt(Member(data, "error")), UserOf(role), ip)
  }

  /** The log after one response: one entry more on `/invoke`, the same log elsewhere. */
  function Recorded(log: seq<Entry>, path: string, requestId: string, timestamp: string, body: Option<Json>,
                    data: Json, role: Option<string>, ip: string): (r: seq<Entry>)
    ensures path == InvokePath ==> |r| == |log| + 1 && r[..|log|] == log && r[|log|] == EntryFor(requestId, timestamp, body, data, role, ip)
    ensures path != InvokePath ==> r == log
  {
    if path == InvokePath then log + [EntryFor(requestId, timestamp, body, data, role, ip)] else log
  }

  /**
   * `auditLog.slice(-limit)`. A positive `limit` keeps the last
   * `min(limit, |log|)` entries; `-0` is `0`, so a zero limit keeps them
   * all; a negative limit drops the first `-limit` entries.
   */
  function LastEntries(log: seq<Entry>, limit: int): (r: seq<Entry>)
    ensures limit >= 1 ==> |r| == Min(limit, |log|) && r == log[|log| - |r|..]
    ensures limit == 0 ==> r == log
    ensures limit < 0 ==> r == log[Min(-limit, |log|)..]
  {
    var start := -limit;
    if start < 0 then
      log[if |log| + start < 0 then 0 else |log| + start..]
    else
      log[if start < |log| then start else |log|..]
  }

  /** The log the server keeps: entries in the order their responses were sent. */
  class AuditLog {
    var entries: seq<Entry>

    constructor ()
      ensures entries == []
    {
      entries := [];
    }

    /**
     * The patched `res.json(data)`: on `/invoke`, append this response's
     * entry; in every case send `data` unchanged.
     */
    method Record(path: string, requestId: string, timestamp: string, body: Option<Json>,
                  data: Json, role: Option<string>, ip: string) returns (sent: Json)
      modifies this
      ensures sent == data
      ensures entries == Recorded(old(entries), path, requestId, timestamp, body, data, role, ip)
    {
      if path == InvokePath {
        entries := entries + [EntryFor(requestId, timestamp, body, data, role, ip)];
      }
      sent := data;
    }

    /** `getAuditLogs(limit = 100)`. */
    function GetAuditLogs(limit: Option<int>): (r: seq<Entry>)
      reads this
      ensures r == LastEntries(entries, limit.GetOr(DefaultLimit))
      ensures limit.None? ==> |r| == Min(DefaultLimit, |entries|) && r == entries[|entries| - |r|..]
    {
      LastEntries(entries, limit.GetOr(DefaultLimit))
    }
  }

  /** The `GET /admin/audit` body. */
  datatype AuditResponse = AuditResponse(success: bool, logs: seq<Entry>, count: nat)

  /**
   * `parseInt(req.query.limit) || 100`, given what `parseInt` yields:
   * `None` for `NaN`. `NaN` and `0` fall back to 100.
   */
  function AdminLimit(parsed: Option<int>): (limit: int)
    ensures limit != 0
    ensures parsed.None? || parsed.value == 0 ==> limit == DefaultLimit
    ensures parsed.Some? && parsed.value != 0 ==> limit == parsed.value
  {
    if parsed.None? || parsed.value == 0 then DefaultLimit else parsed.value
  }

  /** `GET /admin/audit`: the selected entries and their number. */
  function AdminAudit(log: AuditLog, parsed: Option<int>): (r: AuditResponse)
    reads log
    ensures r.success && r.count == |r.logs|
    ensures r.logs == log.GetAuditLogs(Some(AdminLimit(parsed)))
  {
    var logs := log.GetAuditLogs(Some(AdminLimit(parsed)));
    AuditResponse(true, logs, |logs|)
  }

  /** Without a usable limit the admin route reads the same entries as the default. */
  lemma AdminDefault(log: seq<Entry>, parsed: Option<int>)
    requires parsed.None? || parsed.value == 0
    ensures LastEntries(log, AdminLimit(parsed)) == LastEntries(log, DefaultLimit)
    ensures |LastEntries(log, AdminLimit(parsed))| == Min(100, |log|)
  {
  }

  /** Recording never changes or removes an entry already in the log. */
  lemma AppendOnly(log: seq<Entry>, path: string, requestId: string, timestamp: string, body: Option<Json>,
                   data: Json, role: Option<string>, ip: string)
    ensures var r := Recorded(log, path, requestId, timestamp, body, data, role, ip);
      |log| <= |r| <= |log| + 1 && r[..|log|] == log
  {
  }

  /**
   * Two `/invoke` responses with distinct request ids give two distinct
   * entries, at the end of the log, in the order the responses were sent.
   */
  lemma TwoRecordsInOrder(log: seq<Entry>, id1: string, t1: string, b1: Option<Json>, d1: Json, r1: Option<string>, ip1: string,
                          id2: string, t2: string, b2: Option<Json>, d2: Json, r2: Option<string>, ip2: string)
    requires id1 != id2
    ensures var after := Recorded(Recorded(log, InvokePath, id1, t1, b1, d1, r1, ip1), InvokePath, id2, t2, b2, d2, r2, ip2);
      && |after| == |log| + 2
      && after[..|log|] == log
      && after[|log|].id == id1 && after[|log| + 1].id == id2
      && after[|log|] != after[|log| + 1]
  {
    var mid := Recorded(log, InvokePath, id1, t1, b1, d1, r1, ip1);
    assert mid[..|log|] == log;
    var after := Recorded(mid, InvokePath, id2, t2, b2, d2, r2, ip2);
    assert after[..|mid|] == mid;
    assert after[..|log|] == mid[..|log|];
  }

  /**
   * Reading after a record with a positive limit: the newest entry comes
   * last, after the newest `limit - 1` entries of the log before.
   */
  lemma LatestIsLastRead(log: seq<Entry>, limit: int, e: Entry)
    requires limit >= 1
    ensures limit == 1 ==> LastEntries(log + [e], limit) == [e]
    ensures limit >= 2 ==> LastEntries(log + [e], limit) == LastEntries(log, limit - 1) + [e]
  {
  }
}
