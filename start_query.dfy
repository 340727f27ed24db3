/** The start-query lambda: validates the request, writes the initial
    `processing` record and emits the asynchronous payload for the knowledge
    querier (backend/start_query_lambda.py). */
module StartQuery {
  import opened Wrappers
  import opened Strs
  import opened QueryStatus
  import PollStatus

  /** The request body; absent members are `None`. */
  datatype StartRequest = StartRequest(
    jobId: Option<string>,
    chatSessionId: Option<string>,
    query: Option<string>,
    folderPaths: Option<seq<string>>,
    folderDefaultJobIds: Option<map<string, string>>,
    useAgent: Option<bool>,
    agentType: Option<string>)

  datatype StartResponse = Accepted(queryId: string, status: string) | BadRequest(error: string)
  {
    function StatusCode(): int
    {
      if Accepted? then 202 else 400
    }
  }

  /** One hour, the lifetime of a query-status record. */
  const StatusTtlSeconds: int := 3600

  function JobIdOf(req: StartRequest): string { Strip(req.jobId.GetOr("")) }
  function SessionOf(req: StartRequest): string { Strip(req.chatSessionId.GetOr("")) }
  function QueryOf(req: StartRequest): string { Strip(req.query.GetOr("")) }

  /** Why a request is refused, checked in the handler's order. */
  function Validate(req: StartRequest): (r: Option<string>)
    ensures r.Some? <==> QueryOf(req) == "" || SessionOf(req) == ""
    ensures QueryOf(req) == "" ==> r == Some("Query is required")
  {
    if QueryOf(req) == "" then Some("Query is required")
    else if SessionOf(req) == "" then Some("chat_session_id is required")
    else None
  }

  /** The item written before the querier is invoked. */
  function InitialRecord(req: StartRequest, now: string, nowEpoch: int): (r: QueryRecord)
    ensures r.status == Some("processing")
    ensures r.jobId == Some(if JobIdOf(req) == "" then "temp" else JobIdOf(req))
    ensures r.ttl == Some(nowEpoch + StatusTtlSeconds)
    ensures r.createdAt == Some(now) && r.updatedAt == Some(now)
    ensures r.answer.None? && r.error.None? && r.messageId.None? && r.sources.None?
  {
    QueryRecord(
      status := Some("processing"),
      jobId := Some(if JobIdOf(req) == "" then "temp" else JobIdOf(req)),
      chatSessionId := Some(SessionOf(req)),
      query := Some(QueryOf(req)),
      folderPaths := Some(req.folderPaths.GetOr([])),
      useAgent := Some(req.useAgent.GetOr(true)),
      agentType := Some(req.agentType.GetOr("default")),
      createdAt := Some(now),
      updatedAt := Some(now),
      ttl := Some(nowEpoch + StatusTtlSeconds),
      answer := None, sources := None, messageId := None, error := None)
  }

  /** The payload for the querier: the query id plus the request's fields,
      with `use_agent` defaulting to true and `agent_type` to `default`. */
  function Payload(req: StartRequest, queryId: string): (p: AsyncQueryEvent)
    ensures p.queryId == queryId
    ensures p.folderPaths == req.folderPaths.GetOr([])
    ensures p.folderDefaultJobIds == req.folderDefaultJobIds.GetOr(map[])
    ensures p.useAgent == req.useAgent.GetOr(true) && p.agentType == req.agentType.GetOr("default")
  {
    AsyncQueryEvent(queryId, JobIdOf(req), SessionOf(req), QueryOf(req),
                    req.folderPaths.GetOr([]), req.folderDefaultJobIds.GetOr(map[]),
                    req.useAgent.GetOr(true), req.agentType.GetOr("default"))
  }

  /** The handler. The uuid and the clock are parameters. A refused request
      writes nothing and invokes nothing. */
  method HandleStart(table: StatusTable, req: StartRequest, queryId: string, now: string, nowEpoch: int)
    returns (resp: StartResponse, invoked: Option<AsyncQueryEvent>)
    modifies table
    ensures resp.BadRequest? <==> Validate(req).Some?
    ensures resp.BadRequest? ==> table.records == old(table.records) && invoked.None?
    ensures resp.Accepted? ==>
      resp == Accepted(queryId, "processing")
      && table.records == old(table.records)[queryId := InitialRecord(req, now, nowEpoch)]
      && invoked == Some(Payload(req, queryId))
  {
    var problem := Validate(req);
    if problem.Some? {
      return BadRequest(problem.value), None;
    }
    table.Put(queryId, InitialRecord(req, now, nowEpoch));
    resp := Accepted(queryId, "processing");
    invoked := Some(Payload(req, queryId));
  }

  /** Right after a start, polling the new id reports `processing` with
      neither answer nor error. */
  lemma PollAfterStart(records: map<string, QueryRecord>, req: StartRequest, queryId: string,
                       now: string, nowEpoch: int)
    requires queryId != ""
    ensures var r := PollStatus.Poll(records[queryId := InitialRecord(req, now, nowEpoch)], Some(queryId));
      r.Found? && r.view.status == "processing" && r.view.answer.None? && r.view.error.None?
      && r.view.query == QueryOf(req) && r.view.createdAt == now
  {
  }
}
