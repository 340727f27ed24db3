/** The asynchronous query-status record and its table: written by the
    start-query lambda, completed or failed by the knowledge querier, read by
    the poll lambda. */
module QueryStatus {
  import opened Wrappers
  import KbRetrieval

  type Source = KbRetrieval.Source

  /** One item of the query-status table; every attribute may be absent. */
  datatype QueryRecord = QueryRecord(
    status: Option<string>,
    jobId: Option<string>,
    chatSessionId: Option<string>,
    query: Option<string>,
    folderPaths: Option<seq<string>>,
    useAgent: Option<bool>,
    agentType: Option<string>,
    createdAt: Option<string>,
    updatedAt: Option<string>,
    ttl: Option<int>,
    answer: Option<string>,
    sources: Option<seq<Source>>,
    messageId: Option<string>,
    error: Option<string>)

  const EmptyRecord: QueryRecord :=
    QueryRecord(None, None, None, None, None, None, None, None, None, None, None, None, None, None)

  /** The payload the start lambda sends to the knowledge querier; a present
      `queryId` is what selects the querier's asynchronous mode. */
  datatype AsyncQueryEvent = AsyncQueryEvent(
    queryId: string,
    jobId: string,
    chatSessionId: string,
    query: string,
    folderPaths: seq<string>,
    folderDefaultJobIds: map<string, string>,
    useAgent: bool,
    agentType: string)

  /** The record after the success update. `update_item` creates the item
      when it is absent, so the update applies to an empty record then. */
  function CompletedRecord(prev: Option<QueryRecord>, answer: string, sources: seq<Source>,
                           updatedAt: string, messageId: Option<string>): (r: QueryRecord)
    ensures r.status == Some("completed") && r.answer == Some(answer) && r.sources == Some(sources)
    ensures r.updatedAt == Some(updatedAt)
    ensures messageId.Some? && messageId.value != "" ==> r.messageId == messageId
    ensures !(messageId.Some? && messageId.value != "") ==> r.messageId == prev.GetOr(EmptyRecord).messageId
    ensures r.(status := None, answer := None, sources := None, updatedAt := None, messageId := None)
            == prev.GetOr(EmptyRecord).(status := None, answer := None, sources := None, updatedAt := None, messageId := None)
  {
    var base := prev.GetOr(EmptyRecord);
    base.(status := Some("completed"), answer := Some(answer), sources := Some(sources),
          updatedAt := Some(updatedAt),
          messageId := if messageId.Some? && messageId.value != "" then messageId else base.messageId)
  }

  /** The record after the failure update: status, error and timestamp only. */
  function FailedRecord(prev: Option<QueryRecord>, error: string, updatedAt: string): (r: QueryRecord)
    ensures r.status == Some("failed") && r.error == Some(error) && r.updatedAt == Some(updatedAt)
    ensures r.(status := None, error := None, updatedAt := None)
            == prev.GetOr(EmptyRecord).(status := None, error := None, updatedAt := None)
  {
    prev.GetOr(EmptyRecord).(status := Some("failed"), error := Some(error), updatedAt := Some(updatedAt))
  }

  function Lookup(records: map<string, QueryRecord>, id: string): Option<QueryRecord>
  {
    if id in records then Some(records[id]) else None
  }

  /** The query-status table, keyed by `query_id`. */
  class StatusTable {
    var records: map<string, QueryRecord>

    constructor ()
      ensures records == map[]
    {
      records := map[];
    }

    /** `put_item`: the item replaces whatever was stored under the id. */
    method Put(id: string, rec: QueryRecord)
      modifies this
      ensures records == old(records)[id := rec]
    {
      records := records[id := rec];
    }

    method MarkCompleted(id: string, answer: string, sources: seq<Source>, updatedAt: string,
                         messageId: Option<string>)
      modifies this
      ensures records == old(records)[id := CompletedRecord(Lookup(old(records), id), answer, sources, updatedAt, messageId)]
    {
      records := records[id := CompletedRecord(Lookup(records, id), answer, sources, updatedAt, messageId)];
    }

    method MarkFailed(id: string, error: string, updatedAt: string)
      modifies this
      ensures records == old(records)[id := FailedRecord(Lookup(old(records), id), error, updatedAt)]
    {
      records := records[id := FailedRecord(Lookup(records, id), error, updatedAt)];
    }
  }
}
