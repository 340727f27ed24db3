/** The poll lambda: a read-only projection of one query-status record,
    chosen by its status (backend/poll_status_lambda.py). */
module PollStatus {
  import opened Wrappers
  import opened QueryStatus

  /** The JSON body of a 200 answer; the optional members are present only
      for the statuses that carry them. */
  datatype StatusView = StatusView(
    status: string,
    query: string,
    createdAt: string,
    updatedAt: string,
    answer: Option<string>,
    sources: Option<seq<Source>>,
    messageId: Option<string>,
    error: Option<string>)

  datatype PollResponse = Found(view: StatusView) | MissingQueryId | QueryNotFound(queryId: string)
  {
    function StatusCode(): int
    {
      match this
      case Found(_) => 200
      case MissingQueryId => 400
      case QueryNotFound(_) => 404
    }
  }

  /** What the poll lambda answers for a path parameter `query_id`, given
      the table contents. It takes the table as a value: polling never
      writes. */
  function Poll(records: map<string, QueryRecord>, queryId: Option<string>): (r: PollResponse)
    ensures r.MissingQueryId? <==> queryId.None? || queryId.value == ""
    ensures r.QueryNotFound? <==> queryId.Some? && queryId.value != "" && queryId.value !in records
    ensures r.Found? ==>
      var rec := records[queryId.value];
      var status := rec.status.GetOr("unknown");
      r.view.status == status
      && r.view.query == rec.query.GetOr("") && r.view.createdAt == rec.createdAt.GetOr("")
      && r.view.updatedAt == rec.updatedAt.GetOr("")
      && (r.view.answer.Some? <==> status == "completed")
      && (r.view.sources.Some? <==> status == "completed")
      && (r.view.error.Some? <==> status == "failed")
      && (r.view.messageId.Some? <==> status == "completed" && rec.messageId.Some? && rec.messageId.value != "")
      && (r.view.answer.Some? ==> r.view.answer.value == rec.answer.GetOr(""))
      && (r.view.sources.Some? ==> r.view.sources.value == rec.sources.GetOr([]))
      && (r.view.error.Some? ==> r.view.error.value == rec.error.GetOr("Unknown error"))
      && (r.view.messageId.Some? ==> r.view.messageId == rec.messageId)
  {
    if queryId.None? || queryId.value == "" then MissingQueryId
    else if queryId.value !in records then QueryNotFound(queryId.value)
    else
      var rec := records[queryId.value];
      var status := rec.status.GetOr("unknown");
      var completed := status == "completed";
      Found(StatusView(
        status,
        rec.query.GetOr(""),
        rec.createdAt.GetOr(""),
        rec.updatedAt.GetOr(""),
        if completed then Some(rec.answer.GetOr("")) else None,
        if completed then Some(rec.sources.GetOr([])) else None,
        if completed && rec.messageId.Some? && rec.messageId.value != "" then rec.messageId else None,
        if status == "failed" then Some(rec.error.GetOr("Unknown error")) else None))
  }

  /** After the success update, polling reports the answer and sources that
      were stored, and the message id exactly when one was saved. */
  lemma PollAfterCompleted(records: map<string, QueryRecord>, id: string, answer: string,
                           sources: seq<Source>, at: string, messageId: Option<string>)
    requires id != ""
    ensures var after := records[id := CompletedRecord(Lookup(records, id), answer, sources, at, messageId)];
      var r := Poll(after, Some(id));
      r.Found? && r.view.status == "completed" && r.view.answer == Some(answer)
      && r.view.sources == Some(sources) && r.view.error.None? && r.view.updatedAt == at
      && (messageId.Some? && messageId.value != "" ==> r.view.messageId == messageId)
  {
  }

  /** After the failure update, polling reports `failed` with that error and
      no answer. */
  lemma PollAfterFailed(records: map<string, QueryRecord>, id: string, error: string, at: string)
    requires id != ""
    ensures var after := records[id := FailedRecord(Lookup(records, id), error, at)];
      var r := Poll(after, Some(id));
      r.Found? && r.view.status == "failed" && r.view.error == Some(error)
      && r.view.answer.None? && r.view.sources.None? && r.view.messageId.None?
  {
  }

  /** A record without a status reads as `unknown`, with neither answer nor
      error. */
  lemma PollMissingStatus(records: map<string, QueryRecord>, id: string)
    requires id != "" && id in records && records[id].status.None?
    ensures var r := Poll(records, Some(id));
      r.Found? && r.view.status == "unknown" && r.view.answer.None? && r.view.error.None?
  {
  }
}
