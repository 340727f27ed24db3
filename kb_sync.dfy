/** The knowledge-base sync lambda, run once the last file of a batch is
    processed: it registers a new folder, then moves the job through
    `kb_sync_in_progress` to `kb_sync_started` or `kb_sync_error`
    (backend/bedrock_kb_sync_lambda.py). The ingestion call is a
    parameter; the job and folder-config tables are the state of a class. */
module KbSync {
  import opened Wrappers
  import FolderManagement

  type FolderConfig = FolderManagement.FolderConfig

  // ----- folder registration -----

  /** `register_folder_on_first_knowledge_completion` on the folder-config
      table: a known folder only gets a new `latest_job_id`; a new one is
      put with both job ids set to `jobId`. */
  function Registered(folders: map<string, FolderConfig>, p: string, jobId: string): (r: map<string, FolderConfig>)
    ensures r.Keys == folders.Keys + {p}
    ensures p in folders ==> r[p].defaultJobId == folders[p].defaultJobId && r[p].latestJobId == Some(jobId)
    ensures p !in folders ==> r[p] == FolderManagement.FolderConfig(Some(jobId), Some(jobId))
    ensures forall q :: q in folders && q != p ==> r[q] == folders[q]
  {
    if p in folders then folders[p := folders[p].(latestJobId := Some(jobId))]
    else folders[p := FolderManagement.FolderConfig(Some(jobId), Some(jobId))]
  }

  /** The folder-config table after the jobs `jobIds` complete one after
      the other for folder `p`. */
  function RegisteredAll(folders: map<string, FolderConfig>, p: string, jobIds: seq<string>): map<string, FolderConfig>
  {
    if jobIds == [] then folders
    else Registered(RegisteredAll(folders, p, jobIds[..|jobIds| - 1]), p, jobIds[|jobIds| - 1])
  }

  /** The first completed job stays the folder's default; the latest job
      is the last one. */
  lemma {:induction false} DefaultIsFirstJob(folders: map<string, FolderConfig>, p: string, jobIds: seq<string>)
    requires p !in folders && jobIds != []
    ensures p in RegisteredAll(folders, p, jobIds)
    ensures RegisteredAll(folders, p, jobIds)[p] ==
      FolderManagement.FolderConfig(Some(jobIds[0]), Some(jobIds[|jobIds| - 1]))
  {
    var front := jobIds[..|jobIds| - 1];
    if front != [] {
      DefaultIsFirstJob(folders, p, front);
      assert front[0] == jobIds[0];
    }
  }

  /** A registered folder keeps its default whatever completes later. */
  lemma {:induction false} DefaultKept(folders: map<string, FolderConfig>, p: string, jobIds: seq<string>)
    requires p in folders
    ensures p in RegisteredAll(folders, p, jobIds)
    ensures RegisteredAll(folders, p, jobIds)[p].defaultJobId == folders[p].defaultJobId
  {
    if jobIds != [] {
      DefaultKept(folders, p, jobIds[..|jobIds| - 1]);
    }
  }

  // ----- the ingestion call -----

  /** What `start_ingestion_job` does: returns an ingestion job, raises a
      `ClientError` (with the optional code and message of its response and
      its text), or raises something else. */
  datatype Ingestion =
    | IngestionJob(ingestionJobId: string, status: string)
    | IngestionClientError(code: Option<string>, message: Option<string>, text: string)
    | IngestionFailure(text: string)

  /** The dictionary `start_kb_ingestion` returns. */
  datatype KbResponse = KbResponse(ingestionJobId: Option<string>, status: string,
                                   errorCode: Option<string>, errorMessage: Option<string>)

  /** `start_kb_ingestion`: a client error becomes an `error` response
      with the code (default `Unknown`) and message (default the error's
      text); anything else it lets through. */
  function StartKbIngestion(ing: Ingestion): (r: Option<KbResponse>)
    ensures r.None? <==> ing.IngestionFailure?
    ensures ing.IngestionJob? ==> r == Some(KbResponse(Some(ing.ingestionJobId), ing.status, None, None))
    ensures ing.IngestionClientError? ==>
      r.value.ingestionJobId.None? && r.value.status == "error" &&
      r.value.errorCode == Some(ing.code.GetOr("Unknown")) &&
      r.value.errorMessage == Some(ing.message.GetOr(ing.text))
  {
    match ing
    case IngestionJob(id, st) => Some(KbResponse(Some(id), st, None, None))
    case IngestionClientError(code, message, text) =>
      Some(KbResponse(None, "error", Some(code.GetOr("Unknown")), Some(message.GetOr(text))))
    case IngestionFailure(_) => None
  }

  // ----- the job status -----

  /** `kb_sync_details` of a job. */
  datatype SyncDetails =
    | ConfigMissing
    | IngestionStarted(ingestionJobId: string, status: string)
    | IngestionIssue(errorCode: Option<string>, errorMessage: Option<string>)
    | UnexpectedError(message: string)

  /** The job item's `status` and `kb_sync_details`. */
  datatype JobSync = JobSync(status: string, details: Option<SyncDetails>)

  /** One `update_dynamodb_status` call. */
  datatype StatusWrite = StatusWrite(status: string, details: Option<SyncDetails>)

  /** The job item after one write: the status is set; the details are set
      only when given (an update creates a missing item). */
  function AfterWrite(cur: Option<JobSync>, w: StatusWrite): (r: JobSync)
    ensures r.status == w.status
    ensures r.details == if w.details.Some? then w.details else if cur.Some? then cur.value.details else None
  {
    JobSync(w.status, if w.details.Some? then w.details else if cur.Some? then cur.value.details else None)
  }

  /** The jobs table after the writes to `jobId`, in order. */
  function Applied(jobs: map<string, JobSync>, jobId: string, ws: seq<StatusWrite>): map<string, JobSync>
  {
    if ws == [] then jobs
    else
      var before := Applied(jobs, jobId, ws[..|ws| - 1]);
      before[jobId := AfterWrite(if jobId in before then Some(before[jobId]) else None, ws[|ws| - 1])]
  }

  /** Writes touch only their job, and the job ends in the last status. */
  lemma {:induction false} AppliedFacts(jobs: map<string, JobSync>, jobId: string, ws: seq<StatusWrite>)
    ensures forall j :: j != jobId ==> (j in Applied(jobs, jobId, ws) <==> j in jobs)
    ensures forall j :: j != jobId && j in jobs ==> Applied(jobs, jobId, ws)[j] == jobs[j]
    ensures ws != [] ==> jobId in Applied(jobs, jobId, ws) && Applied(jobs, jobId, ws)[jobId].status == ws[|ws| - 1].status
  {
    if ws != [] {
      AppliedFacts(jobs, jobId, ws[..|ws| - 1]);
    }
  }

  // ----- the handler -----

  /** The Step Functions input; `triggerKbSync` and `isNewFolder` are the
      truth values of the optional flags (default false). */
  datatype SyncEvent = SyncEvent(jobId: Option<string>, triggerKbSync: bool, folderPath: Option<string>, isNewFolder: bool)

  datatype SyncBody =
    | SyncFailure(error: string, message: string)
    | NotTriggered(jobId: string)
    | SyncStarted(jobId: string, ingestionJobId: string, ingestionStatus: string)
    | SyncIssue(jobId: string, errorCode: Option<string>, errorMessage: Option<string>)

  datatype SyncResponse = SyncResponse(statusCode: int, body: SyncBody)

  predicate Truthy(s: Option<string>)
  {
    s.Some? && s.value != ""
  }

  /** The folder is registered only for a new folder with a path. */
  predicate Registers(ev: SyncEvent, kbConfigured: bool)
  {
    Truthy(ev.jobId) && ev.triggerKbSync && kbConfigured && ev.isNewFolder && Truthy(ev.folderPath)
  }

  /** The status writes of one invocation, in order. */
  function SyncWrites(ev: SyncEvent, kbConfigured: bool, ing: Ingestion): (ws: seq<StatusWrite>)
    ensures ws == [] <==> !Truthy(ev.jobId) || !ev.triggerKbSync
    ensures Truthy(ev.jobId) && ev.triggerKbSync && !kbConfigured ==> ws == [StatusWrite("failed", Some(ConfigMissing))]
    ensures Truthy(ev.jobId) && ev.triggerKbSync && kbConfigured ==>
      |ws| == 2 && ws[0] == StatusWrite("kb_sync_in_progress", None) &&
      (ws[1].status == "kb_sync_started" <==> ing.IngestionJob? && ing.ingestionJobId != "") &&
      (ws[1].status != "kb_sync_started" ==> ws[1].status == "kb_sync_error")
  {
    if !Truthy(ev.jobId) || !ev.triggerKbSync then []
    else if !kbConfigured then [StatusWrite("failed", Some(ConfigMissing))]
    else [StatusWrite("kb_sync_in_progress", None), OutcomeWrite(ing)]
  }

  /** The write after the ingestion call; an exception other than a
      client error is recorded with its text. */
  function OutcomeWrite(ing: Ingestion): StatusWrite
  {
    match StartKbIngestion(ing)
    case None => StatusWrite("kb_sync_error", Some(UnexpectedError(ing.text)))
    case Some(r) =>
      if r.ingestionJobId.Some? && r.ingestionJobId.value != "" then
        StatusWrite("kb_sync_started", Some(IngestionStarted(r.ingestionJobId.value, r.status)))
      else StatusWrite("kb_sync_error", Some(IngestionIssue(r.errorCode, r.errorMessage)))
  }

  /** The handler's answer. */
  function SyncAnswer(ev: SyncEvent, kbConfigured: bool, ing: Ingestion): (r: SyncResponse)
    ensures r.statusCode == 400 <==> !Truthy(ev.jobId)
    ensures r.statusCode == 500 <==> Truthy(ev.jobId) && ev.triggerKbSync && (!kbConfigured || ing.IngestionFailure?)
    ensures r.statusCode in {200, 400, 500}
    ensures r.body.SyncStarted? ==> ing == IngestionJob(r.body.ingestionJobId, r.body.ingestionStatus)
  {
    if !Truthy(ev.jobId) then SyncResponse(400, SyncFailure("job_id not provided", "job_id is required in the event"))
    else if !ev.triggerKbSync then SyncResponse(200, NotTriggered(ev.jobId.value))
    else if !kbConfigured then
      SyncResponse(500, SyncFailure("Configuration error", "KNOWLEDGE_BASE_ID or DATA_SOURCE_ID not configured"))
    else
      match StartKbIngestion(ing)
      case None => SyncResponse(500, SyncFailure("Internal server error", ing.text))
      case Some(kb) =>
        if kb.ingestionJobId.Some? && kb.ingestionJobId.value != "" then
          SyncResponse(200, SyncStarted(ev.jobId.value, kb.ingestionJobId.value, kb.status))
        else SyncResponse(200, SyncIssue(ev.jobId.value, kb.errorCode, kb.errorMessage))
  }

  /** Both ingestion outcomes answer 200; the job's final status says
      which one happened. */
  lemma SyncOutcomes(ev: SyncEvent, ing: Ingestion, jobs: map<string, JobSync>)
    requires Truthy(ev.jobId) && ev.triggerKbSync && !ing.IngestionFailure?
    ensures SyncAnswer(ev, true, ing).statusCode == 200
    ensures var after := Applied(jobs, ev.jobId.value, SyncWrites(ev, true, ing))[ev.jobId.value];
      (after.status == "kb_sync_started" <==> SyncAnswer(ev, true, ing).body.SyncStarted?) &&
      (after.status == "kb_sync_error" <==> SyncAnswer(ev, true, ing).body.SyncIssue?)
  {
    AppliedFacts(jobs, ev.jobId.value, SyncWrites(ev, true, ing));
  }

  /** The two tables the lambda writes. */
  class SyncStore {
    var jobs: map<string, JobSync>
    var folders: map<string, FolderConfig>
    /** Whether `DYNAMODB_FOLDER_CONFIG_TABLE` is configured. */
    const hasFolderTable: bool

    constructor (jobs0: map<string, JobSync>, folders0: map<string, FolderConfig>, hasFolderTable: bool)
      ensures jobs == jobs0 && folders == folders0 && this.hasFolderTable == hasFolderTable
    {
      jobs := jobs0;
      folders := folders0;
      this.hasFolderTable := hasFolderTable;
    }

    /** `update_dynamodb_status`. */
    method UpdateStatus(jobId: string, w: StatusWrite)
      modifies this
      ensures jobs == Applied(old(jobs), jobId, [w]) && folders == old(folders)
    {
      assert [w][..0] == [];
      jobs := jobs[jobId := AfterWrite(if jobId in jobs then Some(jobs[jobId]) else None, w)];
    }

    /** `register_folder_on_first_knowledge_completion`; without a
        folder-config table it reports failure and writes nothing. */
    method RegisterFolder(p: string, jobId: string) returns (ok: bool)
      modifies this
      ensures ok == hasFolderTable
      ensures folders == (if hasFolderTable then Registered(old(folders), p, jobId) else old(folders))
      ensures jobs == old(jobs)
    {
      if !hasFolderTable {
        return false;
      }
      folders := Registered(folders, p, jobId);
      ok := true;
    }

    /** `lambda_handler`. `kbConfigured` says whether both the knowledge
        base and its data source are configured; `ing` is what the
        ingestion call does. */
    method HandleSync(ev: SyncEvent, kbConfigured: bool, ing: Ingestion) returns (resp: SyncResponse)
      modifies this
      ensures resp == SyncAnswer(ev, kbConfigured, ing)
      ensures jobs == (if Truthy(ev.jobId) then Applied(old(jobs), ev.jobId.value, SyncWrites(ev, kbConfigured, ing)) else old(jobs))
      ensures folders == (if Registers(ev, kbConfigured) && hasFolderTable
                          then Registered(old(folders), ev.folderPath.value, ev.jobId.value) else old(folders))
    {
      resp := SyncAnswer(ev, kbConfigured, ing);
      if !Truthy(ev.jobId) || !ev.triggerKbSync {
        return;
      }
      var jobId := ev.jobId.value;
      if !kbConfigured {
        UpdateStatus(jobId, StatusWrite("failed", Some(ConfigMissing)));
        return;
      }
      if ev.isNewFolder && Truthy(ev.folderPath) {
        var _ := RegisterFolder(ev.folderPath.value, jobId);
      }
      var w0 := StatusWrite("kb_sync_in_progress", None);
      UpdateStatus(jobId, w0);
      var w1 := OutcomeWrite(ing);
      UpdateStatus(jobId, w1);
      AppliedTwo(old(jobs), jobId, w0, w1);
    }
  }

  lemma AppliedTwo(jobs: map<string, JobSync>, jobId: string, w0: StatusWrite, w1: StatusWrite)
    ensures Applied(jobs, jobId, [w0, w1]) == Applied(Applied(jobs, jobId, [w0]), jobId, [w1])
  {
    assert [w0, w1][..1] == [w0];
    assert [w1][..0] == [];
  }
}
