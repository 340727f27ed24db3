# Document question-answering backend, modelled in Dafny

The backend is a set of AWS Lambda functions behind a document
question-answering web application. Users upload PDFs into a folder
hierarchy under `PDF/` in an S3 bucket. A job (named by its 14-digit JST
timestamp) turns every PDF of a leaf folder into knowledge text under
`Knowledge/{folder}/{job}/`, one file per extracted chunk, and then starts a
Bedrock knowledge-base sync. Queries go to the knowledge base or to a
Bedrock agent, scoped by (folder_path, job_id) pairs through a metadata
filter. They run synchronously or asynchronously, with a query-status record
that a poll endpoint reads. Questions and answers are kept in a chat-history
table that can be summarised, searched and rated. Output-format prompt
templates live in their own table, with at most one default per agent type.

The model keeps the deterministic work these lambdas do between their calls
to AWS:

- Tables are maps or item sequences, and buckets are maps from keys to
  bodies. An object whose state the source changes in place is a `class`:
  - `QueryStatus.StatusTable`
  - `ChatItems.ChatTable`
  - `KbSync.SyncStore`
  - `Worker.WorkerStore`
  - `JobCreator.JobStore`
  - `PromptTemplates.TemplateTable`
- Bedrock, Step Functions, the presigner, the clock and uuids are parameters.
- Each loop of the source is a method proved equal to a reference function.
  The properties the source promises are lemmas about those functions: the
  round trips, orderings, invariants and error cases.

There is one module per source file:

| module | source |
|---|---|
| `EmailGate` | `backend/cognito_pre_token_validation.py` |
| `StartQuery` | `backend/start_query_lambda.py` |
| `PollStatus` | `backend/poll_status_lambda.py` |
| `QueryStatus` | the query-status record shared by the query lambdas |
| `KbRetrieval` | URI parsing, the metadata filter and the citation sources shared by `backend/knowledge_querier.py` and `backend/agent_kb_action.py` |
| `KnowledgeQuerier` | `backend/knowledge_querier.py` |
| `ChatItems` | the chat-history table |
| `AgentKbAction` | `backend/agent_kb_action.py` |
| `HistoryManager` | `backend/history_manager.py` |
| `FolderTree` | `backend/folder_tree_helper.py` |
| `FolderManagement` | `backend/folder_management_lambda.py` |
| `KbSync` | `backend/bedrock_kb_sync_lambda.py` |
| `JobCreator` | `backend/job_creator.py` |
| `Worker` | `backend/worker.py` |
| `ResultFetcher` | `backend/result_fetcher.py` |
| `PromptTemplates` | `backend/prompt_management_lambda.py` |

Four modules are shared helpers:

- `Wrappers`: `Option` and `Result`.
- `Json`: decoded JSON values.
- `Strs`: the Python `str` operations used, on `seq<char>`.
- `Order`: Python's key order and its stable sort.

## Model

| member | source | states |
|---|---|---|
| `EmailGate.ValidateEmailDomain` | backend/cognito_pre_token_validation.py:38-58 | the event is accepted iff it has a `request` and the user's e-mail (missing attributes or e-mail read as "") ends with `@ad.melco.co.jp`; an accepted event is returned unchanged, anything else is an error |
| `EmailGate.MissingEmailRejected` | backend/cognito_pre_token_validation.py:40-49 | a user without an e-mail attribute is rejected |
| `EmailGate.DomainAddressAccepted` | backend/cognito_pre_token_validation.py:46-54 | any local part followed by the allowed domain is accepted and the event comes back unchanged |
| `PollStatus.Poll` | backend/poll_status_lambda.py:62-126 | a missing or empty query id gives 400, an id not in the table 404; otherwise the view has the record's status (default `unknown`), query and timestamps, `answer` (default empty) and `sources` (default none) exactly when completed, `error` (default `Unknown error`) exactly when failed, and the stored `message_id` exactly when completed with a non-empty stored id; the table is an argument, so polling writes nothing |
| `PollStatus.PollAfterCompleted` | backend/poll_status_lambda.py:107-113 | after the querier's success update, polling reports `completed` with exactly the stored answer and sources, no error, and the message id when one was saved |
| `PollStatus.PollAfterFailed` | backend/poll_status_lambda.py:114-115 | after the failure update, polling reports `failed` with that error and no answer, sources or message id |
| `PollStatus.PollMissingStatus` | backend/poll_status_lambda.py:99-115 | a record without a status reads as `unknown` with neither answer nor error |
| `StartQuery.Validate` | backend/start_query_lambda.py:62-93 | a request is refused iff the stripped query or the stripped `chat_session_id` is empty, the query check coming first |
| `StartQuery.InitialRecord` | backend/start_query_lambda.py:98-114 | the initial record is `processing`, with job id defaulting to `temp`, creation and update time `now`, a TTL one hour later, and no answer, error, sources or message id |
| `StartQuery.Payload` | backend/start_query_lambda.py:119-128 | the querier payload carries the new query id and forwards folder paths, default job ids, `use_agent` (default true) and `agent_type` (default `default`) |
| `StartQuery.HandleStart` | backend/start_query_lambda.py:52-150 | a refused request writes nothing and invokes nothing; an accepted one answers 202 with the new id and `processing`, puts exactly the initial record under that id and emits the payload |
| `StartQuery.PollAfterStart` | backend/start_query_lambda.py:102-114 | right after a start, polling the new id reports `processing` with the stored query and creation time and neither answer nor error |
| `QueryStatus.CompletedRecord` | backend/knowledge_querier.py:1129-1149 | the success update sets status `completed`, the answer, the sources and the update time, sets the message id only when a non-empty one is given, and leaves every other attribute as it was (an absent record is created) |
| `QueryStatus.FailedRecord` | backend/knowledge_querier.py:1156-1172 | the failure update sets status `failed`, the error text and the update time and leaves every other attribute as it was |
| `QueryStatus.StatusTable.constructor` | backend/start_query_lambda.py:102-114 | the status table starts empty |
| `QueryStatus.StatusTable.Put` | backend/start_query_lambda.py:102-114 | `put_item` replaces whatever is stored under the id and changes nothing else |
| `QueryStatus.StatusTable.MarkCompleted` | backend/knowledge_querier.py:1142-1149 | the success update rewrites exactly the one record to its completed form |
| `QueryStatus.StatusTable.MarkFailed` | backend/knowledge_querier.py:1160-1172 | the failure update rewrites exactly the one record to its failed form |
| `KbSync.Registered` | backend/bedrock_kb_sync_lambda.py:107-158 | a known folder keeps its `default_job_id` and gets `latest_job_id` = the job; a new folder is put with both ids set to the job; no other folder changes |
| `KbSync.DefaultIsFirstJob` | backend/bedrock_kb_sync_lambda.py:133-154 | when jobs complete one after another for a new folder, its default is the first job and its latest the last |
| `KbSync.DefaultKept` | backend/bedrock_kb_sync_lambda.py:133-141 | a registered folder keeps its default whatever completes later |
| `KbSync.StartKbIngestion` | backend/bedrock_kb_sync_lambda.py:63-104 | a started job is returned with its id and status; a client error becomes an `error` response without id, with the error code (default `Unknown`) and message (default the error text); any other exception propagates |
| `KbSync.AfterWrite` | backend/bedrock_kb_sync_lambda.py:40-60 | a status write sets the status and replaces `kb_sync_details` only when details are given |
| `KbSync.AppliedFacts` | backend/bedrock_kb_sync_lambda.py:40-60 | status writes touch only their own job, and the job ends in the last written status |
| `KbSync.SyncWrites` | backend/bedrock_kb_sync_lambda.py:178-294 | no job id or no trigger writes nothing; missing KB configuration writes `failed` once; otherwise `kb_sync_in_progress` then `kb_sync_started` iff the ingestion returned a non-empty job id, else `kb_sync_error` |
| `KbSync.SyncAnswer` | backend/bedrock_kb_sync_lambda.py:178-294 | 400 iff there is no job id; 500 iff triggered and the KB configuration is missing or the ingestion raised something other than a client error; otherwise 200, and a started answer carries the ingestion's id and status |
| `KbSync.SyncOutcomes` | backend/bedrock_kb_sync_lambda.py:227-273 | both ingestion outcomes answer 200, and the job's final status is `kb_sync_started` iff the answer reports a started sync and `kb_sync_error` iff it reports an issue |
| `KbSync.SyncStore.constructor` | backend/bedrock_kb_sync_lambda.py:28-37 | the store holds the given jobs and folder-config tables |
| `KbSync.SyncStore.UpdateStatus` | backend/bedrock_kb_sync_lambda.py:40-60 | one status write on the jobs table; the folder-config table is unchanged |
| `KbSync.SyncStore.RegisterFolder` | backend/bedrock_kb_sync_lambda.py:107-158 | without a folder-config table it reports failure and writes nothing; otherwise the table becomes `Registered`; jobs are unchanged |
| `KbSync.SyncStore.HandleSync` | backend/bedrock_kb_sync_lambda.py:161-294 | answers `SyncAnswer`; the jobs table receives exactly `SyncWrites` for the job; the folder is registered only for a new folder with a path once the KB is configured |
| `KbSync.AppliedTwo` | backend/bedrock_kb_sync_lambda.py:227-273 | two successive writes are the two-write sequence |
| `KbRetrieval.ExtractJobIdAndPdf` | backend/knowledge_querier.py:92-121 | nothing iff the path after the knowledge prefix (or after the first `/Knowledge/`) has no `/`; otherwise the job id is the text before the first `/` and the name is the last segment with every `.txt` replaced by `.pdf` |
| `KbRetrieval.ExtractFromKnowledgeUri` | backend/knowledge_querier.py:100-115 | a URI `s3://{bucket}/Knowledge/{job}/…/{name}` yields `job` and the PDF form of the last segment |
| `KbRetrieval.ExtractWithoutJobFolder` | backend/knowledge_querier.py:108-118 | a URI whose path after `Knowledge/` has no `/` yields nothing |
| `KbRetrieval.PairFilterAdmits` | backend/knowledge_querier.py:298-303 | the `andAll` of one pair admits a document iff its folder_path and job_id both equal the pair's |
| `KbRetrieval.BuildFilterSelectsPairs` | backend/knowledge_querier.py:296-314 | the built filter (one `andAll` for one pair, an `orAll` of one `andAll` per pair otherwise) admits a document iff it matches some pair; no pairs admit nothing |
| `KbRetrieval.Candidate` | backend/knowledge_querier.py:385-416 | a reference contributes a source only with a non-empty name and key; metadata wins when present, the URI supplies a missing name, and a missing key becomes `PDF/{job}/{name}` only when the URI yields a non-empty job id |
| `KbRetrieval.CandidatesWellFormed` | backend/knowledge_querier.py:411-416 | every candidate source has a non-empty file name and key |
| `KbRetrieval.FirstIndex` | backend/knowledge_querier.py:418-420 | the first position holding a key, or -1 when none does |
| `KbRetrieval.DedupByKeys` | backend/knowledge_querier.py:418-420 | the keep-first-by-key list has pairwise distinct keys and holds exactly the keys of its input |
| `KbRetrieval.DedupByFirstSeen` | backend/knowledge_querier.py:418-420 | each kept element is the first input element with its key, and kept elements are in the order their keys first occur |
| `KbRetrieval.DedupByMembers` | backend/knowledge_querier.py:418-420 | every kept element comes from the input |
| `KbRetrieval.ExtractSources` | backend/knowledge_querier.py:374-424 | the loops over citations and references build exactly the keep-first de-duplication of the candidate sources, in response order |
| `KbRetrieval.AddReferenceSources` | backend/knowledge_querier.py:384-421 | the inner loop over one citation's references extends the de-duplicated list by that citation's candidates |
| `KbRetrieval.AddOne` | backend/knowledge_querier.py:411-421 | one reference appends its candidate iff it has one and its key is not yet listed |
| `KbRetrieval.ExtractedSourcesWellFormed` | backend/knowledge_querier.py:374-424 | the extracted sources have non-empty names and keys, pairwise distinct keys, and every candidate key is represented |
| `AgentKbAction.ParamMapLastWins` | backend/agent_kb_action.py:273-277 | a name is in the parameter dictionary iff some entry has it, and it maps to the value of its last such entry |
| `AgentKbAction.CollectParams` | backend/agent_kb_action.py:273-277 | the loop filling `param_dict` builds exactly the last-wins dictionary of the parameters |
| `AgentKbAction.PairsTextSource` | backend/agent_kb_action.py:279-287 | a `{{session.…}}` placeholder is replaced by the stripped `folder_job_pairs` session attribute; any other value is used as given, stripped |
| `AgentKbAction.FieldText` | backend/agent_kb_action.py:311-312 | a missing field reads as "", a string field is stripped, and any other value raises |
| `AgentKbAction.ReadPair` | backend/agent_kb_action.py:307-317 | a non-object element is refused with "Each pair must be a JSON object"; an accepted element gives a pair with non-empty folder_path and job_id |
| `AgentKbAction.ReadPairs` | backend/agent_kb_action.py:306-317 | reading the array element by element keeps its length when it succeeds |
| `AgentKbAction.ReadPairsFacts` | backend/agent_kb_action.py:306-317 | the array is accepted iff every element is; pair i then comes from element i, and otherwise the error is that of the first bad element |
| `AgentKbAction.ReadPairsOkIff` | backend/agent_kb_action.py:306-317 | acceptance of the array is acceptance of every element, with pair i read from element i |
| `AgentKbAction.ReadPairsFirstError` | backend/agent_kb_action.py:306-317 | a refused array names a first bad element whose error it reports |
| `AgentKbAction.ReadPairsErrorStays` | backend/agent_kb_action.py:306-317 | once a prefix fails, the whole array fails with the same error (the loop raises at the first bad element) |
| `AgentKbAction.ParsePairList` | backend/agent_kb_action.py:306-317 | the validation loop returns exactly the element-by-element reading, stopping at the first bad element |
| `AgentKbAction.ParsePairsTextFacts` | backend/agent_kb_action.py:296-323 | the pairs text is accepted iff it decodes to an array of objects each with non-empty (stripped) string folder_path and job_id; the pairs are those fields in array order |
| `AgentKbAction.WithUrls` | backend/agent_kb_action.py:216-228 | each source keeps its name and key and carries the presigned URL of its key when one was made |
| `AgentKbAction.SearchSourcesWellFormed` | backend/agent_kb_action.py:190-235 | the returned sources name a file and a key, no two share a key, and each carries its key's presigned URL |
| `AgentKbAction.WithUrlsWellFormed` | backend/agent_kb_action.py:216-232 | adding URLs keeps non-empty names and keys and distinct keys |
| `AgentKbAction.HandleAgentAction` | backend/agent_kb_action.py:245-378 | the handler's response is the reply built from the computed outcome; it never raises |
| `AgentKbAction.ReplyFacts` | backend/agent_kb_action.py:289-378 | the action answers iff the question and the pairs text are non-empty, the pairs are valid and the search succeeds, and the answer is that search's text with the filter of exactly those pairs; every failure carries the fixed apology and no sources, and a missing question fails with "Query parameter is missing" |
| `AgentKbAction.SearchedPairsSelect` | backend/agent_kb_action.py:126-143 | every pair that reaches the knowledge base has both fields, and a document passes the filter iff it matches one of the pairs |
| `ChatItems.StoredSources` | backend/knowledge_querier.py:635-637 | the stored `sources` list holds one dictionary per returned source, in order, with its file name and key |
| `ChatItems.MessageId` | backend/knowledge_querier.py:618-620 | a message id is the creation timestamp, `#`, then the uuid, and both parts can be read back from it |
| `ChatItems.NewMessageItem` | backend/knowledge_querier.py:616-646 | the saved item has the job id, role, content, timestamp, `timestamp#uuid` id and a 30-day TTL; `chat_session_id` only when non-empty; `sources` iff the role is assistant and sources were given; `selected_folder_paths` and `selected_job_id` only for the user role and when non-empty; no rating, comment or update time |
| `ChatItems.KeyIndex` | backend/knowledge_querier.py:660-662 | the position of the first stored item with the same (job_id, message_id) key, or -1 when there is none |
| `ChatItems.PutItem` | backend/knowledge_querier.py:660-662 | `put_item` replaces the item with the same key in place, or appends the new item |
| `ChatItems.PutItemStores` | backend/knowledge_querier.py:660-662 | after a put the new item is stored, every item with another key is still stored, and the table grows by one exactly when the key was new |
| `ChatItems.FindMessage` | backend/history_manager.py:316-321 | the first scanned item whose `message_id` is the given id, or -1 when none is |
| `ChatItems.WithFeedback` | backend/history_manager.py:335-364 | the feedback update sets rating and/or comment only when given, always sets `updated_at`, and changes nothing else |
| `ChatItems.FeedbackTargetsFoundItem` | backend/history_manager.py:327-364 | the update is addressed by the found item's key, and that key selects the found item itself |
| `ChatItems.FeedbackEffectFacts` | backend/history_manager.py:294-364 | feedback succeeds iff the message exists, carries a job id and a rating or comment is given; a failure reports one of the three errors and leaves the table alone; a success rewrites exactly the found message (same key, given rating/comment, new `updated_at`) |
| `ChatItems.ChatTable.constructor` | backend/history_manager.py:312-314 | the chat table holds the given items in scan order |
| `ChatItems.ChatTable.SaveChatMessage` | backend/knowledge_querier.py:616-667 | an available table receives the new item through `put_item` and the message id is returned; otherwise nothing is written and None is returned |
| `ChatItems.ChatTable.UpdateFeedback` | backend/history_manager.py:294-364 | the table and the reported outcome after the update are exactly the feedback effect |
| `ChatItems.FindMessageIndex` | backend/history_manager.py:316-321 | the scan loop stops at the first item with the message id, or reports none |
| `ChatItems.FindMessagePrefix` | backend/history_manager.py:318-321 | a match with no match before it is the first match of the whole scan |
| `KnowledgeQuerier.TimeOf` | backend/knowledge_querier.py:233-240 | the time shown is empty for a timestamp without `T` and never contains `T` or `+` |
| `KnowledgeQuerier.TimeOfIso` | backend/knowledge_querier.py:237-238 | on an ISO timestamp `dateTtime+zone` the time shown is exactly the text between `T` and `+` |
| `KnowledgeQuerier.RoleLabel` | backend/knowledge_querier.py:243 | the label is the user's iff the role is `user`, the assistant's for every other role (a missing one included) |
| `KnowledgeQuerier.FormatMessage` | backend/knowledge_querier.py:244 | each history line starts with `[` and ends with a newline |
| `KnowledgeQuerier.Taken` | backend/knowledge_querier.py:228-253 | the number of messages kept from the front never exceeds the history's length |
| `KnowledgeQuerier.JoinedAppend` | backend/knowledge_querier.py:252 | the text of two runs of messages is the text of the first followed by that of the second |
| `KnowledgeQuerier.JoinedPrefix` | backend/knowledge_querier.py:252 | a non-empty prefix's text is its first line followed by the rest |
| `KnowledgeQuerier.JoinedSnoc` | backend/knowledge_querier.py:252 | a prefix one longer adds that message's line at the end |
| `KnowledgeQuerier.TakenFits` | backend/knowledge_querier.py:245-253 | the kept lines fit `MAX_CONTEXT_LENGTH`, and the next message, if any, would not have fitted |
| `KnowledgeQuerier.TakenLongest` | backend/knowledge_querier.py:247-250 | every prefix that fits is no longer than the kept one: the scan stops at the first overflow even when later messages are short |
| `KnowledgeQuerier.HistoryTextLongestPrefix` | backend/knowledge_querier.py:224-253 | the history text is the longest chronological prefix whose formatted lines fit the limit: it fits, one more message would not, and no longer prefix fits |
| `KnowledgeQuerier.BuildHistoryText` | backend/knowledge_querier.py:224-253 | the loop builds exactly the longest fitting prefix, and its running total is the text's length, within the limit |
| `KnowledgeQuerier.AppendLines` | backend/knowledge_querier.py:228-253 | the loop with its early break appends the lines of exactly the longest fitting prefix |
| `KnowledgeQuerier.TakenStep` | backend/knowledge_querier.py:247-253 | one loop step either stops (the line would overflow) or keeps the message and goes on with the larger total |
| `KnowledgeQuerier.BuildContextWithHistory` | backend/knowledge_querier.py:217-269 | the formatted query is the fixed frame around the longest fitting history and the question |
| `KnowledgeQuerier.SyncPairs` | backend/knowledge_querier.py:870-892 | accepted synchronous pairs are one per folder |
| `KnowledgeQuerier.SyncPairsFacts` | backend/knowledge_querier.py:870-892 | synchronous collection succeeds iff every folder has a non-empty default job id; pair i is then folder i with its default, otherwise the error names the first folder without one |
| `KnowledgeQuerier.CollectSyncPairs` | backend/knowledge_querier.py:870-892 | the loop returns exactly the synchronous collection, stopping at the first folder without a default |
| `KnowledgeQuerier.SyncPairsErrorStays` | backend/knowledge_querier.py:875-888 | once a prefix of the folders fails, the whole list fails with the same error |
| `KnowledgeQuerier.KeptFolders` | backend/knowledge_querier.py:1058-1066 | the asynchronous loop keeps at most one pair per folder |
| `KnowledgeQuerier.AsyncPairs` | backend/knowledge_querier.py:1055-1077 | asynchronous pair building, when it succeeds, yields at least one pair |
| `KnowledgeQuerier.WithDefaults` | backend/knowledge_querier.py:1059-1063 | the kept folders all have a non-empty default job id |
| `KnowledgeQuerier.AsDicts` | backend/knowledge_querier.py:1063 | each pair becomes the dictionary of its folder and job id, in order |
| `KnowledgeQuerier.KeptFoldersAreSyncPairs` | backend/knowledge_querier.py:1056-1069 | asynchronous mode keeps exactly the folders that have a default, in order and with those defaults, i.e. what synchronous mode builds from them |
| `KnowledgeQuerier.SyncAcceptedAsyncAgrees` | backend/knowledge_querier.py:1056-1069 | when synchronous mode accepts a non-empty folder list, asynchronous mode builds the same pairs |
| `KnowledgeQuerier.WithDefaultsAll` | backend/knowledge_querier.py:1059-1063 | when every folder has a default, none is dropped |
| `KnowledgeQuerier.CollectAsyncPairs` | backend/knowledge_querier.py:1055-1077 | the loop and its checks return exactly the asynchronous pair building: dropped folders, `ValueError` when none is left, a job-only pair for a job id alone, an error with neither |
| `KnowledgeQuerier.NormalizePairs` | backend/knowledge_querier.py:474-482 | normalisation, when it succeeds, keeps one pair per input pair |
| `KnowledgeQuerier.NormalizePairsFacts` | backend/knowledge_querier.py:474-482 | normalisation fails iff some pair is a dictionary without `folder_path` (the `KeyError`), and otherwise reads every pair in order |
| `KnowledgeQuerier.NormalizeDicts` | backend/knowledge_querier.py:474-482 | dictionaries built from pairs normalise back to those pairs |
| `KnowledgeQuerier.NormalizeAgentPairs` | backend/knowledge_querier.py:474-482 | the normalisation loop computes exactly the normalised pairs or the first failure |
| `KnowledgeQuerier.NormalizeErrorStays` | backend/knowledge_querier.py:475-482 | once a prefix fails to normalise, the whole list fails with the same error |
| `KnowledgeQuerier.UnpackAll` | backend/knowledge_querier.py:296-314 | tuple-unpacking the pairs keeps their number when it succeeds |
| `KnowledgeQuerier.DirectFilterAsWrittenMissesFolder` | backend/knowledge_querier.py:296-314 | as written, a dictionary pair unpacks to its key names, so the filter for folder `A` and job `J` asks for folder_path = "folder_path" and job_id = "job_id" and admits no document of that folder |
| `KnowledgeQuerier.DirectFilterSelectsPairs` | backend/knowledge_querier.py:296-314 | read by key, the filter admits a document iff it matches one of the pairs |
| `KnowledgeQuerier.AsTuples` | backend/knowledge_querier.py:892 | the synchronous pairs are tuples of folder and job id, in order |
| `KnowledgeQuerier.TupleFiltersAgree` | backend/knowledge_querier.py:296-314 | on the synchronous handler's tuples, the code as written and the by-key reading build the same filter, that of the pairs |
| `KnowledgeQuerier.UnpackTuples` | backend/knowledge_querier.py:297-307 | unpacking tuples gives back the pairs |
| `KnowledgeQuerier.NormalizeTuples` | backend/knowledge_querier.py:479-482 | normalising tuples gives back the pairs |
| `KnowledgeQuerier.SelectAgentFallback` | backend/knowledge_querier.py:455-467 | a verification or specification request uses its own agent id and alias when configured, each falling back separately to the default agent's; any other type uses the default agent |
| `KnowledgeQuerier.ConfigErrors` | backend/knowledge_querier.py:790-800 | there is no configuration error iff the jobs table, chat table, knowledge base id and model ARN are set and the ARN starts with `arn:aws:bedrock` |
| `KnowledgeQuerier.CheckSyncFacts` | backend/knowledge_querier.py:757-912 | a configuration problem gives 500 before any request check; refusals are 400 or 500; no folders is refused; a request goes on only with a session, a question and one pair per folder, each with that folder's non-empty default, the history job id being the first pair's |
| `KnowledgeQuerier.SyncStricterThanAsync` | backend/knowledge_querier.py:870-892 | whatever folders synchronous mode accepts, asynchronous mode builds the same pairs from them |
| `KnowledgeQuerier.FolderPathPromoted` | backend/knowledge_querier.py:776-778 | a lone `folder_path` with no `folder_paths` is queried as a one-folder list |
| `KnowledgeQuerier.SyncErrorReply` | backend/knowledge_querier.py:997-1030 | an error mentioning an unready or missing knowledge base answers 503 with the message; anything else answers 500 with the generic error and the first 200 characters as details |
| `KnowledgeQuerier.AsyncHistoryJobId` | backend/knowledge_querier.py:1089-1101 | with asynchronously built pairs, the history job id is the request's or the first pair's and never empty, so the `session-` fallback is not reached |
| `KnowledgeQuerier.KeptFoldersJobIds` | backend/knowledge_querier.py:1061-1063 | every kept pair carries a non-empty job id |
| `KnowledgeQuerier.SaveHistoryFacts` | backend/knowledge_querier.py:1103-1127 | after a successful query the answer gets a message id iff there is a session and its write succeeded; the stored assistant item then has that id, the answer and the session; without a session nothing is written |
| `KnowledgeQuerier.AsyncAnswerFailures` | backend/knowledge_querier.py:1055-1087 | the query fails with the pair-building error when no pair can be built, and a job id without folders fails on both paths, since its pair has no folder |
| `KnowledgeQuerier.AsyncAnswerUsesPairs` | backend/knowledge_querier.py:1081-1087 | an answered query used exactly the pairs asynchronous building gave: the selected agent with the session and question, or the knowledge base with the filter of those pairs |
| `KnowledgeQuerier.HandleAsyncQuery` | backend/knowledge_querier.py:1033-1177 | on success the chat table gets the saved messages and the status record becomes completed with the answer, sources and saved message id; on failure the chat table is unchanged, the record becomes failed with the error and the error is raised again |
| `HistoryManager.ModesPartitionSessions` | backend/history_manager.py:136-143 | `verification` keeps exactly the `verification_` sessions, `specification` exactly the `specification_` ones, `default` exactly the rest; each id is kept by exactly one named mode; a missing or empty mode keeps every session |
| `HistoryManager.Kept` | backend/history_manager.py:133-143 | every message the mode filter keeps belongs to a session the mode keeps |
| `HistoryManager.InSession` | backend/history_manager.py:145-147 | a session's message list holds only scanned messages of that session |
| `HistoryManager.HasSessionSnoc` | backend/history_manager.py:145-147 | a session occurs in a longer scan iff it occurred before or is the new message's |
| `HistoryManager.SessionIdsMembers` | backend/history_manager.py:145-147 | a session id is listed iff some kept message has it |
| `HistoryManager.SessionIdsDistinct` | backend/history_manager.py:145-147 | no session id is listed twice |
| `HistoryManager.InSessionUnlisted` | backend/history_manager.py:145-147 | a session that is not listed has no messages |
| `HistoryManager.KeptSnoc` | backend/history_manager.py:133-147 | one more scanned message is kept iff the mode keeps its session |
| `HistoryManager.SessionIdsSnoc` | backend/history_manager.py:145-147 | a message's session is listed when it is first seen, and only then |
| `HistoryManager.InSessionSnoc` | backend/history_manager.py:145-147 | a message joins exactly its own session's list, at the end |
| `HistoryManager.GroupSessions` | backend/history_manager.py:131-147 | the grouping loop yields the kept session ids in first-seen order, a dictionary over exactly those ids, and each session's kept messages in scan order |
| `HistoryManager.AddToSession` | backend/history_manager.py:145-147 | one kept message joins its session, which is listed the first time it is seen |
| `HistoryManager.FirstUserIndex` | backend/history_manager.py:161-164 | the first message with role `user`, or -1 when there is none |
| `HistoryManager.FindFirstUser` | backend/history_manager.py:161-164 | the loop with its `break` finds exactly the first user message |
| `HistoryManager.FirstUserAt` | backend/history_manager.py:161-164 | a user message with none before it is the first user message |
| `HistoryManager.GetChatHistorySummaries` | backend/history_manager.py:111-179 | the method computes exactly the summaries: grouping, per-session sort and first user message, newest-first sort |
| `HistoryManager.SummaryListSnoc` | backend/history_manager.py:153-173 | one more session adds its summary, when it has one, at the end |
| `HistoryManager.SummarizeFacts` | backend/history_manager.py:153-173 | a session has a summary iff it has a user message; the summary names the session, counts all its messages and quotes a user message whose timestamp is the earliest among its user messages |
| `HistoryManager.SummaryFound` | backend/history_manager.py:155-166 | the sorted session has a user message iff the session has one |
| `HistoryManager.SummaryQuotesMember` | backend/history_manager.py:166-173 | the quoted question and timestamp are those of one of the session's user messages |
| `HistoryManager.SummaryEarliest` | backend/history_manager.py:155-164 | after the timestamp sort, the first user message has the earliest timestamp of all user messages of the session |
| `HistoryManager.SummaryListMembers` | backend/history_manager.py:153-173 | a summary is listed iff it is the summary of one of the listed sessions |
| `HistoryManager.SummaryListDistinct` | backend/history_manager.py:153-173 | distinct sessions give summaries of distinct sessions |
| `HistoryManager.SummariesCorrect` | backend/history_manager.py:111-179 | the summaries are sorted newest first by timestamp and are a permutation of one summary per kept session that has a user message, no session twice |
| `HistoryManager.SessionMessages` | backend/history_manager.py:222 | the filtered messages all carry the session id |
| `HistoryManager.SessionMessagesExact` | backend/history_manager.py:222 | a message is in the session list iff it is scanned and carries the session id |
| `HistoryManager.MergeCandidate` | backend/history_manager.py:248-263 | a stored source is merged iff it is a dictionary with a non-empty `s3Key` whose presigned URL could be made; its name falls back from `fileName` to `pdfFileName` to the key's last segment |
| `HistoryManager.DetailFound` | backend/history_manager.py:189-284 | for a found message with a session, the detail holds the session's messages sorted oldest first, their merged sources and count, and the first user message's non-empty folder selection and job id |
| `HistoryManager.GetChatHistoryById` | backend/history_manager.py:189-291 | the method computes exactly the detail, or None |
| `HistoryManager.MergeSessionSources` | backend/history_manager.py:244-263 | the source loops build exactly the first-key-wins merge of the session's stored sources |
| `HistoryManager.AddEntrySources` | backend/history_manager.py:249-263 | the inner loop over one message's stored sources extends the merge by those entries |
| `HistoryManager.MergeOne` | backend/history_manager.py:250-263 | one stored source is added iff it yields a candidate whose key is not yet merged |
| `HistoryManager.MergeCandidatesMembers` | backend/history_manager.py:248-263 | every merge candidate comes from a stored source entry |
| `HistoryManager.StoredEntriesMembers` | backend/history_manager.py:245-249 | every stored source entry comes from one of the session's messages |
| `HistoryManager.DetailMessages` | backend/history_manager.py:205-227 | there is no detail iff the message id is unknown or its message has no session; otherwise the detail holds exactly that session's messages (a permutation of the scan's), sorted oldest first, with `message_count` their number |
| `HistoryManager.DetailSelection` | backend/history_manager.py:229-241 | the folder selection and job id reported come only from the session's first user message, and only when non-empty |
| `HistoryManager.MergedSourcesKeys` | backend/history_manager.py:244-263 | merged sources have distinct keys, each is the first candidate with its key, and every candidate key is represented |
| `HistoryManager.MergedSourcesOrigin` | backend/history_manager.py:245-263 | every merged source comes from a source stored on an assistant message of the session |
| `HistoryManager.Open` | backend/history_manager.py:480-494 | a user message opens a conversation with its content, timestamp and a count of 1, matching iff it mentions the query (case-insensitively), and then with its content as the match |
| `HistoryManager.ReconstructConversations` | backend/history_manager.py:474-506 | the walk over one session's messages produces exactly the step-by-step conversations |
| `HistoryManager.RunLength` | backend/history_manager.py:476-503 | the leading run of non-user messages, up to the next user message |
| `HistoryManager.FirstMention` | backend/history_manager.py:495-500 | the content of the first assistant message mentioning the query, or none when no assistant message does |
| `HistoryManager.MentionNonEmpty` | backend/history_manager.py:495-500 | a message that mentions a non-empty query has non-empty content |
| `HistoryManager.ClosedCons` | backend/history_manager.py:495-502 | a non-user message folds into the open conversation (an assistant message is absorbed, others are skipped) |
| `HistoryManager.ScanFromOpen` | backend/history_manager.py:476-506 | from an open conversation, the walk closes it over the following non-user messages and continues with the conversations of the rest |
| `HistoryManager.ClosedEmpty` | backend/history_manager.py:503-506 | closing over no messages leaves the conversation as it is |
| `HistoryManager.ScanUserStep` | backend/history_manager.py:484-494 | a user message closes the open conversation and opens the next |
| `HistoryManager.ScanOtherStep` | backend/history_manager.py:495-502 | any other message stays with the open conversation |
| `HistoryManager.ScanSkip` | backend/history_manager.py:495-502 | one non-user step of the walk |
| `HistoryManager.RunCons` | backend/history_manager.py:476-503 | a non-user head extends the run by one |
| `HistoryManager.ScanMatchesConversations` | backend/history_manager.py:474-506 | for a non-empty query the step-by-step walk produces exactly the reference conversations |
| `HistoryManager.CountRoleSkip` | backend/history_manager.py:476-503 | skipping leading non-user messages does not change the number of user messages |
| `HistoryManager.ConversationsShape` | backend/history_manager.py:474-506 | there is one conversation per user message, and each is opened by a user message and closed over the non-user messages after it; assistant messages before the first user message are ignored |
| `HistoryManager.ConversationsCount` | backend/history_manager.py:484-494 | the number of conversations is the number of user messages |
| `HistoryManager.ConversationsOpened` | backend/history_manager.py:484-502 | every conversation is opened at some user message and closed over the messages after it |
| `HistoryManager.OpenedShift` | backend/history_manager.py:484-502 | a conversation opened in a suffix is opened at the shifted index of the whole |
| `HistoryManager.ClosedOpenFacts` | backend/history_manager.py:484-502 | a conversation's `message_count` is 1 plus the assistant messages after its user message; it matches iff the user message or one of those assistant messages mentions the query, and the matched content is the first such message |
| `HistoryManager.OnlyMatching` | backend/history_manager.py:510 | the results are exactly the conversations with a match |
| `HistoryManager.SearchChatHistory` | backend/history_manager.py:404-513 | the method computes exactly the search results |
| `HistoryManager.SessionConversations` | backend/history_manager.py:468-506 | one session's conversations are the walk over its messages in timestamp order |
| `HistoryManager.AllConversationsSnoc` | backend/history_manager.py:468-506 | one more session appends its conversations |
| `HistoryManager.AllConversationsMembers` | backend/history_manager.py:468-506 | a conversation is collected iff it comes from one of the sessions |
| `HistoryManager.SearchResultsCorrect` | backend/history_manager.py:404-513 | for a non-empty query a conversation is returned iff it matches and is a conversation of one of the sessions the mode keeps |
| `HistoryManager.Pow10` | backend/history_manager.py:89-91 | powers of ten are positive |
| `HistoryManager.Truncate` | backend/history_manager.py:89-91 | Python `int` of a decimal truncates toward zero: exact for a whole number, otherwise the quotient toward zero with a remainder below one unit |
| `HistoryManager.MulNegative` | backend/history_manager.py:89-91 | a negative quotient times a positive power is at most minus that power |
| `HistoryManager.MulNonNegative` | backend/history_manager.py:89-91 | a non-negative quotient times a positive power is non-negative |
| `HistoryManager.DecimalToNative` | backend/history_manager.py:80-95 | a whole decimal becomes the integer it denotes, text, booleans and null stay as they are, and lists and dictionaries are converted element by element with their length and keys kept; a fraction is left as a float |
| `HistoryManager.DecimalToNativeInt` | backend/history_manager.py:89-91 | a stored integer, with any number of trailing zero digits, comes back as that integer |
| `HistoryManager.DivUnique` | backend/history_manager.py:89-91 | quotient and remainder are the only pair with the remainder in range |
| `HistoryManager.ParseInt` | backend/history_manager.py:698-701 | accepted text is, once stripped, non-empty with digits after its first character |
| `HistoryManager.ParseDigits` | backend/history_manager.py:698-701 | Python `int` reads a string of ASCII digits as the number it spells |
| `HistoryManager.ParseSigned` | backend/history_manager.py:698-701 | `int` reads a sign followed by digits as the signed number |
| `HistoryManager.SignedText` | backend/history_manager.py:698-701 | a signed digit string is its own stripped form and is read as the signed number |
| `HistoryManager.NotSpace` | backend/history_manager.py:698-701 | signs and digits are not whitespace |
| `HistoryManager.ValidateRating` | backend/history_manager.py:694-710 | no rating passes as none; a given rating passes iff its `int` conversion succeeds and lies in 1..10, and is then that integer; every refusal carries the rating error |
| `HistoryManager.RouteRejects` | backend/history_manager.py:558-574 | validation only rejects with 400, and an action outside the four names is rejected |
| `HistoryManager.RouteForwards` | backend/history_manager.py:555-710 | every action but `update-feedback` goes on only with a non-empty `chat_session_id`; a search goes on only with a non-empty stripped query; detail and feedback only with a non-empty stripped message id; a forwarded rating lies in 1..10 |
| `HistoryManager.ValidatedInRange` | backend/history_manager.py:698-701 | an accepted rating lies in 1..10 |
| `HistoryManager.DefaultAction` | backend/history_manager.py:556 | a missing or empty action means `get-history` |
| `HistoryManager.First100` | backend/history_manager.py:397 | `str(e)[:100]`: the first 100 characters of the text, or all of it when shorter |
| `HistoryManager.HandleHistoryRequest` | backend/history_manager.py:523-768 | a rejected request answers its error and leaves the table alone; summaries, detail (404 when none) and search answer from the table without writing, and answer empty (404 for detail) when the table is not configured or raises; feedback answers 400 with `テーブルが設定されていません` or `DynamoDBエラー: ` and the first 100 characters of the error in those two cases and leaves the table alone; otherwise it leaves the table as the feedback update does and answers 200 with the updated item or 400 with its error |
| `FolderTree.FolderParts` | backend/folder_tree_helper.py:69-73 | the folder segments are the leading directory segments up to, and not including, the first 14-digit job-id segment |
| `FolderTree.CutAtJobId` | backend/folder_tree_helper.py:69-73 | the loop with its `break` keeps exactly those leading segments |
| `FolderTree.FolderPartsIsCut` | backend/folder_tree_helper.py:69-73 | a prefix free of job ids that ends at a job id or at the end is the cut |
| `FolderTree.AddWithAncestors` | backend/folder_tree_helper.py:75-97 | a folder is added together with each of its proper ancestors |
| `FolderTree.CollectFolders` | backend/folder_tree_helper.py:43-102 | the listing loop collects exactly the folders of all keys and exactly the folders holding a PDF |
| `FolderTree.CollectKey` | backend/folder_tree_helper.py:62-97 | one key adds its folders and its folder with files, and nothing else |
| `FolderTree.JoinPrefixAtSep` | backend/folder_tree_helper.py:80-83 | a '/' inside a join of slash-free segments ends the join of a shorter prefix |
| `FolderTree.PrefixJoinsClosed` | backend/folder_tree_helper.py:80-83 | a folder and its joined prefixes contain every ancestor of each member |
| `FolderTree.FoundClosed` | backend/folder_tree_helper.py:64-97 | the folders one key adds contain every ancestor of each |
| `FolderTree.FoldersClosed` | backend/folder_tree_helper.py:43-102 | the folder set contains every ancestor of each of its folders |
| `FolderTree.WithFilesAreFolders` | backend/folder_tree_helper.py:75-78 | a folder marked as holding files is a folder |
| `FolderTree.PdfKeyFolder` | backend/folder_tree_helper.py:65-83 | a PDF key adds nothing when its folder is empty, and otherwise adds its folder, as the one folder with files, with its ancestors |
| `FolderTree.MarkerKeyFolder` | backend/folder_tree_helper.py:86-97 | a marker key adds its non-empty folder and no folder with files, and nothing for an empty folder |
| `FolderTree.EmptyFolderNeedsEmptySegment` | backend/folder_tree_helper.py:64-97 | the empty path becomes a folder only when some key starts with `PDF//` |
| `FolderTree.FoundEmpty` | backend/folder_tree_helper.py:64-97 | one key yields the empty folder only when it starts with `PDF//` |
| `FolderTree.EmptyJoinFirst` | backend/folder_tree_helper.py:80-83 | only an empty first segment makes a prefix join empty |
| `FolderTree.SortedPaths` | backend/folder_tree_helper.py:108 | `sorted` lists each member once, strictly ascending |
| `FolderTree.Filter` | backend/folder_tree_helper.py:164 | a comprehension with a condition keeps exactly the accepted members, in order |
| `FolderTree.FilterSorted` | backend/folder_tree_helper.py:164 | filtering keeps the order |
| `FolderTree.FlagsAgree` | backend/folder_tree_helper.py:117-143 | with ancestors present, having a descendant is having a direct subfolder; a folder is deletable iff it holds no file and has no subfolder; a leaf is never deletable |
| `FolderTree.ScanSubfolder` | backend/folder_tree_helper.py:119-127 | the inner scan finds a folder directly below iff one exists |
| `FolderTree.ScanDescendant` | backend/folder_tree_helper.py:131-143 | the inner scan finds a descendant iff one exists |
| `FolderTree.DescribeFolders` | backend/folder_tree_helper.py:106-143 | the three passes describe exactly the folders, each with its name, leaf flag and delete flag |
| `FolderTree.ChildPaths` | backend/folder_tree_helper.py:146-161 | the children `build_tree` visits are folders directly below the parent and longer than it |
| `FolderTree.RootPaths` | backend/folder_tree_helper.py:164 | the roots are folders |
| `FolderTree.Forest` | backend/folder_tree_helper.py:146-169 | a list of folders gives one node per folder |
| `FolderTree.ForestAt` | backend/folder_tree_helper.py:157-159 | the i-th node of a forest is the subtree of the i-th folder |
| `FolderTree.BuildTree` | backend/folder_tree_helper.py:146-161 | the recursive `build_tree` returns exactly the forest of the parent's children |
| `FolderTree.VisitFolder` | backend/folder_tree_helper.py:150-159 | one pass appends the folder with its subtree when it lies directly below the parent |
| `FolderTree.ChildTest` | backend/folder_tree_helper.py:148-156 | the test in `build_tree` is: another path under the parent's prefix with no further '/' |
| `FolderTree.AppendNode` | backend/folder_tree_helper.py:157-159 | appending a node extends the forest by that folder's subtree |
| `FolderTree.GetFolderTree` | backend/folder_tree_helper.py:16-172 | the method builds exactly the tree of the listed keys' folders |
| `FolderTree.VisitRoot` | backend/folder_tree_helper.py:164-169 | one pass appends a folder without '/' with its subtree |
| `FolderTree.RootsDone` | backend/folder_tree_helper.py:164-169 | after all passes the tree is the forest of the roots |
| `FolderTree.SiblingsApart` | backend/folder_tree_helper.py:154-156 | two distinct children of one parent have no folder below both |
| `FolderTree.ForestPathsOnce` | backend/folder_tree_helper.py:146-161 | the forest of distinct siblings holds each folder below them exactly once |
| `FolderTree.SubtreePathsOnce` | backend/folder_tree_helper.py:146-161 | the subtree of a folder holds each folder below it exactly once |
| `FolderTree.ChildCover` | backend/folder_tree_helper.py:146-161 | every folder strictly below a folder lies below one of its children |
| `FolderTree.ChildOf` | backend/folder_tree_helper.py:154-156 | the child segment through which a path lies below a parent |
| `FolderTree.RootCover` | backend/folder_tree_helper.py:164 | every folder lies below one of the roots |
| `FolderTree.TreeHoldsEachOnce` | backend/folder_tree_helper.py:146-169 | without an empty folder name the tree holds every folder exactly once |
| `FolderTree.EveryFolderOnce` | backend/folder_tree_helper.py:16-172 | when no key starts with `PDF//`, the returned tree lists each detected folder exactly once and nothing else |
| `FolderTree.ChildPathsExact` | backend/folder_tree_helper.py:150-159 | the children are exactly the folders directly below, ascending |
| `FolderTree.RootPathsExact` | backend/folder_tree_helper.py:164 | the roots are exactly the folders without '/', ascending |
| `FolderTree.EmptyFolderRepeatsRoots` | backend/folder_tree_helper.py:146-169 | once the empty path is a folder, every other root is listed a second time, below it |
| `FolderTree.EmptyFirstRoot` | backend/folder_tree_helper.py:164 | the empty folder sorts first among the roots |
| `FolderTree.EmptyRootHolds` | backend/folder_tree_helper.py:148-159 | the subtree of the empty folder holds every other root |
| `FolderManagement.PlainFromNode` | backend/folder_management_lambda.py:138-158 | a helper-tree node viewed as a folder and back is itself: annotation only adds fields |
| `FolderManagement.AddRegistrationStatus` | backend/folder_management_lambda.py:138-158 | the recursion over the children returns exactly the annotated folder |
| `FolderManagement.WithStatusMarks` | backend/folder_management_lambda.py:146-158 | every node gets `is_registered` true iff its path is registered, with that registration's default job id, and otherwise false with none |
| `FolderManagement.WithStatusKeepsRest` | backend/folder_management_lambda.py:138-158 | name, path, `is_leaf`, `can_delete` and the shape of the tree are untouched |
| `FolderManagement.WithStatusUnique` | backend/folder_management_lambda.py:138-158 | the annotated folder is the only fully marked tree with the original's other fields |
| `FolderManagement.WithStatusOfMarked` | backend/folder_management_lambda.py:138-158 | annotating a marked tree again changes nothing |
| `FolderManagement.GetFolderTreeWithRegistrationStatus` | backend/folder_management_lambda.py:48-100 | the helper's tree annotated with the scanned registrations, root by root |
| `FolderManagement.AnnotateEach` | backend/folder_management_lambda.py:92-93 | the loop annotates every root |
| `FolderManagement.AnnotatedTreeFacts` | backend/folder_management_lambda.py:48-100 | the result has the helper tree's roots, node for node unchanged but for each node's registration from the table |
| `FolderManagement.Filtered` | backend/folder_management_lambda.py:103-135 | a folder is dropped iff neither it nor any descendant is registered |
| `FolderManagement.Kept` | backend/folder_management_lambda.py:119-124 | no child survives iff no child has a registered descendant |
| `FolderManagement.FilterRegisteredFolders` | backend/folder_management_lambda.py:103-135 | the recursion with its loop computes exactly the filtered folder |
| `FolderManagement.FilterAll` | backend/folder_management_lambda.py:119-124 | the loop keeps exactly the surviving children, filtered, in order |
| `FolderManagement.KeptSnoc` | backend/folder_management_lambda.py:121-124 | one more child appends its filtered copy when it survives |
| `FolderManagement.KeptFrom` | backend/folder_management_lambda.py:119-124 | every kept child is the filtered copy of some child and is marked |
| `FolderManagement.FilteredMarked` | backend/folder_management_lambda.py:129-133 | a surviving folder carries every node's registration |
| `FolderManagement.FilteredShape` | backend/folder_management_lambda.py:126-133 | a surviving folder keeps name, path, `is_leaf` and `can_delete`, gets its registration, and has exactly its surviving children |
| `FolderManagement.FilteredPruned` | backend/folder_management_lambda.py:126-135 | every node of the filtered tree is registered or has a registered descendant |
| `FolderManagement.FilteredSound` | backend/folder_management_lambda.py:103-135 | the filtered view holds only folders of the original tree |
| `FolderManagement.FilteredComplete` | backend/folder_management_lambda.py:103-135 | every registered folder of the original tree is in the filtered view |
| `FolderManagement.AnyFromPath` | backend/folder_management_lambda.py:126 | a tree holding a registered path has a registered node |
| `FolderManagement.KeptIndex` | backend/folder_management_lambda.py:119-124 | a surviving child is found among the kept ones |
| `FolderManagement.CreateFolder` | backend/folder_management_lambda.py:161-188 | success iff the put succeeds; then the marker `PDF/<path>/.folder_marker` is written with the created message, otherwise nothing is written and the failure message carries the error |
| `FolderManagement.CreatedFolderListed` | backend/folder_management_lambda.py:161-188 | after a create of any non-empty path, nested ones such as `フォルダ1/新フォルダ` included, the folder helper lists the new folder, and the folders holding files are unchanged |
| `FolderManagement.MarkersOfAllMarkers` | backend/folder_management_lambda.py:246-268 | in a listing of markers only, every key is a marker to delete |
| `FolderManagement.DeleteFolder` | backend/folder_management_lambda.py:191-281 | the delete succeeds iff the listing does not raise and every key under the folder is a marker; then exactly those markers are deleted and counted in the message; a raising listing answers `フォルダの削除に失敗しました: ` with the error, a non-marker key the not-empty message, and neither deletes anything |
| `FolderManagement.DeleteEmptiesPrefix` | backend/folder_management_lambda.py:202-211 | the listing holds exactly the keys under `PDF/<path>/`, so after a successful delete none remains |
| `FolderManagement.NameError` | backend/folder_management_lambda.py:307-312 | a name is refused iff it is longer than 255 characters or contains `..`, `/` or a backslash |
| `FolderManagement.FirstNameError` | backend/folder_management_lambda.py:307-312 | the error reported is that of the first refused name |
| `FolderManagement.UploadError` | backend/folder_management_lambda.py:300-312 | the request is refused iff it has more than 50 names or some name is refused |
| `FolderManagement.FirstNameErrorAt` | backend/folder_management_lambda.py:307-312 | a refused name after accepted ones gives the reported error |
| `FolderManagement.ValidateFilenames` | backend/folder_management_lambda.py:304-312 | the validation loop raises exactly the reference error |
| `FolderManagement.Uploads` | backend/folder_management_lambda.py:283-368 | the result is an error iff validation fails; otherwise it reports registration iff a config item exists, that item's default job id, and one URL per distinct name |
| `FolderManagement.GeneratePresignedUrls` | backend/folder_management_lambda.py:283-368 | the method computes the reference result, each name's URL presigned for `PDF/<folder>/<name>` |
| `FolderManagement.BuildFileItems` | backend/folder_management_lambda.py:393-406 | one item per file, in order, with the mode, job id, folder, `PDF/<folder>/<file>` key and the sync flag on the last |
| `FolderManagement.BatchSyncsOnce` | backend/folder_management_lambda.py:393-406 | a non-empty batch triggers the knowledge-base sync exactly once, on its last item; an empty batch never |
| `FolderManagement.NoSyncBefore` | backend/folder_management_lambda.py:396-404 | items without the flag trigger no sync |
| `FolderManagement.TriggerProcessing` | backend/folder_management_lambda.py:371-475 | with a state machine one execution is started, without it one asynchronous worker call per file; either way the items form the batch, the sync is triggered once for a non-empty upload, and the message counts the files |
| `FolderManagement.SplitNames` | backend/folder_management_lambda.py:635 | the comma split gives one stripped name per piece |
| `FolderManagement.Route` | backend/folder_management_lambda.py:478-718 | rejections are 400, 404 or 500; the folder listing is chosen iff the request is `GET /api/folders`; 404 iff the method and path match no route |
| `FolderManagement.ManageCommand` | backend/folder_management_lambda.py:568-618 | create or delete only with both values present and the matching action; everything else is a 400 |
| `FolderManagement.PresignRoute` | backend/folder_management_lambda.py:620-657 | presigning goes ahead iff both parameters are non-empty, with the split names; a null parameter object answers 500, a missing value 400 |
| `FolderManagement.TriggerRoute` | backend/folder_management_lambda.py:660-698 | processing is triggered iff the mode is `full` or `direct_pdf` and folder, job id and files are all present; an invalid mode is reported first |
| `FolderManagement.HandleFolderRequest` | backend/folder_management_lambda.py:478-721 | the response and the writes are those of the routed command: listing answers 500 when an AWS call raises; create and delete report the error with 400; presigning reads a raising config lookup as an unregistered folder; triggering answers 500 and dispatches nothing when the start raises, and otherwise answers 202 with the started message that counts the files |
| `FolderManagement.Execute` | backend/folder_management_lambda.py:513-698 | each command answers as its operation does, with the failure answers of a raising AWS call, and writes only for create, delete and trigger |
| `Worker.BaseName` | backend/worker.py:496 | a name ending in `.pdf` loses exactly that suffix; a name whose lower-cased form does not end in `.pdf`, or without a `.pdf` anywhere, is kept; the base name is always a prefix of the name |
| `Worker.LowerKeepsPdf` | backend/worker.py:496 | a name ending in `.pdf` still ends in `.pdf` once lower-cased |
| `Worker.BaseNameKeepsUpperCaseExtension` | backend/worker.py:496 | a name ending in `.PDF` (and with no `.pdf` inside) keeps its extension, since the split looks for the lower-case `.pdf` only |
| `Worker.BracketWindow` | backend/worker.py:182-190 | a window exists iff some '[' comes before some ']'; it then runs from the first '[' to the last ']', both included |
| `Worker.FirstBadItem` | backend/worker.py:203-207 | no complaint iff every item from the given index on is an object with both `statedindocument` and `content`; a complaint names an item's index |
| `Worker.ExtractJsonFromText` | backend/worker.py:170-211 | without a bracket window the error is the bracket error; extraction succeeds iff the window parses to an array of objects with both fields, and then yields those objects in order |
| `Worker.MetadataAttributes` | backend/worker.py:94-166 | the metadata names the source URI `s3://<bucket>/<key>`, the folder and the original key, and carries `statedindocument` iff the mode is not `direct_pdf` |
| `Worker.MetadataKeys` | backend/worker.py:109-159 | the attributes are exactly the five common ones, plus `statedindocument` outside `direct_pdf` mode |
| `Worker.Stored` | backend/worker.py:83-91 | writing objects never removes a key |
| `Worker.StoredAt` | backend/worker.py:83-91 | with distinct keys every put is in the bucket afterwards with its body |
| `Worker.StoredLast` | backend/worker.py:83-91 | a put that no later put overwrites survives |
| `Worker.StoredElsewhere` | backend/worker.py:83-91 | a key that no put names keeps its presence and body |
| `Worker.StoredAll` | backend/worker.py:83-91 | with distinct keys every put survives |
| `Worker.StoredOne` | backend/worker.py:83-91 | one put updates exactly one key |
| `Worker.StoredTwo` | backend/worker.py:83-91 | two more puts apply in order |
| `Worker.ChunkPuts` | backend/worker.py:244-257 | n chunks make 2n writes |
| `Worker.ChunkCount` | backend/worker.py:240-272 | `save_knowledge_chunks` returns at least 1, and the number of extracted chunks when extraction succeeds with items |
| `Worker.KnowledgePuts` | backend/worker.py:214-272 | the writer makes two writes per chunk when every chunk's content is a string, and fewer when it raises at one that is not |
| `Worker.TextPrefix` | backend/worker.py:250-257 | the writer gets through exactly the leading chunks whose content is a string: all of those have string content and the next one, if any, does not |
| `Worker.KnowledgeError` | backend/worker.py:250-257 | the writer raises iff the answer splits into chunks and some chunk's content is not a string |
| `Worker.ChunkKeyInjective` | backend/worker.py:250-251 | different chunk numbers give different keys |
| `Worker.ChunkPutsAt` | backend/worker.py:244-257 | chunk i's writes are its content file and then its metadata file, numbered from 1 |
| `Worker.ChunkPutsBefore` | backend/worker.py:244-257 | no earlier chunk writes a later chunk's files |
| `Worker.ContentIsNotMetadata` | backend/worker.py:250-255 | a content key is never a metadata key |
| `Worker.MetadataKeyInjective` | backend/worker.py:255 | different chunks have different metadata keys |
| `Worker.ChunkFileKeysDiffer` | backend/worker.py:250-255 | files of different chunks, or the two files of one chunk, have different keys |
| `Worker.ChunkPutsDistinct` | backend/worker.py:244-257 | all chunk writes have distinct keys |
| `Worker.ChunkPutsNotOverwritten` | backend/worker.py:244-257 | no chunk write is overwritten by a later one |
| `Worker.KnowledgeKeysDistinct` | backend/worker.py:214-272 | no two files written for one answer share a key |
| `Worker.ChunkItemFields` | backend/worker.py:203-207 | every extracted item has both required fields |
| `Worker.ChunkPutsStored` | backend/worker.py:244-257 | after all chunks, each chunk's two files hold what was written for it |
| `Worker.ChunkStored` | backend/worker.py:240-259 | after a chunked save, each chunk before the first without string content has its file holding the item's `content` string and its metadata the item's `statedindocument` |
| `Worker.ChunkNotWritten` | backend/worker.py:250-261 | the chunk whose content is not a string and every later chunk leave both their file keys as they were: the writer stops there |
| `Worker.ChunkPairUnderFolder` | backend/worker.py:250-257 | both files of a chunk lie under `Knowledge/<folder>/<job>/` and name that folder |
| `Worker.ChunkPutsUnderFolder` | backend/worker.py:244-257 | every chunk write lies under the knowledge folder |
| `Worker.KnowledgePutsUnderFolder` | backend/worker.py:214-272 | every file the writer makes lies under `Knowledge/<folder>/<job>/` and its metadata names that folder |
| `Worker.WholeStored` | backend/worker.py:261-272 | an answer that does not split is stored whole as `<base>.txt`, with the page reference `-` |
| `Worker.OutsideKnowledge` | backend/worker.py:214-272 | the writer leaves every key outside `Knowledge/` as it was |
| `Worker.Written` | backend/worker.py:313-349 | a status update sets status, message and time, and each optional attribute exactly when it is given |
| `Worker.WrittenKeys` | backend/worker.py:313-349 | the attributes set are exactly the three fixed ones plus the optional ones given |
| `Worker.RunSnoc` | backend/worker.py:313-349 | a run with one more action is one more step |
| `Worker.LastStatus` | backend/worker.py:313-349 | the last status update of a run decides the job item's status and message |
| `Worker.Dispatch` | backend/worker.py:703-739 | the event is rejected iff job id or file name is missing, or the mode's own required values are missing; the mode picks reknowledge, direct PDF, the folder-based full run, or the legacy call when no folder is given |
| `Worker.TaskRun` | backend/worker.py:703-739 | a rejected event raises its validation error without writing; the legacy call raises the argument error without writing |
| `Worker.HandlerResult` | backend/worker.py:660-796 | a success answers 200, `completed` and passes `trigger_kb_sync` through, and happens only for a dispatched, non-legacy event |
| `Worker.WorkerStore.constructor` | backend/worker.py:27-40 | the store starts with the given jobs, objects, bucket and clock |
| `Worker.WorkerStore.UpdateStatus` | backend/worker.py:313-349 | the job item is merged with the update's attributes |
| `Worker.WorkerStore.SaveText` | backend/worker.py:83-91 | one text object is written |
| `Worker.WorkerStore.SaveMetadata` | backend/worker.py:94-166 | one metadata object with the described attributes is written |
| `Worker.WorkerStore.Copy` | backend/worker.py:281-292 | the copy succeeds iff the source exists, and is then recorded |
| `Worker.WorkerStore.SaveKnowledgeChunks` | backend/worker.py:214-272 | the method raises exactly when a chunk's content is not a string, with Python's `encode` error, and otherwise returns the chunk count; either way it makes exactly the writer's writes, up to that chunk |
| `Worker.WorkerStore.ProcessDirectPdf` | backend/worker.py:531-570 | the method ends in the state and fault of the reference direct-PDF run |
| `Worker.WorkerStore.ProcessPdfOnDemand` | backend/worker.py:573-657 | the method ends in the state and fault of the reference full run |
| `Worker.WorkerStore.ProcessReknowledge` | backend/worker.py:456-528 | the method ends in the state and fault of the reference reknowledge run, with the chunk writer's arguments in their intended order |
| `Worker.WorkerStore.HandleEvent` | backend/worker.py:660-796 | the method answers the reference handler result and ends in its state |
| `Worker.DirectPdfOutcome` | backend/worker.py:531-570 | with the PDF present it is copied under `Knowledge/`, its metadata has no `statedindocument`, and the job ends `done` in `direct_pdf` mode; otherwise the bucket is untouched and the job ends `failed` with the copy error |
| `Worker.FullOutcome` | backend/worker.py:573-657 | a full run succeeds iff both prompts and the PDF exist, both model calls answer and every chunk's content is a string; missing prompts leave the bucket untouched and mark the job `failed`; a later failure leaves it `running` for the handler |
| `Worker.FullWrites` | backend/worker.py:573-657 | a full run whose model calls answer has written the transcript under `Transcript/<folder>/<job>/` and every knowledge file up to the first chunk without string content; the job is `done` when there is no such chunk and `running` otherwise, in `full` mode |
| `Worker.ReknowledgeOutcome` | backend/worker.py:456-528 | reknowledge succeeds iff the knowledge prompt and the source transcript exist, the model answers and every chunk's content is a string; a missing prompt or transcript leaves the bucket untouched and marks the job `failed` with the matching message |
| `Worker.ReknowledgeCompletes` | backend/worker.py:456-528 | a reknowledge run with its prompt, source transcript and answer has copied the source job's transcript to the new job, recorded `reknowledge` mode and the source job id, and is `done` with the completed message iff every chunk's content is a string, `running` with the started message otherwise |
| `Worker.ReknowledgeFilesUnderFolder` | backend/worker.py:525 | with the arguments in the intended order, every knowledge file lies under the real folder and its metadata names it |
| `Worker.ReknowledgeAsWrittenMisfiles` | backend/worker.py:525 | with the arguments as written, every knowledge file lands under the base name instead of the folder, no metadata names the real folder, and a run that does not raise writes at least one file |
| `Worker.HandlerOutcome` | backend/worker.py:660-796 | a rejected or legacy event fails without touching the bucket; every failure of an event with a job id, a file name and a folder path marks the job `failed` with `Error: ` and the message; a success leaves the job `done` |
| `JobCreator.FourDigits` | backend/job_creator.py:41-43 | a year below 10000 has at most four digits |
| `JobCreator.JobId` | backend/job_creator.py:41-43 | a job id made at a valid time has fourteen characters |
| `JobCreator.ParseJobId` | backend/job_creator.py:41-43 | text reads back as a time iff it is fourteen digits |
| `JobCreator.JobIdRoundTrip` | backend/job_creator.py:41-43 | a job id is all digits and reads back as the time it was made at |
| `JobCreator.JobIdInjective` | backend/job_creator.py:41-43 | jobs made at different seconds get different ids |
| `JobCreator.PdfFiles` | backend/job_creator.py:75-96 | no more PDFs than keys are listed |
| `JobCreator.PdfFilesSound` | backend/job_creator.py:75-96 | every listed PDF is a bucket key ending in `.pdf`, under the folder, named by its last segment and, when names were requested, one of them |
| `JobCreator.PdfFilesComplete` | backend/job_creator.py:75-96 | every such key is listed |
| `JobCreator.GetPdfFilesInFolder` | backend/job_creator.py:46-101 | the paging loop lists exactly the selected PDFs, and none when the listing fails |
| `JobCreator.EntriesFromKeys` | backend/job_creator.py:117-129 | every entry of the one-page delimited listing comes from a key under the prefix |
| `JobCreator.HasChildrenAsWrittenSound` | backend/job_creator.py:104-133 | the check as written never reports a sub-folder that is not there |
| `JobCreator.EntriesPrefix` | backend/job_creator.py:117-123 | a shorter listing's entries begin a longer listing's |
| `JobCreator.DirectEntries` | backend/job_creator.py:117-123 | distinct keys directly under the prefix each take an entry |
| `JobCreator.LeafCheckMissesSubfolder` | backend/job_creator.py:117-126 | with ten files directly in the folder listed before a key in a sub-folder, the check as written answers "no children" although the folder has one |
| `JobCreator.LeafKeyIsPrefixAndName` | backend/job_creator.py:86 | in a folder without sub-folders a key is the prefix followed by its file name |
| `JobCreator.LeafNamesDistinct` | backend/job_creator.py:46-101 | in a folder without sub-folders, distinct keys give distinct file names, so no two registered PDFs share a sort key |
| `JobCreator.PutAllStep` | backend/job_creator.py:154-169 | one more put extends the puts done so far |
| `JobCreator.PutAllKeys` | backend/job_creator.py:154-169 | the puts add their keys and leave every other item as it was |
| `JobCreator.PutAllHolds` | backend/job_creator.py:154-169 | a property every put item has holds of the item under each put key |
| `JobCreator.PutAllLast` | backend/job_creator.py:154-169 | a key written once holds the item put under it |
| `JobCreator.FileKeys` | backend/job_creator.py:159-161 | one key per file |
| `JobCreator.QueuedItems` | backend/job_creator.py:159-169 | one item per file |
| `JobCreator.RegisteredItems` | backend/job_creator.py:136-197 | registration adds one `queued` item per file in the job's mode and folder, and leaves every other item as it was |
| `JobCreator.QueuedItemQueued` | backend/job_creator.py:159-169 | each item is `queued`, in the job's mode and folder |
| `JobCreator.RegisteredFile` | backend/job_creator.py:154-169 | with distinct names each file's item is exactly the one made for it |
| `JobCreator.SortKeyInjective` | backend/job_creator.py:161 | within a folder, different names give different sort keys |
| `JobCreator.DefaultRoundTrip` | backend/job_creator.py:200-265 | the job id `set_default_job_id` stores is the one `get_default_job_id` reads back, and no other folder's default moves |
| `JobCreator.LatestKeepsDefaults` | backend/job_creator.py:174-188 | recording the latest job never moves a default, and records that job when the update succeeds |
| `JobCreator.DefaultKeepsLatest` | backend/job_creator.py:215-224 | setting a default keeps the folder's latest job |
| `JobCreator.JobItems` | backend/job_creator.py:304-316 | one execution item per PDF |
| `JobCreator.JobItemsSyncOnce` | backend/job_creator.py:304-316 | a job's execution triggers the knowledge-base sync exactly once when it has files, and each item names its file, job and mode |
| `JobCreator.BuildJobItems` | backend/job_creator.py:304-316 | the loop and the last-item switch build exactly the reference items |
| `JobCreator.ReknowledgeItems` | backend/job_creator.py:604-617 | one reknowledge item per source file |
| `JobCreator.ReknowledgeItemsSyncOnce` | backend/job_creator.py:604-617 | only the last reknowledge item triggers the sync, and each names its source file |
| `JobCreator.BuildReknowledgeItems` | backend/job_creator.py:604-617 | the loop builds exactly the reference items |
| `JobCreator.Names` | backend/job_creator.py:416 | the listed names are the files' names, in order |
| `JobCreator.ListPdfsResponse` | backend/job_creator.py:399-429 | 200 iff a folder is given, listing exactly the PDF names with their count; otherwise 400 |
| `JobCreator.SetDefault` | backend/job_creator.py:432-470 | 200 iff both values are non-empty and the table update succeeds, and the default then reads back; otherwise nothing changes; jobs, objects and executions never change |
| `JobCreator.GetDefault` | backend/job_creator.py:473-499 | 200 iff a folder is given, answering the folder's default job or none |
| `JobCreator.MatchingExactly` | backend/job_creator.py:523-533 | the query answers exactly the source job's items whose sort key begins with `<folder>#` |
| `JobCreator.ReknowledgeKeys` | backend/job_creator.py:590 | one new key per source item |
| `JobCreator.ReknowledgePuts` | backend/job_creator.py:589-602 | one new item per source item |
| `JobCreator.ReknowledgePutsWait` | backend/job_creator.py:589-602 | every new item waits in status `reknowledge` naming the source job |
| `JobCreator.RekeyedItems` | backend/job_creator.py:589-602 | each source file gets a waiting item of the new job, and no item of another job changes |
| `JobCreator.SourceItems` | backend/job_creator.py:531 | one item per matching key |
| `JobCreator.SourceNames` | backend/job_creator.py:579-586 | one file name per source item |
| `JobCreator.ReknowledgeNotFound` | backend/job_creator.py:502-544 | 404 iff the three values are present and no item of the source job lies under the folder; a 400 or 404 writes nothing |
| `JobCreator.ReknowledgeStarted` | backend/job_creator.py:546-640 | a started reknowledge has copied the source job's transcript prompt and saved the new knowledge prompt for the new job, gives every source file a waiting item, counts them, and starts an execution iff a state machine is configured |
| `JobCreator.JobRejection` | backend/job_creator.py:663-740 | a job is refused iff the mode is invalid, the folder is empty, a prompt is missing outside `direct_pdf`, the folder has sub-folders, or no PDF is found; an invalid mode is reported first |
| `JobCreator.StartJob` | backend/job_creator.py:321-345 | only the executions may change; the execution starts iff the input fits in 262144 bytes and the start succeeds, otherwise 500 with nothing changed |
| `JobCreator.CreateJobRefused` | backend/job_creator.py:663-740 | a refused job answers 400 with its error and writes nothing |
| `JobCreator.CreateJobAccepted` | backend/job_creator.py:663-762 | an accepted job comes from a leaf folder with PDFs and starts one execution named `job-<id>` whose items name those files and trigger the sync once |
| `JobCreator.CreateJobPrepares` | backend/job_creator.py:742-749 | an accepted or failing start leaves the registrations and prompts in place |
| `JobCreator.PreparedRegisters` | backend/job_creator.py:136-197 | each PDF has a `queued` item of the new job, no other job's item changes, and no folder's default moves |
| `JobCreator.PreparedItemsExact` | backend/job_creator.py:136-197 | for distinct keys in a leaf folder each item is exactly the one made for its PDF |
| `JobCreator.PreparedPrompts` | backend/job_creator.py:280-302 | a `full` job leaves both prompts where the worker reads them; a `direct_pdf` job saves none |
| `JobCreator.PromptKeysDiffer` | backend/job_creator.py:282-283 | the two prompt keys differ |
| `JobCreator.CreateJobTooLarge` | backend/job_creator.py:321-332 | an over-size input answers 500 and starts nothing, though the files stay registered as `queued` |
| `JobCreator.Handle` | backend/job_creator.py:354-778 | no response iff no route matches; GET routes change nothing |
| `JobCreator.CheckFolderHasChildren` | backend/job_creator.py:104-133 | the corrected check scans the listing for a key below a sub-folder |
| `JobCreator.JobStore.constructor` | backend/job_creator.py:136-197 | the store starts in the given state |
| `JobCreator.JobStore.RegisterJob` | backend/job_creator.py:136-197 | the job items are the registration and the folder config records the latest job |
| `JobCreator.JobStore.StartJobExecution` | backend/job_creator.py:268-351 | prompts are saved outside `direct_pdf`; then 500 for an over-size input or a failed start, else 202 with one more execution |
| `JobCreator.JobStore.CreateJobRequest` | backend/job_creator.py:663-762 | the method answers and ends as the reference job creation |
| `JobCreator.JobStore.RegisterReknowledge` | backend/job_creator.py:589-602 | the put loop writes exactly the rekeyed items |
| `JobCreator.JobStore.ReknowledgeRequest` | backend/job_creator.py:502-660 | the method answers and ends as the reference reknowledge |
| `JobCreator.JobStore.SetDefaultRequest` | backend/job_creator.py:432-470 | the method answers and ends as the reference default setting |
| `JobCreator.JobStore.HandleRequest` | backend/job_creator.py:354-778 | the method answers and ends as the reference handler, and changes nothing when no route matches |
| `ResultFetcher.Read` | backend/result_fetcher.py:137-145 | a read gives the object's text iff the object exists, and none otherwise |
| `ResultFetcher.Filter` | backend/result_fetcher.py:187-190 | a comprehension with a condition keeps exactly the accepted keys, in order |
| `ResultFetcher.TextFiles` | backend/result_fetcher.py:187-190 | the text files are exactly the listed keys under the prefix that end in `.txt` and are not metadata |
| `ResultFetcher.ChunkFiles` | backend/result_fetcher.py:195-200 | the chunk files are exactly the text files the chunk rule selects, sorted by key |
| `ResultFetcher.Dashes` | backend/result_fetcher.py:206 | the section separator is a line of dashes |
| `ResultFetcher.SectionsAppend` | backend/result_fetcher.py:204-214 | sections are taken file by file, so those of a list are those of its parts, in order |
| `ResultFetcher.SectionsAt` | backend/result_fetcher.py:204-214 | each file contributes its own section at its own place |
| `ResultFetcher.SectionsNone` | backend/result_fetcher.py:210-214 | there are no sections iff no chunk file has non-empty text |
| `ResultFetcher.CombineChunks` | backend/result_fetcher.py:203-216 | the section loop and the join build exactly the combined text |
| `ResultFetcher.GetKnowledgeChunks` | backend/result_fetcher.py:148-229 | the method returns exactly the reference knowledge text, with the intended chunk rule |
| `ResultFetcher.KnowledgeFromChunks` | backend/result_fetcher.py:198-216 | with chunk files listed, the text is their sections in key order joined by blank lines, and is missing only when none has text |
| `ResultFetcher.WorkerWholeFileRead` | backend/result_fetcher.py:218-225 | a document the worker stored whole, with no chunk listed, is read from its single file |
| `ResultFetcher.ThreeDigits` | backend/result_fetcher.py:199 | a number below 1000 is its three digits |
| `ResultFetcher.TriplesLe` | backend/result_fetcher.py:199 | three-digit numerals compare as digit triples |
| `ResultFetcher.DigitwiseLe` | backend/result_fetcher.py:199 | numbers below 1000 compare digit by digit |
| `ResultFetcher.Pad3Order` | backend/result_fetcher.py:199 | zero-padded three-digit numbers followed by the same text sort as the numbers |
| `ResultFetcher.ChunkKeyOrder` | backend/result_fetcher.py:199 | below 1000 chunks a document's chunk keys sort in the order the worker numbered them |
| `ResultFetcher.LastSeparator` | backend/result_fetcher.py:196 | strings agree before and after their last separator |
| `ResultFetcher.WorkerChunkSelected` | backend/result_fetcher.py:187-196 | every chunk the worker writes for a document is read back as one of that document's chunks, and its metadata file is not a text file |
| `ResultFetcher.DigitsNoUnderscore` | backend/result_fetcher.py:196 | digits hold no underscore |
| `ResultFetcher.ChunkShape` | backend/result_fetcher.py:196 | a chunk key is the prefix, an underscore, digits and `.txt` |
| `ResultFetcher.ChunkNameOwner` | backend/result_fetcher.py:196 | a name with an underscore and digits is a chunk of no other name in the same directory |
| `ResultFetcher.ChunkOwner` | backend/result_fetcher.py:165-196 | a chunk the worker writes for one document is a chunk of no other document of the same job and folder |
| `ResultFetcher.ReplaceKeeps` | backend/result_fetcher.py:196 | removing `.txt` keeps every character outside it |
| `ResultFetcher.ChunkStemHasUnderscore` | backend/result_fetcher.py:196 | the stem of a chunk file keeps its underscore |
| `ResultFetcher.LongerNameText` | backend/result_fetcher.py:165-190 | a chunk of a document is a text file under the prefix of any document whose base name begins its own |
| `ResultFetcher.AsWrittenTakesLongerName` | backend/result_fetcher.py:165-196 | as written, a chunk of `document` is read as a chunk of `doc`; with the intended rule it is not |
| `ResultFetcher.WorkerChunksInOrder` | backend/result_fetcher.py:198-214 | the chunks read back come in the order the worker wrote them, up to chunk 999 |
| `ResultFetcher.FolderOfIff` | backend/result_fetcher.py:247-251 | a key yields a common prefix iff it lies in a sub-folder of the prefix |
| `ResultFetcher.CommonPrefixesSound` | backend/result_fetcher.py:247-251 | every common prefix comes from a key in a sub-folder |
| `ResultFetcher.CommonPrefixesComplete` | backend/result_fetcher.py:247-251 | every sub-folder with a key gives a common prefix |
| `ResultFetcher.RStrip` | backend/result_fetcher.py:260 | `rstrip` keeps a prefix that does not end with the character |
| `ResultFetcher.NoPromptsPrefixIn` | backend/result_fetcher.py:260 | a folder name and its '/' cannot contain the prompts prefix |
| `ResultFetcher.JobIdOfFolder` | backend/result_fetcher.py:255-262 | a prompt folder's common prefix yields the folder's name |
| `ResultFetcher.IdsOf` | backend/result_fetcher.py:255-262 | one job id per common prefix |
| `ResultFetcher.JobIdsOfMembers` | backend/result_fetcher.py:261-262 | an id is kept iff it is non-empty and comes from some common prefix |
| `ResultFetcher.JobIds` | backend/result_fetcher.py:232-270 | the job ids are sorted newest (greatest) first |
| `ResultFetcher.JobIdListed` | backend/result_fetcher.py:232-270 | every job folder with a prompt file under it is listed |
| `ResultFetcher.JobIdFromListing` | backend/result_fetcher.py:232-270 | every listed id is non-empty, has no '/', and names a job folder with a key under it |
| `ResultFetcher.ListJobIds` | backend/result_fetcher.py:232-270 | the collecting loop and the sort give exactly the reference ids |
| `ResultFetcher.Get` | backend/result_fetcher.py:283-287 | `get` finds a value iff the key is present |
| `ResultFetcher.Or` | backend/result_fetcher.py:395-397 | `a or b` is `a` when it is truthy and `b` otherwise |
| `ResultFetcher.EffectiveJobId` | backend/result_fetcher.py:283-291 | the path's job id wins unless it is missing or empty; a job id is present iff the path or the query gives one |
| `ResultFetcher.QueryItemsNone` | backend/result_fetcher.py:94-134 | the query finds nothing iff no item of the job has a sort key starting with `<folder>#` (or any, without a folder) |
| `ResultFetcher.ResultOf` | backend/result_fetcher.py:404-450 | an item raises iff it has no status or no file name; otherwise it reports them, and carries texts only when it is `done` and content is loaded |
| `ResultFetcher.ResultsOk` | backend/result_fetcher.py:404-452 | the loop succeeds iff every item does |
| `ResultFetcher.ResultsEach` | backend/result_fetcher.py:404-452 | a successful loop has one result per item, in order |
| `ResultFetcher.ResultsErrStays` | backend/result_fetcher.py:404-452 | once an item raises, that error is the loop's outcome |
| `ResultFetcher.FetchResultsRoutes` | backend/result_fetcher.py:273-350 | single-file content iff job, folder and file name are given; 400 iff neither job nor folder; the job-id list iff only a folder |
| `ResultFetcher.FetchResultsNotFound` | backend/result_fetcher.py:352-393 | a job's results are 404 iff the query fails or matches no item, under the folder when one is given |
| `ResultFetcher.FetchResultsContent` | backend/result_fetcher.py:395-470 | a results answer has one result per item, loads content iff there are at most five items, and texts only for `done` items |
| `ResultFetcher.FetchResultsFails` | backend/result_fetcher.py:473-487 | an item that raises turns the request into a 500 |
| `ResultFetcher.RegisteredItemFound` | backend/result_fetcher.py:94-134 | an item the job creator registered under its folder is found by a query for that job and folder |
| `ResultFetcher.QueuedItemShown` | backend/result_fetcher.py:404-450 | a freshly registered item shows as `queued`, under its own name, folder and job, with no texts |
| `ResultFetcher.BuildResult` | backend/result_fetcher.py:404-452 | the loop body computes exactly the item's result |
| `ResultFetcher.CollectResults` | backend/result_fetcher.py:404-452 | the loop computes exactly the reference results, ending at the first error |
| `ResultFetcher.HandleResults` | backend/result_fetcher.py:273-487 | the handler answers exactly the reference response |
| `PromptTemplates.Lookup` | backend/prompt_management_lambda.py:266-267 | `get` with a default gives the stored value iff the key is present |
| `PromptTemplates.TextField` | backend/prompt_management_lambda.py:336-339 | a missing field reads as empty; a present one is usable iff it is a string, and then it is that string |
| `PromptTemplates.ParseBody` | backend/prompt_management_lambda.py:331-334 | an unparsable body is refused with a client or server error |
| `PromptTemplates.DefaultKeys` | backend/prompt_management_lambda.py:491-494 | the query finds exactly the type's templates whose flag is true |
| `PromptTemplates.UnsetClears` | backend/prompt_management_lambda.py:488-507 | afterwards no template of the type is default; only those flags changed; the invariant (at most one default per type) is kept |
| `PromptTemplates.SeededKeeps` | backend/prompt_management_lambda.py:510-544 | seeding never overwrites an existing item |
| `PromptTemplates.SeededHas` | backend/prompt_management_lambda.py:515-541 | after seeding every agent type has its `default-<type>` template |
| `PromptTemplates.SeededNew` | backend/prompt_management_lambda.py:515-541 | seeding adds only the default template of a seeded type |
| `PromptTemplates.SeededItems` | backend/prompt_management_lambda.py:510-544 | seeding keeps every item and adds exactly the missing defaults |
| `PromptTemplates.SeededNoop` | backend/prompt_management_lambda.py:521-527 | a table already holding every default is left unchanged |
| `PromptTemplates.SeededIdempotent` | backend/prompt_management_lambda.py:510-544 | seeding twice is seeding once, whatever the clock and prompts of the second run |
| `PromptTemplates.SeededEmpty` | backend/prompt_management_lambda.py:515-539 | seeding an empty table gives one version-1 default per agent type, and the invariant holds |
| `PromptTemplates.AutoInitValid` | backend/prompt_management_lambda.py:201-223 | the first-request initialisation keeps the invariant |
| `PromptTemplates.NewIdNotDefault` | backend/prompt_management_lambda.py:354 | a created template's `tmpl-` id never collides with a seeded `default-` id |
| `PromptTemplates.NewTemplate` | backend/prompt_management_lambda.py:336-372 | an accepted template stores the posted fields: the type upper-cased and valid, the name and the prompt trimmed and non-empty, the description trimmed (empty when absent), `isDefault` as posted or false; it gets the new id, version 1 and equal timestamps; a refusal is 400 or 500 |
| `PromptTemplates.StoreResult` | backend/prompt_management_lambda.py:357-375 | storing adds the template; a default template becomes its type's only default; no other item changes |
| `PromptTemplates.CreateResult` | backend/prompt_management_lambda.py:326-380 | a create either refuses and changes nothing or answers 201 with exactly the stored new template, whose type, name, description, prompt and flag are the posted ones (upper-cased or trimmed as the handler does); the other templates change only by losing a default flag of the type |
| `PromptTemplates.PutKeepsValid` | backend/prompt_management_lambda.py:357-375 | writing a template after clearing its type's defaults keeps the invariant |
| `PromptTemplates.CreateKeepsValid` | backend/prompt_management_lambda.py:326-380 | a create with a boolean or absent default flag keeps the invariant |
| `PromptTemplates.UpdateKey` | backend/prompt_management_lambda.py:393-397 | an update proceeds only with a non-empty type and a non-empty trimmed id |
| `PromptTemplates.Revised` | backend/prompt_management_lambda.py:409-449 | the updated template keeps its key and creation time, bumps the version and takes the new time; each of name, description, prompt and `isDefault` is the body's value when supplied and the existing one when omitted |
| `PromptTemplates.ReviseStores` | backend/prompt_management_lambda.py:420-449 | what an update stores is what it answers; other defaults of the type are cleared only when the template newly becomes default |
| `PromptTemplates.UpdateResult` | backend/prompt_management_lambda.py:383-455 | an update never changes the set of keys; a non-200 answer changes nothing; a 200 answer stores exactly the answered template, whose name, description, prompt and flag are the body's values where supplied and the existing ones otherwise |
| `PromptTemplates.UpdateNotFound` | backend/prompt_management_lambda.py:399-405 | with a valid key, an update answers 404 iff the template is missing |
| `PromptTemplates.UpdateKeepsValid` | backend/prompt_management_lambda.py:383-455 | an update with a boolean or absent default flag keeps the invariant |
| `PromptTemplates.DeleteResult` | backend/prompt_management_lambda.py:458-485 | 200 iff the named template exists, and then exactly it is removed; 404 iff it is missing; the invariant is kept |
| `PromptTemplates.TypeKeys` | backend/prompt_management_lambda.py:307-309 | the query returns exactly the templates of the type |
| `PromptTemplates.SortedListed` | backend/prompt_management_lambda.py:304-320 | sorting the type's templates by update time, newest first, gives the listing |
| `PromptTemplates.AnsweredKeepsValid` | backend/prompt_management_lambda.py:226-258 | every request with a boolean or absent default flag keeps the invariant |
| `PromptTemplates.TemplateTable.constructor` | backend/prompt_management_lambda.py:37-49 | a fresh instance holds the given table and prompts and has not yet initialised |
| `PromptTemplates.TemplateTable.UnsetCurrentDefault` | backend/prompt_management_lambda.py:488-507 | the loop clears exactly the type's default flags |
| `PromptTemplates.TemplateTable.InitializeDefaultTemplates` | backend/prompt_management_lambda.py:510-544 | the loop seeds exactly the missing defaults |
| `PromptTemplates.TemplateTable.AutoInitializeDefaults` | backend/prompt_management_lambda.py:201-223 | seeds only a table that is empty on the first call, then marks the instance initialised |
| `PromptTemplates.TemplateTable.ListTemplates` | backend/prompt_management_lambda.py:304-320 | lists exactly the type's templates, newest first |
| `PromptTemplates.TemplateTable.HandleGet` | backend/prompt_management_lambda.py:261-301 | answers 400 without a valid type, the single template or 404 with an id, the listing otherwise |
| `PromptTemplates.TemplateTable.HandleCreate` | backend/prompt_management_lambda.py:326-380 | the table and the answer are those of the reference create |
| `PromptTemplates.TemplateTable.HandleUpdate` | backend/prompt_management_lambda.py:383-455 | the table and the answer are those of the reference update |
| `PromptTemplates.TemplateTable.HandleDelete` | backend/prompt_management_lambda.py:458-485 | the table and the answer are those of the reference delete |
| `PromptTemplates.TemplateTable.Handle` | backend/prompt_management_lambda.py:226-258 | 500 without a table; otherwise initialise, then dispatch on the method; the invariant is kept for boolean default flags |
| `Strs.Find` | backend/worker.py:183 | `find` gives -1 iff the pattern does not occur, and otherwise the first place where it starts |
| `Strs.RFind` | backend/worker.py:184 | `rfind` gives -1 or a place where the pattern starts, with no occurrence after it |
| `Strs.Split` | backend/folder_tree_helper.py:69-73 | `split` gives at least one piece, none holding the separator |
| `Strs.JoinSplit` | backend/folder_tree_helper.py:69-73 | joining the pieces of a split with the separator gives back the string |
| `Strs.LastSegmentAfterLast` | backend/job_creator.py:84 | `split('/')[-1]` is exactly what follows the last '/' |
| `Strs.SplitOnce` | backend/knowledge_querier.py:106 | `split(sep, 1)` gives the whole string when `sep` does not occur; otherwise the string is the two pieces around `sep` and the first piece holds no `sep` |
| `Strs.Strip` | backend/prompt_management_lambda.py:337-339 | `strip` leaves no whitespace at either end, and is empty iff the string is all whitespace |
| `Strs.StripRemovesEnds` | backend/prompt_management_lambda.py:337-339 | `strip` removes only whitespace and only at the ends: the string is leading whitespace, the stripped text, then trailing whitespace |
| `Strs.StripTrimmed` | backend/prompt_management_lambda.py:337-339 | stripping a trimmed string changes nothing |
| `Strs.Upper` | backend/prompt_management_lambda.py:336 | `upper` maps every character, keeping the length |
| `Strs.Lower` | backend/prompt_management_lambda.py:516 | `lower` maps every character, keeping the length |
| `Strs.ZeroPadValue` | backend/job_creator.py:41-43 | the zero-padded fields of a timestamp are digits that still spell the number |
| `Strs.Pad3Value` | backend/worker.py:255 | a chunk's `:03d` number is digits that still spell the index |
| `Strs.Pad3Injective` | backend/worker.py:255 | distinct chunk indexes give distinct numbers |
| `Strs.ReplaceLeading` | backend/knowledge_querier.py:103 | replacing a prefix that starts the string removes it there and continues on the rest |
| `Order.SortBy` | backend/result_fetcher.py:265 | sorting gives a permutation of its input |
| `Order.SortBySorted` | backend/prompt_management_lambda.py:314 | a sorted copy is ordered by its key, ascending or descending |
| `Order.SortByStable` | backend/history_manager.py:176 | sorting is stable, ascending or descending: the elements sharing a key come out in their input order |

## Left out

- AWS calls are not modelled as such. DynamoDB, S3, Step Functions, Lambda `invoke` and Bedrock `retrieve_and_generate` / `invoke_agent` become maps, item sequences, key listings or function parameters. A failing call is modelled only where a member takes it as a parameter: the worker's and the folder routes' `awsError`, the history table's `TableAccess`, the job creator's failing table, the result fetcher's `queryFails`, the ingestion outcome of the knowledge-base sync and the querier's failing calls. The failure answers listed below are not modelled.
- PollStatus.Poll: does not model the 500 answers of a failing `get_item` (`Database error`, backend/poll_status_lambda.py:128-139) or of any other exception (backend/poll_status_lambda.py:141-152); the table read always succeeds.
- StartQuery.HandleStart: does not model the 500 answer of a failing `put_item` or `invoke` (backend/start_query_lambda.py:152-163); both calls always succeed.
- HistoryManager.HandleHistoryRequest: does not model the non-`ClientError` answer `エラーが発生しました: …` of `update_feedback` (backend/history_manager.py:398-400), the readers' non-`ClientError` exceptions, or the handler's 500 answer (backend/history_manager.py:753-768). A table that is missing or fails with a `ClientError` is modelled by `TableAccess`.
- FolderManagement.DeleteFolder: does not model a `delete_object` that fails after earlier markers were deleted. The modelled failure is the listing's, before any delete.
- FolderManagement.HandleFolderRequest: does not model a presigner that raises, which the handler answers with 500 (backend/folder_management_lambda.py:366-368, 711-719), or a direct invocation that fails after earlier files were dispatched (backend/folder_management_lambda.py:473-475). One `awsError` stands for the route's failing call: on the presign route it is the registration lookup, which is caught and reads as unregistered (backend/folder_management_lambda.py:334-335); on the trigger route the model then dispatches nothing.
- The agent's event stream and trace handling (backend/knowledge_querier.py:521-603) are left out. They consume untyped Bedrock events; the agent's answer is a parameter.
- JSON text is not modelled; a body is the `Json` value it decodes to, and a parse failure is a separate case. `extract_json_from_text` keeps the bracket window and the structural checks, with the parser a parameter.
- Floating point is left out. The non-integral branch of `decimal_to_native` keeps the decimal as it is, and the prompt service's `DecimalEncoder` is not modelled.
- The clock, uuids, timezones and logging are parameters or are left out. `generate_job_id` takes the JST calendar fields, and years are four digits.
- Pagination is not modelled. The history summaries, detail and feedback read one page of a scan; the model reads the whole table as if one page held it. S3 listings of up to 1000 keys are whole listings. The one place the page size changes the outcome is the `MaxKeys=10` leaf check, which is modelled (see Findings).
- Concurrency is left out. The one-default-template invariant and folder registration hold only for requests handled one after another.
- Strings are `seq<char>`. `lower`, `upper` and `isdigit` are modelled on ASCII only; `strip` removes the characters Python's `str.isspace` accepts. `int()` is modelled on optional surrounding whitespace, an optional sign and ASCII digits: the underscores it allows between digits (`"1_0"`) and non-ASCII digits are not modelled. UTF-8 decoding errors are not modelled.
- The presigned-URL calls and the query order DynamoDB returns items in are parameters.
- Several parts of `backend/knowledge_querier.py` are not part of this model:
  - `lambda_handler`'s dispatch on `query_id` (704-755);
  - `get_chat_history`, `get_job_ids_from_folder_path` and `validate_job_exists`, which are table reads;
  - the synchronous path's assembly of the Bedrock answer (913-996).
- The first `process_pdf_on_demand` (backend/worker.py:381-453) is not part of this model. The later definition at 573 shadows it, and its calls have the wrong arity, as does the v1 call at 745.
- `get_job_status_by_folder_path` and its GSI query (backend/result_fetcher.py:60-91) are not part of this model, because the handler never calls it; `get_job_status` (backend/result_fetcher.py:45-57) is modelled.
- The reported content-type headers and CORS headers are left out; a response is its status code and body.
- FolderManagement.AddRegistrationStatus: returns the annotated tree as a value instead of updating the nodes in place, so the aliasing of the caller's tree is not modelled.
- ResultFetcher.WorkerChunksInOrder: proves the order of chunks only up to chunk 999. From 1000 on, `:03d` gives four digits and the key order is no longer the numeric order; that case is not stated.
- ResultFetcher.ChunkKeyOrder: holds only below 1000 chunks, for the same reason.
- ResultFetcher.GetKnowledgeChunks: uses the intended chunk rule (see Findings); the rule as written is kept only to exhibit the discrepancy.
- ResultFetcher.IsChunkOf: the corrected rule still takes the whole knowledge file `doc_2.txt` of a sibling `doc_2.pdf` as a chunk of `doc`, since `_2` reads as a chunk number; `ResultFetcher.ChunkOwner` speaks only of the chunk files the worker writes.
- KbSync.SyncStore.UpdateStatus: keys the jobs table on the job id alone, as `update_dynamodb_status` does (backend/bedrock_kb_sync_lambda.py:53). The worker and the job creator key the same `DYNAMODB_TABLE` on the job id and a sort key; if both name one table, every status write of the sync raises a `ClientError` that is caught and logged. The model keeps the sync's jobs map separate and does not model that failure.
- PromptTemplates.TemplateTable.ListTemplates: leaves the order of templates with equal `updatedAt` open. The source's stable sort keeps the order the query returns, ascending `templateId`; the model collects the type's templates in any order.
- JobCreator.JobStore.HandleRequest: does not model a request body that is not JSON, or body values that are not strings. It also leaves out the `ClientError` paths of the table writes.
- JobCreator.JobStore.CreateJobRequest: uses the intended leaf check (see Findings).
- Worker.WorkerStore.HandleEvent: the reknowledge path calls the chunk writer with its arguments in the intended order (see Findings).
- KnowledgeQuerier.HandleAsyncQuery: filters the direct knowledge-base query by the pairs' values, as intended (see Findings).
- PromptTemplates.CreateKeepsValid: keeps the invariant only when `isDefault` is a boolean or absent. A truthy non-boolean flag is stored as given, and the invariant is not claimed for it.
- PromptTemplates.UpdateKeepsValid: keeps the invariant only for a boolean or absent `isDefault`, for the same reason.
- PromptTemplates.AnsweredKeepsValid: keeps the invariant only for a boolean or absent `isDefault`, for the same reason.
- PromptTemplates.TemplateTable.Handle: states the invariant only for a boolean or absent `isDefault`. One `now` stands for the several clock readings of one request.
- PromptTemplates.TemplateTable.AutoInitializeDefaults: does not model a failing scan. The source then marks the instance initialised without seeding.
- The prompt service's default prompt texts are a parameter. The `ClientError` answers of its table calls are not modelled; a table call always succeeds.

## Findings

| source | as written | input that shows it | evidently intended | confidence | as-written member | corrected member |
|---|---|---|---|---|---|---|
| backend/knowledge_querier.py:296-314 | on the asynchronous direct path the pairs are dictionaries, and unpacking one gives its keys, so the filter asks for `folder_path = "folder_path"` and `job_id = "job_id"` | one pair `{'folder_path': 'A', 'job_id': '20250101000000'}` | filter on the pair's folder and job | not executed | `KnowledgeQuerier.DirectFilterAsWrittenMissesFolder` | `KnowledgeQuerier.DirectFilterSelectsPairs` |
| backend/worker.py:525 | the last four arguments of `save_knowledge_chunks` are shifted by one place: `folder_path` gets `base_name`, `base_name` gets `file_name`, `file_name` gets `original_s3_key` and `original_s3_key` gets `folder_path` | reknowledge of `report.pdf` in folder `A` writes `Knowledge/report/{job}/report.pdf_001.txt`, whose metadata names folder `report`, file `PDF/A/report.pdf` and original key `A` | write `Knowledge/A/{job}/report_001.txt` with folder `A`, file `report.pdf` and original key `PDF/A/report.pdf` | not executed | `Worker.ReknowledgeAsWrittenMisfiles` | `Worker.ReknowledgeFilesUnderFolder` |
| backend/result_fetcher.py:196 | every listed text file under the prefix `{base}` whose stem holds `_` counts as a chunk | `doc.pdf` beside `document.pdf`: `document_001.txt` is read as a chunk of `doc` | only `{base}_{digits}.txt` counts as a chunk of `{base}` | not executed | `ResultFetcher.AsWrittenTakesLongerName` | `ResultFetcher.ChunkOwner` |
| backend/job_creator.py:117-126 | the leaf check lists at most 10 entries with a delimiter, and the list is cut before any common prefix is reached | ten PDFs `a1.pdf` … `a9.pdf`, `a10.pdf` directly in the folder and a sub-folder `z/` | a folder with a sub-folder is never a leaf | not executed | `JobCreator.LeafCheckMissesSubfolder` | `JobCreator.CheckFolderHasChildren` |
