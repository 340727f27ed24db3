/** The knowledge-query lambda: the chat history it puts in front of a
    question, the (folder_path, job_id) pairs that scope a query, the
    metadata filter built from them, agent selection, request validation
    in synchronous mode, and the query-status lifecycle in asynchronous
    mode. Bedrock, the clock and uuids are parameters. */
module KnowledgeQuerier {
  import opened Wrappers
  import Strs
  import KbRetrieval
  import opened ChatItems
  import QueryStatus

  type Pair = KbRetrieval.Pair
  type Filter = KbRetrieval.Filter
  type Source = KbRetrieval.Source

  // ----- chat history in front of the question -----

  /** `MAX_CONTEXT_LENGTH` with its default. */
  const MaxContextLength: nat := 10000

  /** `timestamp.split('T')[1].split('+')[0]`; '' for an empty timestamp
      and for one without 'T' (the `IndexError` the code swallows). */
  function TimeOf(ts: string): (r: string)
    ensures 'T' !in ts ==> r == ""
    ensures '+' !in r && 'T' !in r
  {
    if ts == "" then ""
    else
      var parts := Strs.Split(ts, 'T');
      if |parts| < 2 then "" else Strs.Split(parts[1], '+')[0]
  }

  /** On an ISO timestamp with a '+' offset the time of day is what lies
      between 'T' and '+'. */
  lemma TimeOfIso(date: string, time: string, zone: string)
    requires 'T' !in date && 'T' !in time && '+' !in time && 'T' !in zone
    ensures TimeOf(date + "T" + time + "+" + zone) == time
  {
    var rest := time + "+" + zone;
    assert date + "T" + time + "+" + zone == date + ['T'] + rest;
    Strs.SplitFirst(date, 'T', rest);
    assert 'T' !in rest by {
      forall i | 0 <= i < |rest| ensures rest[i] != 'T' {
        if i < |time| { assert rest[i] == time[i]; }
        else if i > |time| { assert rest[i] == zone[i - |time| - 1]; }
      }
    }
    Strs.SplitNoSep(rest, 'T');
    assert rest == time + ['+'] + zone;
    Strs.SplitFirst(time, '+', zone);
  }

  const UserLabel := "ユーザー"
  const AssistantLabel := "アシスタント"

  /** The speaker shown in the history: the user for role 'user', the
      assistant for any other role, a missing one included. */
  function RoleLabel(m: ChatItem): (r: string)
    ensures r == UserLabel <==> m.role == Some("user")
    ensures r == AssistantLabel <==> m.role != Some("user")
  {
    if m.role.GetOr("unknown") == "user" then UserLabel else AssistantLabel
  }

  /** One history line: `[time] label: content` and a newline. */
  function FormatMessage(m: ChatItem): (r: string)
    ensures |r| > 0 && r[0] == '[' && r[|r| - 1] == '\n'
  {
    "[" + TimeOf(Timestamp(m)) + "] " + RoleLabel(m) + ": " + Content(m) + "\n"
  }

  /** The lines of `ms`, in order. */
  function Joined(ms: seq<ChatItem>, line: ChatItem -> string): string
  {
    if |ms| == 0 then "" else line(ms[0]) + Joined(ms[1..], line)
  }

  /** How many messages from the front fit after `used` characters: the
      scan stops at the first line that would pass the limit. */
  function Taken(ms: seq<ChatItem>, used: nat, line: ChatItem -> string): (n: nat)
    ensures n <= |ms|
  {
    if |ms| == 0 || used + |line(ms[0])| > MaxContextLength then 0
    else 1 + Taken(ms[1..], used + |line(ms[0])|, line)
  }

  /** The history text `build_context_with_history` assembles. */
  function HistoryText(ms: seq<ChatItem>): string
  {
    Joined(ms[..Taken(ms, 0, FormatMessage)], FormatMessage)
  }

  lemma {:induction false} JoinedAppend(a: seq<ChatItem>, b: seq<ChatItem>, line: ChatItem -> string)
    ensures Joined(a + b, line) == Joined(a, line) + Joined(b, line)
  {
    if |a| > 0 {
      assert (a + b)[0] == a[0];
      assert (a + b)[1..] == a[1..] + b;
      JoinedAppend(a[1..], b, line);
    } else {
      assert a + b == b;
    }
  }

  /** A non-empty prefix is its first line and the rest. */
  lemma JoinedPrefix(ms: seq<ChatItem>, n: nat, line: ChatItem -> string)
    requires 0 < n <= |ms|
    ensures Joined(ms[..n], line) == line(ms[0]) + Joined(ms[1..][..n - 1], line)
  {
    assert ms[..n][0] == ms[0];
    assert ms[..n][1..] == ms[1..][..n - 1];
  }

  /** A prefix one longer adds that message's line at the end. */
  lemma JoinedSnoc(ms: seq<ChatItem>, i: nat, line: ChatItem -> string)
    requires i < |ms|
    ensures Joined(ms[..i + 1], line) == Joined(ms[..i], line) + line(ms[i])
  {
    assert ms[..i + 1] == ms[..i] + [ms[i]];
    JoinedAppend(ms[..i], [ms[i]], line);
    assert Joined([ms[i]], line) == line(ms[i]) + Joined([ms[i]][1..], line);
    assert [ms[i]][1..] == [];
  }

  /** The kept lines fit the budget, and the next message (if any) would
      not have fitted. */
  lemma {:induction false} TakenFits(ms: seq<ChatItem>, used: nat, line: ChatItem -> string)
    requires used <= MaxContextLength
    ensures used + |Joined(ms[..Taken(ms, used, line)], line)| <= MaxContextLength
    ensures Taken(ms, used, line) < |ms| ==>
      used + |Joined(ms[..Taken(ms, used, line) + 1], line)| > MaxContextLength
  {
    var n := Taken(ms, used, line);
    if n > 0 {
      var l := |line(ms[0])|;
      TakenFits(ms[1..], used + l, line);
      JoinedPrefix(ms, n, line);
      if n < |ms| {
        JoinedPrefix(ms, n + 1, line);
      }
    } else if |ms| > 0 {
      JoinedPrefix(ms, 1, line);
      assert ms[1..][..0] == [];
    } else {
      assert ms[..0] == [];
    }
  }

  /** No longer prefix fits: the kept messages are the longest prefix of
      the history within the budget, even when later messages are short. */
  lemma {:induction false} TakenLongest(ms: seq<ChatItem>, used: nat, n: nat, line: ChatItem -> string)
    requires n <= |ms| && used + |Joined(ms[..n], line)| <= MaxContextLength
    ensures n <= Taken(ms, used, line)
  {
    if n > 0 {
      var l := |line(ms[0])|;
      JoinedPrefix(ms, n, line);
      TakenLongest(ms[1..], used + l, n - 1, line);
    }
  }

  /** The history kept in front of the question is the longest prefix of
      the messages whose lines fit `MAX_CONTEXT_LENGTH`: it fits, the next
      message would overflow, and any prefix that fits is no longer. */
  lemma HistoryTextLongestPrefix(ms: seq<ChatItem>, n: nat)
    requires n <= |ms|
    ensures |HistoryText(ms)| <= MaxContextLength
    ensures Taken(ms, 0, FormatMessage) < |ms| ==>
      |Joined(ms[..Taken(ms, 0, FormatMessage) + 1], FormatMessage)| > MaxContextLength
    ensures |Joined(ms[..n], FormatMessage)| <= MaxContextLength ==> n <= Taken(ms, 0, FormatMessage)
  {
    TakenFits(ms, 0, FormatMessage);
    if |Joined(ms[..n], FormatMessage)| <= MaxContextLength {
      TakenLongest(ms, 0, n, FormatMessage);
    }
  }

  /** The history loop of `build_context_with_history`: lines are appended
      oldest first while the running total stays within the limit. */
  method BuildHistoryText(ms: seq<ChatItem>) returns (text: string, total: nat)
    ensures text == HistoryText(ms) && total == |text| <= MaxContextLength
  {
    text, total := AppendLines(ms, FormatMessage);
  }

  /** The loop itself, for any way of rendering a message as a line. */
  method AppendLines(ms: seq<ChatItem>, line: ChatItem -> string) returns (text: string, total: nat)
    ensures text == Joined(ms[..Taken(ms, 0, line)], line) && total == |text| <= MaxContextLength
  {
    text, total := "", 0;
    var i := 0;
    while i < |ms|
      invariant 0 <= i <= |ms|
      invariant total == |text| <= MaxContextLength
      invariant text == Joined(ms[..i], line)
      invariant Taken(ms, 0, line) == i + Taken(ms[i..], total, line)
    {
      var l := line(ms[i]);
      TakenStep(ms, i, total, line);
      if total + |l| > MaxContextLength {
        break;
      }
      JoinedSnoc(ms, i, line);
      text := text + l;
      total := total + |l|;
      i := i + 1;
    }
    assert Taken(ms[i..], total, line) == 0;
  }

  lemma TakenStep(ms: seq<ChatItem>, i: nat, used: nat, line: ChatItem -> string)
    requires i < |ms|
    ensures used + |line(ms[i])| > MaxContextLength ==> Taken(ms[i..], used, line) == 0
    ensures used + |line(ms[i])| <= MaxContextLength ==>
      Taken(ms[i..], used, line) == 1 + Taken(ms[i + 1..], used + |line(ms[i])|, line)
  {
    assert ms[i..][0] == ms[i];
    assert ms[i..][1..] == ms[i + 1..];
  }

  /** The question as sent to the knowledge base, history first. */
  function FormattedQuery(history: string, query: string): string
  {
    "<会話履歴>\n" + history + "</会話履歴>\n<質問>\n" + UserLabel + ": " + query
    + "\n</質問>\n<出力形式>\n適切な改行を設けること\nプレーンテキストで出力すること。マークダウンなどで出力しないこと。\n</出力形式>"
  }

  /** `build_context_with_history`. */
  method BuildContextWithHistory(ms: seq<ChatItem>, query: string) returns (q: string)
    ensures q == FormattedQuery(HistoryText(ms), query)
  {
    var text, _ := BuildHistoryText(ms);
    q := FormattedQuery(text, query);
  }

  // ----- folder/job pairs -----

  /** A pair as the handlers pass it on: the synchronous handler builds
      tuples, the asynchronous one dictionaries, one of which may carry only
      a `job_id`. */
  datatype PairValue = TuplePair(folderPath: string, jobId: string) | DictPair(folder: Option<string>, jobId: string)

  /** `fp in folder_default_job_ids and folder_default_job_ids[fp]`. */
  predicate HasDefault(defaults: map<string, string>, fp: string)
  {
    fp in defaults && defaults[fp] != ""
  }

  function MissingDefault(fp: string): string
  {
    "フォルダ「" + fp + "」のデフォルトJOB_IDが指定されていません。フォルダを選択してから質問してください。"
  }

  /** The synchronous collection: every folder needs a default job id, and
      the first folder without one is named in the error. */
  function SyncPairs(fps: seq<string>, defaults: map<string, string>): (r: Result<seq<Pair>>)
    ensures r.Ok? ==> |r.value| == |fps|
  {
    if |fps| == 0 then Ok([])
    else
      var fp := fps[|fps| - 1];
      match SyncPairs(fps[..|fps| - 1], defaults)
      case Err(e) => Err(e)
      case Ok(ps) => if HasDefault(defaults, fp) then Ok(ps + [KbRetrieval.Pair(fp, defaults[fp])]) else Err(MissingDefault(fp))
  }

  /** Sync collection succeeds iff every folder has a default; then pair i
      is folder i with its default, and otherwise the error names the first
      folder lacking one. */
  lemma {:induction false} SyncPairsFacts(fps: seq<string>, defaults: map<string, string>)
    ensures SyncPairs(fps, defaults).Ok? <==> forall i :: 0 <= i < |fps| ==> HasDefault(defaults, fps[i])
    ensures SyncPairs(fps, defaults).Ok? ==>
      forall i :: 0 <= i < |fps| ==> SyncPairs(fps, defaults).value[i] == KbRetrieval.Pair(fps[i], defaults[fps[i]])
    ensures SyncPairs(fps, defaults).Err? ==>
      exists k :: 0 <= k < |fps| && !HasDefault(defaults, fps[k]) && SyncPairs(fps, defaults).error == MissingDefault(fps[k]) &&
        forall j :: 0 <= j < k ==> HasDefault(defaults, fps[j])
  {
    if |fps| > 0 {
      var pre := fps[..|fps| - 1];
      SyncPairsFacts(pre, defaults);
      assert forall i :: 0 <= i < |pre| ==> pre[i] == fps[i];
    }
  }

  /** The collection loop of `handle_sync_query`, returning at the first
      folder without a default job id. */
  method CollectSyncPairs(fps: seq<string>, defaults: map<string, string>) returns (r: Result<seq<Pair>>)
    ensures r == SyncPairs(fps, defaults)
  {
    var pairs: seq<Pair> := [];
    for i := 0 to |fps|
      invariant SyncPairs(fps[..i], defaults) == Ok(pairs)
    {
      var fp := fps[i];
      assert fps[..i + 1][..i] == fps[..i];
      if !HasDefault(defaults, fp) {
        SyncPairsErrorStays(fps, defaults, i + 1);
        return Err(MissingDefault(fp));
      }
      pairs := pairs + [KbRetrieval.Pair(fp, defaults[fp])];
    }
    assert fps[..|fps|] == fps;
    return Ok(pairs);
  }

  /** Once a prefix fails, the whole list fails with the same error. */
  lemma {:induction false} SyncPairsErrorStays(fps: seq<string>, defaults: map<string, string>, n: nat)
    requires n <= |fps| && SyncPairs(fps[..n], defaults).Err?
    ensures SyncPairs(fps, defaults) == SyncPairs(fps[..n], defaults)
    decreases |fps| - n
  {
    if n < |fps| {
      assert fps[..n + 1][..n] == fps[..n];
      SyncPairsErrorStays(fps, defaults, n + 1);
    } else {
      assert fps[..n] == fps;
    }
  }

  /** The folders the asynchronous handler keeps, as its dictionaries. */
  function KeptFolders(fps: seq<string>, defaults: map<string, string>): (r: seq<PairValue>)
    ensures |r| <= |fps|
  {
    if |fps| == 0 then []
    else
      var fp := fps[|fps| - 1];
      KeptFolders(fps[..|fps| - 1], defaults) + (if HasDefault(defaults, fp) then [DictPair(Some(fp), defaults[fp])] else [])
  }

  const NoValidDefaults := "No valid default job_ids found for the specified folders"
  const NoQueryScope := "Either folder_paths or jobId must be specified"

  /** The asynchronous pair building: folders without a default are
      dropped (an error if none is left); with no folders a job id alone
      gives one job-only pair. */
  function AsyncPairs(fps: seq<string>, defaults: map<string, string>, jobId: string): (r: Result<seq<PairValue>>)
    ensures r.Ok? ==> |r.value| > 0
  {
    if |fps| > 0 then
      var ps := KeptFolders(fps, defaults);
      if |ps| == 0 then Err(NoValidDefaults) else Ok(ps)
    else if jobId != "" then Ok([DictPair(None, jobId)])
    else Err(NoQueryScope)
  }

  /** The folders that have a default, in order. */
  function WithDefaults(fps: seq<string>, defaults: map<string, string>): (r: seq<string>)
    ensures forall i :: 0 <= i < |r| ==> HasDefault(defaults, r[i])
  {
    if |fps| == 0 then []
    else
      var fp := fps[|fps| - 1];
      WithDefaults(fps[..|fps| - 1], defaults) + (if HasDefault(defaults, fp) then [fp] else [])
  }

  function AsDicts(ps: seq<Pair>): (r: seq<PairValue>)
    ensures |r| == |ps|
    ensures forall i :: 0 <= i < |ps| ==> r[i] == DictPair(Some(ps[i].folderPath), ps[i].jobId)
  {
    seq(|ps|, i requires 0 <= i < |ps| => DictPair(Some(ps[i].folderPath), ps[i].jobId))
  }

  /** Asynchronous mode keeps exactly the folders synchronous mode would
      accept, in the same order and with the same job ids: on the folders
      that have a default both build the same pairs. */
  lemma {:induction false} KeptFoldersAreSyncPairs(fps: seq<string>, defaults: map<string, string>)
    ensures SyncPairs(WithDefaults(fps, defaults), defaults).Ok?
    ensures KeptFolders(fps, defaults) == AsDicts(SyncPairs(WithDefaults(fps, defaults), defaults).value)
  {
    var w := WithDefaults(fps, defaults);
    SyncPairsFacts(w, defaults);
    if |fps| > 0 {
      var pre := fps[..|fps| - 1];
      var fp := fps[|fps| - 1];
      KeptFoldersAreSyncPairs(pre, defaults);
      var wp := WithDefaults(pre, defaults);
      if HasDefault(defaults, fp) {
        assert w == wp + [fp];
        assert w[..|w| - 1] == wp;
      } else {
        assert w == wp;
      }
    }
  }

  /** When synchronous mode accepts the folders, asynchronous mode builds
      the same pairs. */
  lemma SyncAcceptedAsyncAgrees(fps: seq<string>, defaults: map<string, string>, jobId: string)
    requires |fps| > 0 && SyncPairs(fps, defaults).Ok?
    ensures AsyncPairs(fps, defaults, jobId) == Ok(AsDicts(SyncPairs(fps, defaults).value))
  {
    SyncPairsFacts(fps, defaults);
    WithDefaultsAll(fps, defaults);
    KeptFoldersAreSyncPairs(fps, defaults);
  }

  lemma {:induction false} WithDefaultsAll(fps: seq<string>, defaults: map<string, string>)
    requires forall i :: 0 <= i < |fps| ==> HasDefault(defaults, fps[i])
    ensures WithDefaults(fps, defaults) == fps
  {
    if |fps| > 0 {
      var pre := fps[..|fps| - 1];
      assert forall i :: 0 <= i < |pre| ==> pre[i] == fps[i];
      WithDefaultsAll(pre, defaults);
    }
  }

  /** The pair loop of `handle_async_query`. */
  method CollectAsyncPairs(fps: seq<string>, defaults: map<string, string>, jobId: string)
    returns (r: Result<seq<PairValue>>)
    ensures r == AsyncPairs(fps, defaults, jobId)
  {
    if |fps| > 0 {
      var pairs: seq<PairValue> := [];
      for i := 0 to |fps|
        invariant pairs == KeptFolders(fps[..i], defaults)
      {
        var fp := fps[i];
        assert fps[..i + 1][..i] == fps[..i];
        if HasDefault(defaults, fp) {
          pairs := pairs + [DictPair(Some(fp), defaults[fp])];
        }
      }
      assert fps[..|fps|] == fps;
      if |pairs| == 0 {
        return Err(NoValidDefaults);
      }
      return Ok(pairs);
    } else if jobId != "" {
      return Ok([DictPair(None, jobId)]);
    }
    return Err(NoQueryScope);
  }

  // ----- reading the pairs -----

  /** `KeyError('folder_path')` as `str` renders it. */
  const MissingFolderKey := "'folder_path'"

  /** The agent path's reading: a dictionary by its keys, a tuple by
      position. */
  function Normalize(p: PairValue): Result<Pair>
  {
    match p
    case TuplePair(fp, j) => Ok(KbRetrieval.Pair(fp, j))
    case DictPair(Some(fp), j) => Ok(KbRetrieval.Pair(fp, j))
    case DictPair(None, _) => Err(MissingFolderKey)
  }

  /** The normalisation loop of `invoke_agent_with_filter`; the first pair
      that cannot be read aborts it. */
  function NormalizePairs(ps: seq<PairValue>): (r: Result<seq<Pair>>)
    ensures r.Ok? ==> |r.value| == |ps|
  {
    if |ps| == 0 then Ok([])
    else
      match NormalizePairs(ps[..|ps| - 1])
      case Err(e) => Err(e)
      case Ok(qs) =>
        match Normalize(ps[|ps| - 1])
        case Err(e) => Err(e)
        case Ok(q) => Ok(qs + [q])
  }

  /** Normalisation fails exactly on a job-only pair, and otherwise reads
      every pair in order. */
  lemma {:induction false} NormalizePairsFacts(ps: seq<PairValue>)
    ensures NormalizePairs(ps).Ok? <==> forall i :: 0 <= i < |ps| ==> Normalize(ps[i]).Ok?
    ensures NormalizePairs(ps).Ok? ==> forall i :: 0 <= i < |ps| ==> NormalizePairs(ps).value[i] == Normalize(ps[i]).value
    ensures NormalizePairs(ps).Err? ==> NormalizePairs(ps).error == MissingFolderKey
  {
    if |ps| > 0 {
      var pre := ps[..|ps| - 1];
      NormalizePairsFacts(pre);
      assert forall i :: 0 <= i < |pre| ==> pre[i] == ps[i];
    }
  }

  /** Dictionaries built from accepted pairs read back as those pairs. */
  lemma {:induction false} NormalizeDicts(ps: seq<Pair>)
    ensures NormalizePairs(AsDicts(ps)) == Ok(ps)
  {
    var ds := AsDicts(ps);
    assert forall i :: 0 <= i < |ds| ==> Normalize(ds[i]) == Ok(ps[i]);
    NormalizePairsFacts(ds);
    var qs := NormalizePairs(ds).value;
    assert |qs| == |ps|;
    forall i | 0 <= i < |ps| ensures qs[i] == ps[i] {
    }
    assert qs == ps;
  }

  /** `invoke_agent_with_filter`'s normalisation loop. */
  method NormalizeAgentPairs(ps: seq<PairValue>) returns (r: Result<seq<Pair>>)
    ensures r == NormalizePairs(ps)
  {
    var out: seq<Pair> := [];
    for i := 0 to |ps|
      invariant NormalizePairs(ps[..i]) == Ok(out)
    {
      assert ps[..i + 1][..i] == ps[..i];
      match Normalize(ps[i])
      case Err(e) =>
        NormalizeErrorStays(ps, i + 1);
        return Err(e);
      case Ok(q) =>
        out := out + [q];
    }
    assert ps[..|ps|] == ps;
    return Ok(out);
  }

  lemma {:induction false} NormalizeErrorStays(ps: seq<PairValue>, n: nat)
    requires n <= |ps| && NormalizePairs(ps[..n]).Err?
    ensures NormalizePairs(ps) == NormalizePairs(ps[..n])
    decreases |ps| - n
  {
    if n < |ps| {
      assert ps[..n + 1][..n] == ps[..n];
      NormalizeErrorStays(ps, n + 1);
    } else {
      assert ps[..n] == ps;
    }
  }

  /** `folder_path, job_id = pair` in `query_knowledge_base`: a tuple
      gives its two parts, but a dictionary unpacks into its KEYS. */
  function Unpack(p: PairValue): Result<Pair>
  {
    match p
    case TuplePair(fp, j) => Ok(KbRetrieval.Pair(fp, j))
    case DictPair(Some(_), _) => Ok(KbRetrieval.Pair("folder_path", "job_id"))
    case DictPair(None, _) => Err("not enough values to unpack (expected 2, got 1)")
  }

  function UnpackAll(ps: seq<PairValue>): (r: Result<seq<Pair>>)
    ensures r.Ok? ==> |r.value| == |ps|
  {
    if |ps| == 0 then Ok([])
    else
      match UnpackAll(ps[..|ps| - 1])
      case Err(e) => Err(e)
      case Ok(qs) =>
        match Unpack(ps[|ps| - 1])
        case Err(e) => Err(e)
        case Ok(q) => Ok(qs + [q])
  }

  /** The knowledge-base filter of `query_knowledge_base` as written. */
  function DirectFilterAsWritten(ps: seq<PairValue>): Result<Filter>
  {
    match UnpackAll(ps)
    case Err(e) => Err(e)
    case Ok(qs) => Ok(KbRetrieval.BuildFilter(qs))
  }

  /** The filter with every pair read by its keys, as the agent path reads
      them. */
  function DirectFilter(ps: seq<PairValue>): Result<Filter>
  {
    match NormalizePairs(ps)
    case Err(e) => Err(e)
    case Ok(qs) => Ok(KbRetrieval.BuildFilter(qs))
  }

  /** As written, the asynchronous knowledge-base path filters on the
      literal key names: for one folder `A` with job `J` the filter asks
      for folder_path = "folder_path" and job_id = "job_id", so no document
      of that folder passes. */
  lemma DirectFilterAsWrittenMissesFolder(fp: string, j: string)
    requires fp != "folder_path"
    ensures DirectFilterAsWritten([DictPair(Some(fp), j)]) ==
      Ok(KbRetrieval.AndAll([KbRetrieval.Equals("folder_path", "folder_path"), KbRetrieval.Equals("job_id", "job_id")]))
    ensures !KbRetrieval.Admits(DirectFilterAsWritten([DictPair(Some(fp), j)]).value, map["folder_path" := fp, "job_id" := j])
  {
    var ps := [DictPair(Some(fp), j)];
    assert ps[..0] == [];
    var q := KbRetrieval.Pair("folder_path", "job_id");
    assert ps[..|ps| - 1] == [];
    assert UnpackAll([]) == Ok([]);
    assert Unpack(ps[|ps| - 1]) == Ok(q);
    assert [] + [q] == [q];
    assert UnpackAll(ps) == Ok([q]);
    var f := DirectFilterAsWritten(ps).value;
    var meta := map["folder_path" := fp, "job_id" := j];
    assert f.conditions[0].key in meta && meta[f.conditions[0].key] != f.conditions[0].value;
  }

  /** Read by key, the filter admits a document exactly when it belongs to
      one of the pairs; for the synchronous tuples both readings agree. */
  lemma DirectFilterSelectsPairs(ps: seq<PairValue>, meta: map<string, string>)
    requires NormalizePairs(ps).Ok?
    ensures DirectFilter(ps).Ok?
    ensures KbRetrieval.Admits(DirectFilter(ps).value, meta) <==>
      exists i :: 0 <= i < |ps| && Normalize(ps[i]).Ok? && KbRetrieval.Selects(Normalize(ps[i]).value, meta)
  {
    var qs := NormalizePairs(ps).value;
    NormalizePairsFacts(ps);
    KbRetrieval.BuildFilterSelectsPairs(qs, meta);
    if KbRetrieval.Admits(DirectFilter(ps).value, meta) {
      var i :| 0 <= i < |qs| && KbRetrieval.Selects(qs[i], meta);
      assert Normalize(ps[i]).Ok? && KbRetrieval.Selects(Normalize(ps[i]).value, meta);
    }
    if exists i :: 0 <= i < |ps| && Normalize(ps[i]).Ok? && KbRetrieval.Selects(Normalize(ps[i]).value, meta) {
      var i :| 0 <= i < |ps| && Normalize(ps[i]).Ok? && KbRetrieval.Selects(Normalize(ps[i]).value, meta);
      assert KbRetrieval.Selects(qs[i], meta);
    }
  }

  function AsTuples(ps: seq<Pair>): (r: seq<PairValue>)
    ensures |r| == |ps|
    ensures forall i :: 0 <= i < |ps| ==> r[i] == TuplePair(ps[i].folderPath, ps[i].jobId)
  {
    seq(|ps|, i requires 0 <= i < |ps| => TuplePair(ps[i].folderPath, ps[i].jobId))
  }

  /** On the synchronous handler's tuples the code as written and the
      by-key reading build the same filter, that of the pairs. */
  lemma TupleFiltersAgree(ps: seq<Pair>)
    ensures DirectFilterAsWritten(AsTuples(ps)) == Ok(KbRetrieval.BuildFilter(ps))
    ensures DirectFilter(AsTuples(ps)) == Ok(KbRetrieval.BuildFilter(ps))
  {
    UnpackTuples(ps);
    NormalizeTuples(ps);
  }

  lemma {:induction false} UnpackTuples(ps: seq<Pair>)
    ensures UnpackAll(AsTuples(ps)) == Ok(ps)
  {
    if |ps| > 0 {
      var pre := ps[..|ps| - 1];
      UnpackTuples(pre);
      assert AsTuples(ps)[..|ps| - 1] == AsTuples(pre);
      assert pre + [ps[|ps| - 1]] == ps;
    }
  }

  lemma {:induction false} NormalizeTuples(ps: seq<Pair>)
    ensures NormalizePairs(AsTuples(ps)) == Ok(ps)
  {
    if |ps| > 0 {
      var pre := ps[..|ps| - 1];
      NormalizeTuples(pre);
      assert AsTuples(ps)[..|ps| - 1] == AsTuples(pre);
      assert pre + [ps[|ps| - 1]] == ps;
    }
  }

  // ----- agent selection -----

  /** The agent ids from the environment; '' when unset. */
  datatype AgentConfig = AgentConfig(
    defaultId: string, defaultAlias: string,
    verificationId: string, verificationAlias: string,
    specificationId: string, specificationAlias: string)

  /** The defaults `BEDROCK_AGENT_ID` and `BEDROCK_AGENT_ALIAS_ID` carry. */
  const DefaultAgentId := "M89ZN5FKB4"
  const DefaultAgentAlias := "TSTALIASID"

  function OrElse(a: string, b: string): string
  {
    if a != "" then a else b
  }

  /** The (agent id, alias id) `invoke_agent_with_filter` calls. */
  function SelectAgent(agentType: string, c: AgentConfig): (string, string)
  {
    if agentType == "verification" then (OrElse(c.verificationId, c.defaultId), OrElse(c.verificationAlias, c.defaultAlias))
    else if agentType == "specification" then (OrElse(c.specificationId, c.defaultId), OrElse(c.specificationAlias, c.defaultAlias))
    else (c.defaultId, c.defaultAlias)
  }

  /** A verification or specification request uses its own agent when that
      is configured and the default agent otherwise (id and alias fall back
      separately); every other type uses the default agent. */
  lemma SelectAgentFallback(agentType: string, c: AgentConfig)
    ensures agentType !in {"verification", "specification"} ==> SelectAgent(agentType, c) == (c.defaultId, c.defaultAlias)
    ensures agentType == "verification" && c.verificationId != "" && c.verificationAlias != "" ==>
      SelectAgent(agentType, c) == (c.verificationId, c.verificationAlias)
    ensures agentType == "specification" && c.specificationId != "" && c.specificationAlias != "" ==>
      SelectAgent(agentType, c) == (c.specificationId, c.specificationAlias)
    ensures c.verificationId == "" && c.specificationId == "" ==> SelectAgent(agentType, c).0 == c.defaultId
  {
  }

  // ----- synchronous requests -----

  /** The body fields `handle_sync_query` reads. */
  datatype SyncRequest = SyncRequest(
    jobId: Option<string>,
    folderPath: Option<string>,
    folderPaths: seq<string>,
    folderDefaultJobIds: map<string, string>,
    chatSessionId: Option<string>,
    query: Option<string>,
    useAgent: bool)

  /** The querier's environment; '' when a variable is unset. */
  datatype QuerierEnv = QuerierEnv(
    jobsTable: string, chatHistoryTable: string, knowledgeBaseId: string, modelArn: string, defaultJobId: string)

  /** `", ".join(parts)`. */
  function JoinWith(parts: seq<string>, sep: string): string
  {
    if |parts| == 0 then ""
    else if |parts| == 1 then parts[0]
    else parts[0] + sep + JoinWith(parts[1..], sep)
  }

  /** The unset variables in their fixed order, then a malformed model ARN. */
  function ConfigErrors(env: QuerierEnv): (r: seq<string>)
    ensures |r| == 0 <==> env.jobsTable != "" && env.chatHistoryTable != "" && env.knowledgeBaseId != "" &&
                           env.modelArn != "" && Strs.StartsWith(env.modelArn, "arn:aws:bedrock")
  {
    (if env.jobsTable == "" then ["DYNAMODB_TABLE"] else [])
    + (if env.chatHistoryTable == "" then ["DYNAMODB_CHAT_HISTORY_TABLE"] else [])
    + (if env.knowledgeBaseId == "" then ["KNOWLEDGE_BASE_ID"] else [])
    + (if env.modelArn == "" then ["BEDROCK_MODEL_ARN"] else [])
    + (if env.modelArn != "" && !Strs.StartsWith(env.modelArn, "arn:aws:bedrock")
       then ["BEDROCK_MODEL_ARN has invalid format: " + env.modelArn] else [])
  }

  /** `(body.get(key, '') or '').strip()`. */
  function StrippedField(f: Option<string>): string
  {
    Strs.Strip(f.GetOr(""))
  }

  /** A single `folder_path` stands in for an empty `folder_paths`. */
  function PromotedFolders(req: SyncRequest): seq<string>
  {
    var fp := StrippedField(req.folderPath);
    if fp != "" && |req.folderPaths| == 0 then [fp] else req.folderPaths
  }

  /** What a validated synchronous request goes on with; the job id used
      for the history is the first pair's. */
  datatype SyncPlan = SyncPlan(
    pairs: seq<Pair>, folderPaths: seq<string>, historyJobId: string, chatSessionId: string, query: string, useAgent: bool)

  datatype SyncCheck = Proceed(plan: SyncPlan) | Refuse(status: int, error: string)

  const MissingScope := "ジョブIDまたはフォルダパスが指定されていません"
  const MissingSession := "チャットセッションIDが指定されていません"
  const MissingQuestion := "質問が指定されていません"
  const MissingFolders := "フォルダパスが指定されていません"

  /** The checks of `handle_sync_query`, in its order. */
  function CheckSync(req: SyncRequest, env: QuerierEnv): SyncCheck
  {
    var fps := PromotedFolders(req);
    var jobId0 := StrippedField(req.jobId);
    var jobId := if jobId0 == "" && |fps| == 0 && env.defaultJobId != "" then env.defaultJobId else jobId0;
    var sid := StrippedField(req.chatSessionId);
    var query := StrippedField(req.query);
    var errs := ConfigErrors(env);
    if |errs| > 0 then Refuse(500, "Configuration error: " + JoinWith(errs, ", "))
    else if jobId == "" && |fps| == 0 then Refuse(400, MissingScope)
    else if sid == "" then Refuse(400, MissingSession)
    else if query == "" then Refuse(400, MissingQuestion)
    else if |fps| == 0 then Refuse(400, MissingFolders)
    else
      match SyncPairs(fps, req.folderDefaultJobIds)
      case Err(e) => Refuse(400, e)
      case Ok(ps) => Proceed(SyncPlan(ps, fps, ps[0].jobId, sid, query, req.useAgent))
  }

  /** A configuration problem wins over every request check; a request
      goes on only with a session, a question and one pair per folder (each
      with its folder's default job id, the history using the first); with
      no folder at all it is refused whatever job id it names, so the
      `JOBID` default never lets a request through. */
  lemma CheckSyncFacts(req: SyncRequest, env: QuerierEnv)
    ensures |ConfigErrors(env)| > 0 ==> CheckSync(req, env).Refuse? && CheckSync(req, env).status == 500
    ensures CheckSync(req, env).Refuse? ==> CheckSync(req, env).status in {400, 500}
    ensures |PromotedFolders(req)| == 0 ==> CheckSync(req, env).Refuse?
    ensures CheckSync(req, env).Proceed? ==>
      var plan := CheckSync(req, env).plan;
      plan.chatSessionId != "" && plan.query != "" && plan.folderPaths == PromotedFolders(req) &&
      |plan.pairs| == |plan.folderPaths| > 0 && plan.historyJobId == plan.pairs[0].jobId &&
      (forall i :: 0 <= i < |plan.pairs| ==>
         plan.folderPaths[i] in req.folderDefaultJobIds &&
         plan.pairs[i] == KbRetrieval.Pair(plan.folderPaths[i], req.folderDefaultJobIds[plan.folderPaths[i]]) &&
         plan.pairs[i].jobId != "")
  {
    var fps := PromotedFolders(req);
    SyncPairsFacts(fps, req.folderDefaultJobIds);
  }

  /** Whatever folders synchronous mode accepts, asynchronous mode builds
      the same pairs from them: sync is the stricter of the two. */
  lemma SyncStricterThanAsync(req: SyncRequest, env: QuerierEnv)
    requires CheckSync(req, env).Proceed?
    ensures AsyncPairs(PromotedFolders(req), req.folderDefaultJobIds, StrippedField(req.jobId)) ==
      Ok(AsDicts(CheckSync(req, env).plan.pairs))
  {
    SyncAcceptedAsyncAgrees(PromotedFolders(req), req.folderDefaultJobIds, StrippedField(req.jobId));
  }

  /** A lone `folder_path` is queried as a one-folder list. */
  lemma FolderPathPromoted(req: SyncRequest, env: QuerierEnv)
    requires StrippedField(req.folderPath) != "" && |req.folderPaths| == 0
    ensures CheckSync(req, env).Proceed? ==> CheckSync(req, env).plan.folderPaths == [StrippedField(req.folderPath)]
  {
  }

  /** The error reply of `handle_sync_query`. */
  datatype ErrorReply = ErrorReply(status: int, error: string, details: Option<string>)

  const GenericError := "エラーが発生しました。管理者に連絡してください"

  /** Messages the knowledge-base query raises for a missing or unready
      knowledge base are passed on as 503; anything else is a 500 with the
      first 200 characters as details. */
  function SyncErrorReply(msg: string): (r: ErrorReply)
    ensures r.status in {500, 503}
    ensures r.status == 503 <==>
      Strs.Contains(msg, "準備中") || Strs.Contains(msg, "見つかりません") || Strs.Contains(msg, "ナレッジベースエラー")
    ensures r.status == 503 ==> r.error == msg && r.details.None?
    ensures r.status == 500 ==> r.error == GenericError && r.details.Some?
    ensures r.details.Some? ==> |r.details.value| == (if |msg| <= 200 then |msg| else 200) &&
                                r.details.value == msg[..|r.details.value|]
  {
    if Strs.Contains(msg, "準備中") || Strs.Contains(msg, "見つかりません") || Strs.Contains(msg, "ナレッジベースエラー")
    then ErrorReply(503, msg, None)
    else ErrorReply(500, GenericError, Some(if |msg| <= 200 then msg else msg[..200]))
  }

  // ----- asynchronous requests -----

  /** What the knowledge base or the agent answers. */
  datatype Answer = Answer(text: string, sources: seq<Source>)

  /** The agent call: (agent id, alias id), session id, question, pairs. */
  type AgentCall = ((string, string), string, string, seq<Pair>) -> Result<Answer>

  /** The direct knowledge-base call: question and filter. */
  type KbCall = (string, Filter) -> Result<Answer>

  /** Pairs and answer of an asynchronous query, or the message of the
      exception that aborts it. The knowledge-base path reads the pairs by
      key (see `DirectFilter`). */
  function AsyncAnswer(ev: QueryStatus.AsyncQueryEvent, cfg: AgentConfig, agent: AgentCall, kb: KbCall)
    : Result<(seq<PairValue>, Answer)>
  {
    var query := Strs.Strip(ev.query);
    match AsyncPairs(ev.folderPaths, ev.folderDefaultJobIds, Strs.Strip(ev.jobId))
    case Err(e) => Err(e)
    case Ok(pairs) =>
      if ev.useAgent then
        match NormalizePairs(pairs)
        case Err(e) => Err(e)
        case Ok(qs) =>
          match agent(SelectAgent(ev.agentType, cfg), Strs.Strip(ev.chatSessionId), query, qs)
          case Err(e) => Err(e)
          case Ok(a) => Ok((pairs, a))
      else
        match DirectFilter(pairs)
        case Err(e) => Err(e)
        case Ok(f) =>
          match kb(query, f)
          case Err(e) => Err(e)
          case Ok(a) => Ok((pairs, a))
  }

  /** The job id the history is saved under: the request's, else the first
      pair's, else `session-{chat_session_id}`. */
  function EffectiveJobId(jobId: string, pairs: seq<PairValue>, sid: string): string
  {
    var fromPairs := if jobId != "" then jobId else if |pairs| > 0 then pairs[0].jobId else "";
    if fromPairs == "" && sid != "" then "session-" + sid else fromPairs
  }

  /** Every pair asynchronous mode builds carries a job id, so the history
      job id is the request's or the first pair's, never empty, and the
      `session-` fallback is not reached. */
  lemma AsyncHistoryJobId(fps: seq<string>, defaults: map<string, string>, jobId: string, sid: string)
    requires AsyncPairs(fps, defaults, jobId).Ok?
    ensures var ps := AsyncPairs(fps, defaults, jobId).value;
      EffectiveJobId(jobId, ps, sid) == (if jobId != "" then jobId else ps[0].jobId) &&
      EffectiveJobId(jobId, ps, sid) != ""
  {
    KeptFoldersJobIds(fps, defaults);
  }

  lemma {:induction false} KeptFoldersJobIds(fps: seq<string>, defaults: map<string, string>)
    ensures forall i :: 0 <= i < |KeptFolders(fps, defaults)| ==> KeptFolders(fps, defaults)[i].jobId != ""
  {
    if |fps| > 0 {
      KeptFoldersJobIds(fps[..|fps| - 1], defaults);
    }
  }

  /** The two history writes of `handle_async_query` and the message id of
      the answer; each write may fail on its own (the flags), which only
      loses that message. */
  function SaveHistory(items: seq<ChatItem>, ev: QueryStatus.AsyncQueryEvent, pairs: seq<PairValue>, a: Answer,
                       now: string, nowEpoch: int, userUuid: string, answerUuid: string,
                       userSaved: bool, answerSaved: bool): (seq<ChatItem>, Option<string>)
  {
    var sid := Strs.Strip(ev.chatSessionId);
    var jid := EffectiveJobId(Strs.Strip(ev.jobId), pairs, sid);
    if sid == "" || jid == "" then (items, None)
    else
      var u := NewMessageItem(jid, "user", Strs.Strip(ev.query), [], sid, ev.folderPaths, "", now, nowEpoch, userUuid);
      var items1 := if userSaved then PutItem(items, u) else items;
      var m := NewMessageItem(jid, "assistant", a.text, a.sources, sid, ev.folderPaths, "", now, nowEpoch, answerUuid);
      if answerSaved then (PutItem(items1, m), Some(MessageId(now, answerUuid))) else (items1, None)
  }

  /** After a successful asynchronous query the answer has a message id
      exactly when there is a session and its write succeeded; the answer
      is then stored under that id with its sources, and the question is
      stored with the selected folders. */
  lemma SaveHistoryFacts(items: seq<ChatItem>, ev: QueryStatus.AsyncQueryEvent, cfg: AgentConfig, agent: AgentCall,
                         kb: KbCall, now: string, nowEpoch: int, userUuid: string, answerUuid: string,
                         userSaved: bool, answerSaved: bool)
    requires AsyncAnswer(ev, cfg, agent, kb).Ok?
    ensures var res := AsyncAnswer(ev, cfg, agent, kb).value;
      var saved := SaveHistory(items, ev, res.0, res.1, now, nowEpoch, userUuid, answerUuid, userSaved, answerSaved);
      (saved.1.Some? <==> Strs.Strip(ev.chatSessionId) != "" && answerSaved) &&
      (saved.1.Some? ==> (saved.1.value == MessageId(now, answerUuid) &&
         exists i :: 0 <= i < |saved.0| && saved.0[i].messageId == saved.1 && saved.0[i].role == Some("assistant") &&
                     saved.0[i].content == Some(res.1.text) && saved.0[i].chatSessionId == Some(Strs.Strip(ev.chatSessionId)))) &&
      (Strs.Strip(ev.chatSessionId) == "" ==> saved.0 == items)
  {
    var res := AsyncAnswer(ev, cfg, agent, kb).value;
    AsyncHistoryJobId(ev.folderPaths, ev.folderDefaultJobIds, Strs.Strip(ev.jobId), Strs.Strip(ev.chatSessionId));
    var sid := Strs.Strip(ev.chatSessionId);
    var saved := SaveHistory(items, ev, res.0, res.1, now, nowEpoch, userUuid, answerUuid, userSaved, answerSaved);
    if sid != "" && answerSaved {
      var jid := EffectiveJobId(Strs.Strip(ev.jobId), res.0, sid);
      var u := NewMessageItem(jid, "user", Strs.Strip(ev.query), [], sid, ev.folderPaths, "", now, nowEpoch, userUuid);
      var items1 := if userSaved then PutItem(items, u) else items;
      var m := NewMessageItem(jid, "assistant", res.1.text, res.1.sources, sid, ev.folderPaths, "", now, nowEpoch, answerUuid);
      PutItemStores(items1, m);
      var i :| 0 <= i < |saved.0| && saved.0[i] == m;
    }
  }

  /** An asynchronous query fails when no pair can be built, and a job id
      without folders fails on either path, since that pair has no folder. */
  lemma AsyncAnswerFailures(ev: QueryStatus.AsyncQueryEvent, cfg: AgentConfig, agent: AgentCall, kb: KbCall)
    ensures AsyncPairs(ev.folderPaths, ev.folderDefaultJobIds, Strs.Strip(ev.jobId)).Err? ==>
      AsyncAnswer(ev, cfg, agent, kb) == Err(AsyncPairs(ev.folderPaths, ev.folderDefaultJobIds, Strs.Strip(ev.jobId)).error)
    ensures |ev.folderPaths| == 0 && Strs.Strip(ev.jobId) != "" ==> AsyncAnswer(ev, cfg, agent, kb) == Err(MissingFolderKey)
    ensures |ev.folderPaths| == 0 && Strs.Strip(ev.jobId) == "" ==> AsyncAnswer(ev, cfg, agent, kb) == Err(NoQueryScope)
  {
    if |ev.folderPaths| == 0 && Strs.Strip(ev.jobId) != "" {
      var ps := [DictPair(None, Strs.Strip(ev.jobId))];
      assert ps[..|ps| - 1] == [];
      assert NormalizePairs(ps) == Err(MissingFolderKey);
    }
  }

  /** A query answered with pairs used exactly those asynchronous pair
      building gave, read by key. */
  lemma AsyncAnswerUsesPairs(ev: QueryStatus.AsyncQueryEvent, cfg: AgentConfig, agent: AgentCall, kb: KbCall)
    requires AsyncAnswer(ev, cfg, agent, kb).Ok?
    ensures var res := AsyncAnswer(ev, cfg, agent, kb).value;
      AsyncPairs(ev.folderPaths, ev.folderDefaultJobIds, Strs.Strip(ev.jobId)) == Ok(res.0) &&
      NormalizePairs(res.0).Ok? &&
      (ev.useAgent ==>
         agent(SelectAgent(ev.agentType, cfg), Strs.Strip(ev.chatSessionId), Strs.Strip(ev.query), NormalizePairs(res.0).value) == Ok(res.1)) &&
      (!ev.useAgent ==>
         kb(Strs.Strip(ev.query), KbRetrieval.BuildFilter(NormalizePairs(res.0).value)) == Ok(res.1))
  {
  }

  /** `handle_async_query` over the status and chat tables: on success the
      record is completed (with the answer's message id when it was saved),
      on any exception it is failed with the message, which is raised
      again (`Err`). */
  method HandleAsyncQuery(status: QueryStatus.StatusTable, chat: ChatTable, ev: QueryStatus.AsyncQueryEvent,
                          cfg: AgentConfig, agent: AgentCall, kb: KbCall,
                          now: string, nowEpoch: int, userUuid: string, answerUuid: string,
                          userSaved: bool, answerSaved: bool)
    returns (r: Result<int>)
    modifies status, chat
    ensures match AsyncAnswer(ev, cfg, agent, kb)
      case Err(e) =>
        r == Err(e) && chat.items == old(chat.items) &&
        status.records == old(status.records)[ev.queryId :=
          QueryStatus.FailedRecord(QueryStatus.Lookup(old(status.records), ev.queryId), e, now)]
      case Ok(res) =>
        var saved := SaveHistory(old(chat.items), ev, res.0, res.1, now, nowEpoch, userUuid, answerUuid, userSaved, answerSaved);
        r == Ok(200) && chat.items == saved.0 &&
        status.records == old(status.records)[ev.queryId :=
          QueryStatus.CompletedRecord(QueryStatus.Lookup(old(status.records), ev.queryId), res.1.text, res.1.sources, now, saved.1)]
  {
    var outcome := AsyncAnswer(ev, cfg, agent, kb);
    if outcome.Err? {
      status.MarkFailed(ev.queryId, outcome.error, now);
      return Err(outcome.error);
    }
    var pairs, answer := outcome.value.0, outcome.value.1;
    var sid := Strs.Strip(ev.chatSessionId);
    var jid := EffectiveJobId(Strs.Strip(ev.jobId), pairs, sid);
    var messageId: Option<string> := None;
    if sid != "" && jid != "" {
      var _ := chat.SaveChatMessage(jid, "user", Strs.Strip(ev.query), [], sid, ev.folderPaths, "",
                                    now, nowEpoch, userUuid, userSaved);
      messageId := chat.SaveChatMessage(jid, "assistant", answer.text, answer.sources, sid, ev.folderPaths, "",
                                        now, nowEpoch, answerUuid, answerSaved);
    }
    status.MarkCompleted(ev.queryId, answer.text, answer.sources, now, messageId);
    return Ok(200);
  }
}
