/** The agent's action group: it re-reads the (folder_path, job_id) pairs the
    querier handed to the agent, queries the knowledge base with the same
    filter, and always answers the agent, with an error body when anything
    fails. URI parsing, the filter and source extraction are the ones of
    `KbRetrieval`, which this file repeats in the backend. */
module AgentKbAction {
  import opened Wrappers
  import Strs
  import opened Json
  import KbRetrieval

  type Pair = KbRetrieval.Pair
  type Source = KbRetrieval.Source

  // ----- parameters -----

  /** One entry of the event's `parameters`; a missing name or value reads as ''. */
  datatype Param = Param(name: string, value: string)

  /** The parameter dictionary: later entries overwrite earlier ones. */
  function ParamMap(ps: seq<Param>): map<string, string>
  {
    if |ps| == 0 then map[]
    else ParamMap(ps[..|ps| - 1])[ps[|ps| - 1].name := ps[|ps| - 1].value]
  }

  /** A name is in the dictionary iff some entry has it, and it maps to the
      value of its last entry. */
  lemma {:induction false} ParamMapLastWins(ps: seq<Param>, k: string)
    ensures k in ParamMap(ps) <==> exists i :: 0 <= i < |ps| && ps[i].name == k
    ensures k in ParamMap(ps) ==>
      exists i :: 0 <= i < |ps| && ps[i].name == k && ParamMap(ps)[k] == ps[i].value &&
        forall j :: i < j < |ps| ==> ps[j].name != k
  {
    if |ps| > 0 {
      var pre := ps[..|ps| - 1];
      ParamMapLastWins(pre, k);
      var last := |ps| - 1;
      if ps[last].name == k {
        assert ps[last].name == k && ParamMap(ps)[k] == ps[last].value;
      } else if k in ParamMap(pre) {
        var i :| 0 <= i < |pre| && pre[i].name == k && ParamMap(pre)[k] == pre[i].value &&
          forall j :: i < j < |pre| ==> pre[j].name != k;
        assert ps[i] == pre[i];
        assert forall j :: i < j < |ps| ==> ps[j].name != k by {
          forall j | i < j < |ps| ensures ps[j].name != k {
            if j < last { assert ps[j] == pre[j]; }
          }
        }
      } else {
        forall i | 0 <= i < |ps| ensures ps[i].name != k {
          if i < last { assert ps[i] == pre[i]; }
        }
      }
    }
  }

  /** The loop filling `param_dict`. */
  method CollectParams(ps: seq<Param>) returns (d: map<string, string>)
    ensures d == ParamMap(ps)
  {
    d := map[];
    for i := 0 to |ps|
      invariant d == ParamMap(ps[..i])
    {
      assert ps[..i + 1][..i] == ps[..i];
      d := d[ps[i].name := ps[i].value];
    }
    assert ps[..|ps|] == ps;
  }

  /** `d.get(k, '')`. */
  function Get(d: map<string, string>, k: string): string
  {
    if k in d then d[k] else ""
  }

  /** A `{{session.…}}` placeholder the agent did not fill in. */
  predicate IsSessionTemplate(s: string)
  {
    Strs.StartsWith(s, "{{session.") && Strs.EndsWith(s, "}}")
  }

  /** The pairs text: the parameter, or the `folder_job_pairs` session
      attribute when the parameter is still a placeholder. */
  function PairsText(d: map<string, string>, sessionAttributes: map<string, string>): string
  {
    var raw := Strs.Strip(Get(d, "folder_job_pairs"));
    if IsSessionTemplate(raw) then Strs.Strip(Get(sessionAttributes, "folder_job_pairs")) else raw
  }

  /** The placeholder is replaced by the session attribute, and any other
      parameter is used as given (stripped). */
  lemma PairsTextSource(d: map<string, string>, sessionAttributes: map<string, string>)
    ensures var raw := Strs.Strip(Get(d, "folder_job_pairs"));
      (IsSessionTemplate(raw) ==> PairsText(d, sessionAttributes) == Strs.Strip(Get(sessionAttributes, "folder_job_pairs"))) &&
      (!IsSessionTemplate(raw) ==> PairsText(d, sessionAttributes) == raw)
    ensures IsSessionTemplate("{{session.folder_job_pairs}}")
  {
    var t := "{{session.folder_job_pairs}}";
    assert t[..10] == "{{session.";
    assert t[|t| - 2..] == "}}";
  }

  // ----- reading the pairs -----

  const NotAnArray := "folder_job_pairs must be a JSON array"
  const NotAnObject := "Each pair must be a JSON object"
  const PairIncomplete := "Each pair must have folder_path and job_id"
  const InvalidJsonPrefix := "Invalid JSON format for folder_job_pairs: "

  /** Python's type name of a decoded value, as `AttributeError` reports it. */
  function TypeName(j: Json): string
  {
    match j
    case JNull => "NoneType"
    case JBool(_) => "bool"
    case JNum(_) => "int"
    case JStr(_) => "str"
    case JArr(_) => "list"
    case JObj(_) => "dict"
  }

  /** `pair.get(key, '').strip()`: a missing key reads as '', a non-string
      value has no `strip` and raises. */
  function FieldText(fields: map<string, Json>, key: string): (r: Result<string>)
    ensures key !in fields ==> r == Ok("")
    ensures key in fields && fields[key].JStr? ==> r == Ok(Strs.Strip(fields[key].s))
    ensures r.Err? <==> key in fields && !fields[key].JStr?
  {
    if key !in fields then Ok("")
    else match fields[key]
      case JStr(s) => Ok(Strs.Strip(s))
      case other => Err("'" + TypeName(other) + "' object has no attribute 'strip'")
  }

  /** One element of the array: an object with a non-empty folder_path and
      job_id (after stripping); folder_path is read first. */
  function ReadPair(item: Json): (r: Result<Pair>)
    ensures r.Ok? ==> r.value.folderPath != "" && r.value.jobId != ""
    ensures !item.JObj? ==> r == Err(NotAnObject)
  {
    match item
    case JObj(fields) =>
      (match FieldText(fields, "folder_path")
       case Err(e) => Err(e)
       case Ok(fp) =>
         match FieldText(fields, "job_id")
         case Err(e) => Err(e)
         case Ok(jid) => if fp == "" || jid == "" then Err(PairIncomplete) else Ok(KbRetrieval.Pair(fp, jid)))
    case _ => Err(NotAnObject)
  }

  /** The array read element by element, stopping at the first bad one. */
  function ReadPairs(items: seq<Json>): (r: Result<seq<Pair>>)
    ensures r.Ok? ==> |r.value| == |items|
  {
    if |items| == 0 then Ok([])
    else
      match ReadPairs(items[..|items| - 1])
      case Err(e) => Err(e)
      case Ok(ps) =>
        match ReadPair(items[|items| - 1])
        case Err(e) => Err(e)
        case Ok(p) => Ok(ps + [p])
  }

  /** The array is accepted iff every element is; pair i is then read from
      element i, and otherwise the error is the first bad element's. */
  lemma {:induction false} ReadPairsFacts(items: seq<Json>)
    ensures ReadPairs(items).Ok? <==> forall i :: 0 <= i < |items| ==> ReadPair(items[i]).Ok?
    ensures ReadPairs(items).Ok? ==> forall i :: 0 <= i < |items| ==> Ok(ReadPairs(items).value[i]) == ReadPair(items[i])
    ensures ReadPairs(items).Err? ==>
      exists k :: 0 <= k < |items| && ReadPair(items[k]) == Err(ReadPairs(items).error) &&
        forall j :: 0 <= j < k ==> ReadPair(items[j]).Ok?
  {
    ReadPairsOkIff(items);
    ReadPairsFirstError(items);
  }

  lemma {:induction false} ReadPairsOkIff(items: seq<Json>)
    ensures ReadPairs(items).Ok? <==> forall i :: 0 <= i < |items| ==> ReadPair(items[i]).Ok?
    ensures ReadPairs(items).Ok? ==> forall i :: 0 <= i < |items| ==> Ok(ReadPairs(items).value[i]) == ReadPair(items[i])
  {
    if |items| > 0 {
      var pre := items[..|items| - 1];
      ReadPairsOkIff(pre);
      assert forall i :: 0 <= i < |pre| ==> pre[i] == items[i];
      if ReadPairs(pre).Ok? && ReadPair(items[|items| - 1]).Ok? {
        var r := ReadPairs(items).value;
        assert r == ReadPairs(pre).value + [ReadPair(items[|items| - 1]).value];
        forall i | 0 <= i < |items| ensures Ok(r[i]) == ReadPair(items[i]) {
          if i < |pre| { assert r[i] == ReadPairs(pre).value[i]; }
        }
      }
    }
  }

  /** Element `k` is the first bad one, failing with `e`. */
  predicate FirstBad(items: seq<Json>, k: int, e: string)
  {
    0 <= k < |items| && ReadPair(items[k]) == Err(e) && forall j :: 0 <= j < k ==> ReadPair(items[j]).Ok?
  }

  lemma {:induction false} ReadPairsFirstError(items: seq<Json>)
    ensures ReadPairs(items).Err? ==> exists k :: FirstBad(items, k, ReadPairs(items).error)
  {
    if |items| > 0 && ReadPairs(items).Err? {
      var pre := items[..|items| - 1];
      var e := ReadPairs(items).error;
      if ReadPairs(pre).Err? {
        ReadPairsFirstError(pre);
        var k :| FirstBad(pre, k, ReadPairs(pre).error);
        FirstBadExtends(items, k, e);
      } else {
        ReadPairsOkIff(pre);
        FirstBadLast(items, pre, e);
      }
    }
  }

  lemma FirstBadExtends(items: seq<Json>, k: int, e: string)
    requires |items| > 0 && FirstBad(items[..|items| - 1], k, e)
    ensures FirstBad(items, k, e)
  {
    assert items[k] == items[..|items| - 1][k];
    forall j | 0 <= j < k ensures ReadPair(items[j]).Ok? {
      assert items[j] == items[..|items| - 1][j];
    }
  }

  lemma FirstBadLast(items: seq<Json>, pre: seq<Json>, e: string)
    requires |items| > 0 && pre == items[..|items| - 1] && ReadPair(items[|items| - 1]) == Err(e)
    requires forall i :: 0 <= i < |pre| ==> ReadPair(pre[i]).Ok?
    ensures FirstBad(items, |items| - 1, e)
  {
    forall j | 0 <= j < |items| - 1 ensures ReadPair(items[j]).Ok? {
      assert items[j] == pre[j];
    }
  }

  /** Once a prefix fails, the whole array fails with the same error. */
  lemma {:induction false} ReadPairsErrorStays(items: seq<Json>, n: nat)
    requires n <= |items| && ReadPairs(items[..n]).Err?
    ensures ReadPairs(items) == ReadPairs(items[..n])
    decreases |items| - n
  {
    if n < |items| {
      assert items[..n + 1][..n] == items[..n];
      ReadPairsErrorStays(items, n + 1);
    } else {
      assert items[..n] == items;
    }
  }

  /** The validation loop of `lambda_handler`, raising at the first bad element. */
  method ParsePairList(items: seq<Json>) returns (r: Result<seq<Pair>>)
    ensures r == ReadPairs(items)
  {
    var pairs: seq<Pair> := [];
    for i := 0 to |items|
      invariant ReadPairs(items[..i]) == Ok(pairs)
    {
      assert items[..i + 1][..i] == items[..i];
      var p := ReadPair(items[i]);
      if p.Err? {
        ReadPairsErrorStays(items, i + 1);
        return Err(p.error);
      }
      pairs := pairs + [p.value];
    }
    assert items[..|items|] == items;
    return Ok(pairs);
  }

  /** The JSON decoder: the decoded value or the decoder's error message. */
  type Decoder = string -> Result<Json>

  /** The pairs text decoded and validated. */
  function ParsePairsText(text: string, decode: Decoder): (r: Result<seq<Pair>>)
  {
    match decode(text)
    case Err(e) => Err(InvalidJsonPrefix + e)
    case Ok(JArr(items)) => ReadPairs(items)
    case Ok(_) => Err(NotAnArray)
  }

  /** The pairs text is accepted exactly when it decodes to an array of
      objects each with non-empty string folder_path and job_id; the pairs
      are those fields, stripped, in array order (possibly none). */
  lemma ParsePairsTextFacts(text: string, decode: Decoder)
    ensures ParsePairsText(text, decode).Ok? <==>
      (decode(text).Ok? && decode(text).value.JArr? &&
       forall i :: 0 <= i < |decode(text).value.items| ==> ReadPair(decode(text).value.items[i]).Ok?)
    ensures ParsePairsText(text, decode).Ok? ==>
      var items := decode(text).value.items;
      var ps := ParsePairsText(text, decode).value;
      |ps| == |items| &&
      forall i :: 0 <= i < |ps| ==>
        items[i].JObj? && "folder_path" in items[i].fields && "job_id" in items[i].fields &&
        items[i].fields["folder_path"].JStr? && items[i].fields["job_id"].JStr? &&
        ps[i].folderPath == Strs.Strip(items[i].fields["folder_path"].s) && ps[i].folderPath != "" &&
        ps[i].jobId == Strs.Strip(items[i].fields["job_id"].s) && ps[i].jobId != ""
  {
    if decode(text).Ok? && decode(text).value.JArr? {
      ReadPairsFacts(decode(text).value.items);
    }
  }

  // ----- the search and the handler -----

  /** The knowledge-base call: question and filter to answer text and citations. */
  type KbSearch = (string, KbRetrieval.Filter) -> Result<(string, seq<KbRetrieval.Citation>)>

  /** Each source with the presigned URL for its key, when one was made. */
  function WithUrls(sources: seq<Source>, presign: string -> Option<string>): (r: seq<Source>)
    ensures |r| == |sources|
    ensures forall i :: 0 <= i < |r| ==>
      r[i] == KbRetrieval.Source(sources[i].fileName, sources[i].s3Key, presign(sources[i].s3Key))
  {
    seq(|sources|, i requires 0 <= i < |sources| =>
      KbRetrieval.Source(sources[i].fileName, sources[i].s3Key, presign(sources[i].s3Key)))
  }

  /** `query_knowledge_base_with_filter`: the filter of the pairs, then the
      de-duplicated sources of the citations, each with its URL. */
  function Search(query: string, pairs: seq<Pair>, kb: KbSearch, presign: string -> Option<string>, bucket: string)
    : Result<(string, seq<Source>)>
  {
    match kb(query, KbRetrieval.BuildFilter(pairs))
    case Err(e) => Err(e)
    case Ok(res) =>
      var cands := KbRetrieval.Candidates(KbRetrieval.AllReferences(res.1), bucket);
      Ok((res.0, WithUrls(KbRetrieval.DedupBy(cands, KbRetrieval.SourceKey), presign)))
  }

  /** The sources handed back name a file and a key, no two share a key,
      and each carries its key's presigned URL. */
  lemma SearchSourcesWellFormed(query: string, pairs: seq<Pair>, kb: KbSearch, presign: string -> Option<string>, bucket: string)
    requires Search(query, pairs, kb, presign, bucket).Ok?
    ensures var s := Search(query, pairs, kb, presign, bucket).value.1;
      (forall i :: 0 <= i < |s| ==> s[i].fileName != "" && s[i].s3Key != "" && s[i].presignedUrl == presign(s[i].s3Key)) &&
      (forall i, j :: 0 <= i < j < |s| ==> s[i].s3Key != s[j].s3Key)
  {
    var cits := kb(query, KbRetrieval.BuildFilter(pairs)).value.1;
    var cands := KbRetrieval.Candidates(KbRetrieval.AllReferences(cits), bucket);
    var d := KbRetrieval.DedupBy(cands, KbRetrieval.SourceKey);
    KbRetrieval.ExtractedSourcesWellFormed(cits, bucket);
    assert d == KbRetrieval.DedupBy(KbRetrieval.Candidates(KbRetrieval.AllReferences(cits), bucket), KbRetrieval.SourceKey);
    assert forall i :: 0 <= i < |d| ==> d[i].fileName != "" && d[i].s3Key != "";
    assert forall i, j :: 0 <= i < j < |d| ==> d[i].s3Key != d[j].s3Key;
    WithUrlsWellFormed(d, presign);
  }

  lemma WithUrlsWellFormed(d: seq<Source>, presign: string -> Option<string>)
    requires forall i :: 0 <= i < |d| ==> d[i].fileName != "" && d[i].s3Key != ""
    requires forall i, j :: 0 <= i < j < |d| ==> d[i].s3Key != d[j].s3Key
    ensures var s := WithUrls(d, presign);
      (forall i :: 0 <= i < |s| ==> s[i].fileName != "" && s[i].s3Key != "" && s[i].presignedUrl == presign(s[i].s3Key)) &&
      (forall i, j :: 0 <= i < j < |s| ==> s[i].s3Key != s[j].s3Key)
  {
  }

  datatype AgentEvent = AgentEvent(
    actionGroup: Option<string>, functionName: Option<string>,
    parameters: seq<Param>, sessionAttributes: map<string, string>)

  /** The JSON body returned to the agent. */
  datatype Body =
    | Answered(answer: string, sources: seq<Source>)
    | Failed(error: string, answer: string, sources: seq<Source>)

  datatype AgentResponse = AgentResponse(actionGroup: string, functionName: string, body: Body)

  const MissingQuery := "Query parameter is missing"
  const MissingPairs := "Folder job pairs parameter is missing"
  const FailureAnswer := "エラーが発生しました。管理者に連絡してください。"

  /** What the action computes before building its reply. */
  function Outcome(ev: AgentEvent, decode: Decoder, kb: KbSearch, presign: string -> Option<string>, bucket: string)
    : Result<(string, seq<Source>)>
  {
    var d := ParamMap(ev.parameters);
    var query := Strs.Strip(Get(d, "query"));
    var text := PairsText(d, ev.sessionAttributes);
    if query == "" then Err(MissingQuery)
    else if text == "" then Err(MissingPairs)
    else
      match ParsePairsText(text, decode)
      case Err(e) => Err(e)
      case Ok(pairs) => Search(query, pairs, kb, presign, bucket)
  }

  /** The reply: every exception becomes an error body, so the action never
      raises; a missing action group or function reads as '' on success
      and as 'unknown' on failure. */
  function Reply(ev: AgentEvent, outcome: Result<(string, seq<Source>)>): AgentResponse
  {
    match outcome
    case Ok(res) => AgentResponse(ev.actionGroup.GetOr(""), ev.functionName.GetOr(""), Answered(res.0, res.1))
    case Err(e) => AgentResponse(ev.actionGroup.GetOr("unknown"), ev.functionName.GetOr("unknown"), Failed(e, FailureAnswer, []))
  }

  /** `lambda_handler`. */
  method HandleAgentAction(ev: AgentEvent, decode: Decoder, kb: KbSearch, presign: string -> Option<string>, bucket: string)
    returns (resp: AgentResponse)
    ensures resp == Reply(ev, Outcome(ev, decode, kb, presign, bucket))
  {
    var d := CollectParams(ev.parameters);
    var query := Strs.Strip(Get(d, "query"));
    var text := PairsText(d, ev.sessionAttributes);
    if query == "" {
      return Reply(ev, Err(MissingQuery));
    }
    if text == "" {
      return Reply(ev, Err(MissingPairs));
    }
    var decoded := decode(text);
    if decoded.Err? {
      return Reply(ev, Err(InvalidJsonPrefix + decoded.error));
    }
    if !decoded.value.JArr? {
      return Reply(ev, Err(NotAnArray));
    }
    var pairs := ParsePairList(decoded.value.items);
    if pairs.Err? {
      return Reply(ev, Err(pairs.error));
    }
    var res := kb(query, KbRetrieval.BuildFilter(pairs.value));
    if res.Err? {
      return Reply(ev, Err(res.error));
    }
    var sources := KbRetrieval.ExtractSources(res.value.1, bucket);
    return Reply(ev, Ok((res.value.0, WithUrls(sources, presign))));
  }

  /** The action answers exactly when the question and the pairs are
      present, the pairs are valid and the search succeeds; the search
      then used the filter of exactly those pairs. A failure carries the
      fixed apology and no sources. */
  lemma ReplyFacts(ev: AgentEvent, decode: Decoder, kb: KbSearch, presign: string -> Option<string>, bucket: string)
    ensures var d := ParamMap(ev.parameters);
      var query := Strs.Strip(Get(d, "query"));
      var text := PairsText(d, ev.sessionAttributes);
      var resp := Reply(ev, Outcome(ev, decode, kb, presign, bucket));
      (resp.body.Answered? <==>
         (query != "" && text != "" && ParsePairsText(text, decode).Ok? &&
          kb(query, KbRetrieval.BuildFilter(ParsePairsText(text, decode).value)).Ok?)) &&
      (resp.body.Answered? ==>
         resp.body.answer == kb(query, KbRetrieval.BuildFilter(ParsePairsText(text, decode).value)).value.0) &&
      (resp.body.Failed? ==> resp.body.answer == FailureAnswer && resp.body.sources == [])
    ensures var d := ParamMap(ev.parameters);
      Strs.Strip(Get(d, "query")) == "" ==> Reply(ev, Outcome(ev, decode, kb, presign, bucket)).body == Failed(MissingQuery, FailureAnswer, [])
  {
  }

  /** Every pair that reached the knowledge base had both fields, and a
      document passes the filter exactly when it matches one of them. */
  lemma SearchedPairsSelect(text: string, decode: Decoder, meta: map<string, string>)
    requires ParsePairsText(text, decode).Ok?
    ensures var ps := ParsePairsText(text, decode).value;
      (forall i :: 0 <= i < |ps| ==> ps[i].folderPath != "" && ps[i].jobId != "") &&
      (KbRetrieval.Admits(KbRetrieval.BuildFilter(ps), meta) <==> exists i :: 0 <= i < |ps| && KbRetrieval.Selects(ps[i], meta))
  {
    ParsePairsTextFacts(text, decode);
    KbRetrieval.BuildFilterSelectsPairs(ParsePairsText(text, decode).value, meta);
  }
}
