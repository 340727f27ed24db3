/** The chat-history lambda: session summaries, the full history of one
    session, conversation search, feedback updates, and the request routing
    in front of them. The table is the item list a full scan returns. */
module HistoryManager {
  import opened Wrappers
  import opened ChatItems
  import Strs
  import Order
  import KbRetrieval

  // ----- mode filter on session ids -----

  const VerificationPrefix := "verification_"
  const SpecificationPrefix := "specification_"

  /** Whether messages of session `sid` survive the `mode` filter: an absent
      or empty mode keeps everything, and so does an unknown mode. */
  predicate ModeKeeps(mode: Option<string>, sid: string)
  {
    if !Truthy(mode) then true
    else if mode.value == "verification" then Strs.StartsWith(sid, VerificationPrefix)
    else if mode.value == "specification" then Strs.StartsWith(sid, SpecificationPrefix)
    else if mode.value == "default" then
      !Strs.StartsWith(sid, VerificationPrefix) && !Strs.StartsWith(sid, SpecificationPrefix)
    else true
  }

  /** The three named modes split the session ids: each id is kept by
      exactly one of them, and no mode keeps everything. */
  lemma ModesPartitionSessions(sid: string)
    ensures ModeKeeps(Some("verification"), sid) <==> Strs.StartsWith(sid, VerificationPrefix)
    ensures ModeKeeps(Some("specification"), sid) <==> Strs.StartsWith(sid, SpecificationPrefix)
    ensures ModeKeeps(Some("default"), sid)
            <==> !Strs.StartsWith(sid, VerificationPrefix) && !Strs.StartsWith(sid, SpecificationPrefix)
    ensures (if ModeKeeps(Some("verification"), sid) then 1 else 0)
          + (if ModeKeeps(Some("specification"), sid) then 1 else 0)
          + (if ModeKeeps(Some("default"), sid) then 1 else 0) == 1
    ensures ModeKeeps(None, sid) && ModeKeeps(Some(""), sid)
  {
    assert Strs.StartsWith(sid, VerificationPrefix) ==> sid[0] == 'v';
    assert Strs.StartsWith(sid, SpecificationPrefix) ==> sid[0] == 's';
  }

  // ----- grouping by session -----

  /** `message.get('chat_session_id', dflt)`. */
  function SessionOf(m: ChatItem, dflt: string): string
  {
    m.chatSessionId.GetOr(dflt)
  }

  /** The scanned messages the mode filter keeps, in scan order. */
  function Kept(ms: seq<ChatItem>, mode: Option<string>, dflt: string): (r: seq<ChatItem>)
    ensures forall i :: 0 <= i < |r| ==> ModeKeeps(mode, SessionOf(r[i], dflt))
  {
    if |ms| == 0 then []
    else
      var pre := Kept(ms[..|ms| - 1], mode, dflt);
      var m := ms[|ms| - 1];
      if ModeKeeps(mode, SessionOf(m, dflt)) then pre + [m] else pre
  }

  /** The messages of session `sid`, in scan order. */
  function InSession(ms: seq<ChatItem>, sid: string, dflt: string): (r: seq<ChatItem>)
    ensures forall i :: 0 <= i < |r| ==> SessionOf(r[i], dflt) == sid
    ensures forall i :: 0 <= i < |r| ==> r[i] in ms
  {
    if |ms| == 0 then []
    else
      var pre := InSession(ms[..|ms| - 1], sid, dflt);
      var m := ms[|ms| - 1];
      assert forall i :: 0 <= i < |pre| ==> pre[i] in ms by {
        forall i | 0 <= i < |pre| ensures pre[i] in ms {
          assert pre[i] in ms[..|ms| - 1];
        }
      }
      if SessionOf(m, dflt) == sid then pre + [m] else pre
  }

  /** The session ids in the order they are first met (a dict's key order). */
  function SessionIds(ms: seq<ChatItem>, dflt: string): seq<string>
  {
    if |ms| == 0 then []
    else
      var ids := SessionIds(ms[..|ms| - 1], dflt);
      var s := SessionOf(ms[|ms| - 1], dflt);
      if s in ids then ids else ids + [s]
  }

  /** Some message has session `sid`. */
  predicate HasSession(ms: seq<ChatItem>, sid: string, dflt: string)
  {
    exists i :: 0 <= i < |ms| && SessionOf(ms[i], dflt) == sid
  }

  lemma HasSessionSnoc(ms: seq<ChatItem>, sid: string, dflt: string)
    requires |ms| > 0
    ensures HasSession(ms, sid, dflt)
            <==> HasSession(ms[..|ms| - 1], sid, dflt) || SessionOf(ms[|ms| - 1], dflt) == sid
  {
    var pre := ms[..|ms| - 1];
    if HasSession(pre, sid, dflt) {
      var i :| 0 <= i < |pre| && SessionOf(pre[i], dflt) == sid;
      assert ms[i] == pre[i];
    }
    if HasSession(ms, sid, dflt) {
      var i :| 0 <= i < |ms| && SessionOf(ms[i], dflt) == sid;
      if i < |pre| { assert ms[i] == pre[i]; }
    }
  }

  /** An id is listed iff some message has it. */
  lemma {:induction false} SessionIdsMembers(ms: seq<ChatItem>, dflt: string)
    ensures forall sid :: sid in SessionIds(ms, dflt) <==> HasSession(ms, sid, dflt)
  {
    if |ms| > 0 {
      SessionIdsMembers(ms[..|ms| - 1], dflt);
      forall sid ensures HasSession(ms, sid, dflt)
                         <==> HasSession(ms[..|ms| - 1], sid, dflt) || SessionOf(ms[|ms| - 1], dflt) == sid {
        HasSessionSnoc(ms, sid, dflt);
      }
    }
  }

  /** No id is listed twice. */
  lemma {:induction false} SessionIdsDistinct(ms: seq<ChatItem>, dflt: string)
    ensures forall i, j :: 0 <= i < j < |SessionIds(ms, dflt)| ==> SessionIds(ms, dflt)[i] != SessionIds(ms, dflt)[j]
  {
    if |ms| > 0 {
      var last := SessionOf(ms[|ms| - 1], dflt);
      SessionIdsDistinct(ms[..|ms| - 1], dflt);
      var ids0 := SessionIds(ms[..|ms| - 1], dflt);
      if last !in ids0 {
        var ids := ids0 + [last];
        assert SessionIds(ms, dflt) == ids;
        forall i, j | 0 <= i < j < |ids| ensures ids[i] != ids[j] {
          assert ids[i] == ids0[i];
          if j == |ids0| { assert ids0[i] in ids0; } else { assert ids[j] == ids0[j]; }
        }
      }
    }
  }

  /** A session id that is not listed has no messages. */
  lemma {:induction false} InSessionUnlisted(ms: seq<ChatItem>, sid: string, dflt: string)
    requires sid !in SessionIds(ms, dflt)
    ensures InSession(ms, sid, dflt) == []
  {
    if |ms| > 0 {
      InSessionUnlisted(ms[..|ms| - 1], sid, dflt);
    }
  }

  lemma KeptSnoc(ms: seq<ChatItem>, i: nat, mode: Option<string>, dflt: string)
    requires i < |ms|
    ensures Kept(ms[..i + 1], mode, dflt)
            == Kept(ms[..i], mode, dflt) + (if ModeKeeps(mode, SessionOf(ms[i], dflt)) then [ms[i]] else [])
  {
    assert ms[..i + 1][..i] == ms[..i];
  }

  lemma SessionIdsSnoc(kept: seq<ChatItem>, m: ChatItem, dflt: string)
    ensures SessionIds(kept + [m], dflt)
            == if SessionOf(m, dflt) in SessionIds(kept, dflt) then SessionIds(kept, dflt)
               else SessionIds(kept, dflt) + [SessionOf(m, dflt)]
  {
    assert (kept + [m])[..|kept|] == kept;
  }

  lemma InSessionSnoc(kept: seq<ChatItem>, m: ChatItem, s: string, dflt: string)
    ensures InSession(kept + [m], s, dflt) == InSession(kept, s, dflt) + (if SessionOf(m, dflt) == s then [m] else [])
  {
    assert (kept + [m])[..|kept|] == kept;
  }

  /** `order` lists the sessions of `kept` in first-seen order and
      `sessions` maps each to its messages in scan order. */
  ghost predicate Grouped(kept: seq<ChatItem>, dflt: string, order: seq<string>, sessions: map<string, seq<ChatItem>>)
  {
    order == SessionIds(kept, dflt)
    && (forall s :: s in sessions <==> s in order)
    && (forall s :: s in sessions ==> sessions[s] == InSession(kept, s, dflt))
  }

  /** The grouping loop shared by summaries and search: the session ids in
      first-seen order, and each session's messages in scan order. */
  method GroupSessions(messages: seq<ChatItem>, mode: Option<string>, dflt: string)
    returns (order: seq<string>, sessions: map<string, seq<ChatItem>>)
    ensures order == SessionIds(Kept(messages, mode, dflt), dflt)
    ensures forall s :: s in sessions <==> s in order
    ensures forall s :: s in sessions ==> sessions[s] == InSession(Kept(messages, mode, dflt), s, dflt)
  {
    order := [];
    sessions := map[];
    assert messages[..0] == [];
    for i := 0 to |messages|
      invariant Grouped(Kept(messages[..i], mode, dflt), dflt, order, sessions)
    {
      var m := messages[i];
      var sid := SessionOf(m, dflt);
      KeptSnoc(messages, i, mode, dflt);
      if ModeKeeps(mode, sid) {
        assert Kept(messages[..i + 1], mode, dflt) == Kept(messages[..i], mode, dflt) + [m];
        order, sessions := AddToSession(order, sessions, Kept(messages[..i], mode, dflt), m, dflt);
      } else {
        assert Kept(messages[..i + 1], mode, dflt) == Kept(messages[..i], mode, dflt);
      }
    }
    assert messages[..|messages|] == messages;
  }

  /** One kept message joins its session, which is listed the first time it is seen. */
  method AddToSession(order0: seq<string>, sessions0: map<string, seq<ChatItem>>, ghost kept: seq<ChatItem>,
                      m: ChatItem, dflt: string)
    returns (order: seq<string>, sessions: map<string, seq<ChatItem>>)
    requires Grouped(kept, dflt, order0, sessions0)
    ensures Grouped(kept + [m], dflt, order, sessions)
  {
    var sid := SessionOf(m, dflt);
    order, sessions := order0, sessions0;
    SessionIdsSnoc(kept, m, dflt);
    if sid !in sessions {
      InSessionUnlisted(kept, sid, dflt);
      sessions := sessions[sid := []];
      order := order + [sid];
    }
    sessions := sessions[sid := sessions[sid] + [m]];
    forall s | s in sessions ensures sessions[s] == InSession(kept + [m], s, dflt) {
      InSessionSnoc(kept, m, s, dflt);
    }
  }

  // ----- summaries -----

  /** The sort key `x.get('timestamp', '')`. */
  function TsKey(m: ChatItem): Order.Key
  {
    Order.Text(Timestamp(m))
  }

  /** Index of the first message with role 'user', or -1. */
  function FirstUserIndex(ms: seq<ChatItem>): (r: int)
    ensures -1 <= r < |ms|
    ensures r >= 0 ==> HasRole(ms[r], "user")
    ensures forall j :: 0 <= j < |ms| && (r < 0 || j < r) ==> !HasRole(ms[j], "user")
  {
    if |ms| == 0 then -1
    else
      var f := FirstUserIndex(ms[..|ms| - 1]);
      if f >= 0 then f else if HasRole(ms[|ms| - 1], "user") then |ms| - 1 else -1
  }

  /** The `for msg in …: if role == 'user': break` loop. */
  method FindFirstUser(ms: seq<ChatItem>) returns (k: int)
    ensures k == FirstUserIndex(ms)
  {
    k := -1;
    var i := 0;
    while i < |ms|
      invariant 0 <= i <= |ms|
      invariant FirstUserIndex(ms[..i]) < 0
    {
      assert ms[..i + 1][..i] == ms[..i];
      if HasRole(ms[i], "user") {
        FirstUserAt(ms, i);
        return i;
      }
      i := i + 1;
    }
    assert ms[..i] == ms;
  }

  lemma FirstUserAt(ms: seq<ChatItem>, i: nat)
    requires i < |ms| && HasRole(ms[i], "user") && FirstUserIndex(ms[..i]) < 0
    ensures FirstUserIndex(ms) == i
  {
    forall j | 0 <= j < i ensures !HasRole(ms[j], "user") {
      assert ms[..i][j] == ms[j];
    }
  }

  datatype SessionSummary = SessionSummary(
    chatSessionId: string, firstQuestion: string, timestamp: string, messageId: string, messageCount: nat)

  function SummaryKey(s: SessionSummary): Order.Key
  {
    Order.Text(s.timestamp)
  }

  /** The summary of one session's messages: built from the earliest user
      message once the messages are sorted by timestamp; none without one. */
  function Summarize(sid: string, group: seq<ChatItem>): Option<SessionSummary>
  {
    var sorted := Order.SortBy(group, TsKey, false);
    var k := FirstUserIndex(sorted);
    if k < 0 then None
    else Some(SessionSummary(sid, Content(sorted[k]), Timestamp(sorted[k]),
                             sorted[k].messageId.GetOr(""), |group|))
  }

  /** The summaries of the sessions `ids`, in that order. */
  function SummaryList(ids: seq<string>, kept: seq<ChatItem>, dflt: string): seq<SessionSummary>
  {
    if |ids| == 0 then []
    else
      var pre := SummaryList(ids[..|ids| - 1], kept, dflt);
      var sid := ids[|ids| - 1];
      match Summarize(sid, InSession(kept, sid, dflt))
      case Some(x) => pre + [x]
      case None => pre
  }

  /** Sessions without a `chat_session_id` are grouped under 'unknown'. */
  const UnknownSession := "unknown"

  /** What `get_chat_history_summaries` returns for the scanned items. */
  function Summaries(messages: seq<ChatItem>, mode: Option<string>): seq<SessionSummary>
  {
    var kept := Kept(messages, mode, UnknownSession);
    Order.SortBy(SummaryList(SessionIds(kept, UnknownSession), kept, UnknownSession), SummaryKey, true)
  }

  /** `get_chat_history_summaries`. */
  method GetChatHistorySummaries(messages: seq<ChatItem>, mode: Option<string>)
    returns (summaries: seq<SessionSummary>)
    ensures summaries == Summaries(messages, mode)
  {
    var order, sessions := GroupSessions(messages, mode, UnknownSession);
    ghost var kept := Kept(messages, mode, UnknownSession);
    var list: seq<SessionSummary> := [];
    for j := 0 to |order|
      invariant list == SummaryList(order[..j], kept, UnknownSession)
    {
      var sid := order[j];
      var group := sessions[sid];
      var sorted := Order.SortBy(group, TsKey, false);
      var k := FindFirstUser(sorted);
      SummaryListSnoc(order, j, kept, UnknownSession);
      if k >= 0 {
        list := list + [SessionSummary(sid, Content(sorted[k]), Timestamp(sorted[k]),
                                       sorted[k].messageId.GetOr(""), |group|)];
      }
    }
    assert order[..|order|] == order;
    summaries := Order.SortBy(list, SummaryKey, true);
  }

  lemma SummaryListSnoc(ids: seq<string>, j: nat, kept: seq<ChatItem>, dflt: string)
    requires j < |ids|
    ensures SummaryList(ids[..j + 1], kept, dflt)
            == SummaryList(ids[..j], kept, dflt)
               + (match Summarize(ids[j], InSession(kept, ids[j], dflt)) case Some(x) => [x] case None => [])
  {
    assert ids[..j + 1][..j] == ids[..j];
  }

  /** A session gets a summary iff it has a user message. The summary names
      the session, counts all of its messages, and quotes a user message
      whose timestamp is no later than that of any user message of the
      session. */
  lemma SummarizeFacts(sid: string, group: seq<ChatItem>)
    ensures Summarize(sid, group).Some? <==> exists i :: 0 <= i < |group| && HasRole(group[i], "user")
    ensures Summarize(sid, group).Some? ==>
      var s := Summarize(sid, group).value;
      s.chatSessionId == sid && s.messageCount == |group|
      && (exists i :: 0 <= i < |group| && HasRole(group[i], "user")
            && s.firstQuestion == Content(group[i]) && s.timestamp == Timestamp(group[i]))
      && (forall i :: 0 <= i < |group| && HasRole(group[i], "user") ==> Order.LexLe(s.timestamp, Timestamp(group[i])))
  {
    var sorted := Order.SortBy(group, TsKey, false);
    Order.SortBySorted(group, TsKey, false);
    var k := FirstUserIndex(sorted);
    SummaryFound(group, sorted, k);
    if k >= 0 {
      SummaryQuotesMember(group, sorted, k);
      SummaryEarliest(group, sorted, k);
    }
  }

  lemma SummaryFound(group: seq<ChatItem>, sorted: seq<ChatItem>, k: int)
    requires multiset(sorted) == multiset(group) && k == FirstUserIndex(sorted)
    ensures k >= 0 <==> exists i :: 0 <= i < |group| && HasRole(group[i], "user")
  {
    if exists i :: 0 <= i < |group| && HasRole(group[i], "user") {
      var i :| 0 <= i < |group| && HasRole(group[i], "user");
      assert group[i] in multiset(sorted);
      var j :| 0 <= j < |sorted| && sorted[j] == group[i];
    }
    if k >= 0 {
      SummaryQuotesMember(group, sorted, k);
    }
  }

  lemma SummaryQuotesMember(group: seq<ChatItem>, sorted: seq<ChatItem>, k: int)
    requires multiset(sorted) == multiset(group) && 0 <= k < |sorted| && HasRole(sorted[k], "user")
    ensures exists i :: 0 <= i < |group| && HasRole(group[i], "user")
              && Content(sorted[k]) == Content(group[i]) && Timestamp(sorted[k]) == Timestamp(group[i])
  {
    assert sorted[k] in multiset(group);
    var i :| 0 <= i < |group| && group[i] == sorted[k];
  }

  lemma SummaryEarliest(group: seq<ChatItem>, sorted: seq<ChatItem>, k: int)
    requires multiset(sorted) == multiset(group) && Order.SortedBy(sorted, TsKey, false)
    requires k == FirstUserIndex(sorted) && k >= 0
    ensures forall i :: 0 <= i < |group| && HasRole(group[i], "user") ==>
              Order.LexLe(Timestamp(sorted[k]), Timestamp(group[i]))
  {
    forall i | 0 <= i < |group| && HasRole(group[i], "user")
      ensures Order.LexLe(Timestamp(sorted[k]), Timestamp(group[i]))
    {
      assert group[i] in multiset(sorted);
      var j :| 0 <= j < |sorted| && sorted[j] == group[i];
      if k < j {
        assert Order.InOrder(TsKey(sorted[k]), TsKey(sorted[j]), false);
      } else {
        Order.LexLeTotal(Timestamp(sorted[k]), Timestamp(sorted[k]));
      }
    }
  }

  /** Every summary in the list comes from one of `ids`, and each session
      in `ids` that has a summary is represented. */
  lemma {:induction false} SummaryListMembers(ids: seq<string>, kept: seq<ChatItem>, dflt: string)
    ensures forall x :: x in SummaryList(ids, kept, dflt) <==>
      exists sid :: sid in ids && Summarize(sid, InSession(kept, sid, dflt)) == Some(x)
  {
    if |ids| > 0 {
      var pre := ids[..|ids| - 1];
      var last := ids[|ids| - 1];
      SummaryListMembers(pre, kept, dflt);
      assert ids == pre + [last];
      assert forall sid :: sid in ids <==> sid in pre || sid == last;
      var l0 := SummaryList(pre, kept, dflt);
      var o := Summarize(last, InSession(kept, last, dflt));
      if o.Some? {
        assert SummaryList(ids, kept, dflt) == l0 + [o.value];
      } else {
        assert SummaryList(ids, kept, dflt) == l0;
      }
    }
  }

  /** Distinct sessions give summaries of distinct sessions. */
  lemma {:induction false} SummaryListDistinct(ids: seq<string>, kept: seq<ChatItem>, dflt: string)
    requires forall i, j :: 0 <= i < j < |ids| ==> ids[i] != ids[j]
    ensures forall i, j :: 0 <= i < j < |SummaryList(ids, kept, dflt)| ==>
      SummaryList(ids, kept, dflt)[i].chatSessionId != SummaryList(ids, kept, dflt)[j].chatSessionId
  {
    if |ids| > 0 {
      var pre := ids[..|ids| - 1];
      var last := ids[|ids| - 1];
      assert ids == pre + [last];
      assert last !in pre by {
        forall k | 0 <= k < |pre| ensures pre[k] != last {
          assert pre[k] == ids[k];
        }
      }
      assert forall i, j :: 0 <= i < j < |pre| ==> pre[i] != pre[j] by {
        forall i, j | 0 <= i < j < |pre| ensures pre[i] != pre[j] {
          assert pre[i] == ids[i] && pre[j] == ids[j];
        }
      }
      SummaryListDistinct(pre, kept, dflt);
      SummaryListMembers(pre, kept, dflt);
      var l0 := SummaryList(pre, kept, dflt);
      var o := Summarize(last, InSession(kept, last, dflt));
      if o.Some? {
        var l := l0 + [o.value];
        assert SummaryList(ids, kept, dflt) == l;
        SummarizeFacts(last, InSession(kept, last, dflt));
        forall i | 0 <= i < |l0| ensures l0[i].chatSessionId != last {
          assert l0[i] in l0;
          var sid :| sid in pre && Summarize(sid, InSession(kept, sid, dflt)) == Some(l0[i]);
          SummarizeFacts(sid, InSession(kept, sid, dflt));
        }
        forall i, j | 0 <= i < j < |l| ensures l[i].chatSessionId != l[j].chatSessionId {
          assert l[i] == l0[i];
          if j < |l0| {
            assert l[j] == l0[j];
            assert l0[i].chatSessionId != l0[j].chatSessionId;
          } else {
            assert l[j] == o.value;
            assert l0[i].chatSessionId != last;
          }
        }
      } else {
        assert SummaryList(ids, kept, dflt) == l0;
      }
    }
  }

  /** The summaries are a newest-first permutation of the per-session
      summaries, one for each session (among those the mode keeps) that has
      a user message; no session is summarised twice. */
  lemma SummariesCorrect(messages: seq<ChatItem>, mode: Option<string>)
    ensures Order.SortedBy(Summaries(messages, mode), SummaryKey, true)
    ensures var kept := Kept(messages, mode, UnknownSession);
      var l := SummaryList(SessionIds(kept, UnknownSession), kept, UnknownSession);
      multiset(Summaries(messages, mode)) == multiset(l)
      && (forall i, j :: 0 <= i < j < |l| ==> l[i].chatSessionId != l[j].chatSessionId)
      && (forall x :: x in l <==> exists sid :: sid in SessionIds(kept, UnknownSession)
                                   && Summarize(sid, InSession(kept, sid, UnknownSession)) == Some(x))
  {
    var kept := Kept(messages, mode, UnknownSession);
    var ids := SessionIds(kept, UnknownSession);
    var l := SummaryList(ids, kept, UnknownSession);
    Order.SortBySorted(l, SummaryKey, true);
    SummaryListMembers(ids, kept, UnknownSession);
    SessionIdsDistinct(kept, UnknownSession);
    SummaryListDistinct(ids, kept, UnknownSession);
  }

  // ----- the full history of one session -----

  datatype DetailSource = DetailSource(fileName: string, s3Key: string, presignedUrl: string)

  datatype HistoryDetail = HistoryDetail(
    chatSessionId: string,
    messages: seq<ChatItem>,
    sources: seq<DetailSource>,
    messageCount: nat,
    selectedFolderPaths: Option<seq<string>>,
    selectedJobId: Option<string>)

  /** The items whose `chat_session_id` is `sid`, in scan order. */
  function SessionMessages(ms: seq<ChatItem>, sid: string): (r: seq<ChatItem>)
    ensures forall i :: 0 <= i < |r| ==> r[i].chatSessionId == Some(sid)
  {
    if |ms| == 0 then []
    else
      var pre := SessionMessages(ms[..|ms| - 1], sid);
      if ms[|ms| - 1].chatSessionId == Some(sid) then pre + [ms[|ms| - 1]] else pre
  }

  /** An item belongs to the filtered list iff it is in the scan and has the session. */
  lemma {:induction false} SessionMessagesExact(ms: seq<ChatItem>, sid: string)
    ensures forall m :: m in SessionMessages(ms, sid) <==> m in ms && m.chatSessionId == Some(sid)
  {
    if |ms| > 0 {
      var pre := ms[..|ms| - 1];
      SessionMessagesExact(pre, sid);
      assert ms == pre + [ms[|ms| - 1]];
      assert forall m :: m in ms <==> m in pre || m == ms[|ms| - 1];
    }
  }

  /** The name a merged source is shown under: `fileName`, else
      `pdfFileName`, else the last segment of the key. */
  function MergedFileName(fileName: Option<string>, pdfFileName: Option<string>, key: string): string
  {
    if Truthy(fileName) then fileName.value
    else if Truthy(pdfFileName) then pdfFileName.value
    else Strs.LastSegment(key, '/')
  }

  /** The merged source for one stored entry: only a dictionary with a
      non-empty key whose URL can be presigned yields one. `presign` stands
      for the presigned-URL call. */
  function MergeCandidate(e: SourceEntry, presign: string -> Option<string>): (r: Option<DetailSource>)
    ensures r.Some? <==> e.SourceDict? && Truthy(e.s3Key) && Truthy(presign(e.s3Key.value))
    ensures r.Some? ==> r.value.s3Key == e.s3Key.value && Some(r.value.presignedUrl) == presign(e.s3Key.value)
    ensures r.Some? && Truthy(e.fileName) ==> r.value.fileName == e.fileName.value
    ensures r.Some? && !Truthy(e.fileName) && Truthy(e.pdfFileName) ==> r.value.fileName == e.pdfFileName.value
    ensures r.Some? && !Truthy(e.fileName) && !Truthy(e.pdfFileName) ==> r.value.fileName == Strs.LastSegment(e.s3Key.value, '/')
  {
    if e.SourceDict? && Truthy(e.s3Key) && Truthy(presign(e.s3Key.value)) then
      Some(DetailSource(MergedFileName(e.fileName, e.pdfFileName, e.s3Key.value), e.s3Key.value,
                        presign(e.s3Key.value).value))
    else None
  }

  /** The stored entries an item contributes: those of an assistant item
      whose `sources` is a list. */
  function ItemEntries(m: ChatItem): seq<SourceEntry>
  {
    if HasRole(m, "assistant") && m.sources.Some? && m.sources.value.SourceList? then m.sources.value.entries
    else []
  }

  function StoredEntries(ms: seq<ChatItem>): seq<SourceEntry>
  {
    if |ms| == 0 then [] else StoredEntries(ms[..|ms| - 1]) + ItemEntries(ms[|ms| - 1])
  }

  function MergeCandidates(es: seq<SourceEntry>, presign: string -> Option<string>): seq<DetailSource>
  {
    if |es| == 0 then []
    else
      var c := MergeCandidate(es[|es| - 1], presign);
      MergeCandidates(es[..|es| - 1], presign) + (if c.Some? then [c.value] else [])
  }

  function DetailKey(d: DetailSource): string
  {
    d.s3Key
  }

  /** The merged sources of a session: candidates in message order,
      the first one per key kept. */
  function MergedSources(ms: seq<ChatItem>, presign: string -> Option<string>): seq<DetailSource>
  {
    KbRetrieval.DedupBy(MergeCandidates(StoredEntries(ms), presign), DetailKey)
  }

  /** What `get_chat_history_by_id` returns for the scanned items. */
  function Detail(items: seq<ChatItem>, messageId: string, presign: string -> Option<string>): Option<HistoryDetail>
  {
    var k := FindMessage(items, messageId);
    if k < 0 || !Truthy(items[k].chatSessionId) then None
    else
      var sid := items[k].chatSessionId.value;
      var msgs := Order.SortBy(SessionMessages(items, sid), TsKey, false);
      var u := FirstUserIndex(msgs);
      var paths := if u >= 0 then msgs[u].selectedFolderPaths else None;
      var job := if u >= 0 then msgs[u].selectedJobId else None;
      Some(HistoryDetail(sid, msgs, MergedSources(msgs, presign), |msgs|,
                         if paths.Some? && |paths.value| > 0 then paths else None,
                         if Truthy(job) then job else None))
  }

  lemma DetailFound(items: seq<ChatItem>, messageId: string, presign: string -> Option<string>, k: int, sid: string,
                    paths: Option<seq<string>>, job: Option<string>)
    requires k == FindMessage(items, messageId) && k >= 0 && items[k].chatSessionId == Some(sid) && sid != ""
    requires var msgs := Order.SortBy(SessionMessages(items, sid), TsKey, false);
      var u := FirstUserIndex(msgs);
      paths == (if u >= 0 then msgs[u].selectedFolderPaths else None)
      && job == (if u >= 0 then msgs[u].selectedJobId else None)
    ensures var msgs := Order.SortBy(SessionMessages(items, sid), TsKey, false);
      Detail(items, messageId, presign)
      == Some(HistoryDetail(sid, msgs, MergedSources(msgs, presign), |msgs|,
                            if paths.Some? && |paths.value| > 0 then paths else None,
                            if Truthy(job) then job else None))
  {
  }

  /** `get_chat_history_by_id`. */
  method GetChatHistoryById(items: seq<ChatItem>, messageId: string, presign: string -> Option<string>)
    returns (r: Option<HistoryDetail>)
    ensures r == Detail(items, messageId, presign)
  {
    var k := FindMessageIndex(items, messageId);
    if k < 0 {
      return None;
    }
    var session := items[k].chatSessionId;
    if !Truthy(session) {
      return None;
    }
    var sid := session.value;
    var msgs := Order.SortBy(SessionMessages(items, sid), TsKey, false);
    var paths: Option<seq<string>> := None;
    var job: Option<string> := None;
    var u := FindFirstUser(msgs);
    if u >= 0 {
      paths := msgs[u].selectedFolderPaths;
      job := msgs[u].selectedJobId;
    }
    assert paths == (if u >= 0 then msgs[u].selectedFolderPaths else None);
    assert job == (if u >= 0 then msgs[u].selectedJobId else None);
    DetailFound(items, messageId, presign, k, sid, paths, job);
    var sources := MergeSessionSources(msgs, presign);
    r := Some(HistoryDetail(sid, msgs, sources, |msgs|,
                            if paths.Some? && |paths.value| > 0 then paths else None,
                            if Truthy(job) then job else None));
  }

  /** The source-collecting loops of `get_chat_history_by_id`. */
  method MergeSessionSources(msgs: seq<ChatItem>, presign: string -> Option<string>)
    returns (sources: seq<DetailSource>)
    ensures sources == MergedSources(msgs, presign)
  {
    sources := [];
    for i := 0 to |msgs|
      invariant sources == MergedSources(msgs[..i], presign)
    {
      assert msgs[..i + 1][..i] == msgs[..i];
      var m := msgs[i];
      assert StoredEntries(msgs[..i + 1]) == StoredEntries(msgs[..i]) + ItemEntries(m);
      if HasRole(m, "assistant") && m.sources.Some? && m.sources.value.SourceList? {
        sources := AddEntrySources(sources, m.sources.value.entries, StoredEntries(msgs[..i]), presign);
      } else {
        assert StoredEntries(msgs[..i]) + ItemEntries(m) == StoredEntries(msgs[..i]);
      }
    }
    assert msgs[..|msgs|] == msgs;
  }

  /** The inner loop over one message's stored sources. */
  method AddEntrySources(sources0: seq<DetailSource>, entries: seq<SourceEntry>, ghost before: seq<SourceEntry>,
                         presign: string -> Option<string>)
    returns (sources: seq<DetailSource>)
    requires sources0 == KbRetrieval.DedupBy(MergeCandidates(before, presign), DetailKey)
    ensures sources == KbRetrieval.DedupBy(MergeCandidates(before + entries, presign), DetailKey)
  {
    sources := sources0;
    assert before + entries[..0] == before;
    for j := 0 to |entries|
      invariant sources == KbRetrieval.DedupBy(MergeCandidates(before + entries[..j], presign), DetailKey)
    {
      var e := entries[j];
      MergeOne(before, entries, j, presign);
      if e.SourceDict? && Truthy(e.s3Key) && !KbRetrieval.HasKey(sources, DetailKey, e.s3Key.value) {
        var url := presign(e.s3Key.value);
        if Truthy(url) {
          sources := sources + [DetailSource(MergedFileName(e.fileName, e.pdfFileName, e.s3Key.value),
                                             e.s3Key.value, url.value)];
        }
      }
    }
    assert entries[..|entries|] == entries;
  }

  lemma MergeOne(before: seq<SourceEntry>, entries: seq<SourceEntry>, j: nat, presign: string -> Option<string>)
    requires j < |entries|
    ensures var c := MergeCandidate(entries[j], presign);
      var d := KbRetrieval.DedupBy(MergeCandidates(before + entries[..j], presign), DetailKey);
      KbRetrieval.DedupBy(MergeCandidates(before + entries[..j + 1], presign), DetailKey)
      == if c.Some? && !KbRetrieval.HasKey(d, DetailKey, c.value.s3Key) then d + [c.value] else d
  {
    var pre := before + entries[..j];
    assert before + entries[..j + 1] == pre + [entries[j]];
    assert (pre + [entries[j]])[..|pre|] == pre;
    var c := MergeCandidate(entries[j], presign);
    assert MergeCandidates(pre + [entries[j]], presign)
           == MergeCandidates(pre, presign) + (if c.Some? then [c.value] else []);
    if c.Some? {
      KbRetrieval.DedupBySnoc(MergeCandidates(pre, presign), c.value, DetailKey);
    } else {
      assert MergeCandidates(pre + [entries[j]], presign) == MergeCandidates(pre, presign);
    }
  }

  lemma {:induction false} MergeCandidatesMembers(es: seq<SourceEntry>, presign: string -> Option<string>)
    ensures forall x :: x in MergeCandidates(es, presign) ==> exists e :: e in es && MergeCandidate(e, presign) == Some(x)
  {
    if |es| > 0 {
      var pre := es[..|es| - 1];
      MergeCandidatesMembers(pre, presign);
      assert es == pre + [es[|es| - 1]];
      assert forall e :: e in pre ==> e in es;
    }
  }

  lemma {:induction false} StoredEntriesMembers(ms: seq<ChatItem>)
    ensures forall e :: e in StoredEntries(ms) ==> exists m :: m in ms && e in ItemEntries(m)
  {
    if |ms| > 0 {
      var pre := ms[..|ms| - 1];
      StoredEntriesMembers(pre);
      assert ms == pre + [ms[|ms| - 1]];
      assert forall m :: m in pre ==> m in ms;
    }
  }

  /** The detail is absent exactly when the message id is unknown or its
      item has no session id. Otherwise it holds exactly that session's
      items, sorted oldest first, and counts them. */
  lemma DetailMessages(items: seq<ChatItem>, messageId: string, presign: string -> Option<string>)
    ensures var k := FindMessage(items, messageId);
      Detail(items, messageId, presign).None? <==> k < 0 || !Truthy(items[k].chatSessionId)
    ensures Detail(items, messageId, presign).Some? ==>
      var d := Detail(items, messageId, presign).value;
      var k := FindMessage(items, messageId);
      Some(d.chatSessionId) == items[k].chatSessionId
      && d.messageCount == |d.messages|
      && Order.SortedBy(d.messages, TsKey, false)
      && multiset(d.messages) == multiset(SessionMessages(items, d.chatSessionId))
      && (forall m :: m in d.messages <==> m in items && m.chatSessionId == Some(d.chatSessionId))
  {
    var k := FindMessage(items, messageId);
    if k >= 0 && Truthy(items[k].chatSessionId) {
      var sid := items[k].chatSessionId.value;
      var sm := SessionMessages(items, sid);
      var msgs := Order.SortBy(sm, TsKey, false);
      Order.SortBySorted(sm, TsKey, false);
      SessionMessagesExact(items, sid);
      forall m ensures m in msgs <==> m in sm {
        assert m in msgs <==> m in multiset(msgs);
        assert m in sm <==> m in multiset(sm);
      }
    }
  }

  /** The reported folder selection is that of the session's first user
      message (oldest first), and only when it is non-empty. */
  lemma DetailSelection(items: seq<ChatItem>, messageId: string, presign: string -> Option<string>)
    requires Detail(items, messageId, presign).Some?
    ensures var d := Detail(items, messageId, presign).value;
      var u := FirstUserIndex(d.messages);
      (d.selectedFolderPaths.Some? <==>
         u >= 0 && d.messages[u].selectedFolderPaths.Some? && |d.messages[u].selectedFolderPaths.value| > 0)
      && (d.selectedFolderPaths.Some? ==> d.selectedFolderPaths == d.messages[u].selectedFolderPaths)
      && (d.selectedJobId.Some? <==> u >= 0 && Truthy(d.messages[u].selectedJobId))
      && (d.selectedJobId.Some? ==> d.selectedJobId == d.messages[u].selectedJobId)
      && (forall i :: 0 <= i < u ==> !HasRole(d.messages[i], "user"))
  {
  }

  /** The merged sources have distinct keys, and each is the first
      candidate with its key. */
  lemma MergedSourcesKeys(ms: seq<ChatItem>, presign: string -> Option<string>)
    ensures forall i, j :: 0 <= i < j < |MergedSources(ms, presign)| ==>
      MergedSources(ms, presign)[i].s3Key != MergedSources(ms, presign)[j].s3Key
    ensures forall i :: 0 <= i < |MergedSources(ms, presign)| ==>
      FirstCandidate(ms, presign, MergedSources(ms, presign)[i].s3Key) == Some(MergedSources(ms, presign)[i])
    ensures forall k :: KbRetrieval.HasKey(MergedSources(ms, presign), DetailKey, k) <==>
      FirstCandidate(ms, presign, k).Some?
  {
    var cands := MergeCandidates(StoredEntries(ms), presign);
    KbRetrieval.DedupByKeys(cands, DetailKey);
    KbRetrieval.DedupByFirstSeen(cands, DetailKey);
    forall k ensures KbRetrieval.HasKey(cands, DetailKey, k) <==> FirstCandidate(ms, presign, k).Some? {
      if KbRetrieval.HasKey(cands, DetailKey, k) {
        var i :| 0 <= i < |cands| && DetailKey(cands[i]) == k;
      }
    }
  }

  /** The first merge candidate of the session with key `k`, if any. */
  function FirstCandidate(ms: seq<ChatItem>, presign: string -> Option<string>, k: string): Option<DetailSource>
  {
    var cands := MergeCandidates(StoredEntries(ms), presign);
    var f := KbRetrieval.FirstIndex(cands, DetailKey, k);
    if f >= 0 then Some(cands[f]) else None
  }

  /** Each merged source is the merge of a stored entry of an assistant
      message of the session: it has a presigned URL and the file-name
      fallback of `MergeCandidate`. */
  lemma MergedSourcesOrigin(ms: seq<ChatItem>, presign: string -> Option<string>)
    ensures forall x :: x in MergedSources(ms, presign) ==>
      exists m :: m in ms && HasRole(m, "assistant") && OriginEntry(m, x, presign)
  {
    var es := StoredEntries(ms);
    var cands := MergeCandidates(es, presign);
    KbRetrieval.DedupByMembers(cands, DetailKey);
    MergeCandidatesMembers(es, presign);
    StoredEntriesMembers(ms);
    forall x | x in MergedSources(ms, presign)
      ensures exists m :: m in ms && HasRole(m, "assistant") && OriginEntry(m, x, presign)
    {
      var r := MergedSources(ms, presign);
      var i :| 0 <= i < |r| && r[i] == x;
      assert x in cands;
      var e :| e in es && MergeCandidate(e, presign) == Some(x);
      var m :| m in ms && e in ItemEntries(m);
      assert OriginEntry(m, x, presign);
    }
  }

  /** `x` is what one of `m`'s stored source entries merges to. */
  predicate OriginEntry(m: ChatItem, x: DetailSource, presign: string -> Option<string>)
  {
    exists e :: e in ItemEntries(m) && MergeCandidate(e, presign) == Some(x)
  }

  // ----- conversation search -----

  datatype Conversation = Conversation(
    firstQuestion: string,
    timestamp: string,
    messageId: string,
    messageCount: nat,
    hasMatch: bool,
    matchedContent: Option<string>)

  /** A user message opens a conversation; `needle` is the lowercased query. */
  function Open(m: ChatItem, needle: string): (c: Conversation)
    ensures c.firstQuestion == Content(m) && c.timestamp == Timestamp(m) && c.messageCount == 1
    ensures c.hasMatch <==> Mentions(m, needle)
    ensures c.matchedContent == if Mentions(m, needle) then Some(Content(m)) else None
  {
    Conversation(Content(m), Timestamp(m), m.messageId.GetOr(""), 1, Mentions(m, needle),
                 if Mentions(m, needle) then Some(Content(m)) else None)
  }

  /** An assistant message joins the open conversation. */
  function Absorb(c: Conversation, m: ChatItem, needle: string): Conversation
  {
    var hit := Mentions(m, needle);
    c.(hasMatch := c.hasMatch || hit,
       matchedContent := if hit && !Truthy(c.matchedContent) then Some(Content(m)) else c.matchedContent,
       messageCount := c.messageCount + 1)
  }

  /** The conversations emitted while walking `ms` with `cur` open: a user
      message closes the open conversation and opens a new one, an assistant
      message joins the open one, anything else is skipped, and the open
      conversation is emitted at the end. */
  function ScanFrom(cur: Option<Conversation>, ms: seq<ChatItem>, needle: string): seq<Conversation>
    decreases |ms|
  {
    if |ms| == 0 then (if cur.Some? then [cur.value] else [])
    else
      var m := ms[0];
      if HasRole(m, "user") then
        (if cur.Some? then [cur.value] else []) + ScanFrom(Some(Open(m, needle)), ms[1..], needle)
      else if HasRole(m, "assistant") && cur.Some? then
        ScanFrom(Some(Absorb(cur.value, m, needle)), ms[1..], needle)
      else ScanFrom(cur, ms[1..], needle)
  }

  /** The walk over one session's messages in `search_chat_history`. */
  method ReconstructConversations(ms: seq<ChatItem>, needle: string) returns (convs: seq<Conversation>)
    ensures convs == ScanFrom(None, ms, needle)
  {
    convs := [];
    var cur: Option<Conversation> := None;
    for i := 0 to |ms|
      invariant convs + ScanFrom(cur, ms[i..], needle) == ScanFrom(None, ms, needle)
    {
      var m := ms[i];
      assert ms[i..][0] == m && ms[i..][1..] == ms[i + 1..];
      if HasRole(m, "user") {
        if cur.Some? {
          convs := convs + [cur.value];
        }
        cur := Some(Open(m, needle));
      } else if HasRole(m, "assistant") && cur.Some? {
        cur := Some(Absorb(cur.value, m, needle));
      }
    }
    if cur.Some? {
      convs := convs + [cur.value];
    }
  }

  // A reference description of the conversations, segment by segment.

  /** The number of leading messages that are not user messages. */
  function RunLength(ms: seq<ChatItem>): (n: nat)
    ensures n <= |ms|
    ensures forall i :: 0 <= i < n ==> !HasRole(ms[i], "user")
    ensures n < |ms| ==> HasRole(ms[n], "user")
  {
    if |ms| == 0 || HasRole(ms[0], "user") then 0
    else
      var n := RunLength(ms[1..]);
      assert forall i :: 1 <= i < |ms| ==> ms[i] == ms[1..][i - 1];
      1 + n
  }

  function CountRole(ms: seq<ChatItem>, role: string): nat
  {
    if |ms| == 0 then 0 else (if HasRole(ms[0], role) then 1 else 0) + CountRole(ms[1..], role)
  }

  /** The content of the first assistant message that mentions `needle`. */
  function FirstMention(ms: seq<ChatItem>, needle: string): (r: Option<string>)
    ensures r.None? <==> forall i :: 0 <= i < |ms| ==> !(HasRole(ms[i], "assistant") && Mentions(ms[i], needle))
    ensures r.Some? ==> exists i :: 0 <= i < |ms| && HasRole(ms[i], "assistant") && Mentions(ms[i], needle)
                                    && r.value == Content(ms[i])
                                    && forall j :: 0 <= j < i ==> !(HasRole(ms[j], "assistant") && Mentions(ms[j], needle))
  {
    if |ms| == 0 then None
    else if HasRole(ms[0], "assistant") && Mentions(ms[0], needle) then Some(Content(ms[0]))
    else
      var r := FirstMention(ms[1..], needle);
      assert forall i :: 1 <= i < |ms| ==> ms[i] == ms[1..][i - 1];
      if r.Some? then
        var i :| 0 <= i < |ms[1..]| && HasRole(ms[1..][i], "assistant") && Mentions(ms[1..][i], needle)
                 && r.value == Content(ms[1..][i])
                 && forall j :: 0 <= j < i ==> !(HasRole(ms[1..][j], "assistant") && Mentions(ms[1..][j], needle));
        assert forall j :: 0 <= j < i + 1 ==> !(HasRole(ms[j], "assistant") && Mentions(ms[j], needle)) by {
          forall j | 0 <= j < i + 1 ensures !(HasRole(ms[j], "assistant") && Mentions(ms[j], needle)) {
            if j > 0 { assert ms[j] == ms[1..][j - 1]; }
          }
        }
        r
      else r
  }

  /** A conversation closed after the messages `run` that followed its user
      message: every assistant message counts, any mention is a match, and
      the first mention is quoted unless one is quoted already. */
  function Closed(c: Conversation, run: seq<ChatItem>, needle: string): Conversation
  {
    var first := FirstMention(run, needle);
    c.(messageCount := c.messageCount + CountRole(run, "assistant"),
       hasMatch := c.hasMatch || first.Some?,
       matchedContent := if Truthy(c.matchedContent) || first.None? then c.matchedContent else first)
  }

  /** The conversations of `ms`: one per user message, closed over the
      messages up to the next user message; messages before the first user
      message belong to none. */
  function Conversations(ms: seq<ChatItem>, needle: string): seq<Conversation>
    decreases |ms|
  {
    if |ms| == 0 then []
    else if HasRole(ms[0], "user") then
      var rest := ms[1..];
      var n := RunLength(rest);
      [Closed(Open(ms[0], needle), rest[..n], needle)] + Conversations(rest[n..], needle)
    else Conversations(ms[1..], needle)
  }

  lemma MentionNonEmpty(m: ChatItem, needle: string)
    requires needle != "" && Mentions(m, needle)
    ensures Content(m) != ""
  {
  }

  lemma ClosedCons(c: Conversation, m: ChatItem, run: seq<ChatItem>, needle: string)
    requires needle != "" && !HasRole(m, "user")
    ensures Closed(c, [m] + run, needle)
            == Closed(if HasRole(m, "assistant") then Absorb(c, m, needle) else c, run, needle)
  {
    var ms := [m] + run;
    assert ms[0] == m && ms[1..] == run;
    if HasRole(m, "assistant") && Mentions(m, needle) {
      MentionNonEmpty(m, needle);
    }
  }

  lemma {:induction false} ScanFromOpen(c: Conversation, ms: seq<ChatItem>, needle: string)
    requires needle != ""
    ensures ScanFrom(Some(c), ms, needle)
            == [Closed(c, ms[..RunLength(ms)], needle)] + Conversations(ms[RunLength(ms)..], needle)
    decreases |ms|
  {
    if |ms| == 0 {
      ClosedEmpty(c, needle);
    } else if HasRole(ms[0], "user") {
      ScanFromOpen(Open(ms[0], needle), ms[1..], needle);
      ScanUserStep(c, ms, needle);
    } else {
      var m := ms[0];
      var rest := ms[1..];
      var c' := if HasRole(m, "assistant") then Absorb(c, m, needle) else c;
      ScanFromOpen(c', rest, needle);
      ScanOtherStep(c, ms, needle);
    }
  }

  lemma ClosedEmpty(c: Conversation, needle: string)
    ensures Closed(c, [], needle) == c
  {
  }

  /** A user message closes `c` and opens the next conversation. */
  lemma ScanUserStep(c: Conversation, ms: seq<ChatItem>, needle: string)
    requires needle != "" && |ms| > 0 && HasRole(ms[0], "user")
    requires ScanFrom(Some(Open(ms[0], needle)), ms[1..], needle)
             == [Closed(Open(ms[0], needle), ms[1..][..RunLength(ms[1..])], needle)]
                + Conversations(ms[1..][RunLength(ms[1..])..], needle)
    ensures ScanFrom(Some(c), ms, needle)
            == [Closed(c, ms[..RunLength(ms)], needle)] + Conversations(ms[RunLength(ms)..], needle)
  {
    ClosedEmpty(c, needle);
    assert RunLength(ms) == 0;
    assert ms[..0] == [] && ms[0..] == ms;
  }

  /** Any other message stays with `c`, which absorbs an assistant message. */
  lemma ScanOtherStep(c: Conversation, ms: seq<ChatItem>, needle: string)
    requires needle != "" && |ms| > 0 && !HasRole(ms[0], "user")
    requires var c' := if HasRole(ms[0], "assistant") then Absorb(c, ms[0], needle) else c;
             ScanFrom(Some(c'), ms[1..], needle)
             == [Closed(c', ms[1..][..RunLength(ms[1..])], needle)]
                + Conversations(ms[1..][RunLength(ms[1..])..], needle)
    ensures ScanFrom(Some(c), ms, needle)
            == [Closed(c, ms[..RunLength(ms)], needle)] + Conversations(ms[RunLength(ms)..], needle)
  {
    var m := ms[0];
    var rest := ms[1..];
    var n := RunLength(rest);
    ScanSkip(c, ms, needle);
    RunCons(ms);
    SplitAfterHead(ms, n);
    ClosedCons(c, m, rest[..n], needle);
  }

  lemma ScanSkip(c: Conversation, ms: seq<ChatItem>, needle: string)
    requires |ms| > 0 && !HasRole(ms[0], "user")
    ensures ScanFrom(Some(c), ms, needle)
            == ScanFrom(Some(if HasRole(ms[0], "assistant") then Absorb(c, ms[0], needle) else c), ms[1..], needle)
  {
  }

  lemma RunCons(ms: seq<ChatItem>)
    requires |ms| > 0 && !HasRole(ms[0], "user")
    ensures RunLength(ms) == 1 + RunLength(ms[1..])
  {
  }

  lemma SplitAfterHead(ms: seq<ChatItem>, n: nat)
    requires n < |ms|
    ensures ms[..1 + n] == [ms[0]] + ms[1..][..n] && ms[1 + n..] == ms[1..][n..]
  {
  }

  /** The step-by-step walk produces exactly the reference conversations
      (for a non-empty query, which the handler guarantees). */
  lemma {:induction false} ScanMatchesConversations(ms: seq<ChatItem>, needle: string)
    requires needle != ""
    ensures ScanFrom(None, ms, needle) == Conversations(ms, needle)
    decreases |ms|
  {
    if |ms| > 0 {
      if HasRole(ms[0], "user") {
        ScanFromOpen(Open(ms[0], needle), ms[1..], needle);
      } else {
        ScanMatchesConversations(ms[1..], needle);
      }
    }
  }

  lemma {:induction false} CountRoleSkip(ms: seq<ChatItem>, n: nat)
    requires n <= RunLength(ms)
    ensures CountRole(ms, "user") == CountRole(ms[n..], "user")
    decreases n
  {
    if n > 0 {
      assert !HasRole(ms[0], "user");
      assert RunLength(ms[1..]) == RunLength(ms) - 1;
      CountRoleSkip(ms[1..], n - 1);
      assert ms[1..][n - 1..] == ms[n..];
    }
  }

  /** `x` is the conversation opened by the user message at `u`. */
  predicate OpenedAt(ms: seq<ChatItem>, u: int, x: Conversation, needle: string)
  {
    0 <= u < |ms| && HasRole(ms[u], "user")
    && x == Closed(Open(ms[u], needle), ms[u + 1..][..RunLength(ms[u + 1..])], needle)
  }

  /** There is one conversation per user message, and each one is opened
      by a user message and closed over the non-user messages after it. */
  lemma ConversationsShape(ms: seq<ChatItem>, needle: string)
    ensures |Conversations(ms, needle)| == CountRole(ms, "user")
    ensures forall x :: x in Conversations(ms, needle) ==> exists u :: OpenedAt(ms, u, x, needle)
  {
    ConversationsCount(ms, needle);
    ConversationsOpened(ms, needle);
  }

  lemma {:induction false} ConversationsCount(ms: seq<ChatItem>, needle: string)
    ensures |Conversations(ms, needle)| == CountRole(ms, "user")
    decreases |ms|
  {
    if |ms| > 0 {
      var rest := ms[1..];
      if HasRole(ms[0], "user") {
        var n := RunLength(rest);
        ConversationsCount(rest[n..], needle);
        CountRoleSkip(rest, n);
      } else {
        ConversationsCount(rest, needle);
      }
    }
  }

  lemma {:induction false} ConversationsOpened(ms: seq<ChatItem>, needle: string)
    ensures forall x :: x in Conversations(ms, needle) ==> exists u :: OpenedAt(ms, u, x, needle)
    decreases |ms|
  {
    if |ms| > 0 {
      var rest := ms[1..];
      if HasRole(ms[0], "user") {
        var n := RunLength(rest);
        ConversationsOpened(rest[n..], needle);
        var head := Closed(Open(ms[0], needle), rest[..n], needle);
        assert Conversations(ms, needle) == [head] + Conversations(rest[n..], needle);
        assert OpenedAt(ms, 0, head, needle);
        assert ms[1 + n..] == rest[n..];
        forall x | x in Conversations(rest[n..], needle)
          ensures exists u :: OpenedAt(ms, u, x, needle)
        {
          var u :| OpenedAt(ms[1 + n..], u, x, needle);
          OpenedShift(ms, 1 + n, u, x, needle);
        }
      } else {
        ConversationsOpened(rest, needle);
        forall x | x in Conversations(rest, needle)
          ensures exists u :: OpenedAt(ms, u, x, needle)
        {
          var u :| OpenedAt(ms[1..], u, x, needle);
          OpenedShift(ms, 1, u, x, needle);
        }
      }
    }
  }

  /** A conversation opened in a suffix is opened at the shifted index. */
  lemma OpenedShift(ms: seq<ChatItem>, k: nat, u: int, x: Conversation, needle: string)
    requires k <= |ms| && OpenedAt(ms[k..], u, x, needle)
    ensures OpenedAt(ms, k + u, x, needle)
  {
    assert ms[k..][u] == ms[k + u];
    assert ms[k..][u + 1..] == ms[k + u + 1..];
  }

  /** What a closed conversation reports: its size, whether any of its
      messages mentions the query, and the first mention. */
  lemma ClosedOpenFacts(u: ChatItem, run: seq<ChatItem>, needle: string)
    requires needle != ""
    ensures var x := Closed(Open(u, needle), run, needle);
      x.firstQuestion == Content(u) && x.timestamp == Timestamp(u)
      && x.messageCount == 1 + CountRole(run, "assistant")
      && (x.hasMatch <==> Mentions(u, needle) || exists i :: 0 <= i < |run| && HasRole(run[i], "assistant") && Mentions(run[i], needle))
      && x.matchedContent == (if Mentions(u, needle) then Some(Content(u)) else FirstMention(run, needle))
  {
    if Mentions(u, needle) {
      MentionNonEmpty(u, needle);
    }
  }

  function TextKey(s: string): Order.Key
  {
    Order.Text(s)
  }

  /** One session's messages in the order the search walks them: by
      timestamp, and in scan order within one timestamp. */
  function SearchOrder(kept: seq<ChatItem>, sid: string): seq<ChatItem>
  {
    Order.SortBy(InSession(kept, sid, ""), TsKey, false)
  }

  function AllConversations(ids: seq<string>, kept: seq<ChatItem>, needle: string): seq<Conversation>
  {
    if |ids| == 0 then []
    else AllConversations(ids[..|ids| - 1], kept, needle) + ScanFrom(None, SearchOrder(kept, ids[|ids| - 1]), needle)
  }

  /** `[c for c in conversations if c['has_match']]`. */
  function OnlyMatching(cs: seq<Conversation>): (r: seq<Conversation>)
    ensures forall x :: x in r <==> x in cs && x.hasMatch
  {
    if |cs| == 0 then []
    else
      var pre := OnlyMatching(cs[..|cs| - 1]);
      var x := cs[|cs| - 1];
      assert cs == cs[..|cs| - 1] + [x];
      if x.hasMatch then pre + [x] else pre
  }

  /** What `search_chat_history` returns; sessions lacking a
      `chat_session_id` are grouped under ''. */
  function SearchResults(items: seq<ChatItem>, query: string, mode: Option<string>): seq<Conversation>
  {
    var kept := Kept(items, mode, "");
    OnlyMatching(AllConversations(Order.SortBy(SessionIds(kept, ""), TextKey, false), kept, Strs.Lower(query)))
  }

  /** `search_chat_history`. */
  method SearchChatHistory(items: seq<ChatItem>, query: string, mode: Option<string>)
    returns (results: seq<Conversation>)
    ensures results == SearchResults(items, query, mode)
  {
    var needle := Strs.Lower(query);
    var order, sessions := GroupSessions(items, mode, "");
    ghost var kept := Kept(items, mode, "");
    var ids := Order.SortBy(order, TextKey, false);
    var all: seq<Conversation> := [];
    for j := 0 to |ids|
      invariant all == AllConversations(ids[..j], kept, needle)
    {
      var sid := ids[j];
      assert sid in multiset(order) by { assert sid in multiset(ids); }
      var convs := SessionConversations(sessions[sid], needle, kept, sid);
      AllConversationsSnoc(ids, j, kept, needle);
      all := all + convs;
    }
    assert ids[..|ids|] == ids;
    results := OnlyMatching(all);
  }

  /** The conversations of one session, walked in timestamp order. */
  method SessionConversations(group: seq<ChatItem>, needle: string, ghost kept: seq<ChatItem>, ghost sid: string)
    returns (convs: seq<Conversation>)
    requires group == InSession(kept, sid, "")
    ensures convs == ScanFrom(None, SearchOrder(kept, sid), needle)
  {
    var msgs := Order.SortBy(group, TsKey, false);
    convs := ReconstructConversations(msgs, needle);
  }

  lemma AllConversationsSnoc(ids: seq<string>, j: nat, kept: seq<ChatItem>, needle: string)
    requires j < |ids|
    ensures AllConversations(ids[..j + 1], kept, needle)
            == AllConversations(ids[..j], kept, needle) + ScanFrom(None, SearchOrder(kept, ids[j]), needle)
  {
    assert ids[..j + 1][..j] == ids[..j];
  }

  lemma {:induction false} AllConversationsMembers(ids: seq<string>, kept: seq<ChatItem>, needle: string)
    ensures forall x :: x in AllConversations(ids, kept, needle) <==>
      exists sid :: sid in ids && x in ScanFrom(None, SearchOrder(kept, sid), needle)
  {
    if |ids| > 0 {
      var pre := ids[..|ids| - 1];
      AllConversationsMembers(pre, kept, needle);
      assert ids == pre + [ids[|ids| - 1]];
      assert forall sid :: sid in ids <==> sid in pre || sid == ids[|ids| - 1];
    }
  }

  /** Each search result is a matching conversation of a session the mode
      keeps, and every matching conversation of such a session is a result.
      A conversation is one user message and the messages up to the next
      one, as `ConversationsShape` and `ClosedOpenFacts` describe. */
  lemma SearchResultsCorrect(items: seq<ChatItem>, query: string, mode: Option<string>)
    requires query != ""
    ensures forall x :: x in SearchResults(items, query, mode) <==>
      x.hasMatch && exists sid :: sid in SessionIds(Kept(items, mode, ""), "")
                                  && x in Conversations(SearchOrder(Kept(items, mode, ""), sid), Strs.Lower(query))
  {
    var kept := Kept(items, mode, "");
    var needle := Strs.Lower(query);
    var ids0 := SessionIds(kept, "");
    var ids := Order.SortBy(ids0, TextKey, false);
    AllConversationsMembers(ids, kept, needle);
    forall sid ensures sid in ids <==> sid in ids0 {
      assert sid in ids <==> sid in multiset(ids);
      assert sid in ids0 <==> sid in multiset(ids0);
    }
    forall sid ensures ScanFrom(None, SearchOrder(kept, sid), needle) == Conversations(SearchOrder(kept, sid), needle) {
      ScanMatchesConversations(SearchOrder(kept, sid), needle);
    }
  }

  // ----- DynamoDB numbers -----

  /** A DynamoDB number: `units` times ten to the power -`exponent`. */
  datatype Decimal = Decimal(units: int, exponent: nat)

  function Pow10(e: nat): (p: nat)
    ensures p >= 1
  {
    if e == 0 then 1 else 10 * Pow10(e - 1)
  }

  /** `d % 1 == 0`: the number is whole. */
  predicate IsWhole(d: Decimal)
  {
    d.units % Pow10(d.exponent) == 0
  }

  /** Python `int(d)`: truncation toward zero. */
  function Truncate(d: Decimal): (n: int)
    ensures IsWhole(d) ==> n * Pow10(d.exponent) == d.units
    ensures d.units >= 0 ==> 0 <= n && n * Pow10(d.exponent) <= d.units < n * Pow10(d.exponent) + Pow10(d.exponent)
    ensures d.units < 0 ==> n <= 0 && d.units <= n * Pow10(d.exponent) < d.units + Pow10(d.exponent)
  {
    var p := Pow10(d.exponent);
    var q := d.units / p;
    var r := d.units % p;
    assert d.units == q * p + r && 0 <= r < p;
    if r == 0 || d.units >= 0 then
      assert d.units >= 0 ==> q >= 0 by {
        if d.units >= 0 && q < 0 { MulNegative(q, p); }
      }
      q
    else
      assert (q + 1) * p == q * p + p;
      assert q + 1 <= 0 by {
        if q + 1 > 0 { MulNonNegative(q, p); }
      }
      q + 1
  }

  lemma MulNegative(q: int, p: int)
    requires q < 0 && p >= 1
    ensures q * p <= -p
    decreases -q
  {
    assert q * p == (q + 1) * p - p;
    if q + 1 < 0 { MulNegative(q + 1, p); }
  }

  lemma MulNonNegative(q: int, p: int)
    requires q >= 0 && p >= 1
    ensures q * p >= 0
  {
  }

  /** An attribute value as the table returns it. */
  datatype StoredValue =
    | SNum(num: Decimal)
    | SText(text: string)
    | SBool(flag: bool)
    | SNull
    | SList(elems: seq<StoredValue>)
    | SMap(fields: map<string, StoredValue>)

  /** The value after `decimal_to_native`; a fractional number becomes a
      float, kept here as the exact decimal it was converted from. */
  datatype NativeValue =
    | NInt(n: int)
    | NFloat(approx: Decimal)
    | NText(text: string)
    | NBool(flag: bool)
    | NNull
    | NList(elems: seq<NativeValue>)
    | NMap(fields: map<string, NativeValue>)

  /** `decimal_to_native`: whole numbers become integers of the same
      value, fractional ones floats; lists and maps are converted element by
      element with their length and keys kept; everything else is as is. */
  function DecimalToNative(v: StoredValue): (r: NativeValue)
    ensures v.SNum? && IsWhole(v.num) ==> r.NInt? && r.n * Pow10(v.num.exponent) == v.num.units
    ensures v.SNum? && !IsWhole(v.num) ==> r == NFloat(v.num)
    ensures v.SText? ==> r == NText(v.text)
    ensures v.SBool? ==> r == NBool(v.flag)
    ensures v.SNull? ==> r == NNull
    ensures v.SList? ==> r.NList? && |r.elems| == |v.elems|
    ensures v.SList? ==> forall i :: 0 <= i < |v.elems| ==> r.elems[i] == DecimalToNative(v.elems[i])
    ensures v.SMap? ==> r.NMap? && r.fields.Keys == v.fields.Keys
    ensures v.SMap? ==> forall k :: k in v.fields ==> r.fields[k] == DecimalToNative(v.fields[k])
    decreases v
  {
    match v
    case SNum(d) => if IsWhole(d) then NInt(Truncate(d)) else NFloat(d)
    case SText(t) => NText(t)
    case SBool(b) => NBool(b)
    case SNull => NNull
    case SList(xs) => NList(seq(|xs|, i requires 0 <= i < |xs| => DecimalToNative(xs[i])))
    case SMap(m) => NMap(map k | k in m :: DecimalToNative(m[k]))
  }

  /** A stored integer (exponent 0, or any exponent with trailing zeros)
      comes back as that integer. */
  lemma DecimalToNativeInt(n: int, e: nat)
    ensures DecimalToNative(SNum(Decimal(n * Pow10(e), e))) == NInt(n)
  {
    var p := Pow10(e);
    DivUnique(n * p, p, n, 0);
  }

  /** Quotient and remainder are the only pair with the remainder in range. */
  lemma DivUnique(u: int, p: int, q: int, r: int)
    requires p >= 1 && u == q * p + r && 0 <= r < p
    ensures u / p == q && u % p == r
  {
    var q0 := u / p;
    var r0 := u % p;
    assert (q - q0) * p == r0 - r;
    if q - q0 < 0 { MulNegative(q - q0, p); }
    if q - q0 > 0 { MulNegative(q0 - q, p); }
  }

  // ----- request handling -----

  /** A `rating` as the request body carries it. */
  datatype RatingValue = RatingNumber(d: Decimal) | RatingBool(b: bool) | RatingText(t: string) | RatingOther

  /** Python `int(text)` for decimal text: surrounding whitespace, an
      optional sign, then ASCII digits. */
  function ParseInt(t: string): (r: Option<int>)
    ensures r.Some? ==> var s := Strs.Strip(t);
      |s| > 0 && forall i :: 0 < i < |s| ==> Strs.IsDigit(s[i])
  {
    var s := Strs.Strip(t);
    if |s| > 0 && (s[0] == '+' || s[0] == '-') && Strs.IsDigits(s[1..]) then
      var v: int := Strs.DigitsValue(s[1..]);
      Some(if s[0] == '-' then -v else v)
    else if Strs.IsDigits(s) then Some(Strs.DigitsValue(s))
    else None
  }

  /** `int` reads a string of ASCII digits as the number it spells. */
  lemma ParseDigits(d: string)
    requires Strs.IsDigits(d)
    ensures ParseInt(d) == Some(Strs.DigitsValue(d))
  {
    assert !Strs.IsSpace(d[0]) && !Strs.IsSpace(d[|d| - 1]);
    Strs.StripTrimmed(d);
  }

  /** `int` reads a sign followed by digits as the signed number. */
  lemma ParseSigned(sign: char, d: string)
    requires sign == '-' || sign == '+'
    requires Strs.IsDigits(d)
    ensures ParseInt([sign] + d) == Some(if sign == '-' then -(Strs.DigitsValue(d) as int) else Strs.DigitsValue(d))
  {
    var s := [sign] + d;
    assert s[0] == sign && s[|s| - 1] == d[|d| - 1];
    NotSpace(sign);
    NotSpace(d[|d| - 1]);
    Strs.StripTrimmed(s);
    SignedText(sign, d);
  }

  lemma SignedText(sign: char, d: string)
    requires (sign == '+' || sign == '-') && Strs.IsDigits(d) && Strs.Strip([sign] + d) == [sign] + d
    ensures ParseInt([sign] + d) == Some(if sign == '-' then -(Strs.DigitsValue(d) as int) else Strs.DigitsValue(d))
  {
    var s := [sign] + d;
    assert s[0] == sign && s[1..] == d;
  }

  lemma NotSpace(c: char)
    requires c == '+' || c == '-' || Strs.IsDigit(c)
    ensures !Strs.IsSpace(c)
  {
  }

  /** Python `int(rating)`: numbers truncate toward zero, booleans are 0
      and 1, text is parsed, anything else is a `TypeError`. */
  function RatingInt(v: RatingValue): Option<int>
  {
    match v
    case RatingNumber(d) => Some(Truncate(d))
    case RatingBool(b) => Some(if b then 1 else 0)
    case RatingText(t) => ParseInt(t)
    case RatingOther => None
  }

  const InvalidRating := "評価は1～10の数値である必要があります"

  /** The handler's rating check. */
  function ValidateRating(rating: Option<RatingValue>): (r: Result<Option<int>>)
    ensures rating.None? ==> r == Ok(None)
    ensures rating.Some? ==>
      (r.Ok? <==> RatingInt(rating.value).Some? && 1 <= RatingInt(rating.value).value <= 10)
    ensures rating.Some? && r.Ok? ==> r.value == RatingInt(rating.value)
    ensures r.Err? ==> r.error == InvalidRating
  {
    match rating
    case None => Ok(None)
    case Some(v) =>
      match RatingInt(v)
      case Some(n) => if 1 <= n <= 10 then Ok(Some(n)) else Err(InvalidRating)
      case None => Err(InvalidRating)
  }

  /** Every whole rating from 1 to 10 is accepted in each spelling, and a
      fraction is cut to its whole part first: 10.5 is 10, 0.5 is refused. */
  lemma ValidateRatingExamples(n: nat)
    requires 1 <= n <= 10
    ensures ValidateRating(Some(RatingNumber(Decimal(n, 0)))) == Ok(Some(n))
    ensures ValidateRating(Some(RatingText(Strs.NatToString(n)))) == Ok(Some(n))
    ensures ValidateRating(Some(RatingNumber(Decimal(105, 1)))) == Ok(Some(10))
    ensures ValidateRating(Some(RatingNumber(Decimal(5, 1)))).Err?
    ensures ValidateRating(Some(RatingBool(true))) == Ok(Some(1))
    ensures ValidateRating(Some(RatingBool(false))).Err?
  {
    Strs.NatToStringValue(n);
    ParseDigits(Strs.NatToString(n));
  }

  /** The request body fields the handler reads; `mode` distinguishes a
      missing key (None) from an explicit null (Some(None)). */
  datatype HistoryRequest = HistoryRequest(
    chatSessionId: Option<string>,
    action: Option<string>,
    messageId: Option<string>,
    searchQuery: Option<string>,
    mode: Option<Option<string>>,
    rating: Option<RatingValue>,
    comment: Option<string>)

  /** `(body.get(key, '') or '').strip()`. */
  function StrippedField(f: Option<string>): string
  {
    Strs.Strip(f.GetOr(""))
  }

  /** `(action or 'get-history').strip().lower()`. */
  function ActionOf(raw: Option<string>): string
  {
    Strs.Lower(Strs.Strip(if Truthy(raw) then raw.value else "get-history"))
  }

  /** `body.get('mode', 'default')`. */
  function ModeOf(mode: Option<Option<string>>): Option<string>
  {
    if mode.None? then Some("default") else mode.value
  }

  /** What the handler does after validating the body. */
  datatype HistoryCommand =
    | ListSessions(mode: Option<string>)
    | ShowDetail(messageId: string)
    | SearchHistory(query: string, mode: Option<string>)
    | SaveFeedback(messageId: string, rating: Option<int>, comment: Option<string>)
    | Reject(status: int, error: string)

  const MissingSessionId := "チャットセッションIDが指定されていません"
  const MissingMessageId := "メッセージIDが指定されていません"
  const MissingSearchQuery := "検索キーワードが指定されていません"
  const UnknownAction := "不正なアクションです"
  const HistoryNotFound := "履歴が見つかりません"

  /** The validation in `lambda_handler`, in its order. */
  function Route(req: HistoryRequest): HistoryCommand
  {
    var action := ActionOf(req.action);
    if StrippedField(req.chatSessionId) == "" && action != "update-feedback" then Reject(400, MissingSessionId)
    else if action == "get-history" then ListSessions(ModeOf(req.mode))
    else if action == "get-history-detail" then
      var mid := StrippedField(req.messageId);
      if mid == "" then Reject(400, MissingMessageId) else ShowDetail(mid)
    else if action == "search" then
      var q := StrippedField(req.searchQuery);
      if q == "" then Reject(400, MissingSearchQuery) else SearchHistory(q, ModeOf(req.mode))
    else if action == "update-feedback" then
      FeedbackCommand(StrippedField(req.messageId), ValidateRating(req.rating), req.comment)
    else Reject(400, UnknownAction)
  }

  /** The `update-feedback` branch: the message id first, then the rating. */
  function FeedbackCommand(mid: string, rating: Result<Option<int>>, comment: Option<string>): HistoryCommand
  {
    if mid == "" then Reject(400, MissingMessageId)
    else
      match rating
      case Err(e) => Reject(400, e)
      case Ok(r) => SaveFeedback(mid, r, comment)
  }

  /** Validation rejects with 400 only, and refuses an action outside the
      four names. */
  lemma RouteRejects(req: HistoryRequest)
    ensures Route(req).Reject? ==> Route(req).status == 400
    ensures ActionOf(req.action) !in {"get-history", "get-history-detail", "search", "update-feedback"} ==>
      Route(req).Reject?
  {
    var action := ActionOf(req.action);
    if StrippedField(req.chatSessionId) == "" && action != "update-feedback" {
      assert Route(req) == Reject(400, MissingSessionId);
    } else if action == "get-history" {
      assert Route(req).ListSessions?;
    } else if action == "get-history-detail" {
      assert StrippedField(req.messageId) == "" ==> Route(req) == Reject(400, MissingMessageId);
    } else if action == "search" {
      assert StrippedField(req.searchQuery) == "" ==> Route(req) == Reject(400, MissingSearchQuery);
    } else if action == "update-feedback" {
      assert Route(req) == FeedbackCommand(StrippedField(req.messageId), ValidateRating(req.rating), req.comment);
    } else {
      assert Route(req) == Reject(400, UnknownAction);
    }
  }

  /** Every action but `update-feedback` needs a session id; ids and
      queries reach the operations non-empty and stripped; a forwarded
      rating lies in 1..10. */
  lemma RouteForwards(req: HistoryRequest)
    ensures !Route(req).Reject? && ActionOf(req.action) != "update-feedback" ==>
      StrippedField(req.chatSessionId) != ""
    ensures Route(req).SearchHistory? ==>
      Route(req).query != "" && Route(req).query == StrippedField(req.searchQuery)
    ensures Route(req).ShowDetail? || Route(req).SaveFeedback? ==>
      Route(req).messageId != "" && Route(req).messageId == StrippedField(req.messageId)
    ensures Route(req).SaveFeedback? && Route(req).rating.Some? ==> 1 <= Route(req).rating.value <= 10
  {
    var action := ActionOf(req.action);
    if StrippedField(req.chatSessionId) == "" && action != "update-feedback" {
      assert Route(req).Reject?;
    } else if action == "get-history" {
      assert Route(req).ListSessions?;
    } else if action == "get-history-detail" {
      assert StrippedField(req.messageId) != "" ==> Route(req) == ShowDetail(StrippedField(req.messageId));
    } else if action == "search" {
      assert StrippedField(req.searchQuery) != "" ==>
        Route(req) == SearchHistory(StrippedField(req.searchQuery), ModeOf(req.mode));
    } else if action == "update-feedback" {
      assert Route(req) == FeedbackCommand(StrippedField(req.messageId), ValidateRating(req.rating), req.comment);
      if ValidateRating(req.rating).Ok? && ValidateRating(req.rating).value.Some? {
        ValidatedInRange(req.rating);
      }
    } else {
      assert Route(req).Reject?;
    }
  }

  lemma ValidatedInRange(rating: Option<RatingValue>)
    requires ValidateRating(rating).Ok? && ValidateRating(rating).value.Some?
    ensures 1 <= ValidateRating(rating).value.value <= 10
  {
  }

  /** A missing or empty action means `get-history`. */
  lemma DefaultAction(raw: Option<string>)
    requires !Truthy(raw)
    ensures ActionOf(raw) == "get-history"
  {
    var a := "get-history";
    Strs.StripTrimmed(a);
    assert Strs.Lower(a) == a;
  }

  /** The handler's answer; every variant but `Failure` is a 200. */
  datatype HistoryResponse =
    | Histories(histories: seq<SessionSummary>)
    | HistoryFound(history: HistoryDetail)
    | SearchHits(results: seq<Conversation>)
    | FeedbackStored(updatedItem: ChatItem)
    | Failure(status: int, error: string)
  {
    function StatusCode(): int
    {
      if Failure? then status else 200
    }
  }

  /** How the chat table answers: configured and working, not configured
      (`get_chat_history_table` returns None), or raising a `ClientError`
      with the given text. */
  datatype TableAccess = Available | NotConfigured | Failing(error: string)

  const TableNotConfigured := "テーブルが設定されていません"
  const DynamoDbErrorPrefix := "DynamoDBエラー: "

  /** `str(e)[:100]`. */
  function First100(s: string): (r: string)
    ensures |r| <= 100 && |r| <= |s| && r == s[..|r|]
    ensures |s| <= 100 ==> r == s
    ensures |s| > 100 ==> |r| == 100
  {
    if |s| <= 100 then s else s[..100]
  }

  /** What `update_feedback` reports when it cannot reach the table. */
  function UnreachableFeedback(access: TableAccess): string
    requires !access.Available?
  {
    if access.NotConfigured? then TableNotConfigured else DynamoDbErrorPrefix + First100(access.error)
  }

  /** `lambda_handler` over the chat table: validation, then the chosen
      operation; only `update-feedback` writes to the table. A table that
      is not configured or raises reads as empty to the three readers,
      which catch the error, and fails the feedback update with its
      message. */
  method HandleHistoryRequest(table: ChatTable, access: TableAccess, req: HistoryRequest,
                              presign: string -> Option<string>, now: string)
    returns (resp: HistoryResponse)
    modifies table
    ensures match Route(req)
      case Reject(st, e) => resp == Failure(st, e) && table.items == old(table.items)
      case ListSessions(mode) =>
        resp == Histories(if access.Available? then Summaries(old(table.items), mode) else []) &&
        table.items == old(table.items)
      case ShowDetail(mid) =>
        table.items == old(table.items) &&
        resp == (match (if access.Available? then Detail(old(table.items), mid, presign) else None)
                 case Some(h) => HistoryFound(h)
                 case None => Failure(404, HistoryNotFound))
      case SearchHistory(q, mode) =>
        resp == SearchHits(if access.Available? then SearchResults(old(table.items), q, mode) else []) &&
        table.items == old(table.items)
      case SaveFeedback(mid, rating, comment) =>
        if !access.Available? then
          table.items == old(table.items) && resp == Failure(400, UnreachableFeedback(access))
        else
          var eff := FeedbackEffect(old(table.items), mid, rating, comment, now);
          table.items == eff.0 &&
          resp == (match eff.1
                   case FeedbackSaved(u) => FeedbackStored(u)
                   case FeedbackFailed(e) => Failure(400, e))
  {
    var cmd := Route(req);
    match cmd
    case Reject(st, e) =>
      resp := Failure(st, e);
    case ListSessions(mode) =>
      var hs: seq<SessionSummary> := [];
      if access.Available? {
        hs := GetChatHistorySummaries(table.items, mode);
      }
      resp := Histories(hs);
    case ShowDetail(mid) =>
      var d: Option<HistoryDetail> := None;
      if access.Available? {
        d := GetChatHistoryById(table.items, mid, presign);
      }
      resp := if d.Some? then HistoryFound(d.value) else Failure(404, HistoryNotFound);
    case SearchHistory(q, mode) =>
      var rs: seq<Conversation> := [];
      if access.Available? {
        rs := SearchChatHistory(table.items, q, mode);
      }
      resp := SearchHits(rs);
    case SaveFeedback(mid, rating, comment) =>
      if !access.Available? {
        return Failure(400, UnreachableFeedback(access));
      }
      var outcome := table.UpdateFeedback(mid, rating, comment, now);
      resp := match outcome
        case FeedbackSaved(u) => FeedbackStored(u)
        case FeedbackFailed(e) => Failure(400, e);
  }
}
