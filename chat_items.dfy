/** The chat-history table shared by the knowledge querier (which writes one
    item per user question and per assistant answer) and the history manager
    (which scans, groups and updates the items). */
module ChatItems {
  import opened Wrappers
  import Strs
  import KbRetrieval

  /** One element of a stored `sources` list; anything that is not a
      dictionary is kept as `NotADict`. */
  datatype SourceEntry =
    | SourceDict(fileName: Option<string>, pdfFileName: Option<string>, s3Key: Option<string>)
    | NotADict

  /** The stored `sources` attribute: a list, or some other value. */
  datatype SourcesAttr = SourceList(entries: seq<SourceEntry>) | NotAList

  /** One chat-history item; every attribute may be absent. */
  datatype ChatItem = ChatItem(
    jobId: Option<string>,
    messageId: Option<string>,
    role: Option<string>,
    content: Option<string>,
    timestamp: Option<string>,
    ttl: Option<int>,
    chatSessionId: Option<string>,
    sources: Option<SourcesAttr>,
    selectedFolderPaths: Option<seq<string>>,
    selectedJobId: Option<string>,
    rating: Option<int>,
    comment: Option<string>,
    updatedAt: Option<string>)

  /** Thirty days, the lifetime of a chat message. */
  const ChatTtlSeconds: int := 30 * 24 * 60 * 60

  predicate Truthy(o: Option<string>)
  {
    o.Some? && o.value != ""
  }

  /** `message.get('role') == r`. */
  predicate HasRole(m: ChatItem, r: string)
  {
    m.role == Some(r)
  }

  /** `message.get('timestamp', '')`. */
  function Timestamp(m: ChatItem): string
  {
    m.timestamp.GetOr("")
  }

  /** `message.get('content', '')`. */
  function Content(m: ChatItem): string
  {
    m.content.GetOr("")
  }

  /** How a source returned by a query is stored with an answer. */
  function StoredSource(s: KbRetrieval.Source): SourceEntry
  {
    SourceDict(Some(s.fileName), None, Some(s.s3Key))
  }

  function StoredSources(ss: seq<KbRetrieval.Source>): (r: seq<SourceEntry>)
    ensures |r| == |ss|
    ensures forall i :: 0 <= i < |ss| ==> r[i] == StoredSource(ss[i])
  {
    seq(|ss|, i requires 0 <= i < |ss| => StoredSource(ss[i]))
  }

  /** `message_id` of a saved message: the creation timestamp, '#', a uuid. */
  function MessageId(timestamp: string, uuid: string): (r: string)
    ensures |r| == |timestamp| + 1 + |uuid| && r[|timestamp|] == '#'
    ensures r[..|timestamp|] == timestamp && r[|timestamp| + 1..] == uuid
  {
    timestamp + "#" + uuid
  }

  /** The item `save_chat_message` writes. The clock reading (ISO text and
      epoch seconds) and the uuid are parameters. */
  function NewMessageItem(jobId: string, role: string, content: string, sources: seq<KbRetrieval.Source>,
                          chatSessionId: string, selectedFolderPaths: seq<string>, selectedJobId: string,
                          now: string, nowEpoch: int, uuid: string): (m: ChatItem)
    ensures m.jobId == Some(jobId) && m.role == Some(role) && m.content == Some(content)
    ensures m.messageId == Some(MessageId(now, uuid)) && m.timestamp == Some(now)
    ensures m.ttl == Some(nowEpoch + ChatTtlSeconds)
    ensures m.chatSessionId.Some? <==> chatSessionId != ""
    ensures m.chatSessionId.Some? ==> m.chatSessionId.value == chatSessionId
    ensures m.sources.Some? <==> role == "assistant" && |sources| > 0
    ensures m.sources.Some? ==> m.sources.value == SourceList(StoredSources(sources))
    ensures m.selectedFolderPaths.Some? <==> role == "user" && |selectedFolderPaths| > 0
    ensures m.selectedFolderPaths.Some? ==> m.selectedFolderPaths.value == selectedFolderPaths
    ensures m.selectedJobId.Some? <==> role == "user" && selectedJobId != ""
    ensures m.selectedJobId.Some? ==> m.selectedJobId.value == selectedJobId
    ensures m.rating.None? && m.comment.None? && m.updatedAt.None?
  {
    ChatItem(
      Some(jobId), Some(MessageId(now, uuid)), Some(role), Some(content), Some(now),
      Some(nowEpoch + ChatTtlSeconds),
      if chatSessionId != "" then Some(chatSessionId) else None,
      if |sources| > 0 && role == "assistant" then Some(SourceList(StoredSources(sources))) else None,
      if role == "user" && |selectedFolderPaths| > 0 then Some(selectedFolderPaths) else None,
      if role == "user" && selectedJobId != "" then Some(selectedJobId) else None,
      None, None, None)
  }

  /** The table's primary key: partition `job_id`, sort `message_id`. */
  predicate SameKey(a: ChatItem, b: ChatItem)
  {
    a.jobId == b.jobId && a.messageId == b.messageId
  }

  /** Index of the first item with key of `m`, or -1. */
  function KeyIndex(items: seq<ChatItem>, m: ChatItem): (r: int)
    ensures -1 <= r < |items|
    ensures r >= 0 ==> SameKey(items[r], m) && forall j :: 0 <= j < r ==> !SameKey(items[j], m)
    ensures r < 0 ==> forall j :: 0 <= j < |items| ==> !SameKey(items[j], m)
  {
    if |items| == 0 then -1
    else if SameKey(items[0], m) then 0
    else
      var k := KeyIndex(items[1..], m);
      assert forall j :: 1 <= j < |items| ==> items[j] == items[1..][j - 1];
      if k < 0 then -1 else k + 1
  }

  /** `put_item`: the item replaces the one with its key, or is added. */
  function PutItem(items: seq<ChatItem>, m: ChatItem): (r: seq<ChatItem>)
    ensures KeyIndex(items, m) >= 0 ==> r == items[KeyIndex(items, m) := m]
    ensures KeyIndex(items, m) < 0 ==> r == items + [m]
  {
    var k := KeyIndex(items, m);
    if k >= 0 then items[k := m] else items + [m]
  }

  /** Python `content.lower()` contains `needle`. */
  predicate Mentions(m: ChatItem, needle: string)
  {
    Strs.Contains(Strs.Lower(Content(m)), needle)
  }

  /** After a put the new item is stored, every item with another key is
      still stored, and the table grew only if the key was new. */
  lemma PutItemStores(items: seq<ChatItem>, m: ChatItem)
    ensures m in PutItem(items, m)
    ensures forall i :: 0 <= i < |items| && !SameKey(items[i], m) ==> items[i] in PutItem(items, m)
    ensures |PutItem(items, m)| == if KeyIndex(items, m) >= 0 then |items| else |items| + 1
  {
    var r := PutItem(items, m);
    var k := KeyIndex(items, m);
    if k >= 0 {
      assert r[k] == m;
      forall i | 0 <= i < |items| && !SameKey(items[i], m) ensures items[i] in r {
        assert r[i] == items[i];
      }
    } else {
      assert r[|items|] == m;
      forall i | 0 <= i < |items| ensures items[i] in r {
        assert r[i] == items[i];
      }
    }
  }

  /** Index of the first scanned item whose `message_id` is `id`, or -1. */
  function FindMessage(items: seq<ChatItem>, id: string): (r: int)
    ensures -1 <= r < |items|
    ensures r >= 0 ==> items[r].messageId == Some(id)
    ensures forall j :: 0 <= j < |items| && (r < 0 || j < r) ==> items[j].messageId != Some(id)
  {
    if |items| == 0 then -1
    else
      var f := FindMessage(items[..|items| - 1], id);
      if f >= 0 then f else if items[|items| - 1].messageId == Some(id) then |items| - 1 else -1
  }

  /** The item after the feedback update: rating and/or comment when given,
      and `updated_at`; nothing else changes. */
  function WithFeedback(m: ChatItem, rating: Option<int>, comment: Option<string>, now: string): (r: ChatItem)
    ensures r.rating == (if rating.Some? then rating else m.rating)
    ensures r.comment == (if comment.Some? then comment else m.comment)
    ensures r.updatedAt == Some(now)
    ensures r.(rating := m.rating, comment := m.comment, updatedAt := m.updatedAt) == m
  {
    m.(rating := if rating.Some? then rating else m.rating,
       comment := if comment.Some? then comment else m.comment,
       updatedAt := Some(now))
  }

  /** The outcome `update_feedback` reports. */
  datatype FeedbackOutcome = FeedbackSaved(updatedItem: ChatItem) | FeedbackFailed(error: string)

  const MessageNotFound := "メッセージが見つかりません"
  const JobIdNotFound := "ジョブIDが見つかりません"
  const NothingToUpdate := "更新内容が指定されていません"

  /** The update of `update_feedback` is addressed by the key of the found
      item, and that key selects the found item itself. */
  lemma FeedbackTargetsFoundItem(items: seq<ChatItem>, id: string, rating: Option<int>, comment: Option<string>, now: string)
    requires FindMessage(items, id) >= 0
    ensures var k := FindMessage(items, id);
      KeyIndex(items, WithFeedback(items[k], rating, comment, now)) == k
      && PutItem(items, WithFeedback(items[k], rating, comment, now)) == items[k := WithFeedback(items[k], rating, comment, now)]
  {
    var k := FindMessage(items, id);
    var u := WithFeedback(items[k], rating, comment, now);
    assert SameKey(items[k], u);
    var i := KeyIndex(items, u);
    assert 0 <= i <= k;
  }

  /** The table and the reported outcome after `update_feedback`: the
      checks in order (message found, it has a job id, something to
      update), then an update addressed by the found item's key. */
  function FeedbackEffect(items: seq<ChatItem>, messageId: string, rating: Option<int>,
                          comment: Option<string>, now: string): (seq<ChatItem>, FeedbackOutcome)
  {
    var k := FindMessage(items, messageId);
    if k < 0 then (items, FeedbackFailed(MessageNotFound))
    else if !Truthy(items[k].jobId) then (items, FeedbackFailed(JobIdNotFound))
    else if rating.None? && comment.None? then (items, FeedbackFailed(NothingToUpdate))
    else
      var u := WithFeedback(items[k], rating, comment, now);
      (PutItem(items, u), FeedbackSaved(u))
  }

  /** A feedback update succeeds exactly when the message exists, carries a
      job id and something is given; a failure leaves the table alone, and
      a success rewrites that one message (same key, rating/comment and
      `updated_at` only) and nothing else. */
  lemma FeedbackEffectFacts(items: seq<ChatItem>, messageId: string, rating: Option<int>,
                            comment: Option<string>, now: string)
    ensures var k := FindMessage(items, messageId);
      FeedbackEffect(items, messageId, rating, comment, now).1.FeedbackSaved? <==>
        k >= 0 && Truthy(items[k].jobId) && (rating.Some? || comment.Some?)
    ensures FeedbackEffect(items, messageId, rating, comment, now).1.FeedbackFailed? ==>
      FeedbackEffect(items, messageId, rating, comment, now).0 == items &&
      FeedbackEffect(items, messageId, rating, comment, now).1.error in {MessageNotFound, JobIdNotFound, NothingToUpdate}
    ensures FeedbackEffect(items, messageId, rating, comment, now).1.FeedbackSaved? ==>
      var k := FindMessage(items, messageId);
      var u := FeedbackEffect(items, messageId, rating, comment, now).1.updatedItem;
      FeedbackEffect(items, messageId, rating, comment, now).0 == items[k := u] &&
      SameKey(u, items[k]) && u.messageId == Some(messageId) &&
      u.rating == (if rating.Some? then rating else items[k].rating) &&
      u.comment == (if comment.Some? then comment else items[k].comment) &&
      u.updatedAt == Some(now)
  {
    var k := FindMessage(items, messageId);
    if k >= 0 && Truthy(items[k].jobId) && (rating.Some? || comment.Some?) {
      FeedbackTargetsFoundItem(items, messageId, rating, comment, now);
    }
  }

  /** The chat-history table as the sequence a full scan returns. */
  class ChatTable {
    var items: seq<ChatItem>

    constructor (items0: seq<ChatItem>)
      ensures items == items0
    {
      items := items0;
    }

    /** `save_chat_message`: writes the new item and returns its message id,
        or returns None without writing when the table is unavailable
        (`available` is false: no table configured, or the put failed). */
    method SaveChatMessage(jobId: string, role: string, content: string, sources: seq<KbRetrieval.Source>,
                           chatSessionId: string, selectedFolderPaths: seq<string>, selectedJobId: string,
                           now: string, nowEpoch: int, uuid: string, available: bool)
      returns (messageId: Option<string>)
      modifies this
      ensures available ==> messageId == Some(MessageId(now, uuid))
      ensures available ==> items == PutItem(old(items), NewMessageItem(jobId, role, content, sources,
                                  chatSessionId, selectedFolderPaths, selectedJobId, now, nowEpoch, uuid))
      ensures !available ==> messageId.None? && items == old(items)
    {
      if !available {
        return None;
      }
      var m := NewMessageItem(jobId, role, content, sources, chatSessionId, selectedFolderPaths,
                              selectedJobId, now, nowEpoch, uuid);
      items := PutItem(items, m);
      messageId := m.messageId;
    }

    /** `update_feedback`: find the first item with the message id, then
        update rating and/or comment and `updated_at` on its key. */
    method UpdateFeedback(messageId: string, rating: Option<int>, comment: Option<string>, now: string)
      returns (outcome: FeedbackOutcome)
      modifies this
      ensures (items, outcome) == FeedbackEffect(old(items), messageId, rating, comment, now)
    {
      var k := FindMessageIndex(items, messageId);
      if k < 0 {
        return FeedbackFailed(MessageNotFound);
      }
      var target := items[k];
      if !Truthy(target.jobId) {
        return FeedbackFailed(JobIdNotFound);
      }
      if rating.None? && comment.None? {
        return FeedbackFailed(NothingToUpdate);
      }
      FeedbackTargetsFoundItem(items, messageId, rating, comment, now);
      items := items[k := WithFeedback(target, rating, comment, now)];
      outcome := FeedbackSaved(items[k]);
    }
  }

  /** The scan loop that stops at the first item with the message id. */
  method FindMessageIndex(items: seq<ChatItem>, id: string) returns (k: int)
    ensures k == FindMessage(items, id)
  {
    var i := 0;
    while i < |items|
      invariant 0 <= i <= |items|
      invariant FindMessage(items[..i], id) < 0
    {
      assert items[..i + 1][..i] == items[..i];
      if items[i].messageId == Some(id) {
        FindMessagePrefix(items, id, i);
        return i;
      }
      i := i + 1;
    }
    assert items[..i] == items;
    return -1;
  }

  /** A match at `i` with none before it is the first match of the whole scan. */
  lemma FindMessagePrefix(items: seq<ChatItem>, id: string, i: nat)
    requires i < |items| && items[i].messageId == Some(id)
    requires FindMessage(items[..i], id) < 0
    ensures FindMessage(items, id) == i
  {
    var f := FindMessage(items, id);
    forall j | 0 <= j < i ensures items[j].messageId != Some(id) {
      assert items[..i][j] == items[j];
    }
  }
}
