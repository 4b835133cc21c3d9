/** The anti-revoke plugin: it caches every trackable chat message and, when
    a recall notice arrives, looks the message up (consuming it) and forwards
    its content to the administrators. */
module AntiRevoke {
  import opened Wrappers
  import opened SeqFacts
  import opened Text
  import opened RevokeCache

  // ---------------------------------------------------------------------
  // Configuration

  /** `_parse_admin_list`: the comma-separated pieces, stripped, with the
      empty ones dropped, in input order. */
  function ParseAdminList(adminStr: string): (r: seq<string>)
    ensures forall i :: 0 <= i < |r| ==> r[i] != [] && NoEdgeSpace(r[i]) && ',' !in r[i]
  {
    if adminStr == [] then [] else KeepStripped(Split(adminStr, ','))
  }

  /** The list comprehension `[p.strip() for p in pieces if p.strip()]`. */
  function KeepStripped(pieces: seq<string>): (r: seq<string>)
    requires forall i :: 0 <= i < |pieces| ==> ',' !in pieces[i]
    ensures |r| <= |pieces|
    ensures forall i :: 0 <= i < |r| ==> r[i] != [] && NoEdgeSpace(r[i]) && ',' !in r[i]
  {
    if pieces == [] then []
    else
      var p := Strip(pieces[0]);
      (if p != [] then [p] else []) + KeepStripped(pieces[1..])
  }

  /** Pieces that are already stripped and non-empty are all kept, unchanged. */
  lemma {:induction false} KeepStrippedClean(xs: seq<string>)
    requires forall i :: 0 <= i < |xs| ==> xs[i] != [] && NoEdgeSpace(xs[i]) && ',' !in xs[i]
    ensures KeepStripped(xs) == xs
  {
    if xs != [] {
      StripNoEdge(xs[0]);
      KeepStrippedClean(xs[1..]);
    }
  }

  /** Parsing a comma-joined list of clean ids gives the list back. */
  lemma ParseAdminListJoin(xs: seq<string>)
    requires |xs| >= 1
    requires forall i :: 0 <= i < |xs| ==> xs[i] != [] && NoEdgeSpace(xs[i]) && ',' !in xs[i]
    ensures ParseAdminList(Join(xs, ',')) == xs
  {
    JoinNonEmpty(xs, ',');
    SplitJoin(xs, ',');
    KeepStrippedClean(xs);
  }

  lemma {:induction false} JoinNonEmpty(xs: seq<string>, sep: char)
    requires |xs| >= 1 && xs[0] != []
    ensures Join(xs, sep) != []
  {
    if |xs| > 1 {
      assert Join(xs, sep)[0] == xs[0][0];
    }
  }

  /** The plugin's configuration, with the defaults already applied. */
  datatype Config = Config(
    adminQq: string,
    adminGroup: string,
    enableGroup: bool,
    enablePrivate: bool,
    enableAiFilter: bool)

  // ---------------------------------------------------------------------
  // Incoming messages

  /** The parts of a chat event the plugin caches. */
  datatype MessageEvent = MessageEvent(
    messageId: string,
    senderId: string,
    senderName: string,
    content: string,      // the plain text of the message
    groupId: string,      // "" for a private chat
    messageTime: string,  // the original time, already formatted for display
    platform: string)

  /** The record cached for an event received at time `now`. */
  function EventRecord(e: MessageEvent, now: int): (m: CachedMessage)
    ensures m.timestamp == now && m.content == e.content && m.senderId == e.senderId
  {
    CachedMessage(now, e.content, e.senderName, e.senderId, e.groupId, e.messageTime, e.platform)
  }

  /** A cached event is recalled intact: recording it and resolving its ids
      within the expiry time returns a record with every field of the event,
      stamped with the time it was recorded, and consumes it. */
  lemma RecordedEventIsRecalled(s: seq<Slot>, e: MessageEvent, now: int, later: int, maxSize: nat, expireTime: int)
    requires DistinctKeys(s) && |s| <= maxSize && maxSize >= 1 && later - now <= expireTime
    ensures var r := Resolve(Record(s, MessageKey(e.messageId, e.senderId), now, EventRecord(e, now), maxSize, expireTime),
                             e.messageId, e.senderId, later, expireTime);
      && r.found.Some?
      && var m := r.found.value;
      && m.timestamp == now && m.content == e.content && m.senderName == e.senderName
      && m.senderId == e.senderId && m.groupId == e.groupId && m.messageTime == e.messageTime
      && m.platform == e.platform
      && Get(r.rest, MessageKey(e.messageId, e.senderId)) == None
  {
    RecordThenTake(s, MessageKey(e.messageId, e.senderId), now, EventRecord(e, now), maxSize, expireTime, later);
  }

  /** `on_message`: only QQ platforms, and only the kinds of chat enabled. */
  predicate ShouldCache(e: MessageEvent, enableGroup: bool, enablePrivate: bool) {
    e.platform in ["aiocqhttp", "qqofficial"] && (if e.groupId != [] then enableGroup else enablePrivate)
  }

  // ---------------------------------------------------------------------
  // Recall notices

  /** A scalar field of a recall notice, as decoded from the platform's JSON. */
  datatype Scalar = Null | Int(n: int) | Str(s: string)

  /** The `data` member of a recall notice: absent, present but not an
      object (so `.get` on it raises), or an object. */
  datatype DataField = NoData | NotAnObject | Object(fields: map<string, Scalar>)

  /** A recall notice: its top-level scalar fields and its `data` member. */
  datatype Notice = Notice(fields: map<string, Scalar>, data: DataField)

  /** Python truthiness of a field value. */
  predicate Truthy(v: Scalar) {
    match v
    case Null => false
    case Int(n) => n != 0
    case Str(s) => s != []
  }

  /** Python's `str(v)`. */
  function Render(v: Scalar): string {
    match v
    case Null => "None"
    case Int(n) => IntToString(n)
    case Str(s) => s
  }

  /** `d.get(name, '')`. */
  function Field(d: map<string, Scalar>, name: string): Scalar {
    if name in d then d[name] else Str("")
  }

  /** `a or b or c`: the first truthy operand, or the last one when none is. */
  function Or3(a: Scalar, b: Scalar, c: Scalar): Scalar {
    if Truthy(a) then a else if Truthy(b) then b else c
  }

  /** The rendering of a field of `data`, or None when `data` is not an object. */
  function DataFieldText(d: DataField, name: string): Option<string> {
    match d
    case NoData => Some("")
    case NotAnObject => None
    case Object(f) => Some(Render(Field(f, name)))
  }

  /** The id extraction of `_handle_recall_event` as written: message id from
      `message_id or msg_id or id`, user id from `user_id or sender_id or
      qq`, each rendered with `str`, and `data.message_id` / `data.user_id`
      when the rendering is empty.  None means the handler gives up without
      touching the cache: an id is still empty, or `data` is not an object
      when it is needed. */
  function ExtractIdsAsWritten(n: Notice): Option<(string, string)> {
    var mid0 := Render(Or3(Field(n.fields, "message_id"), Field(n.fields, "msg_id"), Field(n.fields, "id")));
    var uid0 := Render(Or3(Field(n.fields, "user_id"), Field(n.fields, "sender_id"), Field(n.fields, "qq")));
    var mid := if mid0 == [] then DataFieldText(n.data, "message_id") else Some(mid0);
    var uid := if uid0 == [] then DataFieldText(n.data, "user_id") else Some(uid0);
    if mid.None? || uid.None? || mid.value == [] || uid.value == [] then None
    else Some((mid.value, uid.value))
  }

  /** A null third field is not skipped: its rendering "None" is a non-empty
      string, so `data` is never consulted. */
  lemma NullIdBecomesNone()
    ensures var n := Notice(map["id" := Null, "user_id" := Str("5")], Object(map["message_id" := Str("42")]));
      ExtractIdsAsWritten(n) == Some(("None", "5")) && ExtractIds(n) == Some(("42", "5"))
  {
  }

  /** The extraction as written agrees with the intended one on every notice
      whose third candidates `id` and `qq` are strings or truthy: only a
      null or zero third candidate tells them apart. */
  lemma ExtractIdsAgree(n: Notice)
    requires Field(n.fields, "id").Str? || Truthy(Field(n.fields, "id"))
    requires Field(n.fields, "qq").Str? || Truthy(Field(n.fields, "qq"))
    ensures ExtractIdsAsWritten(n) == ExtractIds(n)
  {
    FirstTruthyThree(Field(n.fields, "message_id"), Field(n.fields, "msg_id"), Field(n.fields, "id"));
    FirstTruthyThree(Field(n.fields, "user_id"), Field(n.fields, "sender_id"), Field(n.fields, "qq"));
  }

  /** The first truthy value among the candidates, rendered; "" when none is. */
  function FirstTruthy(vs: seq<Scalar>): (r: string)
    ensures r != [] <==> exists i :: 0 <= i < |vs| && Truthy(vs[i])
  {
    if vs == [] then ""
    else if Truthy(vs[0]) then
      assert Render(vs[0]) != [] by { if vs[0].Int? { assert IntToString(vs[0].n) != []; } }
      Render(vs[0])
    else
      var r := FirstTruthy(vs[1..]);
      assert forall i :: 1 <= i < |vs| ==> vs[i] == vs[1..][i - 1];
      r
  }

  /** On three candidates, the first truthy one wins. */
  lemma FirstTruthyThree(a: Scalar, b: Scalar, c: Scalar)
    ensures FirstTruthy([a, b, c]) ==
      if Truthy(a) then Render(a) else if Truthy(b) then Render(b) else if Truthy(c) then Render(c) else ""
  {
    assert [c][1..] == [];
    assert FirstTruthy([c]) == if Truthy(c) then Render(c) else "";
    assert [b, c][1..] == [c];
    assert [a, b, c][1..] == [b, c];
  }

  /** The id extraction with the evident intent: each id is the first truthy
      value among its four sources in order; a `data` member that is not an
      object still makes the handler give up when it is needed. */
  function ExtractIds(n: Notice): (r: Option<(string, string)>)
    ensures r.Some? ==> r.value.0 != [] && r.value.1 != []
  {
    var midTop := [Field(n.fields, "message_id"), Field(n.fields, "msg_id"), Field(n.fields, "id")];
    var uidTop := [Field(n.fields, "user_id"), Field(n.fields, "sender_id"), Field(n.fields, "qq")];
    var mid := if FirstTruthy(midTop) == [] then DataFieldText(n.data, "message_id") else Some(FirstTruthy(midTop));
    var uid := if FirstTruthy(uidTop) == [] then DataFieldText(n.data, "user_id") else Some(FirstTruthy(uidTop));
    if mid.None? || uid.None? || mid.value == [] || uid.value == [] then None
    else Some((mid.value, uid.value))
  }

  /** Field precedence: when the extraction succeeds, the message id is the
      first truthy source among `message_id`, `msg_id`, `id` and then
      `data.message_id`, and likewise the user id. */
  lemma ExtractIdsPrecedence(n: Notice)
    requires ExtractIds(n).Some?
    ensures var ids := ExtractIds(n).value;
      var (a, b, c) := (Field(n.fields, "message_id"), Field(n.fields, "msg_id"), Field(n.fields, "id"));
      var (d, e, f) := (Field(n.fields, "user_id"), Field(n.fields, "sender_id"), Field(n.fields, "qq"));
      && (Truthy(a) ==> ids.0 == Render(a))
      && ((!Truthy(a) && Truthy(b)) ==> ids.0 == Render(b))
      && ((!Truthy(a) && !Truthy(b) && Truthy(c)) ==> ids.0 == Render(c))
      && ((!Truthy(a) && !Truthy(b) && !Truthy(c)) ==> n.data.Object? && ids.0 == Render(Field(n.data.fields, "message_id")))
      && (Truthy(d) ==> ids.1 == Render(d))
      && ((!Truthy(d) && Truthy(e)) ==> ids.1 == Render(e))
      && ((!Truthy(d) && !Truthy(e) && Truthy(f)) ==> ids.1 == Render(f))
      && ((!Truthy(d) && !Truthy(e) && !Truthy(f)) ==> n.data.Object? && ids.1 == Render(Field(n.data.fields, "user_id")))
  {
    FirstTruthyThree(Field(n.fields, "message_id"), Field(n.fields, "msg_id"), Field(n.fields, "id"));
    FirstTruthyThree(Field(n.fields, "user_id"), Field(n.fields, "sender_id"), Field(n.fields, "qq"));
  }

  /** The two labels the notification shows for the chat: a missing group id
      renders as the private-chat label "私聊". */
  function GroupLabels(groupId: string): (labels: (string, string))
    ensures labels.0 != [] && labels.1 != []
    ensures groupId == [] <==> labels.1 == "私聊" && labels.0 == "私聊"
  {
    if groupId == [] then ("私聊", "私聊")
    else
      var name := "群聊(" + groupId + ")";
      assert name[0] != "私聊"[0];
      (name, groupId)
  }

  /** `_is_important_message`, with the model's reply as an input: None
      stands for no provider, a failed call, or no reply text.  Only an
      enabled filter with a reply can suppress a notification, and only when
      the stripped, lower-cased reply is not exactly "important". */
  function IsImportant(enableAiFilter: bool, reply: Option<string>): (r: bool)
    ensures !r <==> enableAiFilter && reply.Some? && reply.value != [] && Lower(Strip(reply.value)) != "important"
  {
    if !enableAiFilter then true
    else match reply
      case None => true
      case Some(text) => if text == [] then true else Lower(Strip(text)) == "important"
  }

  /** What the recall handler ends up doing. */
  datatype RecallOutcome =
    | MissingIds                 // the notice yields no message id or user id
    | NotFound                   // no cached message matched
    | Suppressed(msg: CachedMessage)  // found, judged unimportant
    | Notify(msg: CachedMessage, groupName: string, groupIdLabel: string)

  /** One deletion of the sweep: the next listed expired key is still
      present, and deleting it extends the batch of deletions by one. */
  lemma SweepStep(before: seq<Slot>, i: nat, cur: seq<Slot>, now: int, expireTime: int)
    requires DistinctKeys(before) && DistinctKeys(cur)
    requires i < |ExpiredKeys(before, now, expireTime)|
    requires cur == Without(before, ExpiredKeys(before, now, expireTime)[..i])
    ensures var key := ExpiredKeys(before, now, expireTime)[i];
      && IndexOf(cur, key) >= 0
      && RemoveAt(cur, IndexOf(cur, key)) == Without(before, ExpiredKeys(before, now, expireTime)[..i + 1])
      && DistinctKeys(RemoveAt(cur, IndexOf(cur, key)))
  {
    var ks := ExpiredKeys(before, now, expireTime);
    var key := ks[i];
    ExpiredKeysDistinct(before, now, expireTime);
    assert key !in ks[..i] by {
      forall j | 0 <= j < i ensures ks[..i][j] != key {
        assert ks[..i][j] == ks[j];
      }
    }
    assert key in ks;
    GetNone(before, key);
    StillPresent(before, ks[..i], key);
    GetNone(cur, key);
    var idx := IndexOf(cur, key);
    WithoutOne(cur, idx);
    WithoutStep(before, ks[..i], key);
    RemoveAtDistinct(cur, idx);
    PrefixSnoc(ks, i);
  }

  /** The anti-revoke plugin's state: the message cache and the parsed
      configuration. */
  class AntiRevokePlugin {
    var messageCache: seq<Slot>
    const cacheMaxSize: nat
    const cacheExpireTime: int
    const adminQqList: seq<string>
    const adminGroupList: seq<string>
    const enableGroup: bool
    const enablePrivate: bool
    const enableAiFilter: bool

    /** The cache is a well-formed dictionary within its capacity. */
    ghost predicate Valid()
      reads this
    {
      DistinctKeys(messageCache) && |messageCache| <= cacheMaxSize
    }

    constructor (config: Config)
      ensures Valid()
      ensures messageCache == [] && cacheMaxSize == 1000 && cacheExpireTime == 3600
      ensures adminQqList == ParseAdminList(config.adminQq)
      ensures adminGroupList == ParseAdminList(config.adminGroup)
      ensures enableGroup == config.enableGroup && enablePrivate == config.enablePrivate
      ensures enableAiFilter == config.enableAiFilter
    {
      messageCache := [];
      cacheMaxSize := 1000;
      cacheExpireTime := 3600;
      adminQqList := ParseAdminList(config.adminQq);
      adminGroupList := ParseAdminList(config.adminGroup);
      enableGroup := config.enableGroup;
      enablePrivate := config.enablePrivate;
      enableAiFilter := config.enableAiFilter;
    }

    /** `_add_message_to_cache` at time `now`: delete every expired key one by
        one, evict the oldest entry when the cache is still full, then store
        the event's record under its key. */
    method AddMessageToCache(event: MessageEvent, now: int)
      requires Valid()
      modifies this
      ensures Valid()
      ensures messageCache == Record(old(messageCache), MessageKey(event.messageId, event.senderId),
                                     now, EventRecord(event, now), cacheMaxSize, cacheExpireTime)
    {
      var messageKey := MessageKey(event.messageId, event.senderId);
      ghost var before := messageCache;
      var expiredKeys := ExpiredKeys(messageCache, now, cacheExpireTime);
      FilterAll(before, KeyNotIn([]));
      for i := 0 to |expiredKeys|
        invariant messageCache == Without(before, expiredKeys[..i])
        invariant DistinctKeys(messageCache)
      {
        var key := expiredKeys[i];
        SweepStep(before, i, messageCache, now, cacheExpireTime);
        var idx := IndexOf(messageCache, key);
        messageCache := RemoveAt(messageCache, idx);
      }
      WholePrefix(expiredKeys);
      SweepIsFresh(before, now, cacheExpireTime);
      RecordKeepsBound(before, messageKey, now, EventRecord(event, now), cacheMaxSize, cacheExpireTime);
      if |messageCache| >= cacheMaxSize {
        if messageCache == [] {
          // `min` of no keys raises; the error is logged and nothing is stored.
          return;
        }
        var oldestKey := messageCache[OldestIndex(messageCache)].key;
        var idx := IndexOf(messageCache, oldestKey);
        IndexOfKey(messageCache, OldestIndex(messageCache));
        messageCache := RemoveAt(messageCache, idx);
      }
      messageCache := Put(messageCache, messageKey, EventRecord(event, now));
    }

    /** `_get_message_from_cache` at time `now`: consume the record under the
        key, returning it only when it is not expired. */
    method GetMessageFromCache(messageId: string, senderId: string, now: int) returns (r: Option<CachedMessage>)
      requires Valid()
      modifies this
      ensures Valid()
      ensures var t := Take(old(messageCache), MessageKey(messageId, senderId), now, cacheExpireTime);
        r == t.found && messageCache == t.rest
    {
      var messageKey := MessageKey(messageId, senderId);
      TakeFacts(messageCache, messageKey, now, cacheExpireTime);
      var idx := IndexOf(messageCache, messageKey);
      if idx >= 0 {
        var messageData := messageCache[idx].msg;
        if now - messageData.timestamp > cacheExpireTime {
          messageCache := RemoveAt(messageCache, idx);
          return None;
        }
        messageCache := RemoveAt(messageCache, idx);
        return Some(messageData);
      }
      return None;
    }

    /** The fallback loop of `_handle_recall_event`: try each key in turn
        and consume the first one present. */
    method ProbeKeys(keys: seq<string>) returns (found: Option<CachedMessage>)
      requires Valid()
      modifies this
      ensures Valid()
      ensures Taken(found, messageCache) == Probe(old(messageCache), keys)
    {
      found := None;
      var i := 0;
      while i < |keys|
        invariant 0 <= i <= |keys|
        invariant messageCache == old(messageCache)
        invariant Probe(messageCache, keys) == Probe(messageCache, keys[i..])
        invariant Valid()
      {
        var idx := IndexOf(messageCache, keys[i]);
        if idx >= 0 {
          found := Some(messageCache[idx].msg);
          RemoveAtDistinct(messageCache, idx);
          messageCache := RemoveAt(messageCache, idx);
          return;
        }
        assert keys[i..][1..] == keys[i + 1..];
        i := i + 1;
      }
    }

    /** `_handle_recall_event` at time `now`, with the importance model's
        reply as an input: extract the ids, consume the cached message (or,
        failing that, the first present alternative key), and decide whether
        to notify. */
    method HandleRecallEvent(notice: Notice, now: int, aiReply: Option<string>) returns (outcome: RecallOutcome)
      requires Valid()
      modifies this
      ensures Valid()
      ensures ExtractIds(notice).None? ==> outcome == MissingIds && messageCache == old(messageCache)
      ensures ExtractIds(notice).Some? ==>
        var (mid, uid) := ExtractIds(notice).value;
        var r := Resolve(old(messageCache), mid, uid, now, cacheExpireTime);
        && messageCache == r.rest
        && outcome == match r.found
             case None => NotFound
             case Some(m) =>
               if IsImportant(enableAiFilter, aiReply)
               then Notify(m, GroupLabels(m.groupId).0, GroupLabels(m.groupId).1)
               else Suppressed(m)
    {
      var ids := ExtractIds(notice);
      if ids.None? {
        return MissingIds;
      }
      var (messageId, userId) := ids.value;
      var messageData := GetMessageFromCache(messageId, userId, now);
      if messageData.None? {
        messageData := ProbeKeys(AlternativeKeys(messageId, userId));
        if messageData.None? {
          return NotFound;
        }
      }
      var m := messageData.value;
      if IsImportant(enableAiFilter, aiReply) {
        var (groupName, groupIdLabel) := GroupLabels(m.groupId);
        outcome := Notify(m, groupName, groupIdLabel);
      } else {
        outcome := Suppressed(m);
      }
    }

    /** `on_message`: cache the event when it is from a QQ platform and its
        kind of chat is enabled. */
    method OnMessage(event: MessageEvent, now: int)
      requires Valid()
      modifies this
      ensures Valid()
      ensures messageCache ==
        if ShouldCache(event, enableGroup, enablePrivate)
        then Record(old(messageCache), MessageKey(event.messageId, event.senderId), now, EventRecord(event, now), cacheMaxSize, cacheExpireTime)
        else old(messageCache)
    {
      if event.platform !in ["aiocqhttp", "qqofficial"] {
        return;
      }
      if event.groupId != [] {
        if !enableGroup {
          return;
        }
      } else {
        if !enablePrivate {
          return;
        }
      }
      AddMessageToCache(event, now);
    }
  }
}
