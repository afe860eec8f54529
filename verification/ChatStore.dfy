/** The phone's chat store: messages per channel, with an index from message id to position. */
module ChatStores {
  import opened Common
  import opened Events

  datatype Place = Place(channel: string, idx: nat)

  datatype ChatState = ChatState(
    messages: map<string, seq<ChatMessage>>,
    index: map<string, Place>,
    seen: set<string>,
    channels: seq<string>,
    selected: string)

  const EMPTY_CHAT := ChatState(map[], map[], {}, [], "#general")

  // ---------------------------------------------------------------- operations

  function Bucket(s: ChatState, c: string): seq<ChatMessage> {
    if c in s.messages then s.messages[c] else []
  }

  /** The stored message a place points to, if it points to one. */
  function At(s: ChatState, p: Place): Option<ChatMessage> {
    if p.idx < |Bucket(s, p.channel)| then Some(Bucket(s, p.channel)[p.idx]) else None
  }

  function Put(s: ChatState, p: Place, m: ChatMessage): ChatState
    requires p.idx < |Bucket(s, p.channel)|
  {
    s.(messages := s.messages[p.channel := Bucket(s, p.channel)[p.idx := m]])
  }

  function AddBuckets(ms: map<string, seq<ChatMessage>>, infos: seq<string>): map<string, seq<ChatMessage>> {
    if infos == [] then ms
    else
      var r := AddBuckets(ms, infos[..|infos| - 1]);
      if infos[|infos| - 1] in r then r else r[infos[|infos| - 1] := []]
  }

  function ChannelsSet(s: ChatState, infos: seq<string>): ChatState {
    s.(channels := infos,
       messages := AddBuckets(s.messages, infos),
       selected := if s.selected !in infos && infos != [] then infos[0] else s.selected)
  }

  function ChannelEnsured(s: ChatState, c: string): ChatState {
    if c in s.messages then s
    else s.(messages := s.messages[c := []], channels := if c in s.channels then s.channels else s.channels + [c])
  }

  /** A repeated id replaces the stored message where it is, whatever channel the repeat names. */
  function Ingested(s: ChatState, m: ChatMessage): ChatState {
    var id := m.messageId;
    if id in s.index then
      if At(s, s.index[id]).Some? then Put(s, s.index[id], m) else s
    else
      var e := ChannelEnsured(s, m.channelId);
      var bucket := Bucket(e, m.channelId) + [m];
      e.(messages := e.messages[m.channelId := bucket],
         index := e.index[id := Place(m.channelId, |bucket| - 1)],
         seen := e.seen + {id})
  }

  function Extended(m: ChatMessage, u: ChannelUpdate): ChatMessage {
    m.(body := m.body + u.deltaText, streaming := m.streaming && !u.done)
  }

  /** The boolean says whether the parent message was known. */
  function Applied(s: ChatState, u: ChannelUpdate): (ChatState, bool) {
    if u.messageId in s.index && At(s, s.index[u.messageId]).Some? then
      var p := s.index[u.messageId];
      (Put(s, p, Extended(At(s, p).value, u)), true)
    else (s, false)
  }

  datatype ChatOp = SetChannels(infos: seq<string>) | Ingest(msg: ChatMessage) | Apply(upd: ChannelUpdate)

  function Step(s: ChatState, op: ChatOp): ChatState {
    match op
    case SetChannels(infos) => ChannelsSet(s, infos)
    case Ingest(m) => Ingested(s, m)
    case Apply(u) => Applied(s, u).0
  }

  function Run(ops: seq<ChatOp>): ChatState {
    if ops == [] then EMPTY_CHAT else Step(Run(ops[..|ops| - 1]), ops[|ops| - 1])
  }

  // ---------------------------------------------------------------- index consistency

  /** The index and the buckets describe the same messages, each stored once. */
  ghost predicate Consistent(s: ChatState) {
    && (forall id :: id in s.index ==> PointsTo(s, id))
    && (forall c, i :: c in s.messages && 0 <= i < |s.messages[c]| ==> IndexedAt(s, c, i))
    && s.seen == s.index.Keys
  }

  ghost predicate PointsTo(s: ChatState, id: string)
    requires id in s.index
  {
    At(s, s.index[id]).Some? && At(s, s.index[id]).value.messageId == id
  }

  lemma IndexPoints(s: ChatState, id: string)
    requires Consistent(s) && id in s.index
    ensures PointsTo(s, id)
  {
  }

  ghost predicate IndexedAt(s: ChatState, c: string, i: nat)
    requires c in s.messages && i < |s.messages[c]|
  {
    var id := s.messages[c][i].messageId;
    id in s.index && s.index[id] == Place(c, i)
  }

  lemma {:induction false} AddBucketsKeeps(ms: map<string, seq<ChatMessage>>, infos: seq<string>)
    ensures forall c :: c in ms ==> c in AddBuckets(ms, infos) && AddBuckets(ms, infos)[c] == ms[c]
    ensures forall c :: c in AddBuckets(ms, infos) && c !in ms ==> AddBuckets(ms, infos)[c] == []
  {
    if infos != [] { AddBucketsKeeps(ms, infos[..|infos| - 1]); }
  }

  lemma PutConsistent(s: ChatState, p: Place, m: ChatMessage)
    requires Consistent(s) && At(s, p).Some? && At(s, p).value.messageId == m.messageId
    ensures Consistent(Put(s, p, m))
  {
    var r := Put(s, p, m);
    forall id | id in r.index ensures PointsTo(r, id) {
      assert PointsTo(s, id);
    }
    forall c, i | c in r.messages && 0 <= i < |r.messages[c]| ensures IndexedAt(r, c, i) {
      assert IndexedAt(s, c, i);
    }
  }

  lemma AppendConsistent(s: ChatState, m: ChatMessage)
    requires Consistent(s) && m.messageId !in s.index
    ensures Consistent(Ingested(s, m))
  {
    var e, r := ChannelEnsured(s, m.channelId), Ingested(s, m);
    forall id | id in r.index ensures PointsTo(r, id) {
      if id in s.index { assert PointsTo(s, id); }
    }
    forall c, i | c in r.messages && 0 <= i < |r.messages[c]| ensures IndexedAt(r, c, i) {
      if c != m.channelId || i < |Bucket(e, c)| { assert IndexedAt(s, c, i); }
    }
  }

  lemma ChannelsSetConsistent(s: ChatState, infos: seq<string>)
    requires Consistent(s)
    ensures Consistent(ChannelsSet(s, infos))
  {
    var r := ChannelsSet(s, infos);
    AddBucketsKeeps(s.messages, infos);
    forall id | id in r.index ensures PointsTo(r, id) {
      assert PointsTo(s, id);
    }
    forall c, i | c in r.messages && 0 <= i < |r.messages[c]| ensures IndexedAt(r, c, i) {
      assert c in s.messages;
      assert IndexedAt(s, c, i);
    }
  }

  lemma StepConsistent(s: ChatState, op: ChatOp)
    requires Consistent(s)
    ensures Consistent(Step(s, op))
  {
    match op
    case SetChannels(infos) => ChannelsSetConsistent(s, infos);
    case Ingest(m) =>
      if m.messageId in s.index {
        assert PointsTo(s, m.messageId);
        PutConsistent(s, s.index[m.messageId], m);
      } else {
        AppendConsistent(s, m);
      }
    case Apply(u) =>
      if u.messageId in s.index {
        assert PointsTo(s, u.messageId);
        PutConsistent(s, s.index[u.messageId], Extended(At(s, s.index[u.messageId]).value, u));
      }
  }

  /** After any sequence of operations the index is consistent with the buckets. */
  lemma {:induction false} IndexStaysConsistent(ops: seq<ChatOp>)
    ensures Consistent(Run(ops))
  {
    if ops != [] {
      IndexStaysConsistent(ops[..|ops| - 1]);
      StepConsistent(Run(ops[..|ops| - 1]), ops[|ops| - 1]);
    }
  }

  /** Hence no id is stored twice, in one channel or across channels. */
  lemma IdsAreUnique(ops: seq<ChatOp>, c: string, i: nat, d: string, j: nat)
    requires var s := Run(ops);
             && i < |Bucket(s, c)| && j < |Bucket(s, d)|
             && Bucket(s, c)[i].messageId == Bucket(s, d)[j].messageId
    ensures c == d && i == j
  {
    IndexStaysConsistent(ops);
    assert IndexedAt(Run(ops), c, i) && IndexedAt(Run(ops), d, j);
  }

  // ---------------------------------------------------------------- contents, read off the operations

  function LastIngest(ops: seq<ChatOp>, id: string): Option<ChatMessage> {
    if ops == [] then None
    else
      var last := ops[|ops| - 1];
      if last.Ingest? && last.msg.messageId == id then Some(last.msg) else LastIngest(ops[..|ops| - 1], id)
  }

  function FirstIngest(ops: seq<ChatOp>, id: string): Option<ChatMessage> {
    if ops == [] then None
    else
      var front, last := FirstIngest(ops[..|ops| - 1], id), ops[|ops| - 1];
      if front.None? && last.Ingest? && last.msg.messageId == id then Some(last.msg) else front
  }

  /** The updates for `id` applied since it was last ingested. */
  function UpdatesSince(ops: seq<ChatOp>, id: string): seq<ChannelUpdate> {
    if ops == [] then []
    else
      var front, last := ops[..|ops| - 1], ops[|ops| - 1];
      match last
      case Ingest(m) => if m.messageId == id then [] else UpdatesSince(front, id)
      case Apply(u) =>
        if u.messageId == id && LastIngest(front, id).Some? then UpdatesSince(front, id) + [u]
        else UpdatesSince(front, id)
      case SetChannels(_) => UpdatesSince(front, id)
  }

  function Joined(us: seq<ChannelUpdate>): string {
    if us == [] then "" else Joined(us[..|us| - 1]) + us[|us| - 1].deltaText
  }

  predicate AnyDone(us: seq<ChannelUpdate>) {
    exists u :: u in us && u.done
  }

  /** The message as last ingested, with all deltas since, closed by any done. */
  function Content(m: ChatMessage, us: seq<ChannelUpdate>): ChatMessage {
    m.(body := m.body + Joined(us), streaming := m.streaming && !AnyDone(us))
  }

  /** The ids first ingested into channel `c`, in order. */
  function FirstIngestedInto(ops: seq<ChatOp>, c: string): seq<string> {
    if ops == [] then []
    else
      var front, last := ops[..|ops| - 1], ops[|ops| - 1];
      FirstIngestedInto(front, c)
      + (if last.Ingest? && last.msg.channelId == c && FirstIngest(front, last.msg.messageId).None?
         then [last.msg.messageId] else [])
  }

  function IdsOf(ms: seq<ChatMessage>): (ids: seq<string>)
    ensures |ids| == |ms|
  {
    seq(|ms|, i requires 0 <= i < |ms| => ms[i].messageId)
  }

  lemma ContentSnoc(m: ChatMessage, us: seq<ChannelUpdate>, u: ChannelUpdate)
    ensures Content(m, us + [u]) == Extended(Content(m, us), u)
  {
    assert (us + [u])[..|us|] == us;
    assert m.body + (Joined(us) + u.deltaText) == (m.body + Joined(us)) + u.deltaText;
    assert forall x :: x in us + [u] <==> x in us || x == u;
    if u.done { assert u in us + [u]; }
  }

  /** What the store holds about one id. */
  ghost predicate HoldsId(
      s: ChatState, id: string, first: Option<ChatMessage>, last: Option<ChatMessage>, us: seq<ChannelUpdate>)
  {
    && (first.Some? <==> last.Some?)
    && (id in s.index <==> last.Some?)
    && (last.Some? ==>
        && s.index[id].channel == first.value.channelId
        && At(s, s.index[id]) == Some(Content(last.value, us)))
  }

  lemma {:induction false} ChatContentsById(ops: seq<ChatOp>, id: string)
    ensures HoldsId(Run(ops), id, FirstIngest(ops, id), LastIngest(ops, id), UpdatesSince(ops, id))
  {
    if ops != [] {
      var front, last := ops[..|ops| - 1], ops[|ops| - 1];
      var s := Run(front);
      ChatContentsById(front, id);
      IndexStaysConsistent(front);
      match last
      case SetChannels(infos) => AddBucketsKeeps(s.messages, infos);
      case Ingest(m) =>
        IngestContents(s, m, id, FirstIngest(front, id), LastIngest(front, id), UpdatesSince(front, id));
      case Apply(u) =>
        ApplyContents(s, u, id, FirstIngest(front, id), LastIngest(front, id), UpdatesSince(front, id));
    }
  }

  lemma IngestContents(
      s: ChatState, m: ChatMessage, id: string, first: Option<ChatMessage>, last: Option<ChatMessage>,
      us: seq<ChannelUpdate>)
    requires Consistent(s) && HoldsId(s, id, first, last, us)
    ensures if m.messageId == id
            then HoldsId(Ingested(s, m), id, if first.None? then Some(m) else first, Some(m), [])
            else HoldsId(Ingested(s, m), id, first, last, us)
  {
    assert Joined([]) == "" && m.body + "" == m.body;
    if m.messageId in s.index { assert PointsTo(s, m.messageId); }
    if id in s.index { assert PointsTo(s, id); }
  }

  lemma ApplyContents(
      s: ChatState, u: ChannelUpdate, id: string, first: Option<ChatMessage>, last: Option<ChatMessage>,
      us: seq<ChannelUpdate>)
    requires Consistent(s) && HoldsId(s, id, first, last, us)
    ensures HoldsId(Applied(s, u).0, id, first, last, if u.messageId == id && last.Some? then us + [u] else us)
    ensures u.messageId == id ==> Applied(s, u).1 == last.Some?
  {
    if u.messageId in s.index { assert PointsTo(s, u.messageId); }
    if id in s.index { assert PointsTo(s, id); }
    if u.messageId == id && last.Some? { ContentSnoc(last.value, us, u); }
  }

  /** Replacing a message by one with the same id changes no bucket's ids. */
  lemma PutKeepsIds(s: ChatState, p: Place, m: ChatMessage, c: string)
    requires At(s, p).Some? && At(s, p).value.messageId == m.messageId
    ensures IdsOf(Bucket(Put(s, p, m), c)) == IdsOf(Bucket(s, c))
  {
  }

  /** A new message is listed last in its own channel. */
  lemma IngestedIds(s: ChatState, m: ChatMessage, c: string)
    requires Consistent(s)
    ensures IdsOf(Bucket(Ingested(s, m), c))
            == IdsOf(Bucket(s, c)) + (if m.messageId !in s.index && m.channelId == c then [m.messageId] else [])
  {
    if m.messageId in s.index {
      assert PointsTo(s, m.messageId);
      PutKeepsIds(s, s.index[m.messageId], m, c);
    }
  }

  lemma AppliedIds(s: ChatState, u: ChannelUpdate, c: string)
    requires Consistent(s)
    ensures IdsOf(Bucket(Applied(s, u).0, c)) == IdsOf(Bucket(s, c))
  {
    if u.messageId in s.index {
      assert PointsTo(s, u.messageId);
      PutKeepsIds(s, s.index[u.messageId], Extended(At(s, s.index[u.messageId]).value, u), c);
    }
  }

  lemma ChannelsKeepIds(s: ChatState, infos: seq<string>, c: string)
    ensures IdsOf(Bucket(ChannelsSet(s, infos), c)) == IdsOf(Bucket(s, c))
  {
    AddBucketsKeeps(s.messages, infos);
  }

  /** Each bucket lists its messages in the order in which their ids were first ingested into the channel. */
  lemma {:induction false} BucketsKeepFirstIngestOrder(ops: seq<ChatOp>, c: string)
    ensures IdsOf(Bucket(Run(ops), c)) == FirstIngestedInto(ops, c)
  {
    hide IdsOf;
    hide Bucket;
    hide Consistent;
    hide Applied;
    hide Ingested;
    hide ChannelsSet;
    if ops == [] {
      NothingListed(c);
    } else {
      var front, last := ops[..|ops| - 1], ops[|ops| - 1];
      var s := Run(front);
      BucketsKeepFirstIngestOrder(front, c);
      IndexStaysConsistent(front);
      match last
      case SetChannels(infos) => ChannelsKeepIds(s, infos, c);
      case Ingest(m) =>
        ChatContentsById(front, m.messageId);
        IngestedIds(s, m, c);
      case Apply(u) => AppliedIds(s, u, c);
    }
  }

  lemma NothingListed(c: string)
    ensures IdsOf(Bucket(EMPTY_CHAT, c)) == []
  {
  }

  /** `apply` reports success exactly when the parent was ever ingested. */
  lemma ApplyReportsKnownParent(ops: seq<ChatOp>, u: ChannelUpdate)
    ensures Applied(Run(ops), u).1 <==> LastIngest(ops, u.messageId).Some?
  {
    IndexStaysConsistent(ops);
    ChatContentsById(ops, u.messageId);
    ApplyContents(Run(ops), u, u.messageId, FirstIngest(ops, u.messageId), LastIngest(ops, u.messageId),
                  UpdatesSince(ops, u.messageId));
  }

  // ---------------------------------------------------------------- channels, read off the operations

  /** The operation at `k` gives channel `c` a bucket, unless it has one: it lists it or is the first with its id. */
  ghost predicate Opens(ops: seq<ChatOp>, k: nat, c: string)
    requires k < |ops|
  {
    match ops[k]
    case SetChannels(infos) => c in infos
    case Ingest(m) => m.channelId == c && FirstIngest(ops[..k], m.messageId).None?
    case Apply(_) => false
  }

  ghost predicate Opened(ops: seq<ChatOp>, c: string) {
    exists k :: 0 <= k < |ops| && Opens(ops, k, c)
  }

  /** The last channel list, followed by the channels that new messages have opened since then. */
  ghost function Listing(ops: seq<ChatOp>): seq<string> {
    if ops == [] then []
    else
      var front, last := ops[..|ops| - 1], ops[|ops| - 1];
      match last
      case SetChannels(infos) => infos
      case Ingest(m) =>
        if FirstIngest(front, m.messageId).None? && !Opened(front, m.channelId) then Listing(front) + [m.channelId]
        else Listing(front)
      case Apply(_) => Listing(front)
  }

  /** The first channel of the last list that, without being empty, did not have the selection of the time before. */
  function Selection(ops: seq<ChatOp>): string {
    if ops == [] then "#general"
    else
      var before, last := Selection(ops[..|ops| - 1]), ops[|ops| - 1];
      if last.SetChannels? && last.infos != [] && before !in last.infos then last.infos[0] else before
  }

  lemma OpenedSnoc(ops: seq<ChatOp>, op: ChatOp, c: string)
    ensures Opened(ops + [op], c) <==>
              || Opened(ops, c) || (op.SetChannels? && c in op.infos)
              || (op.Ingest? && op.msg.channelId == c && FirstIngest(ops, op.msg.messageId).None?)
  {
    var all := ops + [op];
    assert all[..|ops|] == ops;
    assert Opens(all, |ops|, c) <==>
      (op.SetChannels? && c in op.infos)
      || (op.Ingest? && op.msg.channelId == c && FirstIngest(ops, op.msg.messageId).None?);
    forall k | 0 <= k < |ops| ensures Opens(all, k, c) <==> Opens(ops, k, c) {
      assert all[..k] == ops[..k];
    }
  }

  lemma {:induction false} AddBucketsAdds(ms: map<string, seq<ChatMessage>>, infos: seq<string>, c: string)
    ensures c in AddBuckets(ms, infos) <==> c in ms || c in infos
  {
    if infos != [] {
      var front, last := infos[..|infos| - 1], infos[|infos| - 1];
      AddBucketsAdds(ms, front, c);
      assert infos == front + [last];
    }
  }

  /** One operation, by the history before it. */
  lemma StepChannels(s: ChatState, op: ChatOp, known: bool, c: string)
    requires Consistent(s) && (op.Ingest? ==> (known <==> op.msg.messageId in s.index))
    ensures var r := Step(s, op);
            && (c in r.messages <==>
                  || c in s.messages || (op.SetChannels? && c in op.infos)
                  || (op.Ingest? && op.msg.channelId == c && !known))
            && r.channels == (if op.SetChannels? then op.infos
                              else if op.Ingest? && !known && op.msg.channelId !in s.messages
                                      && op.msg.channelId !in s.channels then s.channels + [op.msg.channelId]
                              else s.channels)
            && r.selected == (if op.SetChannels? && op.infos != [] && s.selected !in op.infos then op.infos[0]
                              else s.selected)
  {
    match op
    case SetChannels(infos) => AddBucketsAdds(s.messages, infos, c);
    case Ingest(m) => if known { IndexPoints(s, m.messageId); }
    case Apply(u) => if u.messageId in s.index { IndexPoints(s, u.messageId); }
  }

  /**
   * After any operations: which channels have a bucket, in which order they are listed, and which is selected. A
   * channel that has dropped out of the list stays out of it until it is sent again, even as its messages come in.
   */
  lemma {:induction false} ChannelsFollow(ops: seq<ChatOp>)
    ensures var s := Run(ops);
            && s.channels == Listing(ops) && s.selected == Selection(ops)
            && (forall c :: c in s.messages <==> Opened(ops, c))
            && (forall c :: c in s.channels ==> c in s.messages)
  {
    if ops != [] {
      var front, last := ops[..|ops| - 1], ops[|ops| - 1];
      var s := Run(front);
      ChannelsFollow(front);
      IndexStaysConsistent(front);
      assert ops == front + [last];
      var known := last.Ingest? && FirstIngest(front, last.msg.messageId).Some?;
      if last.Ingest? { ChatContentsById(front, last.msg.messageId); }
      hide Step;
      hide Consistent;
      hide FirstIngest;
      hide Opened;
      forall c
        ensures c in Run(ops).messages <==> Opened(ops, c)
        ensures c in Run(ops).channels ==> c in Run(ops).messages
      {
        StepChannels(s, last, known, c);
        OpenedSnoc(front, last, c);
      }
      StepChannels(s, last, known, "");
    }
  }

  // ---------------------------------------------------------------- replay is not idempotent

  /** Ingesting a known id overwrites: the store stays as it was exactly when the message equals the stored one. */
  lemma OverwriteIsNoOpIff(ops: seq<ChatOp>, m: ChatMessage)
    requires LastIngest(ops, m.messageId).Some?
    ensures Run(ops + [Ingest(m)]) == Run(ops)
            <==> m == Content(LastIngest(ops, m.messageId).value, UpdatesSince(ops, m.messageId))
  {
    assert (ops + [Ingest(m)])[..|ops|] == ops;
    IndexStaysConsistent(ops);
    ChatContentsById(ops, m.messageId);
    var s := Run(ops);
    var p := s.index[m.messageId];
    var bucket := s.messages[p.channel];
    if m == bucket[p.idx] {
      assert bucket[p.idx := m] == bucket;
    } else {
      assert Put(s, p, m).messages[p.channel][p.idx] != bucket[p.idx];
    }
  }

  /** No update adds text, and none closes a streaming message. */
  ghost predicate NothingToLose(m: ChatMessage, us: seq<ChannelUpdate>) {
    forall i :: 0 <= i < |us| ==> us[i].deltaText == "" && (m.streaming ==> !us[i].done)
  }

  lemma {:induction false} JoinedIsEmptyIff(us: seq<ChannelUpdate>)
    ensures Joined(us) == "" <==> forall i :: 0 <= i < |us| ==> us[i].deltaText == ""
  {
    if us != [] {
      var front, last := us[..|us| - 1], us[|us| - 1];
      JoinedIsEmptyIff(front);
      assert |Joined(us)| == |Joined(front)| + |last.deltaText|;
      hide Joined;
      assert forall i :: 0 <= i < |front| ==> us[i] == front[i];
    }
  }

  lemma UnchangedContentIff(m: ChatMessage, us: seq<ChannelUpdate>)
    ensures Content(m, us) == m <==> NothingToLose(m, us)
  {
    JoinedIsEmptyIff(us);
    assert m.body + "" == m.body;
    if Content(m, us) == m {
      assert |m.body + Joined(us)| == |m.body|;
      forall i | 0 <= i < |us| && m.streaming ensures !us[i].done { assert us[i] in us; }
    }
  }

  /**
   * Replaying a message as it was last ingested is harmless exactly when no update applied to it since then
   * carried text, and none was the done that closed it: any other replay discards what was assembled.
   */
  lemma ReplayIsNoOpIff(ops: seq<ChatOp>, m: ChatMessage)
    requires LastIngest(ops, m.messageId) == Some(m)
    ensures Run(ops + [Ingest(m)]) == Run(ops) <==> NothingToLose(m, UpdatesSince(ops, m.messageId))
  {
    OverwriteIsNoOpIff(ops, m);
    UnchangedContentIff(m, UpdatesSince(ops, m.messageId));
    hide Content;
  }

  function Stored(s: ChatState, id: string): Option<ChatMessage> {
    if id in s.index then At(s, s.index[id]) else None
  }

  lemma StoredIsContent(ops: seq<ChatOp>, m: ChatMessage)
    requires LastIngest(ops, m.messageId) == Some(m)
    ensures Stored(Run(ops), m.messageId) == Some(Content(m, UpdatesSince(ops, m.messageId)))
  {
    ChatContentsById(ops, m.messageId);
    hide Run;
    hide Content;
  }

  lemma ShortHistories(m: ChatMessage, u: ChannelUpdate)
    requires u.messageId == m.messageId
    ensures var two, three := [Ingest(m), Apply(u)], [Ingest(m), Apply(u), Ingest(m)];
            && LastIngest(two, m.messageId) == Some(m) && UpdatesSince(two, m.messageId) == [u]
            && LastIngest(three, m.messageId) == Some(m) && UpdatesSince(three, m.messageId) == []
  {
    var one, two, three := [Ingest(m)], [Ingest(m), Apply(u)], [Ingest(m), Apply(u), Ingest(m)];
    assert one[..0] == [] && two[..1] == one && three[..2] == two;
    assert UpdatesSince(one, m.messageId) == [];
  }

  lemma OneDelta(m: ChatMessage, u: ChannelUpdate)
    ensures Content(m, [u]) == Extended(m, u) && Content(m, []) == m
  {
    assert m.body + "" == m.body;
    ContentSnoc(m, [], u);
    assert [] + [u] == [u];
  }

  /** For instance: a streamed delta is lost when the reconnect replays the message it belongs to. */
  lemma ReplayWipesDeltas(m: ChatMessage, u: ChannelUpdate)
    requires u.messageId == m.messageId && u.deltaText != ""
    ensures Stored(Run([Ingest(m), Apply(u)]), m.messageId) == Some(Extended(m, u))
    ensures Stored(Run([Ingest(m), Apply(u), Ingest(m)]), m.messageId) == Some(m)
    ensures Extended(m, u) != m
  {
    hide Run;
    hide Stored;
    hide Content;
    hide LastIngest;
    hide UpdatesSince;
    ShortHistories(m, u);
    StoredIsContent([Ingest(m), Apply(u)], m);
    StoredIsContent([Ingest(m), Apply(u), Ingest(m)], m);
    OneDelta(m, u);
    assert |Extended(m, u).body| > |m.body|;
  }

  // ---------------------------------------------------------------- the object

  class ChatStore {
    var messages: map<string, seq<ChatMessage>>
    var index: map<string, Place>
    var seen: set<string>
    var channels: seq<string>
    var selected: string

    ghost function State(): ChatState
      reads this
    {
      ChatState(messages, index, seen, channels, selected)
    }

    constructor ()
      ensures State() == EMPTY_CHAT
    {
      messages, index, seen, channels, selected := map[], map[], {}, [], "#general";
    }

    method SetChannelList(infos: seq<string>)
      modifies this`channels, this`messages, this`selected
      ensures State() == ChannelsSet(old(State()), infos)
    {
      channels := infos;
      for i := 0 to |infos|
        invariant channels == infos && selected == old(selected)
        invariant messages == AddBuckets(old(messages), infos[..i])
      {
        assert infos[..i + 1][..i] == infos[..i];
        if infos[i] !in messages {
          messages := messages[infos[i] := []];
        }
      }
      assert infos[..|infos|] == infos;
      if selected !in infos && infos != [] {
        selected := infos[0];
      }
    }

    method EnsureChannel(id: string)
      modifies this`messages, this`channels
      ensures State() == ChannelEnsured(old(State()), id)
    {
      if id in messages {
        return;
      }
      messages := messages[id := []];
      if id !in channels {
        channels := channels + [id];
      }
    }

    method IngestMessage(m: ChatMessage)
      requires Consistent(State())
      modifies this
      ensures State() == Ingested(old(State()), m) && Consistent(State())
    {
      hide Consistent;
      StepConsistent(State(), Ingest(m));
      if m.messageId in index {
        var loc := index[m.messageId];
        IndexPoints(State(), m.messageId);
        messages := messages[loc.channel := messages[loc.channel][loc.idx := m]];
        return;
      }
      EnsureChannel(m.channelId);
      messages := messages[m.channelId := messages[m.channelId] + [m]];
      var idx := |messages[m.channelId]| - 1;
      index := index[m.messageId := Place(m.channelId, idx)];
      seen := seen + {m.messageId};
    }

    method ApplyUpdate(u: ChannelUpdate) returns (known: bool)
      requires Consistent(State())
      modifies this`messages
      ensures (State(), known) == Applied(old(State()), u) && Consistent(State())
    {
      hide Consistent;
      StepConsistent(State(), Apply(u));
      if u.messageId !in index {
        return false;
      }
      var loc := index[u.messageId];
      IndexPoints(State(), u.messageId);
      var msg := messages[loc.channel][loc.idx];
      msg := msg.(body := msg.body + u.deltaText);
      if u.done {
        msg := msg.(streaming := false);
      }
      messages := messages[loc.channel := messages[loc.channel][loc.idx := msg]];
      return true;
    }
  }
}
