/** The chat bus: fan-out to the subscribed sessions, replay buffer, pending confirmations, reconnect. */
module ChatBuses {
  import opened Common
  import opened Events
  import opened Sessions
  import opened ReplayBuffers

  const DEFAULT_CLIENT: string := "operator"

  const CHANNEL_IDS: seq<string> := [
    "#power", "#signal", "#firmware", "#layout", "#librarian", "#sourcing", "#reverse", "#sentinel", "#scribe",
    "#tutor", "#live-feed", "#user", "#actions", "#dissent", "#general"]

  datatype Member = Member(cap: nat, s: SessionState) {
    ghost predicate Valid() { s.Valid() }
  }

  /** `pendingOrder` is the insertion order of the `pending` dictionary. */
  datatype BusState = BusState(
    sessions: map<string, Member>,
    buffer: seq<ChatMessage>,
    pending: map<string, ConfirmationRequest>,
    pendingOrder: seq<string>,
    clients: map<string, string>)
  {
    ghost predicate Valid() {
      && (forall id :: id in sessions ==> sessions[id].Valid())
      && NoDuplicates(pendingOrder)
      && (forall c :: c in pendingOrder <==> c in pending)
    }
  }

  const EMPTY_BUS := BusState(map[], [], map[], [], map[])

  // ---------------------------------------------------------------- fan-out

  function Recorded(b: BusState, e: Event, now: int): BusState {
    match e
    case Chat(m) => b.(buffer := Appended(b.buffer, m, now))
    case Confirm(req) =>
      b.(pending := b.pending[req.callId := req],
         pendingOrder := if req.callId in b.pending then b.pendingOrder else b.pendingOrder + [req.callId])
    case _ => b
  }

  /** What publishing does to one subscriber: the event, a notice behind it if drops occurred, a flush. */
  function Delivered(m: Member, e: Event, origin: Option<string>, flush: bool, now: int): (r: Member)
    requires m.Valid()
    ensures r.Valid()
  {
    var s := Offer(m.s, m.cap, e, origin, now);
    var notice := TakeNotice(s);
    var s' := if notice.Some? then Offer(s, m.cap, notice.value, None, now) else s;
    m.(s := if flush then Flush(s') else s')
  }

  /** One turn of the fan-out loop: the excluded session is skipped. */
  function Turn(
      id: string, m: Member, e: Event, origin: Option<string>, exclude: Option<string>, flush: bool, now: int)
    : (r: Member)
    requires m.Valid()
    ensures r.Valid()
  {
    if exclude == Some(id) then m else Delivered(m, e, origin, flush, now)
  }

  function DeliveredAll(
      ms: map<string, Member>, e: Event, origin: Option<string>, exclude: Option<string>, flush: bool, now: int)
    : (r: map<string, Member>)
    requires forall id :: id in ms ==> ms[id].Valid()
    ensures r.Keys == ms.Keys && forall id :: id in r ==> r[id].Valid()
  {
    map id | id in ms :: Turn(id, ms[id], e, origin, exclude, flush, now)
  }

  function Published(
      b: BusState, e: Event, origin: Option<string>, exclude: Option<string>, flush: bool, now: int): (r: BusState)
    requires b.Valid()
    ensures r.Valid() && r.sessions.Keys == b.sessions.Keys
  {
    Recorded(b, e, now).(sessions := DeliveredAll(b.sessions, e, origin, exclude, flush, now))
  }

  function PublishedAll(b: BusState, es: seq<Event>, origin: Option<string>, now: int): (r: BusState)
    requires b.Valid()
    ensures r.Valid() && r.sessions.Keys == b.sessions.Keys
  {
    if es == [] then b
    else Published(PublishedAll(b, es[..|es| - 1], origin, now), es[|es| - 1], origin, None, false, now)
  }

  function FlushedAll(b: BusState): (r: BusState)
    requires b.Valid()
    ensures r.Valid() && r.sessions.Keys == b.sessions.Keys
  {
    b.(sessions := map id | id in b.sessions :: b.sessions[id].(s := Flush(b.sessions[id].s)))
  }

  function PublishedMany(b: BusState, es: seq<Event>, origin: Option<string>, flush: bool, now: int): (r: BusState)
    requires b.Valid()
    ensures r.Valid() && r.sessions.Keys == b.sessions.Keys
  {
    var r := PublishedAll(b, es, origin, now);
    if flush then FlushedAll(r) else r
  }

  // ---------------------------------------------------------------- session lifecycle

  function Announced(b: BusState, id: string, client: string, online: bool, now: int): (r: BusState)
    requires b.Valid()
    ensures r.Valid() && r.sessions.Keys == b.sessions.Keys
  {
    Published(b, Presence(id, client, online), Some(id), Some(id), true, now)
  }

  function Subscribed(b: BusState, id: string, m: Member, client: Option<string>, now: int): (r: BusState)
    requires b.Valid() && m.Valid()
    ensures r.Valid()
  {
    var name := OrElse(client, DEFAULT_CLIENT);
    Announced(b.(sessions := b.sessions[id := m], clients := b.clients[id := name]), id, name, true, now)
  }

  function Lookup<V>(m: map<string, V>, k: string): Option<V> {
    if k in m then Some(m[k]) else None
  }

  function Unsubscribed(b: BusState, id: string, client: Option<string>, now: int): (r: BusState)
    requires b.Valid()
    ensures r.Valid() && r.sessions.Keys == b.sessions.Keys - {id}
  {
    var name := OrElse(client, OrElse(Lookup(b.clients, id), DEFAULT_CLIENT));
    var r := if id in b.sessions then Announced(b, id, name, false, now) else b;
    r.(sessions := r.sessions - {id}, clients := r.clients - {id})
  }

  function ReapedAll(b: BusState, dead: seq<string>, now: int): (r: BusState)
    requires b.Valid()
    ensures r.Valid()
  {
    if dead == [] then b
    else Unsubscribed(ReapedAll(b, dead[..|dead| - 1], now), dead[|dead| - 1], None, now)
  }

  // ---------------------------------------------------------------- confirmations, replay, heartbeat

  /** `order` without `x`. */
  function Forgotten(order: seq<string>, x: string): (r: seq<string>)
    requires NoDuplicates(order)
    ensures NoDuplicates(r) && forall k :: k in r <==> k in order && k != x
  {
    var i := FirstWhere(order, k => k == x);
    if i < |order| then RemoveAtForgets(order, i, x); RemoveAt(order, i)
    else
      assert forall j :: 0 <= j < |order| ==> order[j] != x;
      order
  }

  lemma RemoveAtForgets(s: seq<string>, i: nat, x: string)
    requires NoDuplicates(s) && i < |s| && s[i] == x
    ensures NoDuplicates(RemoveAt(s, i)) && forall k :: k in RemoveAt(s, i) <==> k in s && k != x
  {
    var r := RemoveAt(s, i);
    forall k | k in s && k != x ensures k in r {
      var a :| 0 <= a < |s| && s[a] == k;
      assert r[if a < i then a else a - 1] == k;
    }
  }

  function Resolved(b: BusState, callId: string): (r: BusState)
    requires b.Valid()
    ensures r.Valid()
  {
    if callId in b.pending then
      b.(pending := b.pending - {callId}, pendingOrder := Forgotten(b.pendingOrder, callId))
    else b
  }

  function CountIn(ms: seq<ChatMessage>, channelId: string): nat {
    if ms == [] then 0
    else CountIn(ms[..|ms| - 1], channelId) + (if ms[|ms| - 1].channelId == channelId then 1 else 0)
  }

  function ChannelListFor(ms: seq<ChatMessage>): Event {
    ChannelList(seq(|CHANNEL_IDS|, i requires 0 <= i < |CHANNEL_IDS| =>
      ChannelInfo(CHANNEL_IDS[i], CountIn(ms, CHANNEL_IDS[i]))))
  }

  function AsChats(ms: seq<ChatMessage>): (es: seq<Event>)
    ensures |es| == |ms|
  {
    seq(|ms|, i requires 0 <= i < |ms| => Chat(ms[i]))
  }

  function PendingRequests(b: BusState): seq<Event>
    requires b.Valid()
  {
    seq(|b.pendingOrder|, i requires 0 <= i < |b.pendingOrder| =>
      assert b.pendingOrder[i] in b.pendingOrder; Confirm(b.pending[b.pendingOrder[i]]))
  }

  /** The reconnect sequence, in contract order. */
  function ReplayEvents(b: BusState, checkpoint: Option<string>, now: int): seq<Event>
    requires b.Valid()
  {
    var ordered := SortByTs(Evicted(b.buffer, now));
    [ChannelListFor(ordered)] + AsChats(ordered) + PendingRequests(b)
    + [ReplayDone(if ordered != [] then ordered[|ordered| - 1].ts else now, checkpoint)]
  }

  lemma SameReplay(b: BusState, r: BusState, checkpoint: Option<string>, now: int)
    requires b.Valid() && r == b.(buffer := Evicted(b.buffer, now))
    ensures ReplayEvents(r, checkpoint, now) == ReplayEvents(b, checkpoint, now)
  {
    EvictedIdempotent(b.buffer, now);
  }

  function SentAll(s: SessionState, es: seq<Event>): (r: SessionState)
    ensures r == s.(wire := r.wire)
  {
    if es == [] then s else SendDirect(SentAll(s, es[..|es| - 1]), es[|es| - 1])
  }

  /** An unknown session raises KeyError before anything happens. */
  function Replayed(b: BusState, id: string, checkpoint: Option<string>, now: int): (r: BusState)
    requires b.Valid()
    ensures r.Valid()
  {
    if id !in b.sessions then b
    else
      var m := b.sessions[id];
      b.(buffer := Evicted(b.buffer, now),
         sessions := b.sessions[id := m.(s := SentAll(m.s, ReplayEvents(b, checkpoint, now)))])
  }

  /** A ping goes past the queue and is counted as missed until its pong. */
  function Pinged(s: SessionState, nonce: string): (r: SessionState)
    requires s.Valid()
    ensures r.Valid()
  {
    OnPingSent(SendDirect(s, Ping(nonce)))
  }

  function Beaten(b: BusState, nonce: string): (r: BusState)
    requires b.Valid()
    ensures r.Valid() && r.sessions.Keys == b.sessions.Keys
  {
    b.(sessions := map id | id in b.sessions :: b.sessions[id].(s := Pinged(b.sessions[id].s, nonce)))
  }

  function Ponged(b: BusState, id: string): (r: BusState)
    requires b.Valid()
    ensures r.Valid()
  {
    if id in b.sessions then b.(sessions := b.sessions[id := b.sessions[id].(s := OnPong(b.sessions[id].s))]) else b
  }

  // ---------------------------------------------------------------- runs

  datatype BusOp =
    | Subscribe(id: string, cap: nat, client: Option<string>, now: int)
    | Unsubscribe(id: string, client: Option<string>, now: int)
    | Publish(event: Event, origin: Option<string>, exclude: Option<string>, flush: bool, now: int)
    | PublishMany(events: seq<Event>, origin: Option<string>, flush: bool, now: int)
    | Resolve(callId: string)
    | Replay(id: string, checkpoint: Option<string>, now: int)
    | Heartbeat(nonce: string)
    | PongFrom(id: string)
    | Reap(dead: seq<string>, now: int)

  /** Each new subscription brings a new session, as the endpoint does. */
  function StepBus(b: BusState, op: BusOp): (r: BusState)
    requires b.Valid()
    ensures r.Valid()
  {
    match op
    case Subscribe(id, cap, client, now) => Subscribed(b, id, Member(cap, NEW_SESSION), client, now)
    case Unsubscribe(id, client, now) => Unsubscribed(b, id, client, now)
    case Publish(e, origin, exclude, flush, now) => Published(b, e, origin, exclude, flush, now)
    case PublishMany(es, origin, flush, now) => PublishedMany(b, es, origin, flush, now)
    case Resolve(callId) => Resolved(b, callId)
    case Replay(id, checkpoint, now) => Replayed(b, id, checkpoint, now)
    case Heartbeat(nonce) => Beaten(b, nonce)
    case PongFrom(id) => Ponged(b, id)
    case Reap(dead, now) => ReapedAll(b, dead, now)
  }

  function RunBus(ops: seq<BusOp>): (r: BusState)
    ensures r.Valid()
  {
    if ops == [] then EMPTY_BUS else StepBus(RunBus(ops[..|ops| - 1]), ops[|ops| - 1])
  }

  /** The chat messages an operation publishes to session `id`. */
  function HeardBy(op: BusOp, id: string): seq<ChatMessage> {
    match op
    case Publish(e, _, exclude, _, _) => if exclude != Some(id) then Chats([e]) else []
    case PublishMany(es, _, _, _) => Chats(es)
    case _ => []
  }

  /** The chat messages published to `id` since it last subscribed. */
  function Heard(ops: seq<BusOp>, id: string): seq<ChatMessage> {
    if ops == [] then []
    else
      var front, last := ops[..|ops| - 1], ops[|ops| - 1];
      if last.Subscribe? && last.id == id then [] else Heard(front, id) + HeardBy(last, id)
  }

  // ---------------------------------------------------------------- every session runs on its own

  /** Neither a flush nor the notice a publication puts behind its event. */
  predicate Essential(op: Op) {
    !op.FlushOp? && !(op.Enqueue? && op.event.BackpressureNotice?)
  }

  function Essence(ops: seq<Op>): seq<Op> {
    if ops == [] then []
    else Essence(ops[..|ops| - 1]) + (if Essential(ops[|ops| - 1]) then [ops[|ops| - 1]] else [])
  }

  lemma {:induction false} EssenceConcat(a: seq<Op>, b: seq<Op>)
    ensures Essence(a + b) == Essence(a) + Essence(b)
  {
    if b == [] {
      assert a + b == a;
    } else {
      var c := a + b;
      assert c[..|c| - 1] == a + b[..|b| - 1];
      EssenceConcat(a, b[..|b| - 1]);
    }
  }

  lemma EssenceOne(op: Op)
    ensures Essence([op]) == if Essential(op) then [op] else []
  {
    assert [op][..0] == [];
  }

  function Offers(es: seq<Event>, origin: Option<string>, now: int): seq<Op> {
    seq(|es|, i requires 0 <= i < |es| => Enqueue(es[i], origin, now))
  }

  function Sends(es: seq<Event>): seq<Op> {
    seq(|es|, i requires 0 <= i < |es| => Send(es[i]))
  }

  /** The parting announcements of a reaping: one for each dead session still subscribed, in order. */
  function Farewells(b: BusState, dead: seq<string>, now: int): seq<Op> {
    if dead == [] then []
    else
      var front, last := dead[..|dead| - 1], dead[|dead| - 1];
      Farewells(b, front, now)
      + (if last in b.sessions && last !in front then
           [Enqueue(Presence(last, OrElse(Lookup(b.clients, last), "operator"), false), Some(last), now)]
         else [])
  }

  /** What one bus operation makes of session `id`, flushes and notices aside. */
  function CallsOf(b: BusState, op: BusOp, id: string): seq<Op>
    requires b.Valid()
  {
    match op
    case Subscribe(who, _, client, now) =>
      if who == id then [] else [Enqueue(Presence(who, OrElse(client, "operator"), true), Some(who), now)]
    case Unsubscribe(who, client, now) =>
      if who == id || who !in b.sessions then []
      else
        var name := OrElse(client, OrElse(Lookup(b.clients, who), "operator"));
        [Enqueue(Presence(who, name, false), Some(who), now)]
    case Publish(e, origin, exclude, _, now) =>
      if exclude == Some(id) then [] else Essence([Enqueue(e, origin, now)])
    case PublishMany(es, origin, _, now) => Essence(Offers(es, origin, now))
    case Resolve(_) => []
    case Replay(who, checkpoint, now) => if who == id then Sends(ReplayEvents(b, checkpoint, now)) else []
    case Heartbeat(nonce) => [Send(Ping(nonce)), PingOp]
    case PongFrom(who) => if who == id then [PongOp] else []
    case Reap(dead, now) => Farewells(b, dead, now)
  }

  /** What the bus made of `id` since it last subscribed. */
  function Calls(ops: seq<BusOp>, id: string): seq<Op> {
    if ops == [] then []
    else
      var front, last := ops[..|ops| - 1], ops[|ops| - 1];
      if last.Subscribe? && last.id == id then [] else Calls(front, id) + CallsOf(RunBus(front), last, id)
  }

  /** `r` is what some run of session operations makes of `m`, which are `cs` but for flushes and notices. */
  ghost predicate Reaches(m: Member, r: Member, cs: seq<Op>) {
    m.Valid() && exists ops: seq<Op> :: ReachesBy(m, r, cs, ops)
  }

  ghost predicate ReachesBy(m: Member, r: Member, cs: seq<Op>, ops: seq<Op>)
    requires m.Valid()
  {
    r == m.(s := Run(m.s, m.cap, ops)) && Essence(ops) == cs
  }

  lemma ReachesSelf(m: Member)
    requires m.Valid()
    ensures Reaches(m, m, [])
  {
    assert ReachesBy(m, m, [], []);
  }

  lemma {:induction false} OfferedConcat(a: seq<Op>, b: seq<Op>)
    ensures Offered(a + b) == Offered(a) + Offered(b)
  {
    if b == [] {
      assert a + b == a;
    } else {
      assert a + b == (a + b[..|b| - 1]) + [b[|b| - 1]];
      OfferedSnoc(a + b[..|b| - 1], b[|b| - 1]);
      OfferedConcat(a, b[..|b| - 1]);
    }
  }

  lemma ReachesTransitive(a: Member, b: Member, c: Member, f: seq<Op>, g: seq<Op>)
    requires Reaches(a, b, f) && Reaches(b, c, g)
    ensures Reaches(a, c, f + g)
  {
    var fs: seq<Op> :| ReachesBy(a, b, f, fs);
    var gs: seq<Op> :| ReachesBy(b, c, g, gs);
    RunConcat(a.s, a.cap, fs, gs);
    EssenceConcat(fs, gs);
    assert ReachesBy(a, c, f + g, fs + gs);
  }

  lemma ReachesStep(m: Member, op: Op)
    requires m.Valid()
    ensures Reaches(m, m.(s := Step(m.s, m.cap, op)), Essence([op]))
  {
    var ops := [op];
    assert ops[..0] == [];
    assert ReachesBy(m, m.(s := Step(m.s, m.cap, op)), Essence([op]), ops);
  }

  /** As ReachesTransitive, for a second leg of flushes and notices. */
  lemma ReachesQuietly(a: Member, b: Member, c: Member, cs: seq<Op>)
    requires Reaches(a, b, cs) && Reaches(b, c, [])
    ensures Reaches(a, c, cs)
  {
    ReachesTransitive(a, b, c, cs, []);
    assert cs + [] == cs;
  }

  lemma DeliveredReaches(m: Member, e: Event, origin: Option<string>, flush: bool, now: int)
    requires m.Valid()
    ensures Reaches(m, Delivered(m, e, origin, flush, now), Essence([Enqueue(e, origin, now)]))
  {
    var cs := Essence([Enqueue(e, origin, now)]);
    var one := m.(s := Offer(m.s, m.cap, e, origin, now));
    ReachesStep(m, Enqueue(e, origin, now));
    var notice := TakeNotice(one.s);
    var two := if notice.Some? then one.(s := Offer(one.s, one.cap, notice.value, None, now)) else one;
    if notice.Some? {
      QuietStep(one, Enqueue(notice.value, None, now));
      ReachesQuietly(m, one, two, cs);
    }
    if flush {
      QuietStep(two, FlushOp);
      ReachesQuietly(m, two, two.(s := Flush(two.s)), cs);
    }
  }

  lemma QuietStep(m: Member, op: Op)
    requires m.Valid() && !Essential(op)
    ensures Reaches(m, m.(s := Step(m.s, m.cap, op)), [])
  {
    ReachesStep(m, op);
    EssenceOne(op);
  }

  lemma LoudStep(m: Member, op: Op)
    requires m.Valid() && Essential(op)
    ensures Reaches(m, m.(s := Step(m.s, m.cap, op)), [op])
  {
    ReachesStep(m, op);
    EssenceOne(op);
  }

  lemma PublishedToSession(b: BusState, e: Event, origin: Option<string>, flush: bool, now: int, id: string)
    requires b.Valid() && id in b.sessions
    ensures Published(b, e, origin, None, flush, now).sessions[id] == Delivered(b.sessions[id], e, origin, flush, now)
  {
    hide Delivered;
    hide Recorded;
  }

  lemma PublishedAllSnoc(b: BusState, es: seq<Event>, e: Event, origin: Option<string>, now: int)
    requires b.Valid()
    ensures PublishedAll(b, es + [e], origin, now)
            == Published(PublishedAll(b, es, origin, now), e, origin, None, false, now)
  {
    hide Published;
    assert (es + [e])[..|es|] == es;
  }

  lemma OneMoreReaches(b: BusState, es: seq<Event>, e: Event, origin: Option<string>, now: int, id: string)
    requires b.Valid() && id in b.sessions
    requires Reaches(b.sessions[id], PublishedAll(b, es, origin, now).sessions[id], Essence(Offers(es, origin, now)))
    ensures Reaches(b.sessions[id], PublishedAll(b, es + [e], origin, now).sessions[id],
                    Essence(Offers(es + [e], origin, now)))
  {
    hide Reaches;
    hide Delivered;
    hide Essence;
    hide Offers;
    hide Published;
    hide PublishedAll;
    var mid := PublishedAll(b, es, origin, now);
    PublishedAllSnoc(b, es, e, origin, now);
    PublishedToSession(mid, e, origin, false, now, id);
    DeliveredReaches(mid.sessions[id], e, origin, false, now);
    OffersSnoc(es, e, origin, now);
    ReachesTransitive(b.sessions[id], mid.sessions[id], PublishedAll(b, es + [e], origin, now).sessions[id],
                      Essence(Offers(es, origin, now)), Essence([Enqueue(e, origin, now)]));
  }

  lemma {:induction false} PublishedAllReaches(
      b: BusState, es: seq<Event>, origin: Option<string>, now: int, id: string)
    requires b.Valid() && id in b.sessions
    ensures Reaches(b.sessions[id], PublishedAll(b, es, origin, now).sessions[id], Essence(Offers(es, origin, now)))
  {
    hide Reaches;
    hide Published;
    if es == [] {
      ReachesSelf(b.sessions[id]);
    } else {
      hide Essence;
      hide Offers;
      hide PublishedAll;
      var front, last := es[..|es| - 1], es[|es| - 1];
      PublishedAllReaches(b, front, origin, now, id);
      OneMoreReaches(b, front, last, origin, now, id);
      assert es == front + [last];
    }
  }

  lemma OffersSnoc(es: seq<Event>, e: Event, origin: Option<string>, now: int)
    ensures Offers(es + [e], origin, now) == Offers(es, origin, now) + [Enqueue(e, origin, now)]
    ensures Essence(Offers(es + [e], origin, now))
            == Essence(Offers(es, origin, now)) + Essence([Enqueue(e, origin, now)])
  {
    hide Essence;
    assert Offers(es + [e], origin, now) == Offers(es, origin, now) + [Enqueue(e, origin, now)];
    EssenceConcat(Offers(es, origin, now), [Enqueue(e, origin, now)]);
  }

  lemma AnnouncedReaches(b: BusState, who: string, client: string, online: bool, now: int, id: string)
    requires b.Valid() && id in b.sessions
    ensures Reaches(b.sessions[id], Announced(b, who, client, online, now).sessions[id],
                    if who == id then [] else [Enqueue(Presence(who, client, online), Some(who), now)])
  {
    if who == id {
      ReachesSelf(b.sessions[id]);
    } else {
      DeliveredReaches(b.sessions[id], Presence(who, client, online), Some(who), true, now);
      EssenceOne(Enqueue(Presence(who, client, online), Some(who), now));
    }
  }

  lemma UnsubscribedReaches(b: BusState, who: string, client: Option<string>, now: int, id: string)
    requires b.Valid() && id in b.sessions && id != who
    ensures Reaches(b.sessions[id], Unsubscribed(b, who, client, now).sessions[id],
                    CallsOf(b, Unsubscribe(who, client, now), id))
  {
    hide Reaches;
    if who in b.sessions {
      AnnouncedReaches(b, who, OrElse(client, OrElse(Lookup(b.clients, who), DEFAULT_CLIENT)), false, now, id);
    } else {
      ReachesSelf(b.sessions[id]);
    }
  }

  /** A reaping leaves exactly the sessions it does not name, under their labels. */
  lemma {:induction false} ReapedAllMembers(b: BusState, dead: seq<string>, now: int, who: string)
    requires b.Valid()
    ensures var r := ReapedAll(b, dead, now);
            && (who in r.sessions <==> who in b.sessions && who !in dead)
            && Lookup(r.clients, who) == if who in dead then None else Lookup(b.clients, who)
  {
    if dead != [] {
      var front, last := dead[..|dead| - 1], dead[|dead| - 1];
      ReapedAllMembers(b, front, now, who);
      assert dead == front + [last];
    }
  }

  lemma {:induction false} ReapedAllReaches(b: BusState, dead: seq<string>, now: int, id: string)
    requires b.Valid() && id in b.sessions && id !in dead
    ensures id in ReapedAll(b, dead, now).sessions
    ensures Reaches(b.sessions[id], ReapedAll(b, dead, now).sessions[id], Farewells(b, dead, now))
  {
    hide Reaches;
    if dead == [] {
      ReachesSelf(b.sessions[id]);
    } else {
      var front, last := dead[..|dead| - 1], dead[|dead| - 1];
      assert dead == front + [last];
      var mid := ReapedAll(b, front, now);
      ReapedAllReaches(b, front, now, id);
      ReapedAllMembers(b, front, now, last);
      UnsubscribedReaches(mid, last, None, now, id);
      ReachesTransitive(b.sessions[id], mid.sessions[id], ReapedAll(b, dead, now).sessions[id],
                        Farewells(b, front, now), CallsOf(mid, Unsubscribe(last, None, now), id));
    }
  }

  lemma {:induction false} SentAllReaches(m: Member, es: seq<Event>)
    requires m.Valid()
    ensures Reaches(m, m.(s := SentAll(m.s, es)), Sends(es))
  {
    if es == [] {
      ReachesSelf(m);
      assert Sends(es) == [];
    } else {
      var front, last := es[..|es| - 1], es[|es| - 1];
      var mid := m.(s := SentAll(m.s, front));
      SentAllReaches(m, front);
      LoudStep(mid, Send(last));
      ReachesTransitive(m, mid, m.(s := SentAll(m.s, es)), Sends(front), [Send(last)]);
      assert Sends(es) == Sends(front) + [Send(last)];
    }
  }

  lemma FlushedReaches(m: Member, r: Member, cs: seq<Op>)
    requires Reaches(m, r, cs) && r.Valid()
    ensures Reaches(m, r.(s := Flush(r.s)), cs)
  {
    QuietStep(r, FlushOp);
    ReachesQuietly(m, r, r.(s := Flush(r.s)), cs);
  }

  lemma BeatenReaches(m: Member, nonce: string)
    requires m.Valid()
    ensures Reaches(m, m.(s := Pinged(m.s, nonce)), [Send(Ping(nonce)), PingOp])
  {
    var mid := m.(s := SendDirect(m.s, Ping(nonce)));
    LoudStep(m, Send(Ping(nonce)));
    LoudStep(mid, PingOp);
    ReachesTransitive(m, mid, mid.(s := OnPingSent(mid.s)), [Send(Ping(nonce))], [PingOp]);
    assert [Send(Ping(nonce))] + [PingOp] == [Send(Ping(nonce)), PingOp];
  }

  /** One bus operation is, for a session that stays subscribed, a run of that session's own operations. */
  lemma StepReaches(b: BusState, op: BusOp, id: string)
    requires b.Valid() && id in b.sessions && id in StepBus(b, op).sessions && !(op.Subscribe? && op.id == id)
    ensures Reaches(b.sessions[id], StepBus(b, op).sessions[id], CallsOf(b, op, id))
  {
    hide Reaches;
    hide Delivered;
    hide PublishedAll;
    hide ReapedAll;
    hide Unsubscribed;
    hide Announced;
    hide ReplayEvents;
    hide SentAll;
    hide Flush;
    hide Pinged;
    hide Recorded;
    hide Essence;
    hide Farewells;
    var m := b.sessions[id];
    match op
    case Subscribe(who, cap, client, now) =>
      var name := OrElse(client, DEFAULT_CLIENT);
      AnnouncedReaches(b.(sessions := b.sessions[who := Member(cap, NEW_SESSION)], clients := b.clients[who := name]),
                       who, name, true, now, id);
    case Unsubscribe(who, client, now) => StaysSubscribed(b, who, client, now, id);
    case Publish(e, origin, exclude, flush, now) =>
      if exclude == Some(id) { ReachesSelf(m); } else { DeliveredReaches(m, e, origin, flush, now); }
    case PublishMany(es, origin, flush, now) =>
      PublishedAllReaches(b, es, origin, now, id);
      if flush { FlushedReaches(m, PublishedAll(b, es, origin, now).sessions[id], Essence(Offers(es, origin, now))); }
    case Resolve(_) => ReachesSelf(m);
    case Replay(who, checkpoint, now) =>
      if who == id { SentAllReaches(m, ReplayEvents(b, checkpoint, now)); } else { ReachesSelf(m); }
    case Heartbeat(nonce) => BeatenReaches(m, nonce);
    case PongFrom(who) => if who == id { LoudStep(m, PongOp); } else { ReachesSelf(m); }
    case Reap(dead, now) =>
      ReapedAllMembers(b, dead, now, id);
      ReapedAllReaches(b, dead, now, id);
  }

  lemma StaysSubscribed(b: BusState, who: string, client: Option<string>, now: int, id: string)
    requires b.Valid() && id in b.sessions && id in Unsubscribed(b, who, client, now).sessions
    ensures Reaches(b.sessions[id], Unsubscribed(b, who, client, now).sessions[id],
                    CallsOf(b, Unsubscribe(who, client, now), id))
  {
    UnsubscribedReaches(b, who, client, now, id);
  }

  /** A session that was not there before an operation and is there after it has just subscribed. */
  lemma {:induction false} NewcomerSubscribed(b: BusState, op: BusOp, id: string)
    requires b.Valid() && id !in b.sessions && id in StepBus(b, op).sessions
    ensures op.Subscribe? && op.id == id
  {
    if op.Reap? { ReapedAllMembers(b, op.dead, op.now, id); }
  }

  /**
   * After any run of the whole bus, each subscribed session is a new session that went through a
   * run of its own, and but for flushes and notices the operations in it are those the bus run calls for.
   */
  lemma {:induction false} EverySessionRunsAlone(ops: seq<BusOp>, id: string)
    requires id in RunBus(ops).sessions
    ensures Reaches(Member(RunBus(ops).sessions[id].cap, NEW_SESSION), RunBus(ops).sessions[id], Calls(ops, id))
  {
    hide Reaches;
    hide CallsOf;
    var front, last := ops[..|ops| - 1], ops[|ops| - 1];
    var b, r := RunBus(front), RunBus(ops);
    if last.Subscribe? && last.id == id {
      ReachesSelf(r.sessions[id]);
    } else {
      if id !in b.sessions { NewcomerSubscribed(b, last, id); }
      EverySessionRunsAlone(front, id);
      StepReaches(b, last, id);
      SameCap(b, last, id);
      ReachesTransitive(Member(b.sessions[id].cap, NEW_SESSION), b.sessions[id], r.sessions[id],
                        Calls(front, id), CallsOf(b, last, id));
    }
  }

  lemma SameCap(b: BusState, op: BusOp, id: string)
    requires b.Valid() && id in b.sessions && id in StepBus(b, op).sessions && !(op.Subscribe? && op.id == id)
    ensures StepBus(b, op).sessions[id].cap == b.sessions[id].cap
  {
    StepReaches(b, op, id);
    hide StepBus;
  }

  // ---------------------------------------------------------------- chats are not lost on the way

  lemma OfferedOne(op: Op)
    ensures Offered([op]) == OfferedBy(op)
  {
    OfferedSnoc([], op);
    assert [] + [op] == [op] && Offered([]) + OfferedBy(op) == OfferedBy(op);
  }

  /** Flushes and notices offer no chat message. */
  lemma {:induction false} EssenceKeepsChats(ops: seq<Op>)
    ensures ChatsOf(Offered(Essence(ops))) == ChatsOf(Offered(ops))
  {
    if ops != [] {
      var front, last := ops[..|ops| - 1], ops[|ops| - 1];
      EssenceKeepsChats(front);
      assert ops == front + [last];
      OfferedConcat(front, [last]);
      OfferedOne(last);
      ChatsOfParts(Offered(front), OfferedBy(last));
      if Essential(last) {
        OfferedConcat(Essence(front), [last]);
        ChatsOfParts(Offered(Essence(front)), OfferedBy(last));
      } else {
        if last.Enqueue? { ChatsOfOne(last.event, last.origin); }
        assert ChatsOf(OfferedBy(last)) == [];
        assert Essence(ops) == Essence(front);
        assert ChatsOf(Offered(ops)) == ChatsOf(Offered(front)) + [];
      }
    }
  }

  lemma {:induction false} OffersOffer(es: seq<Event>, origin: Option<string>, now: int)
    ensures ChatsOf(Offered(Offers(es, origin, now))) == Chats(es)
  {
    if es != [] {
      var front, last := es[..|es| - 1], es[|es| - 1];
      OffersOffer(front, origin, now);
      assert Offers(es, origin, now) == Offers(front, origin, now) + [Enqueue(last, origin, now)];
      OfferedConcat(Offers(front, origin, now), [Enqueue(last, origin, now)]);
      OfferedOne(Enqueue(last, origin, now));
      ChatsOfParts(Offered(Offers(front, origin, now)), [(last, origin)]);
      ChatsOfOne(last, origin);
    }
  }

  /** Announcements, replays, pings and pongs offer no chat message. */
  predicate Chatless(op: Op) { op.Enqueue? ==> !op.event.Chat? }

  lemma {:induction false} ChatlessOffersNone(ops: seq<Op>)
    requires forall i :: 0 <= i < |ops| ==> Chatless(ops[i])
    ensures ChatsOf(Offered(ops)) == []
  {
    if ops != [] {
      var front, last := ops[..|ops| - 1], ops[|ops| - 1];
      assert Chatless(last);
      ChatlessOffersNone(front);
      ChatsOfParts(Offered(front), OfferedBy(last));
      if last.Enqueue? { ChatsOfOne(last.event, last.origin); }
      assert ChatsOf(OfferedBy(last)) == [];
      assert Offered(front) + OfferedBy(last) == Offered(ops);
    }
  }

  lemma {:induction false} FarewellsAreChatless(b: BusState, dead: seq<string>, now: int)
    ensures forall i :: 0 <= i < |Farewells(b, dead, now)| ==> Chatless(Farewells(b, dead, now)[i])
  {
    if dead != [] { FarewellsAreChatless(b, dead[..|dead| - 1], now); }
  }

  lemma CallsOfChats(b: BusState, op: BusOp, id: string)
    requires b.Valid()
    ensures ChatsOf(Offered(CallsOf(b, op, id))) == HeardBy(op, id)
  {
    hide Essence;
    hide Offered;
    hide ReplayEvents;
    hide ChatsOf;
    hide Farewells;
    match op
    case Publish(e, origin, exclude, _, now) =>
      EssenceKeepsChats([Enqueue(e, origin, now)]);
      OfferedOne(Enqueue(e, origin, now));
      ChatsOfOne(e, origin);
      ChatsOne(e);
      ChatlessOffersNone([]);
    case PublishMany(es, origin, _, now) =>
      EssenceKeepsChats(Offers(es, origin, now));
      OffersOffer(es, origin, now);
    case Reap(dead, now) =>
      FarewellsAreChatless(b, dead, now);
      ChatlessOffersNone(CallsOf(b, op, id));
    case _ => ChatlessOffersNone(CallsOf(b, op, id));
  }

  lemma {:induction false} CallsChats(ops: seq<BusOp>, id: string)
    ensures ChatsOf(Offered(Calls(ops, id))) == Heard(ops, id)
  {
    hide CallsOf;
    hide HeardBy;
    if ops != [] {
      var front, last := ops[..|ops| - 1], ops[|ops| - 1];
      CallsChats(front, id);
      CallsOfChats(RunBus(front), last, id);
      OfferedConcat(Calls(front, id), CallsOf(RunBus(front), last, id));
      ChatsOfParts(Offered(Calls(front, id)), Offered(CallsOf(RunBus(front), last, id)));
    }
  }

  /**
   * Over any run of the bus, what a subscribed session was sent by fan-out followed by what it still
   * queues, restricted to chat messages, is the first occurrence of each id published to it since it
   * subscribed, in order; its queue obeys the bound.
   */
  lemma FanOutLosesNoChat(ops: seq<BusOp>, id: string)
    requires id in RunBus(ops).sessions
    ensures var m := RunBus(ops).sessions[id];
            && ChatsOf(Outgoing(m.s)) == FirstSeen({}, Heard(ops, id))
            && (|m.s.queue| <= m.cap || |m.s.queue| <= |Chats(m.s.queue)| + 1)
  {
    var m := RunBus(ops).sessions[id];
    EverySessionRunsAlone(ops, id);
    var sops: seq<Op> :| ReachesBy(Member(m.cap, NEW_SESSION), m, Calls(ops, id), sops);
    EssenceKeepsChats(sops);
    CallsChats(ops, id);
    NewSessionRun(m.cap, sops);
  }

  lemma NewSessionRun(cap: nat, ops: seq<Op>)
    ensures var r := Run(NEW_SESSION, cap, ops);
            && ChatsOf(Outgoing(r)) == FirstSeen({}, ChatsOf(Offered(ops)))
            && (|r.queue| <= cap || |r.queue| <= |Chats(r.queue)| + 1)
  {
    ChatsAreNeverLost(NEW_SESSION, cap, ops);
    QueueIsBounded(NEW_SESSION, cap, ops);
    assert Outgoing(NEW_SESSION) == [];
    assert ChatsOf([]) == [];
  }

  // ---------------------------------------------------------------- pending confirmations

  /** The request for `callId` among `es` that comes last, else `before`. */
  function LatestIn(es: seq<Event>, callId: string, before: Option<ConfirmationRequest>): Option<ConfirmationRequest> {
    if es == [] then before
    else
      var last := es[|es| - 1];
      if last.Confirm? && last.req.callId == callId then Some(last.req) else LatestIn(es[..|es| - 1], callId, before)
  }

  /** The request published for `callId` and not resolved since. */
  function Unresolved(ops: seq<BusOp>, callId: string): Option<ConfirmationRequest> {
    if ops == [] then None
    else
      UnresolvedAfter(Unresolved(ops[..|ops| - 1], callId), ops[|ops| - 1], callId)
  }

  function UnresolvedAfter(
      before: Option<ConfirmationRequest>, op: BusOp, callId: string): Option<ConfirmationRequest>
  {
    match op
    case Publish(e, _, _, _, _) => LatestIn([e], callId, before)
    case PublishMany(es, _, _, _) => LatestIn(es, callId, before)
    case Resolve(c) => if c == callId then None else before
    case _ => before
  }

  lemma LatestInOne(e: Event, callId: string, before: Option<ConfirmationRequest>)
    ensures LatestIn([e], callId, before) == if e.Confirm? && e.req.callId == callId then Some(e.req) else before
  {
    assert [e][..0] == [];
  }

  lemma {:induction false} PublishedAllPending(
      b: BusState, es: seq<Event>, origin: Option<string>, now: int, callId: string)
    requires b.Valid()
    ensures Lookup(PublishedAll(b, es, origin, now).pending, callId) == LatestIn(es, callId, Lookup(b.pending, callId))
  {
    if es != [] { PublishedAllPending(b, es[..|es| - 1], origin, now, callId); }
  }

  lemma {:induction false} ReapedAllPending(b: BusState, dead: seq<string>, now: int)
    requires b.Valid()
    ensures ReapedAll(b, dead, now).pending == b.pending && ReapedAll(b, dead, now).buffer == b.buffer
  {
    if dead != [] { ReapedAllPending(b, dead[..|dead| - 1], now); }
  }

  lemma StepPending(b: BusState, op: BusOp, callId: string)
    requires b.Valid()
    ensures Lookup(StepBus(b, op).pending, callId) == UnresolvedAfter(Lookup(b.pending, callId), op, callId)
  {
    hide DeliveredAll;
    hide Appended;
    hide Evicted;
    hide LatestIn;
    match op
    case Publish(e, _, _, _, _) => LatestInOne(e, callId, Lookup(b.pending, callId));
    case PublishMany(es, origin, flush, now) => PublishedAllPending(b, es, origin, now, callId);
    case Reap(dead, now) => ReapedAllPending(b, dead, now);
    case _ =>
  }

  /** The pending table is exactly the set of confirmation requests published and not resolved since. */
  lemma {:induction false} PendingIsUnresolved(ops: seq<BusOp>, callId: string)
    ensures Lookup(RunBus(ops).pending, callId) == Unresolved(ops, callId)
  {
    hide StepBus;
    hide UnresolvedAfter;
    hide Lookup;
    if ops != [] {
      PendingIsUnresolved(ops[..|ops| - 1], callId);
      StepPending(RunBus(ops[..|ops| - 1]), ops[|ops| - 1], callId);
    } else {
      NothingPending(callId);
    }
  }

  lemma NothingPending(callId: string)
    ensures Lookup(EMPTY_BUS.pending, callId) == None
  {
  }

  // ---------------------------------------------------------------- replay

  /** What the operations of a bus run do to the replay buffer. */
  function BufferOps(b: BusState, op: BusOp): seq<BufferOp> {
    match op
    case Publish(e, _, _, _, now) => if e.Chat? then [Put(e.msg, now)] else []
    case PublishMany(es, _, _, now) => seq(|Chats(es)|, i requires 0 <= i < |Chats(es)| => Put(Chats(es)[i], now))
    case Replay(id, _, now) => if id in b.sessions then [Trim(now)] else []
    case _ => []
  }

  function BufferTrace(ops: seq<BusOp>): seq<BufferOp> {
    if ops == [] then []
    else BufferTrace(ops[..|ops| - 1]) + BufferOps(RunBus(ops[..|ops| - 1]), ops[|ops| - 1])
  }

  function BufferAfter(buffer: seq<ChatMessage>, ops: seq<BufferOp>): seq<ChatMessage> {
    if ops == [] then buffer else StepBuffer(BufferAfter(buffer, ops[..|ops| - 1]), ops[|ops| - 1])
  }

  lemma {:induction false} RunBufferConcat(a: seq<BufferOp>, b: seq<BufferOp>)
    ensures RunBuffer(a + b) == BufferAfter(RunBuffer(a), b)
  {
    if b == [] {
      assert a + b == a;
    } else {
      assert (a + b)[..|a + b| - 1] == a + b[..|b| - 1];
      RunBufferConcat(a, b[..|b| - 1]);
    }
  }

  lemma {:induction false} PublishedAllBuffer(b: BusState, es: seq<Event>, origin: Option<string>, now: int)
    requires b.Valid()
    ensures var ops := seq(|Chats(es)|, i requires 0 <= i < |Chats(es)| => Put(Chats(es)[i], now));
            PublishedAll(b, es, origin, now).buffer == BufferAfter(b.buffer, ops)
  {
    if es != [] {
      var front, last := es[..|es| - 1], es[|es| - 1];
      PublishedAllBuffer(b, front, origin, now);
      var before := seq(|Chats(front)|, i requires 0 <= i < |Chats(front)| => Put(Chats(front)[i], now));
      var ops := seq(|Chats(es)|, i requires 0 <= i < |Chats(es)| => Put(Chats(es)[i], now));
      if last.Chat? {
        assert ops == before + [Put(last.msg, now)];
        assert ops[..|ops| - 1] == before;
      } else {
        assert ops == before;
      }
    }
  }

  /** The bus's buffer is the replay buffer of the chats it published, to which BufferRefinesLog applies. */
  lemma {:induction false} BusBufferIsReplayBuffer(ops: seq<BusOp>)
    ensures RunBus(ops).buffer == RunBuffer(BufferTrace(ops))
  {
    if ops != [] {
      var front, last := ops[..|ops| - 1], ops[|ops| - 1];
      var b := RunBus(front);
      BusBufferIsReplayBuffer(front);
      RunBufferConcat(BufferTrace(front), BufferOps(b, last));
      StepBuffers(b, last);
    }
  }

  lemma StepBuffers(b: BusState, op: BusOp)
    requires b.Valid()
    ensures StepBus(b, op).buffer == BufferAfter(b.buffer, BufferOps(b, op))
  {
    match op
    case Publish(e, _, _, _, now) => if e.Chat? { assert [Put(e.msg, now)][..0] == []; }
    case PublishMany(es, origin, flush, now) => PublishedAllBuffer(b, es, origin, now);
    case Replay(id, _, now) => assert [Trim(now)][..0] == [];
    case Reap(dead, now) => ReapedAllPending(b, dead, now);
    case _ =>
  }

  /** The three sections of the reconnect sequence. */
  lemma ReplayLayout(b: BusState, checkpoint: Option<string>, now: int)
    requires b.Valid()
    ensures var out, pending := ReplayEvents(b, checkpoint, now), PendingRequests(b);
            var ms := SortByTs(Evicted(b.buffer, now));
            && |out| == 1 + |ms| + |pending| + 1
            && out[0] == ChannelListFor(ms)
            && (forall i :: 0 <= i < |ms| ==> out[1 + i] == Chat(ms[i]))
            && out[1 + |ms|..|out| - 1] == pending
            && out[|out| - 1] == ReplayDone(if ms == [] then now else ms[|ms| - 1].ts, checkpoint)
  {
  }

  /** `e` lists every channel, in order, with the number of messages of `ms` in it. */
  ghost predicate CountsUnread(e: Event, ms: seq<ChatMessage>) {
    && e.ChannelList? && |e.channels| == |CHANNEL_IDS|
    && forall i :: 0 <= i < |CHANNEL_IDS| ==>
         && e.channels[i].id == CHANNEL_IDS[i]
         && e.channels[i].unreadHint == |PositionsIn(ms, CHANNEL_IDS[i])|
  }

  ghost function PositionsIn(ms: seq<ChatMessage>, channelId: string): set<nat> {
    set k | 0 <= k < |ms| && ms[k].channelId == channelId
  }

  lemma {:induction false} CountInCounts(ms: seq<ChatMessage>, channelId: string)
    ensures CountIn(ms, channelId) == |PositionsIn(ms, channelId)|
  {
    if ms == [] {
      assert PositionsIn(ms, channelId) == {};
    } else {
      var front, n := ms[..|ms| - 1], |ms| - 1;
      CountInCounts(front, channelId);
      var more: set<nat> := if ms[n].channelId == channelId then {n} else {};
      assert PositionsIn(ms, channelId) == PositionsIn(front, channelId) + more;
    }
  }

  lemma ChannelListCounts(ms: seq<ChatMessage>)
    ensures CountsUnread(ChannelListFor(ms), ms)
  {
    forall i | 0 <= i < |CHANNEL_IDS| ensures CountIn(ms, CHANNEL_IDS[i]) == |PositionsIn(ms, CHANNEL_IDS[i])| {
      CountInCounts(ms, CHANNEL_IDS[i]);
    }
  }

  /**
   * After any run, a reconnect sends: the channel list with the unread count of each channel, the
   * buffered messages in timestamp order (none twice, at most 200), the unresolved confirmations
   * (each once), and the end marker.
   */
  lemma ReplayContract(ops: seq<BusOp>, checkpoint: Option<string>, now: int)
    ensures var out := ReplayEvents(RunBus(ops), checkpoint, now);
            var ms := SortByTs(Evicted(RunBuffer(BufferTrace(ops)), now));
            && |ms| <= 200 && DistinctIds(ms) && NonDecreasingTs(ms)
            && |out| >= |ms| + 2
            && CountsUnread(out[0], ms)
            && (forall i :: 0 <= i < |ms| ==> out[1 + i] == Chat(ms[i]))
            && IsUnresolvedSection(ops, out[1 + |ms|..|out| - 1])
            && out[|out| - 1] == ReplayDone(if ms == [] then now else ms[|ms| - 1].ts, checkpoint)
  {
    ChannelListCounts(SortByTs(Evicted(RunBus(ops).buffer, now)));
    BusBufferIsReplayBuffer(ops);
    ReplayLayout(RunBus(ops), checkpoint, now);
    ReplayedMessages(BufferTrace(ops), now);
    PendingSection(ops);
  }

  /** `es` holds exactly the unresolved confirmation requests, each once, and nothing else. */
  ghost predicate IsUnresolvedSection(ops: seq<BusOp>, es: seq<Event>) {
    && (forall req: ConfirmationRequest :: Confirm(req) in es <==> Unresolved(ops, req.callId) == Some(req))
    && (forall e :: e in es ==> e.Confirm?)
    && NoDuplicates(es)
  }

  lemma ReplayedMessages(ops: seq<BufferOp>, now: int)
    ensures var ms := SortByTs(Evicted(RunBuffer(ops), now));
            |ms| <= REPLAY_MAX && DistinctIds(ms) && NonDecreasingTs(ms)
  {
    var buffer := RunBuffer(ops);
    var kept := Evicted(buffer, now);
    BufferIsDuplicateFreeSubsequence(ops);
    EvictedSubsequence(buffer, now);
    SubsequenceDistinctIds(kept, buffer);
    SortByTsIsStableSort(kept, 0);
    SameMultisetSameIds(kept, SortByTs(kept));
    assert |multiset(SortByTs(kept))| == |multiset(kept)|;
  }

  lemma PendingSection(ops: seq<BusOp>)
    ensures IsUnresolvedSection(ops, PendingRequests(RunBus(ops)))
  {
    var b := RunBus(ops);
    forall c ensures Lookup(b.pending, c) == Unresolved(ops, c) { PendingIsUnresolved(ops, c); }
    PendingKeyedByCallId(ops);
    var pending := PendingRequests(b);
    forall req: ConfirmationRequest | Unresolved(ops, req.callId) == Some(req) ensures Confirm(req) in pending {
      assert req.callId in b.pendingOrder;
      var i :| 0 <= i < |b.pendingOrder| && b.pendingOrder[i] == req.callId;
      assert pending[i] == Confirm(req);
    }
    forall i | 0 <= i < |b.pendingOrder|
      ensures b.pendingOrder[i] in b.pending && pending[i].Confirm? && pending[i].req.callId == b.pendingOrder[i]
    {
      assert b.pendingOrder[i] in b.pendingOrder;
    }
  }

  lemma {:induction false} LatestInKeyed(es: seq<Event>, callId: string, before: Option<ConfirmationRequest>)
    requires before.Some? ==> before.value.callId == callId
    ensures var r := LatestIn(es, callId, before); r.Some? ==> r.value.callId == callId
  {
    if es != [] { LatestInKeyed(es[..|es| - 1], callId, before); }
  }

  lemma {:induction false} UnresolvedKeyed(ops: seq<BusOp>, callId: string)
    ensures Unresolved(ops, callId).Some? ==> Unresolved(ops, callId).value.callId == callId
  {
    if ops != [] {
      var front, last := ops[..|ops| - 1], ops[|ops| - 1];
      UnresolvedKeyed(front, callId);
      match last
      case Publish(e, _, _, _, _) => LatestInKeyed([e], callId, Unresolved(front, callId));
      case PublishMany(es, _, _, _) => LatestInKeyed(es, callId, Unresolved(front, callId));
      case _ =>
    }
  }

  lemma PendingKeyedByCallId(ops: seq<BusOp>)
    ensures forall c :: c in RunBus(ops).pending ==> RunBus(ops).pending[c].callId == c
  {
    forall c | c in RunBus(ops).pending ensures RunBus(ops).pending[c].callId == c {
      PendingIsUnresolved(ops, c);
      UnresolvedKeyed(ops, c);
    }
  }

  lemma SameMultisetSameIds(a: seq<ChatMessage>, b: seq<ChatMessage>)
    requires multiset(a) == multiset(b) && DistinctIds(a)
    ensures DistinctIds(b)
  {
    forall i, j | 0 <= i < j < |b| ensures b[i].messageId != b[j].messageId {
      assert b[i] in multiset(b) && b[j] in multiset(b);
      if b[i].messageId == b[j].messageId {
        OccursTwice(b, i, j);
        DistinctMeansOnce(a, b[i]);
      }
    }
  }

  lemma OccursTwice(b: seq<ChatMessage>, i: nat, j: nat)
    requires i < j < |b|
    ensures b[i] == b[j] ==> multiset(b)[b[i]] >= 2
  {
    assert b == b[..i] + [b[i]] + b[i + 1..j] + [b[j]] + b[j + 1..];
  }

  lemma {:induction false} DistinctMeansOnce(a: seq<ChatMessage>, m: ChatMessage)
    requires DistinctIds(a)
    ensures multiset(a)[m] <= 1
    ensures forall x :: x in a && m in a && x.messageId == m.messageId ==> x == m
  {
    if a != [] {
      var front := a[..|a| - 1];
      assert a == front + [a[|a| - 1]];
      DistinctMeansOnce(front, m);
      if a[|a| - 1] == m {
        assert m !in front;
      }
    }
  }

  // ---------------------------------------------------------------- the object

  ghost function MemberOf(s: Session): Member
    reads s
  {
    Member(s.maxQueue, s.State())
  }

  ghost function MembersOf(sessions: map<string, Session>): (ms: map<string, Member>)
    reads sessions.Values
    ensures ms.Keys == sessions.Keys
  {
    map id | id in sessions :: MemberOf(sessions[id])
  }

  /** One turn of the fan-out loop. */
  method DeliverTo(
      id: string, s: Session, e: Event, origin: Option<string>, exclude: Option<string>, flush: bool, now: int)
    requires s.State().Valid()
    modifies s
    ensures MemberOf(s) == Turn(id, old(MemberOf(s)), e, origin, exclude, flush, now)
  {
    if exclude == Some(id) {
      return;
    }
    var _ := s.EnqueueEvent(e, origin, now);
    var notice := s.TakeBackpressureNotice();
    if notice.Some? {
      var _ := s.EnqueueEvent(notice.value, None, now);
    }
    if flush {
      var _ := s.FlushQueue();
    }
  }

  method SendEach(s: Session, es: seq<Event>)
    modifies s
    ensures s.State() == SentAll(old(s.State()), es)
  {
    for i := 0 to |es|
      invariant s.State() == SentAll(old(s.State()), es[..i])
    {
      assert es[..i + 1][..i] == es[..i];
      s.SendNow(es[i]);
    }
    assert es[..|es|] == es;
  }

  /** Each session is filed under its own id, so different keys hold different objects. */
  ghost predicate Keyed(sessions: map<string, Session>) {
    forall id :: id in sessions ==> sessions[id].id == id
  }

  ghost predicate FiledById(sessions: map<string, Session>)
    reads sessions.Values
  {
    Keyed(sessions) && forall id :: id in sessions ==> sessions[id].State().Valid()
  }

  lemma MembersRemoved(sessions: map<string, Session>, id: string)
    requires FiledById(sessions)
    ensures FiledById(sessions - {id}) && MembersOf(sessions - {id}) == MembersOf(sessions) - {id}
  {
  }

  lemma MembersAdded(sessions: map<string, Session>, s: Session)
    requires FiledById(sessions) && s.State().Valid()
    ensures FiledById(sessions[s.id := s]) && MembersOf(sessions[s.id := s]) == MembersOf(sessions)[s.id := MemberOf(s)]
  {
  }

  lemma AllTurned(
      ms: map<string, Member>, r: map<string, Member>, e: Event, origin: Option<string>, exclude: Option<string>,
      flush: bool, now: int)
    requires r.Keys == ms.Keys
    requires forall id :: id in ms ==> ms[id].Valid() && r[id] == Turn(id, ms[id], e, origin, exclude, flush, now)
    ensures r == DeliveredAll(ms, e, origin, exclude, flush, now)
  {
    hide Turn;
  }

  /** The fan-out loop. */
  method DeliverEach(
      sessions: map<string, Session>, e: Event, origin: Option<string>, exclude: Option<string>, flush: bool, now: int)
    requires FiledById(sessions)
    modifies sessions.Values
    ensures forall id :: id in sessions ==>
        MemberOf(sessions[id]) == Turn(id, old(MemberOf(sessions[id])), e, origin, exclude, flush, now)
  {
    hide Turn;
    hide Delivered;
    var todo := sessions.Keys;
    while todo != {}
      invariant todo <= sessions.Keys
      invariant forall id :: id in todo ==> MemberOf(sessions[id]) == old(MemberOf(sessions[id]))
      invariant forall id :: id in sessions && id !in todo ==>
        MemberOf(sessions[id]) == Turn(id, old(MemberOf(sessions[id])), e, origin, exclude, flush, now)
      decreases todo
    {
      var id :| id in todo;
      DeliverTo(id, sessions[id], e, origin, exclude, flush, now);
      todo := todo - {id};
    }
  }

  method FlushEach(sessions: map<string, Session>)
    requires FiledById(sessions)
    modifies sessions.Values
    ensures FiledById(sessions)
    ensures forall id :: id in sessions ==>
      MemberOf(sessions[id]) == old(MemberOf(sessions[id])).(s := Flush(old(sessions[id].State())))
  {
    hide Flush;
    var todo := sessions.Keys;
    while todo != {}
      invariant todo <= sessions.Keys && FiledById(sessions)
      invariant forall id :: id in sessions ==>
        sessions[id].State() == if id in todo then old(sessions[id].State()) else Flush(old(sessions[id].State()))
      decreases todo
    {
      var id :| id in todo;
      var _ := sessions[id].FlushQueue();
      todo := todo - {id};
    }
  }

  method BeatOne(s: Session, nonce: string)
    requires s.State().Valid()
    modifies s
    ensures s.State() == Pinged(old(s.State()), nonce)
  {
    s.SendNow(Ping(nonce));
    s.PingSent();
  }

  method BeatEach(sessions: map<string, Session>, nonce: string)
    requires FiledById(sessions)
    modifies sessions.Values
    ensures FiledById(sessions)
    ensures forall id :: id in sessions ==>
      MemberOf(sessions[id]) == old(MemberOf(sessions[id])).(s := Pinged(old(sessions[id].State()), nonce))
  {
    hide Pinged;
    var todo := sessions.Keys;
    while todo != {}
      invariant todo <= sessions.Keys && FiledById(sessions)
      invariant forall id :: id in sessions ==>
        sessions[id].State() == if id in todo then old(sessions[id].State())
                                else Pinged(old(sessions[id].State()), nonce)
      decreases todo
    {
      var id :| id in todo;
      BeatOne(sessions[id], nonce);
      todo := todo - {id};
    }
  }

  class ChatBus {
    var sessions: map<string, Session>
    var buffer: seq<ChatMessage>
    var pending: map<string, ConfirmationRequest>
    var pendingOrder: seq<string>
    var clients: map<string, string>

    ghost predicate PendingValid()
      reads this`pending, this`pendingOrder
    {
      && NoDuplicates(pendingOrder)
      && (forall c :: c in pendingOrder <==> c in pending)
    }

    ghost predicate Valid()
      reads this, sessions.Values
    {
      FiledById(sessions) && PendingValid()
    }

    ghost function State(): (b: BusState)
      reads this, sessions.Values
      requires Valid()
      ensures b.Valid()
    {
      BusState(MembersOf(sessions), buffer, pending, pendingOrder, clients)
    }

    constructor ()
      ensures Valid() && State() == EMPTY_BUS
    {
      sessions, buffer, pending, pendingOrder, clients := map[], [], map[], [], map[];
    }

    method EvictBuffer(now: int)
      requires Valid()
      modifies this`buffer
      ensures Valid() && State() == old(State()).(buffer := Evicted(old(buffer), now))
    {
      var cutoff := now - REPLAY_WINDOW_NS;
      buffer := InWindow(buffer, cutoff);
      if |buffer| > REPLAY_MAX {
        buffer := buffer[|buffer| - REPLAY_MAX..];
      }
    }

    method RecordEvent(e: Event, now: int)
      requires Valid()
      modifies this`buffer, this`pending, this`pendingOrder
      ensures Valid() && State() == Recorded(old(State()), e, now)
    {
      hide MembersOf;
      hide FiledById;
      match e
      case Chat(m) =>
        if !HasId(buffer, m.messageId) {
          buffer := buffer + [m];
          EvictBuffer(now);
        }
      case Confirm(req) =>
        if req.callId !in pending {
          pendingOrder := pendingOrder + [req.callId];
        }
        pending := pending[req.callId := req];
      case _ =>
    }

    method PublishEvent(e: Event, origin: Option<string>, exclude: Option<string>, flush: bool, now: int)
      requires Valid()
      modifies this`buffer, this`pending, this`pendingOrder, sessions.Values
      ensures Valid()
      ensures State() == Published(old(State()), e, origin, exclude, flush, now)
    {
      hide DeliveredAll;
      RecordEvent(e, now);
      FanOut(e, origin, exclude, flush, now);
    }

    method FanOut(e: Event, origin: Option<string>, exclude: Option<string>, flush: bool, now: int)
      requires FiledById(sessions)
      modifies sessions.Values
      ensures FiledById(sessions)
      ensures MembersOf(sessions) == DeliveredAll(old(MembersOf(sessions)), e, origin, exclude, flush, now)
    {
      hide Turn;
      hide DeliveredAll;
      DeliverEach(sessions, e, origin, exclude, flush, now);
      AllTurned(old(MembersOf(sessions)), MembersOf(sessions), e, origin, exclude, flush, now);
    }

    method PublishManyEvents(es: seq<Event>, origin: Option<string>, flush: bool, now: int)
      requires Valid()
      modifies this`buffer, this`pending, this`pendingOrder, sessions.Values
      ensures Valid()
      ensures State() == PublishedMany(old(State()), es, origin, flush, now)
    {
      for i := 0 to |es|
        invariant Valid()
        invariant State() == PublishedAll(old(State()), es[..i], origin, now)
      {
        assert es[..i + 1][..i] == es[..i];
        PublishEvent(es[i], origin, None, false, now);
      }
      assert es[..|es|] == es;
      if flush {
        FlushSessions();
      }
    }

    method FlushSessions()
      requires Valid()
      modifies sessions.Values
      ensures Valid() && State() == FlushedAll(old(State()))
    {
      hide Flush;
      FlushEach(sessions);
      assert MembersOf(sessions) == FlushedAll(old(State())).sessions;
    }

    /** Tells every other subscriber that a session came or went. */
    method EmitPresence(id: string, client: string, online: bool, now: int)
      requires Valid()
      modifies this`buffer, this`pending, this`pendingOrder, sessions.Values
      ensures Valid() && State() == Announced(old(State()), id, client, online, now)
    {
      PublishEvent(Presence(id, client, online), Some(id), Some(id), true, now);
    }

    method Forget(id: string)
      requires Valid()
      modifies this`sessions, this`clients
      ensures Valid() && sessions == old(sessions) - {id}
      ensures State() == old(State()).(sessions := old(State()).sessions - {id}, clients := old(State()).clients - {id})
    {
      hide MembersOf;
      hide FiledById;
      MembersRemoved(sessions, id);
      sessions := sessions - {id};
      clients := clients - {id};
    }

    method SubscribeSession(s: Session, client: Option<string>, now: int)
      requires Valid() && s.State().Valid()
      modifies this, sessions.Values, s
      ensures Valid() && sessions == old(sessions)[s.id := s]
      ensures State() == Subscribed(old(State()), s.id, old(Member(s.maxQueue, s.State())), client, now)
    {
      hide MembersOf;
      hide FiledById;
      hide Announced;
      MembersAdded(sessions, s);
      sessions := sessions[s.id := s];
      var name := OrElse(client, DEFAULT_CLIENT);
      clients := clients[s.id := name];
      EmitPresence(s.id, name, true, now);
    }

    method UnsubscribeSession(id: string, client: Option<string>, now: int)
      requires Valid()
      modifies this, sessions.Values
      ensures Valid() && sessions == old(sessions) - {id}
      ensures State() == Unsubscribed(old(State()), id, client, now)
    {
      hide MembersOf;
      hide FiledById;
      hide Announced;
      if id in sessions {
        EmitPresence(id, OrElse(client, OrElse(Lookup(clients, id), DEFAULT_CLIENT)), false, now);
      }
      Forget(id);
    }

    method ResolveConfirmation(callId: string)
      requires Valid()
      modifies this`pending, this`pendingOrder
      ensures Valid() && State() == Resolved(old(State()), callId)
    {
      hide Forgotten;
      if callId in pending {
        pendingOrder := Forgotten(pendingOrder, callId);
        pending := pending - {callId};
      }
    }

    method UnreadByChannel(ms: seq<ChatMessage>) returns (counts: map<string, nat>)
      ensures forall c :: Lookup(counts, c).GetOr(0) == CountIn(ms, c)
    {
      counts := map[];
      for i := 0 to |ms|
        invariant forall c :: Lookup(counts, c).GetOr(0) == CountIn(ms[..i], c)
      {
        assert ms[..i + 1][..i] == ms[..i];
        var c := ms[i].channelId;
        counts := counts[c := Lookup(counts, c).GetOr(0) + 1];
      }
      assert ms[..|ms|] == ms;
    }

    method BuildReplay(checkpoint: Option<string>, now: int) returns (es: seq<Event>)
      requires Valid() && buffer == Evicted(buffer, now)
      ensures es == ReplayEvents(State(), checkpoint, now)
    {
      var ordered := SortByTs(buffer);
      var unread := UnreadByChannel(ordered);
      var channels := seq(|CHANNEL_IDS|, i requires 0 <= i < |CHANNEL_IDS| =>
                            ChannelInfo(CHANNEL_IDS[i], Lookup(unread, CHANNEL_IDS[i]).GetOr(0)));
      var requests := seq(|pendingOrder|, i requires 0 <= i < |pendingOrder| && pendingOrder[i] in pending reads this =>
                            Confirm(pending[pendingOrder[i]]));
      var resumeTs := if ordered != [] then ordered[|ordered| - 1].ts else now;
      es := [ChannelList(channels)] + AsChats(ordered) + requests + [ReplayDone(resumeTs, checkpoint)];
      assert requests == PendingRequests(State());
      assert ChannelList(channels) == ChannelListFor(ordered);
    }

    /** Sends straight to one session's transport; no other session notices. */
    method SendTo(id: string, es: seq<Event>)
      requires Valid() && id in sessions
      modifies sessions[id]
      ensures Valid()
      ensures State() == old(State()).(sessions := old(State()).sessions[id :=
                           Member(sessions[id].maxQueue, SentAll(old(sessions[id].State()), es))])
    {
      hide SentAll;
      SendEach(sessions[id], es);
      assert MembersOf(sessions) == old(MembersOf(sessions))[id := MemberOf(sessions[id])];
    }

    /** None is the KeyError of an unknown session. */
    method ReplayTo(id: string, checkpoint: Option<string>, now: int) returns (out: Option<seq<Event>>)
      requires Valid()
      modifies this`buffer, sessions.Values
      ensures Valid()
      ensures State() == Replayed(old(State()), id, checkpoint, now)
      ensures out == if id in sessions then Some(ReplayEvents(old(State()), checkpoint, now)) else None
    {
      hide ReplayEvents;
      hide SentAll;
      hide SortByTs;
      hide FiledById;
      if id !in sessions {
        return None;
      }
      EvictBuffer(now);
      EvictedIdempotent(old(buffer), now);
      var es := BuildReplay(checkpoint, now);
      SameReplay(old(State()), State(), checkpoint, now);
      SendTo(id, es);
      out := Some(es);
    }

    method SendPings(nonce: string)
      requires Valid()
      modifies sessions.Values
      ensures Valid() && State() == Beaten(old(State()), nonce)
    {
      hide Pinged;
      BeatEach(sessions, nonce);
      assert MembersOf(sessions) == Beaten(old(State()), nonce).sessions;
    }

    /** Returns the ping sent to each session; without a nonce one is generated. */
    method HeartbeatAll(nonce: Option<string>, generated: string) returns (sent: map<string, Event>)
      requires Valid()
      modifies sessions.Values
      ensures Valid() && State() == Beaten(old(State()), OrElse(nonce, generated))
      ensures sent.Keys == sessions.Keys && forall id :: id in sent ==> sent[id] == Ping(OrElse(nonce, generated))
    {
      hide FiledById;
      hide MembersOf;
      hide Beaten;
      var used := OrElse(nonce, generated);
      SendPings(used);
      sent := map id | id in sessions :: Ping(used);
    }

    method PongArrived(id: string)
      requires Valid()
      modifies sessions.Values
      ensures Valid() && State() == Ponged(old(State()), id)
    {
      if id in sessions {
        sessions[id].PongReceived();
      }
    }

    method UnsubscribeEach(ids: seq<string>, now: int)
      requires Valid()
      modifies this, sessions.Values
      ensures Valid() && State() == ReapedAll(old(State()), ids, now)
    {
      hide Unsubscribed;
      hide FiledById;
      hide MembersOf;
      assert ids[..0] == [];
      for i := 0 to |ids|
        invariant Valid() && sessions.Values <= old(sessions.Values)
        invariant State() == ReapedAll(old(State()), ids[..i], now)
      {
        assert ids[..i + 1][..i] == ids[..i];
        UnsubscribeSession(ids[i], None, now);
      }
      assert ids[..|ids|] == ids;
    }

    /** Removes exactly the sessions that were dead. */
    method ReapDead(now: int) returns (dead: seq<string>)
      requires Valid()
      modifies this, sessions.Values
      ensures Valid() && State() == ReapedAll(old(State()), dead, now)
      ensures forall id :: id in dead <==> id in old(sessions) && !old(sessions[id].alive)
      ensures NoDuplicates(dead)
    {
      dead := [];
      var todo := sessions.Keys;
      while todo != {}
        invariant todo <= sessions.Keys && NoDuplicates(dead)
        invariant forall id :: id in dead <==> id in sessions && id !in todo && !sessions[id].alive
        decreases todo
      {
        var id :| id in todo;
        if !sessions[id].alive {
          dead := dead + [id];
        }
        todo := todo - {id};
      }
      UnsubscribeEach(dead, now);
    }
  }
}
