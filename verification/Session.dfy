/** One connected client of the chat bus: a bounded outbound queue with a priority drop policy. */
module Sessions {
  import opened Common
  import opened Events

  const MAX_MISSED_PINGS: nat := 2

  /** What reached the transport: by a flush, stamped with its origin, or sent directly. */
  datatype Frame = Fanout(event: Event, origin: Option<string>) | Direct(event: Event)

  datatype SessionState = SessionState(
    queue: seq<Event>,
    origins: seq<Option<string>>,
    seen: set<string>,
    dropped: nat,
    dropSince: Option<int>,
    missed: nat,
    alive: bool,
    wire: seq<Frame>)
  {
    ghost predicate Valid() {
      |queue| == |origins|
    }
  }

  const NEW_SESSION := SessionState([], [], {}, 0, None, 0, true, [])

  // ---------------------------------------------------------------- one operation

  predicate IsDelta(e: Event) { e.Delta? }
  predicate NotChat(e: Event) { !e.Chat? }

  predicate IsDuplicate(s: SessionState, e: Event) {
    e.Chat? && e.msg.messageId in s.seen
  }

  function MarkSeen(s: SessionState, e: Event): SessionState {
    if e.Chat? then s.(seen := s.seen + {e.msg.messageId}) else s
  }

  function Admit(s: SessionState, e: Event, origin: Option<string>): SessionState {
    s.(queue := s.queue + [e], origins := s.origins + [origin])
  }

  function NoteDrop(s: SessionState, now: int): SessionState {
    s.(dropped := s.dropped + 1, dropSince := if s.dropSince.None? then Some(now) else s.dropSince)
  }

  function Evict(s: SessionState, i: nat, now: int): SessionState
    requires s.Valid() && i < |s.queue|
  {
    NoteDrop(s.(queue := RemoveAt(s.queue, i), origins := RemoveAt(s.origins, i)), now)
  }

  /** Is `e` queued by Offer? (the boolean `enqueue` returns) */
  predicate Accepts(s: SessionState, cap: nat, e: Event) {
    && !IsDuplicate(s, e)
    && (|s.queue| < cap || FirstWhere(s.queue, IsDelta) < |s.queue| || !e.Delta?)
  }

  function Offer(s: SessionState, cap: nat, e: Event, origin: Option<string>, now: int): (r: SessionState)
    requires s.Valid()
    ensures r.Valid()
  {
    if IsDuplicate(s, e) then s
    else
      var m := MarkSeen(s, e);
      var delta := FirstWhere(m.queue, IsDelta);
      var other := FirstWhere(m.queue, NotChat);
      if |m.queue| < cap then Admit(m, e, origin)
      else if delta < |m.queue| then Admit(Evict(m, delta, now), e, origin)
      else if e.Delta? then NoteDrop(m, now)
      else if other < |m.queue| then Admit(Evict(m, other, now), e, origin)
      else Admit(m, e, origin)
  }

  /** The notice is built from the running totals, which nothing ever resets. */
  function TakeNotice(s: SessionState): Option<Event> {
    if s.dropped > 0 && s.dropSince.Some? then Some(BackpressureNotice(s.dropped, s.dropSince.value)) else None
  }

  function Frames(es: seq<Event>, origins: seq<Option<string>>): (fs: seq<Frame>)
    requires |es| == |origins|
    ensures |fs| == |es|
  {
    seq(|es|, i requires 0 <= i < |es| => Fanout(es[i], origins[i]))
  }

  function Flush(s: SessionState): (r: SessionState)
    requires s.Valid()
    ensures r.Valid()
  {
    s.(queue := [], origins := [], wire := s.wire + Frames(s.queue, s.origins))
  }

  function SendDirect(s: SessionState, e: Event): SessionState {
    s.(wire := s.wire + [Direct(e)])
  }

  function OnPingSent(s: SessionState): SessionState {
    s.(missed := s.missed + 1, alive := if s.missed + 1 > MAX_MISSED_PINGS then false else s.alive)
  }

  function OnPong(s: SessionState): SessionState {
    s.(missed := 0)
  }

  // ---------------------------------------------------------------- runs of operations

  datatype Op =
    | Enqueue(event: Event, origin: Option<string>, now: int)
    | FlushOp
    | Send(event: Event)
    | PingOp
    | PongOp

  function Step(s: SessionState, cap: nat, op: Op): (r: SessionState)
    requires s.Valid()
    ensures r.Valid()
  {
    match op
    case Enqueue(e, o, now) => Offer(s, cap, e, o, now)
    case FlushOp => Flush(s)
    case Send(e) => SendDirect(s, e)
    case PingOp => OnPingSent(s)
    case PongOp => OnPong(s)
  }

  function Run(s: SessionState, cap: nat, ops: seq<Op>): (r: SessionState)
    requires s.Valid()
    ensures r.Valid()
  {
    if ops == [] then s else Step(Run(s, cap, ops[..|ops| - 1]), cap, ops[|ops| - 1])
  }

  lemma {:induction false} RunConcat(s: SessionState, cap: nat, a: seq<Op>, b: seq<Op>)
    requires s.Valid()
    ensures Run(s, cap, a + b) == Run(Run(s, cap, a), cap, b)
  {
    if b == [] {
      assert a + b == a;
    } else {
      var c := a + b;
      assert c[..|c| - 1] == a + b[..|b| - 1];
      RunConcat(s, cap, a, b[..|b| - 1]);
    }
  }

  /** The events a flush has put on the wire, in order, with their origins. */
  function Flushed(wire: seq<Frame>): seq<(Event, Option<string>)> {
    if wire == [] then []
    else
      var last := wire[|wire| - 1];
      Flushed(wire[..|wire| - 1]) + (if last.Fanout? then [(last.event, last.origin)] else [])
  }

  function Queued(s: SessionState): (q: seq<(Event, Option<string>)>)
    requires s.Valid()
    ensures |q| == |s.queue|
  {
    seq(|s.queue|, i requires 0 <= i < |s.queue| => (s.queue[i], s.origins[i]))
  }

  /** Everything the fan-out has delivered or still holds: sent first, then queued. */
  function Outgoing(s: SessionState): seq<(Event, Option<string>)>
    requires s.Valid()
  {
    Flushed(s.wire) + Queued(s)
  }

  function EventsOf(ps: seq<(Event, Option<string>)>): (es: seq<Event>)
    ensures |es| == |ps|
  {
    seq(|ps|, i requires 0 <= i < |ps| => ps[i].0)
  }

  /** Everything offered to `enqueue` in a run, in order, with its origin. */
  function Offered(ops: seq<Op>): seq<(Event, Option<string>)> {
    if ops == [] then []
    else
      var last := ops[|ops| - 1];
      Offered(ops[..|ops| - 1]) + (if last.Enqueue? then [(last.event, last.origin)] else [])
  }

  /** How many of the offers of a run are not repeats of a chat message already offered. */
  function NonDuplicates(seen: set<string>, es: seq<Event>): nat {
    if es == [] then 0
    else
      var front, last := es[..|es| - 1], es[|es| - 1];
      NonDuplicates(seen, front)
      + (if last.Chat? && last.msg.messageId in seen + Ids(Chats(front)) then 0 else 1)
  }

  lemma NonDuplicatesSnoc(seen: set<string>, es: seq<Event>, e: Event)
    ensures NonDuplicates(seen, es + [e])
            == NonDuplicates(seen, es) + (if e.Chat? && e.msg.messageId in seen + Ids(Chats(es)) then 0 else 1)
  {
    assert (es + [e])[..|es|] == es;
  }

  // ---------------------------------------------------------------- what one operation does

  lemma {:induction false} FlushedConcat(a: seq<Frame>, b: seq<Frame>)
    ensures Flushed(a + b) == Flushed(a) + Flushed(b)
  {
    if b == [] {
      assert a + b == a;
    } else {
      var c := a + b;
      assert c[..|c| - 1] == a + b[..|b| - 1];
      FlushedConcat(a, b[..|b| - 1]);
    }
  }

  lemma {:induction false} FlushedFrames(es: seq<Event>, origins: seq<Option<string>>)
    requires |es| == |origins|
    ensures Flushed(Frames(es, origins)) == seq(|es|, i requires 0 <= i < |es| => (es[i], origins[i]))
  {
    var fs := Frames(es, origins);
    if es != [] {
      var n := |es| - 1;
      assert fs[..n] == Frames(es[..n], origins[..n]);
      FlushedFrames(es[..n], origins[..n]);
    }
  }

  /** Flushing moves the queue to the wire: nothing is lost, duplicated or reordered. */
  lemma FlushKeepsOutgoing(s: SessionState)
    requires s.Valid()
    ensures Outgoing(Flush(s)) == Outgoing(s)
  {
    FlushedConcat(s.wire, Frames(s.queue, s.origins));
    FlushedFrames(s.queue, s.origins);
    assert Queued(Flush(s)) == [];
  }

  lemma SendKeepsOutgoing(s: SessionState, e: Event)
    requires s.Valid()
    ensures Outgoing(SendDirect(s, e)) == Outgoing(s)
  {
    FlushedConcat(s.wire, [Direct(e)]);
    assert Flushed([Direct(e)]) == [] by { assert [Direct(e)][..0] == []; }
    assert Queued(SendDirect(s, e)) == Queued(s);
  }

  lemma QueuedAdmit(s: SessionState, e: Event, origin: Option<string>)
    requires s.Valid()
    ensures Queued(Admit(s, e, origin)) == Queued(s) + [(e, origin)]
  {
  }

  lemma QueuedEvict(s: SessionState, i: nat, now: int)
    requires s.Valid() && i < |s.queue|
    ensures Queued(Evict(s, i, now)) == RemoveAt(Queued(s), i)
  {
  }

  lemma AdmitOutgoing(s: SessionState, e: Event, origin: Option<string>)
    requires s.Valid()
    ensures Outgoing(Admit(s, e, origin)) == Outgoing(s) + [(e, origin)]
  {
    QueuedAdmit(s, e, origin);
    ConcatSnoc(Flushed(s.wire), Queued(s), (e, origin));
  }

  lemma EvictOutgoing(s: SessionState, i: nat, now: int)
    requires s.Valid() && i < |s.queue|
    ensures |Flushed(s.wire)| + i < |Outgoing(s)| && Outgoing(s)[|Flushed(s.wire)| + i].0 == s.queue[i]
    ensures Outgoing(Evict(s, i, now)) == RemoveAt(Outgoing(s), |Flushed(s.wire)| + i)
  {
    QueuedEvict(s, i, now);
    RemoveAtRight(Flushed(s.wire), Queued(s), i);
  }

  /** The queue position an offer evicts, if any. */
  function Victim(s: SessionState, cap: nat, e: Event): (v: Option<nat>)
    ensures v.Some? ==> v.value < |s.queue| && !s.queue[v.value].Chat?
  {
    var delta, other := FirstWhere(s.queue, IsDelta), FirstWhere(s.queue, NotChat);
    if IsDuplicate(s, e) || |s.queue| < cap then None
    else if delta < |s.queue| then Some(delta)
    else if e.Delta? || other == |s.queue| then None
    else Some(other)
  }

  /** An offer evicts its victim, then queues the newcomer at the end or counts it as dropped. */
  lemma OfferShape(s: SessionState, cap: nat, e: Event, origin: Option<string>, now: int)
    requires s.Valid()
    ensures var v := Victim(s, cap, e);
            Offer(s, cap, e, origin, now) ==
              if IsDuplicate(s, e) then s
              else if !Accepts(s, cap, e) then NoteDrop(s, now)
              else Admit(if v.Some? then Evict(MarkSeen(s, e), v.value, now) else MarkSeen(s, e), e, origin)
    ensures !Accepts(s, cap, e) ==> Victim(s, cap, e).None? && (IsDuplicate(s, e) || e.Delta?)
  {
  }

  function Without<T>(s: seq<T>, i: Option<nat>): seq<T>
    requires i.Some? ==> i.value < |s|
  {
    if i.Some? then RemoveAt(s, i.value) else s
  }

  lemma WithoutLength<T>(s: seq<T>)
    ensures forall i: Option<nat> :: (i.Some? ==> i.value < |s|) ==> |Without(s, i)| == |s| - (if i.Some? then 1 else 0)
  {
  }

  lemma ConcatSnoc<T>(a: seq<T>, b: seq<T>, x: T)
    ensures a + (b + [x]) == (a + b) + [x]
  {
  }

  function OfferedBy(op: Op): seq<(Event, Option<string>)> {
    if op.Enqueue? then [(op.event, op.origin)] else []
  }

  /** How one operation changes what is outgoing: at most one non-chat entry leaves, at most one enters at the end. */
  lemma OfferOutgoing(s: SessionState, cap: nat, e: Event, origin: Option<string>, now: int) returns (gone: Option<nat>)
    requires s.Valid()
    ensures gone.Some? ==> gone.value < |Outgoing(s)| && !Outgoing(s)[gone.value].0.Chat?
    ensures !Accepts(s, cap, e) ==> gone.None? && (IsDuplicate(s, e) || e.Delta?)
    ensures Outgoing(Offer(s, cap, e, origin, now)) == Without(Outgoing(s), gone)
            + (if Accepts(s, cap, e) then [(e, origin)] else [])
    ensures Offer(s, cap, e, origin, now).dropped
              == s.dropped + (if gone.Some? || !(Accepts(s, cap, e) || IsDuplicate(s, e)) then 1 else 0)
  {
    hide Offer;
    hide Outgoing;
    hide Accepts;
    hide Victim;
    var v, m := Victim(s, cap, e), MarkSeen(s, e);
    OfferShape(s, cap, e, origin, now);
    SameQueueSameOutgoing(s, m);
    gone := None;
    if Accepts(s, cap, e) {
      AcceptedIsNew(s, cap, e);
      if v.Some? {
        gone := Some(|Flushed(s.wire)| + v.value);
        EvictOutgoing(m, v.value, now);
        AdmitOutgoing(Evict(m, v.value, now), e, origin);
      } else {
        AdmitOutgoing(m, e, origin);
      }
    } else {
      SameQueueSameOutgoing(s, Offer(s, cap, e, origin, now));
      assert Outgoing(s) + [] == Outgoing(s);
    }
  }

  lemma AcceptedIsNew(s: SessionState, cap: nat, e: Event)
    requires Accepts(s, cap, e)
    ensures !IsDuplicate(s, e)
  {
  }

  lemma SameQueueSameOutgoing(s: SessionState, r: SessionState)
    requires s.Valid() && r.Valid() && r.queue == s.queue && r.origins == s.origins && r.wire == s.wire
    ensures Outgoing(r) == Outgoing(s)
  {
    assert Queued(r) == Queued(s);
  }

  /** The operation offers an event that is new but not accepted. */
  predicate Refuses(s: SessionState, cap: nat, op: Op)
    requires s.Valid()
  {
    op.Enqueue? && !Accepts(s, cap, op.event) && !IsDuplicate(s, op.event)
  }

  lemma StepOutgoing(s: SessionState, cap: nat, op: Op) returns (gone: Option<nat>)
    requires s.Valid()
    ensures gone.Some? ==> gone.value < |Outgoing(s)| && !Outgoing(s)[gone.value].0.Chat?
    ensures Outgoing(Step(s, cap, op)) == Without(Outgoing(s), gone)
            + (if op.Enqueue? && Accepts(s, cap, op.event) then OfferedBy(op) else [])
    ensures op.Enqueue? && !Accepts(s, cap, op.event) ==> gone.None? && (IsDuplicate(s, op.event) || op.event.Delta?)
    ensures Step(s, cap, op).dropped == s.dropped + (if gone.Some? || Refuses(s, cap, op) then 1 else 0)
    ensures Step(s, cap, op).seen == if op.Enqueue? then MarkSeen(s, op.event).seen else s.seen
  {
    gone := None;
    assert Outgoing(s) + [] == Outgoing(s);
    match op
    case Enqueue(e, origin, now) =>
      gone := OfferOutgoing(s, cap, e, origin, now);
      OfferShape(s, cap, e, origin, now);
    case FlushOp => FlushKeepsOutgoing(s);
    case Send(e) => SendKeepsOutgoing(s, e);
    case PingOp => SameQueueSameOutgoing(s, Step(s, cap, op));
    case PongOp => SameQueueSameOutgoing(s, Step(s, cap, op));
  }

  lemma EventsOfParts(a: seq<(Event, Option<string>)>, b: seq<(Event, Option<string>)>)
    ensures EventsOf(a + b) == EventsOf(a) + EventsOf(b)
  {
  }

  lemma EventsOfWithout(a: seq<(Event, Option<string>)>, i: nat)
    requires i < |a|
    ensures EventsOf(RemoveAt(a, i)) == RemoveAt(EventsOf(a), i)
  {
  }

  lemma OfferedSnoc(ops: seq<Op>, op: Op)
    ensures Offered(ops + [op]) == Offered(ops) + OfferedBy(op)
    ensures EventsOf(Offered(ops + [op])) == EventsOf(Offered(ops)) + EventsOf(OfferedBy(op))
  {
    assert (ops + [op])[..|ops|] == ops;
    EventsOfParts(Offered(ops), OfferedBy(op));
  }

  // ---------------------------------------------------------------- chat messages are never lost

  function ChatsOf(ps: seq<(Event, Option<string>)>): seq<ChatMessage> {
    Chats(EventsOf(ps))
  }

  lemma ChatsOfParts(a: seq<(Event, Option<string>)>, b: seq<(Event, Option<string>)>)
    ensures ChatsOf(a + b) == ChatsOf(a) + ChatsOf(b)
  {
    EventsOfParts(a, b);
    ChatsConcat(EventsOf(a), EventsOf(b));
  }

  lemma ChatsOfOne(e: Event, origin: Option<string>)
    ensures ChatsOf([(e, origin)]) == if e.Chat? then [e.msg] else []
  {
    assert EventsOf([(e, origin)]) == [e];
    ChatsOne(e);
  }

  lemma ChatsOfWithout(ps: seq<(Event, Option<string>)>, i: Option<nat>)
    requires i.Some? ==> i.value < |ps| && !ps[i.value].0.Chat?
    ensures ChatsOf(Without(ps, i)) == ChatsOf(ps)
  {
    if i.Some? {
      EventsOfWithout(ps, i.value);
      ChatsRemoveOther(EventsOf(ps), i.value);
    }
  }

  /** What one accepted or refused offer contributes, by the chats in it. */
  lemma OfferedChats(s: SessionState, cap: nat, e: Event, origin: Option<string>)
    requires s.Valid()
    ensures var offered := ChatsOf([(e, origin)]);
            && ChatsOf(if Accepts(s, cap, e) then [(e, origin)] else []) == FirstSeen(s.seen, offered)
            && MarkSeen(s, e).seen == s.seen + Ids(offered)
  {
    ChatsOfOne(e, origin);
    if e.Chat? {
      assert [] + [e.msg] == [e.msg];
      FirstSeenSnoc(s.seen, [], e.msg);
      IdsSnoc([], e.msg);
    }
  }

  lemma StepKeepsChats(s: SessionState, cap: nat, op: Op)
    requires s.Valid()
    ensures ChatsOf(Outgoing(Step(s, cap, op))) == ChatsOf(Outgoing(s)) + FirstSeen(s.seen, ChatsOf(OfferedBy(op)))
    ensures Step(s, cap, op).seen == s.seen + Ids(ChatsOf(OfferedBy(op)))
  {
    var gone := StepOutgoing(s, cap, op);
    ChatsOfWithout(Outgoing(s), gone);
    var tail := if op.Enqueue? && Accepts(s, cap, op.event) then OfferedBy(op) else [];
    ChatsOfParts(Without(Outgoing(s), gone), tail);
    if op.Enqueue? {
      OfferedChats(s, cap, op.event, op.origin);
    } else {
      assert ChatsOf([]) == [] && FirstSeen(s.seen, []) == [] && Ids([]) == {};
    }
    hide Step;
    hide Outgoing;
    hide Without;
    hide Accepts;
    hide MarkSeen;
    hide FirstSeen;
    hide ChatsOf;
    hide Ids;
  }

  /**
   * Backpressure never loses, duplicates or reorders a chat message: what a session has sent and
   * still queues, restricted to chat messages, is the first occurrence of each id offered, in order.
   */
  lemma {:induction false} ChatsAreNeverLost(s: SessionState, cap: nat, ops: seq<Op>)
    requires s.Valid()
    ensures ChatsOf(Outgoing(Run(s, cap, ops))) == ChatsOf(Outgoing(s)) + FirstSeen(s.seen, ChatsOf(Offered(ops)))
    ensures Run(s, cap, ops).seen == s.seen + Ids(ChatsOf(Offered(ops)))
  {
    if ops != [] {
      var front, last := ops[..|ops| - 1], ops[|ops| - 1];
      ChatsAreNeverLost(s, cap, front);
      StepKeepsChats(Run(s, cap, front), cap, last);
      assert ops == front + [last];
      OfferedSnoc(front, last);
      ChatsOfParts(Offered(front), OfferedBy(last));
      FirstSeenConcat(s.seen, ChatsOf(Offered(front)), ChatsOf(OfferedBy(last)));
      IdsConcat(ChatsOf(Offered(front)), ChatsOf(OfferedBy(last)));
    }
  }

  // ---------------------------------------------------------------- conservation, origins, bound

  /** Every offer that is not a repeat is sent, still queued, or counted as dropped. */
  lemma {:induction false} Conservation(s: SessionState, cap: nat, ops: seq<Op>)
    requires s.Valid()
    ensures |Outgoing(Run(s, cap, ops))| + Run(s, cap, ops).dropped
            == |Outgoing(s)| + s.dropped + NonDuplicates(s.seen, EventsOf(Offered(ops)))
  {
    if ops != [] {
      hide Outgoing;
      hide Step;
      hide Accepts;
      hide Without;
      hide Chats;
      hide Ids;
      hide FirstSeen;
      var front, last := ops[..|ops| - 1], ops[|ops| - 1];
      WithoutLength(Outgoing(Run(s, cap, front)));
      Conservation(s, cap, front);
      ChatsAreNeverLost(s, cap, front);
      var _ := StepOutgoing(Run(s, cap, front), cap, last);
      assert ops == front + [last];
      OfferedSnoc(front, last);
      if last.Enqueue? {
        assert EventsOf(OfferedBy(last)) == [last.event];
        NonDuplicatesSnoc(s.seen, EventsOf(Offered(front)), last.event);
      } else {
        assert EventsOf(Offered(front)) + EventsOf(OfferedBy(last)) == EventsOf(Offered(front));
      }
    }
  }

  /** Each event keeps the origin it was offered with: the outgoing pairs are offered pairs, in offer order. */
  lemma {:induction false} OriginsStayAttached(s: SessionState, cap: nat, ops: seq<Op>)
    requires s.Valid()
    ensures Subsequence(Outgoing(Run(s, cap, ops)), Outgoing(s) + Offered(ops))
  {
    if ops == [] {
      assert Outgoing(s) + Offered(ops) == Outgoing(s);
      SubsequenceReflexive(Outgoing(s));
    } else {
      var front, last := ops[..|ops| - 1], ops[|ops| - 1];
      var all := Outgoing(s) + Offered(front);
      OriginsStayAttached(s, cap, front);
      StepKeepsOrigins(Run(s, cap, front), cap, last, all);
      assert ops == front + [last];
      OfferedSnoc(front, last);
      assert all + OfferedBy(last) == Outgoing(s) + Offered(ops);
    }
  }

  lemma StepKeepsOrigins(s: SessionState, cap: nat, op: Op, all: seq<(Event, Option<string>)>)
    requires s.Valid() && Subsequence(Outgoing(s), all)
    ensures Subsequence(Outgoing(Step(s, cap, op)), all + OfferedBy(op))
  {
    var gone := StepOutgoing(s, cap, op);
    var rest := Without(Outgoing(s), gone);
    if gone.Some? {
      SubsequenceRemove(Outgoing(s), all, gone.value);
    }
    if op.Enqueue? && Accepts(s, cap, op.event) {
      SubsequenceAppend(rest, all, (op.event, op.origin));
    } else {
      assert rest + [] == rest;
      SubsequenceExtend(rest, all, OfferedBy(op));
    }
  }

  function CountOther(q: seq<Event>): nat {
    if q == [] then 0 else CountOther(q[..|q| - 1]) + (if q[|q| - 1].Chat? then 0 else 1)
  }

  ghost predicate NoDelta(q: seq<Event>) {
    forall i :: 0 <= i < |q| ==> !q[i].Delta?
  }

  /** While the queue exceeds its cap it holds no delta and at most one non-chat event. */
  ghost predicate Bounded(s: SessionState, cap: nat) {
    |s.queue| > cap ==> CountOther(s.queue) <= 1 && NoDelta(s.queue)
  }

  lemma CountOtherSnoc(q: seq<Event>, e: Event)
    ensures CountOther(q + [e]) == CountOther(q) + (if e.Chat? then 0 else 1)
  {
    assert (q + [e])[..|q|] == q;
  }

  lemma {:induction false} CountOtherConcat(a: seq<Event>, b: seq<Event>)
    ensures CountOther(a + b) == CountOther(a) + CountOther(b)
  {
    if b == [] {
      assert a + b == a;
    } else {
      assert a + b == (a + b[..|b| - 1]) + [b[|b| - 1]];
      CountOtherSnoc(a + b[..|b| - 1], b[|b| - 1]);
      CountOtherConcat(a, b[..|b| - 1]);
    }
  }

  lemma CountOtherRemove(q: seq<Event>, i: nat)
    requires i < |q| && !q[i].Chat?
    ensures CountOther(RemoveAt(q, i)) == CountOther(q) - 1
  {
    var a, b := q[..i], q[i + 1..];
    CountOtherConcat(a, b);
    CountOtherConcat(a + [q[i]], b);
    CountOtherSnoc(a, q[i]);
    assert q == a + [q[i]] + b;
  }

  lemma {:induction false} CountOtherVersusChats(q: seq<Event>)
    ensures |q| == CountOther(q) + |Chats(q)|
    ensures FirstWhere(q, NotChat) == |q| ==> CountOther(q) == 0
  {
    if q != [] {
      var front := q[..|q| - 1];
      CountOtherVersusChats(front);
      if FirstWhere(q, NotChat) == |q| {
        assert FirstWhere(front, NotChat) == |front|;
      }
    }
  }

  lemma NoDeltaAfter(q: seq<Event>, v: Option<nat>, e: Event)
    requires v.Some? ==> v.value < |q|
    requires FirstWhere(q, IsDelta) == |q| && !e.Delta?
    ensures NoDelta(Without(q, v) + [e])
  {
    forall i | 0 <= i < |q| ensures !q[i].Delta? {
      assert !IsDelta(q[i]);
    }
  }

  lemma OfferKeepsBound(s: SessionState, cap: nat, e: Event, origin: Option<string>, now: int)
    requires s.Valid() && Bounded(s, cap)
    ensures Bounded(Offer(s, cap, e, origin, now), cap)
  {
    OfferShape(s, cap, e, origin, now);
    var q, v := s.queue, Victim(s, cap, e);
    if Accepts(s, cap, e) {
      CountOtherSnoc(Without(q, v), e);
      if v.Some? {
        CountOtherRemove(q, v.value);
        if |q| > cap {
          assert FirstWhere(q, IsDelta) == |q|;
          NoDeltaAfter(q, v, e);
        }
      } else if |q| >= cap {
        CountOtherVersusChats(q);
        NoDeltaAfter(q, v, e);
      }
    }
  }

  /**
   * The bound that does hold: the chat guarantee lets the queue outgrow its cap, but never beyond
   * the queued chat messages plus one.
   */
  lemma {:induction false} QueueIsBounded(s: SessionState, cap: nat, ops: seq<Op>)
    requires s.Valid() && Bounded(s, cap)
    ensures var r := Run(s, cap, ops);
            && Bounded(r, cap)
            && (|r.queue| <= cap || |r.queue| <= |Chats(r.queue)| + 1)
  {
    if ops != [] {
      var front, last := ops[..|ops| - 1], ops[|ops| - 1];
      QueueIsBounded(s, cap, front);
      if last.Enqueue? {
        OfferKeepsBound(Run(s, cap, front), cap, last.event, last.origin, last.now);
      }
    }
    CountOtherVersusChats(Run(s, cap, ops).queue);
  }

  // ---------------------------------------------------------------- notices

  /** The notice window never closes: once something was dropped, every later call yields a notice. */
  lemma {:induction false} NoticeNeverResets(cap: nat, ops: seq<Op>, more: seq<Op>)
    ensures TakeNotice(Run(NEW_SESSION, cap, ops)).Some? <==> Run(NEW_SESSION, cap, ops).dropped > 0
    ensures TakeNotice(Run(NEW_SESSION, cap, ops)).Some? ==>
              var s, r := Run(NEW_SESSION, cap, ops), Run(NEW_SESSION, cap, ops + more);
              TakeNotice(r).Some? && TakeNotice(r).value.sinceTs == TakeNotice(s).value.sinceTs
  {
    DropWindow(NEW_SESSION, cap, ops);
    RunConcat(NEW_SESSION, cap, ops, more);
    DropWindow(Run(NEW_SESSION, cap, ops), cap, more);
  }

  lemma {:induction false} DropWindow(s: SessionState, cap: nat, ops: seq<Op>)
    requires s.Valid() && (s.dropSince.Some? <==> s.dropped > 0)
    ensures Run(s, cap, ops).dropSince.Some? <==> Run(s, cap, ops).dropped > 0
    ensures s.dropSince.Some? ==> Run(s, cap, ops).dropSince == s.dropSince
  {
    if ops != [] {
      DropWindow(s, cap, ops[..|ops| - 1]);
      StepDropWindow(Run(s, cap, ops[..|ops| - 1]), cap, ops[|ops| - 1]);
    }
  }

  lemma StepDropWindow(s: SessionState, cap: nat, op: Op)
    requires s.Valid() && (s.dropSince.Some? <==> s.dropped > 0)
    ensures Step(s, cap, op).dropSince.Some? <==> Step(s, cap, op).dropped > 0
    ensures s.dropSince.Some? ==> Step(s, cap, op).dropSince == s.dropSince
  {
    if op.Enqueue? { OfferShape(s, cap, op.event, op.origin, op.now); }
  }

  lemma SurvivorKeepsPlace(q: seq<Event>, o: seq<Option<string>>, v: Option<nat>, i: nat)
    requires |q| == |o| && i < |q| && v != Some(i) && (v.Some? ==> v.value < |q|)
    ensures var k := if v.Some? && v.value < i then i - 1 else i;
            k < |Without(q, v)| && k < |Without(o, v)| && Without(q, v)[k] == q[i] && Without(o, v)[k] == o[i]
  {
  }

  /**
   * A queued event that is no chat message, a notice included, is evicted by an offer exactly when
   * the queue is full, the offer is new, and it is the first delta, or the first non-chat event
   * when there is no delta and the newcomer is none either.
   */
  lemma EvictedIff(s: SessionState, cap: nat, e: Event, origin: Option<string>, now: int, i: nat)
    requires s.Valid() && i < |s.queue| && !s.queue[i].Chat?
    ensures var r := Offer(s, cap, e, origin, now);
            if && !IsDuplicate(s, e) && |s.queue| >= cap
               && (|| i == FirstWhere(s.queue, IsDelta)
                   || (FirstWhere(s.queue, IsDelta) == |s.queue| && !e.Delta? && i == FirstWhere(s.queue, NotChat)))
            then r.queue == RemoveAt(s.queue, i) + [e]
            else exists k :: 0 <= k <= i && k < |r.queue| && r.queue[k] == s.queue[i] && s.origins[i] == r.origins[k]
  {
    OfferShape(s, cap, e, origin, now);
    var r, v := Offer(s, cap, e, origin, now), Victim(s, cap, e);
    if v != Some(i) {
      SurvivorKeepsPlace(s.queue, s.origins, v, i);
      var k := if v.Some? && v.value < i then i - 1 else i;
      assert r.queue[k] == s.queue[i] && r.origins[k] == s.origins[i];
    }
  }

  // ---------------------------------------------------------------- liveness

  /** Pings sent since the last pong of a run (counting what was already missed before it). */
  function Unanswered(missed: nat, ops: seq<Op>): nat {
    if ops == [] then missed
    else
      var front, last := ops[..|ops| - 1], ops[|ops| - 1];
      if last.PongOp? then 0 else Unanswered(missed, front) + (if last.PingOp? then 1 else 0)
  }

  /** With room for one, a queued event that is neither chat message nor delta gives way to a new one of either kind. */
  lemma GivesWay(s: SessionState, x: Event, e: Event, now: int)
    requires s.Valid() && s.queue == [x] && !x.Chat? && !x.Delta? && !e.Delta? && !IsDuplicate(s, e)
    ensures var r := Offer(s, 1, e, None, now); r.queue == [e] && r.wire == s.wire && r.seen == MarkSeen(s, e).seen
  {
    assert FirstWhere([x], IsDelta) == 1 && FirstWhere([x], NotChat) == 0;
    assert RemoveAt([x], 0) == [] && [] + [e] == [e];
  }

  lemma OneThenDelta(u: ChannelUpdate, now: int)
    ensures var s := Offer(Offer(NEW_SESSION, 1, Other("x"), None, now), 1, Delta(u), None, now);
            && s.queue == [Other("x")] && s.wire == [] && s.seen == {}
            && TakeNotice(s) == Some(BackpressureNotice(1, now))
  {
    assert [] + [Other("x")] == [Other("x")];
    assert FirstWhere([Other("x")], IsDelta) == 1;
  }

  /** A new session with room for one: a drop is announced, and the notice is evicted before anyone sees it. */
  lemma NoticeIsEvicted(u: ChannelUpdate, m: ChatMessage, now: int)
    ensures var two := [Enqueue(Other("x"), None, now), Enqueue(Delta(u), None, now)];
            var notice := BackpressureNotice(1, now);
            var three := two + [Enqueue(notice, None, now)];
            var four := three + [Enqueue(Chat(m), None, now)];
            && TakeNotice(Run(NEW_SESSION, 1, two)) == Some(notice)
            && Run(NEW_SESSION, 1, three).queue == [notice]
            && Run(NEW_SESSION, 1, four).queue == [Chat(m)] && Run(NEW_SESSION, 1, four).wire == []
  {
    var one := [Enqueue(Other("x"), None, now)];
    var two := [Enqueue(Other("x"), None, now), Enqueue(Delta(u), None, now)];
    var notice := BackpressureNotice(1, now);
    var three := two + [Enqueue(notice, None, now)];
    var four := three + [Enqueue(Chat(m), None, now)];
    hide Offer;
    assert one[..0] == [] && two[..1] == one && three[..2] == two && four[..3] == three;
    assert Run(NEW_SESSION, 1, one) == Offer(NEW_SESSION, 1, Other("x"), None, now);
    OneThenDelta(u, now);
    GivesWay(Run(NEW_SESSION, 1, two), Other("x"), notice, now);
    GivesWay(Run(NEW_SESSION, 1, three), notice, Chat(m), now);
  }

  /** At some moment of the run more than two pings stood unanswered. */
  ghost predicate EverOverdue(ops: seq<Op>) {
    exists k :: 0 <= k <= |ops| && Unanswered(0, ops[..k]) > 2
  }

  lemma EverOverdueSnoc(ops: seq<Op>, op: Op)
    ensures EverOverdue(ops + [op]) <==> EverOverdue(ops) || Unanswered(0, ops + [op]) > 2
  {
    var all := ops + [op];
    assert all[..|all|] == all;
    forall k | 0 <= k <= |ops| ensures all[..k] == ops[..k] { }
    if EverOverdue(ops) {
      var k :| 0 <= k <= |ops| && Unanswered(0, ops[..k]) > 2;
      assert Unanswered(0, all[..k]) > 2;
    }
  }

  /** A session is dead exactly when it was ever overdue: a late pong resets the counter but revives nothing. */
  lemma {:induction false} DeadIff(cap: nat, ops: seq<Op>)
    ensures Run(NEW_SESSION, cap, ops).missed == Unanswered(0, ops)
    ensures !Run(NEW_SESSION, cap, ops).alive <==> EverOverdue(ops)
  {
    if ops == [] {
      assert forall k :: 0 <= k <= |ops| ==> ops[..k] == [];
    } else {
      var front, last := ops[..|ops| - 1], ops[|ops| - 1];
      DeadIff(cap, front);
      assert ops == front + [last];
      EverOverdueSnoc(front, last);
      StepLiveness(Run(NEW_SESSION, cap, front), cap, last);
    }
  }

  lemma StepLiveness(s: SessionState, cap: nat, op: Op)
    requires s.Valid()
    ensures Step(s, cap, op).missed == if op.PongOp? then 0 else s.missed + (if op.PingOp? then 1 else 0)
    ensures Step(s, cap, op).alive <==> s.alive && !(op.PingOp? && s.missed + 1 > 2)
  {
    if op.Enqueue? { OfferShape(s, cap, op.event, op.origin, op.now); }
  }

  // ---------------------------------------------------------------- the object

  class Session {
    const id: string
    const maxQueue: nat
    var queue: seq<Event>
    var origins: seq<Option<string>>
    var seen: set<string>
    var dropped: nat
    var dropSince: Option<int>
    var missed: nat
    var alive: bool
    var wire: seq<Frame>

    ghost function State(): SessionState
      reads this
    {
      SessionState(queue, origins, seen, dropped, dropSince, missed, alive, wire)
    }

    constructor (id: string, maxQueue: nat)
      ensures State() == NEW_SESSION && this.id == id && this.maxQueue == maxQueue
    {
      this.id, this.maxQueue := id, maxQueue;
      queue, origins, seen, dropped, dropSince := [], [], {}, 0, None;
      missed, alive, wire := 0, true, [];
    }

    method IsDuplicateEvent(e: Event) returns (dup: bool)
      modifies this`seen
      ensures dup == old(IsDuplicate(State(), e))
      ensures State() == if dup then old(State()) else old(MarkSeen(State(), e))
    {
      dup := false;
      if e.Chat? {
        if e.msg.messageId in seen {
          return true;
        }
        seen := seen + {e.msg.messageId};
      }
    }

    method Append(e: Event, origin: Option<string>)
      modifies this`queue, this`origins
      ensures State() == old(Admit(State(), e, origin))
    {
      queue := queue + [e];
      origins := origins + [origin];
    }

    method PopAndNote(i: nat, now: int)
      requires State().Valid() && i < |queue|
      modifies this`queue, this`origins, this`dropped, this`dropSince
      ensures State() == old(Evict(State(), i, now))
    {
      queue := RemoveAt(queue, i);
      origins := RemoveAt(origins, i);
      NoteDropped(now);
    }

    method NoteDropped(now: int)
      modifies this`dropped, this`dropSince
      ensures State() == old(NoteDrop(State(), now))
    {
      dropped := dropped + 1;
      if dropSince.None? {
        dropSince := Some(now);
      }
    }

    method EnqueueEvent(e: Event, origin: Option<string>, now: int) returns (ok: bool)
      requires State().Valid()
      modifies this
      ensures State() == old(Offer(State(), maxQueue, e, origin, now))
      ensures ok == old(Accepts(State(), maxQueue, e))
    {
      var dup := IsDuplicateEvent(e);
      if dup {
        return false;
      }
      if |queue| < maxQueue {
        Append(e, origin);
        return true;
      }
      var idx := FirstWhere(queue, IsDelta);
      if idx < |queue| {
        PopAndNote(idx, now);
        Append(e, origin);
        return true;
      }
      if e.Delta? {
        NoteDropped(now);
        return false;
      }
      var other := FirstWhere(queue, NotChat);
      if other < |queue| {
        PopAndNote(other, now);
      }
      Append(e, origin);
      return true;
    }

    method TakeBackpressureNotice() returns (notice: Option<Event>)
      ensures notice == TakeNotice(State())
    {
      if dropped > 0 && dropSince.Some? {
        notice := Some(BackpressureNotice(dropped, dropSince.value));
      } else {
        notice := None;
      }
    }

    /** The wire receives the queue, in order, each event with its own origin. */
    method FlushQueue() returns (sent: seq<Event>)
      requires State().Valid()
      modifies this`queue, this`origins, this`wire
      ensures State() == old(Flush(State()))
      ensures sent == old(queue)
    {
      sent := queue;
      var tags := origins;
      queue, origins := [], [];
      ghost var before := wire;
      for k := 0 to |sent|
        invariant wire == before + Frames(sent, tags)[..k]
        invariant queue == [] && origins == []
      {
        assert Frames(sent, tags)[..k + 1] == Frames(sent, tags)[..k] + [Fanout(sent[k], tags[k])];
        wire := wire + [Fanout(sent[k], tags[k])];
      }
      assert Frames(sent, tags)[..|sent|] == Frames(sent, tags);
    }

    method SendNow(e: Event)
      modifies this`wire
      ensures State() == old(SendDirect(State(), e))
    {
      wire := wire + [Direct(e)];
    }

    method PingSent()
      modifies this`missed, this`alive
      ensures State() == old(OnPingSent(State()))
    {
      missed := missed + 1;
      if missed > MAX_MISSED_PINGS {
        alive := false;
      }
    }

    method PongReceived()
      modifies this`missed
      ensures State() == old(OnPong(State()))
    {
      missed := 0;
    }
  }
}
