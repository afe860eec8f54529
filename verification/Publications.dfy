/** What a publication does to each subscriber, and what a whole run of the bus puts on each wire. */
module Publications {
  import opened Common
  import opened Events
  import opened Sessions
  import opened ReplayBuffers
  import opened ChatBuses

  type Tagged = (Event, Option<string>)

  // ---------------------------------------------------------------- entering a queue

  /** Position `i` holds what a full queue gives up: its oldest delta, without one its oldest non-chat event. */
  ghost predicate GivenUp(q: seq<Tagged>, i: nat) {
    && i < |q| && !q[i].0.Chat?
    && (forall j :: 0 <= j < i ==> !q[j].0.Delta?)
    && (q[i].0.Delta? || ((forall j :: 0 <= j < |q| ==> !q[j].0.Delta?) && forall j :: 0 <= j < i ==> q[j].0.Chat?))
  }

  /** `r` is the queue `q` after `p` has come to it with room for `cap`, at the price of `lost` events. */
  ghost predicate Pushed(q: seq<Tagged>, cap: nat, p: Tagged, r: seq<Tagged>, lost: int) {
    if |q| < cap then r == q + [p] && lost == 0
    else if exists i :: 0 <= i < |q| && (if p.0.Delta? then q[i].0.Delta? else !q[i].0.Chat?) then
      lost == 1 && exists i :: GivenUp(q, i) && r == RemoveAt(q, i) + [p]
    else if p.0.Delta? then r == q && lost == 1
    else r == q + [p] && lost == 0
  }

  /** `r` is the session `s` after it was handed the event `e` from `origin`; nothing has reached the wire. */
  ghost predicate Took(s: SessionState, cap: nat, e: Event, origin: Option<string>, now: int, r: SessionState) {
    && s.Valid() && r.Valid()
    && r.wire == s.wire && r.missed == s.missed && r.alive == s.alive
    && if e.Chat? && e.msg.messageId in s.seen then r == s
       else
         && r.seen == s.seen + (if e.Chat? then {e.msg.messageId} else {})
         && Pushed(Queued(s), cap, (e, origin), Queued(r), r.dropped - s.dropped)
         && r.dropSince == if r.dropped > s.dropped && s.dropSince.None? then Some(now) else s.dropSince
  }

  lemma FirstWhereIff(q: seq<Event>, p: Event -> bool)
    ensures FirstWhere(q, p) < |q| <==> exists i :: 0 <= i < |q| && p(q[i])
  {
  }

  lemma VictimIsGivenUp(s: SessionState, cap: nat, e: Event)
    requires s.Valid() && !IsDuplicate(s, e) && |s.queue| >= cap
    ensures var q, v := Queued(s), Victim(s, cap, e);
            && (v.Some? <==> exists i :: 0 <= i < |q| && (if e.Delta? then q[i].0.Delta? else !q[i].0.Chat?))
            && (v.Some? ==> GivenUp(q, v.value))
            && (Accepts(s, cap, e) <==> v.Some? || !e.Delta?)
  {
    var q, v := Queued(s), Victim(s, cap, e);
    var delta, other := FirstWhere(s.queue, IsDelta), FirstWhere(s.queue, NotChat);
    forall j | 0 <= j < |q|
      ensures q[j].0 == s.queue[j] && (j < delta ==> !q[j].0.Delta?) && (j < other ==> q[j].0.Chat?)
    {
      assert j < delta ==> !IsDelta(s.queue[j]);
      assert j < other ==> !NotChat(s.queue[j]);
    }
    if delta < |q| {
      assert IsDelta(s.queue[delta]);
      assert q[delta].0.Delta? && !q[delta].0.Chat?;
    } else if other < |q| {
      assert NotChat(s.queue[other]);
      assert !q[other].0.Chat?;
    }
  }

  lemma OfferPushes(s: SessionState, cap: nat, e: Event, origin: Option<string>, now: int)
    requires s.Valid() && !IsDuplicate(s, e)
    ensures var r := Offer(s, cap, e, origin, now);
            Pushed(Queued(s), cap, (e, origin), Queued(r), r.dropped - s.dropped)
  {
    hide Offer;
    hide GivenUp;
    hide Queued;
    OfferShape(s, cap, e, origin, now);
    var r, v, m := Offer(s, cap, e, origin, now), Victim(s, cap, e), MarkSeen(s, e);
    SameQueue(s, m);
    if |s.queue| < cap {
      QueuedAdmit(m, e, origin);
    } else {
      VictimIsGivenUp(s, cap, e);
      if v.Some? {
        QueuedEvict(m, v.value, now);
        QueuedAdmit(Evict(m, v.value, now), e, origin);
      } else if e.Delta? {
        SameQueue(s, r);
      } else {
        QueuedAdmit(m, e, origin);
      }
    }
  }

  lemma SameQueue(s: SessionState, r: SessionState)
    requires s.Valid() && r.Valid() && r.queue == s.queue && r.origins == s.origins
    ensures Queued(r) == Queued(s)
  {
  }

  lemma OfferFrame(s: SessionState, cap: nat, e: Event, origin: Option<string>, now: int)
    requires s.Valid() && !IsDuplicate(s, e)
    ensures var r := Offer(s, cap, e, origin, now);
            && r.wire == s.wire && r.missed == s.missed && r.alive == s.alive
            && r.seen == s.seen + (if e.Chat? then {e.msg.messageId} else {})
            && r.dropSince == if r.dropped > s.dropped && s.dropSince.None? then Some(now) else s.dropSince
  {
    hide Offer;
    hide FirstWhere;
    hide RemoveAt;
    OfferShape(s, cap, e, origin, now);
  }

  lemma OfferTakes(s: SessionState, cap: nat, e: Event, origin: Option<string>, now: int)
    requires s.Valid()
    ensures Took(s, cap, e, origin, now, Offer(s, cap, e, origin, now))
  {
    if !IsDuplicate(s, e) {
      OfferPushes(s, cap, e, origin, now);
      OfferFrame(s, cap, e, origin, now);
      hide Offer;
      hide Pushed;
      hide Queued;
    }
  }

  // ---------------------------------------------------------------- one publication

  /** Everything `u` queues has reached the wire in order, each event with its origin; nothing else changed. */
  ghost predicate AllSent(u: SessionState, r: SessionState) {
    && u.Valid() && r.queue == [] && r.origins == []
    && |r.wire| == |u.wire| + |u.queue| && u.wire <= r.wire
    && (forall k :: 0 <= k < |u.queue| ==> r.wire[|u.wire| + k] == Fanout(u.queue[k], u.origins[k]))
    && r == u.(queue := r.queue, origins := r.origins, wire := r.wire)
  }

  /**
   * What a session goes through when an event is published to it: it takes the event; if it has ever
   * dropped anything it takes, behind it and without an origin, a notice with the total and the time
   * of the first drop; with `flush` all it queues then goes on the wire, without it nothing does.
   */
  ghost predicate Serves(
      s: SessionState, cap: nat, e: Event, origin: Option<string>, flush: bool, now: int, r: SessionState)
  {
    exists mid: SessionState, end: SessionState :: ServesBy(s, cap, e, origin, flush, now, mid, end, r)
  }

  ghost predicate ServesBy(
      s: SessionState, cap: nat, e: Event, origin: Option<string>, flush: bool, now: int,
      mid: SessionState, end: SessionState, r: SessionState)
  {
    && Took(s, cap, e, origin, now, mid)
    && (if mid.dropped > 0 && mid.dropSince.Some? then
          Took(mid, cap, BackpressureNotice(mid.dropped, mid.dropSince.value), None, now, end)
        else end == mid)
    && (if flush then AllSent(end, r) else r == end)
  }

  lemma FlushSendsAll(u: SessionState)
    requires u.Valid()
    ensures AllSent(u, Flush(u))
  {
  }

  lemma DeliveredServes(m: Member, e: Event, origin: Option<string>, flush: bool, now: int)
    requires m.Valid()
    ensures var r := Delivered(m, e, origin, flush, now);
            r.cap == m.cap && Serves(m.s, m.cap, e, origin, flush, now, r.s)
  {
    hide Took;
    hide AllSent;
    hide Flush;
    hide Offer;
    var mid := Offer(m.s, m.cap, e, origin, now);
    OfferTakes(m.s, m.cap, e, origin, now);
    var end := mid;
    if mid.dropped > 0 && mid.dropSince.Some? {
      end := Offer(mid, m.cap, BackpressureNotice(mid.dropped, mid.dropSince.value), None, now);
      OfferTakes(mid, m.cap, BackpressureNotice(mid.dropped, mid.dropSince.value), None, now);
    }
    FlushSendsAll(end);
    assert ServesBy(m.s, m.cap, e, origin, flush, now, mid, end, Delivered(m, e, origin, flush, now).s);
  }

  /** A publication serves every subscriber but the excluded one, which it leaves as it was. */
  lemma PublicationServes(
      b: BusState, e: Event, origin: Option<string>, exclude: Option<string>, flush: bool, now: int, id: string)
    requires b.Valid() && id in b.sessions
    ensures var m, r := b.sessions[id], Published(b, e, origin, exclude, flush, now).sessions[id];
            if exclude == Some(id) then r == m
            else r.cap == m.cap && Serves(m.s, m.cap, e, origin, flush, now, r.s)
  {
    hide Serves;
    hide Delivered;
    hide Recorded;
    if exclude != Some(id) { DeliveredServes(b.sessions[id], e, origin, flush, now); }
  }

  /** With a flush nothing stays queued and all that is outgoing is on the wire; without one the wire waits. */
  lemma ServedIsSentIff(
      s: SessionState, cap: nat, e: Event, origin: Option<string>, flush: bool, now: int, r: SessionState)
    requires Serves(s, cap, e, origin, flush, now, r)
    ensures r.Valid() && s.wire <= r.wire
    ensures if flush then r.queue == [] && Outgoing(r) == Flushed(r.wire) else r.wire == s.wire
  {
    hide Flushed;
    hide Pushed;
    var mid: SessionState, end: SessionState :| ServesBy(s, cap, e, origin, flush, now, mid, end, r);
    if flush { assert Queued(r) == []; }
  }

  lemma PushedEndsWith(q: seq<Tagged>, cap: nat, p: Tagged, r: seq<Tagged>, lost: int)
    requires Pushed(q, cap, p, r, lost) && !p.0.Delta?
    ensures r != [] && r[|r| - 1] == p && 0 <= lost <= 1
  {
  }

  /**
   * The notice is the last thing to leave exactly when anything was ever dropped. It carries the total
   * before its own arrival, which may itself have cost one more event.
   */
  lemma NoticeComesLastIff(
      s: SessionState, cap: nat, e: Event, origin: Option<string>, flush: bool, now: int, r: SessionState)
    requires Serves(s, cap, e, origin, flush, now, r) && (s.dropSince.Some? <==> s.dropped > 0)
    ensures r.Valid() && (r.dropSince.Some? <==> r.dropped > 0)
    ensures r.dropped > 0 ==>
              exists total: nat ::
                && total <= r.dropped <= total + 1 && |Outgoing(r)| > 0
                && Outgoing(r)[|Outgoing(r)| - 1] == (BackpressureNotice(total, r.dropSince.value), None)
    ensures r.dropped == 0 && !(e.Chat? && e.msg.messageId in s.seen) ==>
              |Outgoing(r)| > 0 && Outgoing(r)[|Outgoing(r)| - 1] == (e, origin)
  {
    hide Pushed;
    hide Flushed;
    var mid: SessionState, end: SessionState :| ServesBy(s, cap, e, origin, flush, now, mid, end, r);
    TookDrops(s, cap, e, origin, now, mid);
    if mid.dropped > 0 {
      var notice := BackpressureNotice(mid.dropped, mid.dropSince.value);
      TookDrops(mid, cap, notice, None, now, end);
      PushedEndsWith(Queued(mid), cap, (notice, None), Queued(end), end.dropped - mid.dropped);
      SentEndsWith(end, r, flush);
      assert mid.dropped <= r.dropped <= mid.dropped + 1;
    } else if !(e.Chat? && e.msg.messageId in s.seen) {
      TookWithoutLoss(s, cap, e, origin, now, mid);
      SentEndsWith(end, r, flush);
    }
  }

  lemma TookDrops(s: SessionState, cap: nat, e: Event, origin: Option<string>, now: int, r: SessionState)
    requires Took(s, cap, e, origin, now, r) && (s.dropSince.Some? <==> s.dropped > 0)
    ensures s.dropped <= r.dropped <= s.dropped + 1 && (r.dropSince.Some? <==> r.dropped > 0)
    ensures s.dropSince.Some? ==> r.dropSince == s.dropSince
  {
  }

  lemma TookWithoutLoss(s: SessionState, cap: nat, e: Event, origin: Option<string>, now: int, r: SessionState)
    requires Took(s, cap, e, origin, now, r) && r.dropped == s.dropped && !(e.Chat? && e.msg.messageId in s.seen)
    ensures Queued(r) == Queued(s) + [(e, origin)]
  {
  }

  lemma SentEndsWith(u: SessionState, r: SessionState, flush: bool)
    requires u.Valid() && u.queue != [] && if flush then AllSent(u, r) else r == u
    ensures r.Valid() && |Outgoing(r)| > 0 && Outgoing(r)[|Outgoing(r)| - 1] == Queued(u)[|u.queue| - 1]
  {
    if flush {
      var last := r.wire[|u.wire| + (|u.queue| - 1)];
      assert last == Fanout(u.queue[|u.queue| - 1], u.origins[|u.queue| - 1]);
      assert Queued(r) == [];
    }
  }

  // ---------------------------------------------------------------- several at once

  /** Publishing many without a flush leaves every wire as it was; with one, all that waits goes out at the end. */
  lemma ManyWaitForOneFlush(b: BusState, es: seq<Event>, origin: Option<string>, now: int, id: string)
    requires b.Valid() && id in b.sessions
    ensures var waiting := PublishedMany(b, es, origin, false, now).sessions[id].s;
            && waiting.wire == b.sessions[id].s.wire
            && AllSent(waiting, PublishedMany(b, es, origin, true, now).sessions[id].s)
  {
    WiresWait(b, es, origin, now, id);
    FlushSendsAll(PublishedAll(b, es, origin, now).sessions[id].s);
    hide PublishedAll;
    hide AllSent;
    hide Flush;
  }

  lemma {:induction false} WiresWait(b: BusState, es: seq<Event>, origin: Option<string>, now: int, id: string)
    requires b.Valid() && id in b.sessions
    ensures PublishedAll(b, es, origin, now).sessions[id].s.wire == b.sessions[id].s.wire
  {
    hide Published;
    hide Serves;
    if es != [] {
      var front, last := es[..|es| - 1], es[|es| - 1];
      var mid := PublishedAll(b, front, origin, now);
      WiresWait(b, front, origin, now, id);
      PublicationServes(mid, last, origin, None, false, now, id);
      ServedIsSentIff(mid.sessions[id].s, mid.sessions[id].cap, last, origin, false, now,
                      Published(mid, last, origin, None, false, now).sessions[id].s);
    }
  }

  // ---------------------------------------------------------------- runs that flush

  predicate FlushesAtOnce(op: BusOp) {
    (op.Publish? ==> op.flush) && (op.PublishMany? ==> op.flush)
  }

  ghost predicate NothingWaits(b: BusState) {
    b.Valid() && forall id :: id in b.sessions ==> b.sessions[id].s.queue == []
  }

  lemma FlushingLeavesNothing(b: BusState, e: Event, origin: Option<string>, exclude: Option<string>, now: int)
    requires b.Valid()
    requires forall id :: id in b.sessions && exclude == Some(id) ==> b.sessions[id].s.queue == []
    ensures NothingWaits(Published(b, e, origin, exclude, true, now))
  {
    hide Published;
    hide Serves;
    var r := Published(b, e, origin, exclude, true, now);
    forall id | id in r.sessions ensures r.sessions[id].s.queue == [] {
      PublicationServes(b, e, origin, exclude, true, now, id);
      if exclude != Some(id) {
        ServedIsSentIff(b.sessions[id].s, b.sessions[id].cap, e, origin, true, now, r.sessions[id].s);
      }
    }
  }

  lemma LeavingLeavesNothing(b: BusState, who: string, client: Option<string>, now: int)
    requires NothingWaits(b)
    ensures NothingWaits(Unsubscribed(b, who, client, now))
  {
    hide Published;
    if who in b.sessions {
      var name := OrElse(client, OrElse(Lookup(b.clients, who), DEFAULT_CLIENT));
      FlushingLeavesNothing(b, Presence(who, name, false), Some(who), Some(who), now);
    }
  }

  lemma {:induction false} ReapingLeavesNothing(b: BusState, dead: seq<string>, now: int)
    requires NothingWaits(b)
    ensures NothingWaits(ReapedAll(b, dead, now))
  {
    hide Unsubscribed;
    if dead != [] {
      ReapingLeavesNothing(b, dead[..|dead| - 1], now);
      LeavingLeavesNothing(ReapedAll(b, dead[..|dead| - 1], now), dead[|dead| - 1], None, now);
    }
  }

  lemma {:induction false} SentAllKeepsQueue(s: SessionState, es: seq<Event>)
    ensures SentAll(s, es).queue == s.queue
  {
  }

  lemma StepLeavesNothing(b: BusState, op: BusOp)
    requires NothingWaits(b) && FlushesAtOnce(op)
    ensures NothingWaits(StepBus(b, op))
  {
    hide Published;
    hide Unsubscribed;
    hide ReapedAll;
    hide PublishedAll;
    hide ReplayEvents;
    hide SentAll;
    match op
    case Subscribe(who, cap, client, now) =>
      var name := OrElse(client, DEFAULT_CLIENT);
      var with := b.(sessions := b.sessions[who := Member(cap, NEW_SESSION)], clients := b.clients[who := name]);
      FlushingLeavesNothing(with, Presence(who, name, true), Some(who), Some(who), now);
    case Unsubscribe(who, client, now) => LeavingLeavesNothing(b, who, client, now);
    case Publish(e, origin, exclude, _, now) => FlushingLeavesNothing(b, e, origin, exclude, now);
    case Replay(who, checkpoint, now) =>
      if who in b.sessions { SentAllKeepsQueue(b.sessions[who].s, ReplayEvents(b, checkpoint, now)); }
    case Reap(dead, now) => ReapingLeavesNothing(b, dead, now);
    case _ =>
  }

  lemma {:induction false} NothingEverWaits(ops: seq<BusOp>)
    requires forall k :: 0 <= k < |ops| ==> FlushesAtOnce(ops[k])
    ensures NothingWaits(RunBus(ops))
  {
    if ops != [] {
      NothingEverWaits(ops[..|ops| - 1]);
      StepLeavesNothing(RunBus(ops[..|ops| - 1]), ops[|ops| - 1]);
    }
  }

  /**
   * When every publication of a run flushes, as the default does, no session ever keeps anything back:
   * each has on its wire the first occurrence of every chat message published to it, in order.
   */
  lemma FlushedRunsDeliver(ops: seq<BusOp>, id: string)
    requires id in RunBus(ops).sessions && forall k :: 0 <= k < |ops| ==> FlushesAtOnce(ops[k])
    ensures var s := RunBus(ops).sessions[id].s;
            s.queue == [] && ChatsOf(Flushed(s.wire)) == FirstSeen({}, Heard(ops, id))
  {
    NothingEverWaits(ops);
    FanOutLosesNoChat(ops, id);
    var s := RunBus(ops).sessions[id].s;
    assert Queued(s) == [];
    assert Outgoing(s) == Flushed(s.wire);
  }

  // ---------------------------------------------------------------- what is on each wire

  /** The outgoing pairs without the notices. */
  function Unnoticed(ps: seq<Tagged>): seq<Tagged> {
    if ps == [] then []
    else
      var last := ps[|ps| - 1];
      Unnoticed(ps[..|ps| - 1]) + (if last.0.BackpressureNotice? then [] else [last])
  }

  lemma {:induction false} UnnoticedConcat(a: seq<Tagged>, b: seq<Tagged>)
    ensures Unnoticed(a + b) == Unnoticed(a) + Unnoticed(b)
  {
    if b == [] {
      assert a + b == a;
    } else {
      var c := a + b;
      assert c[..|c| - 1] == a + b[..|b| - 1];
      UnnoticedConcat(a, b[..|b| - 1]);
    }
  }

  lemma {:induction false} EssenceIsUnnoticed(ops: seq<Op>)
    ensures Offered(Essence(ops)) == Unnoticed(Offered(ops))
  {
    if ops != [] {
      var front, last := ops[..|ops| - 1], ops[|ops| - 1];
      EssenceIsUnnoticed(front);
      assert ops == front + [last];
      OfferedSnoc(front, last);
      UnnoticedConcat(Offered(front), OfferedBy(last));
      if Essential(last) {
        OfferedSnoc(Essence(front), last);
      } else {
        assert Essence(ops) == Essence(front);
      }
      if last.Enqueue? {
        assert OfferedBy(last)[..0] == [];
      }
    }
  }

  /** A subsequence of a list that ends in `y` either lies in the rest of it or ends in `y` too. */
  lemma SubsequenceSplit(a: seq<Tagged>, b: seq<Tagged>, y: Tagged)
    requires Subsequence(a, b + [y])
    ensures Subsequence(a, b) || (a != [] && a[|a| - 1] == y && Subsequence(a[..|a| - 1], b))
  {
    var at: seq<nat> :| Embeds(at, a, b + [y]);
    if a != [] && at[|a| - 1] == |b| {
      assert Embeds(at[..|a| - 1], a[..|a| - 1], b);
    } else {
      forall i | 0 <= i < |at| ensures at[i] < |b| { }
      assert Embeds(at, a, b);
    }
  }

  lemma {:induction false} UnnoticedSubsequence(a: seq<Tagged>, b: seq<Tagged>)
    requires Subsequence(a, b)
    ensures Subsequence(Unnoticed(a), Unnoticed(b))
  {
    hide Subsequence;
    if b == [] {
      SubsequenceIsShorter(a, b);
      SubsequenceReflexive<Tagged>([]);
    } else {
      var front, y := b[..|b| - 1], b[|b| - 1];
      assert b == front + [y];
      SubsequenceSplit(a, front, y);
      if Subsequence(a, front) {
        UnnoticedSubsequence(a, front);
        SubsequenceExtend(Unnoticed(a), Unnoticed(front), if y.0.BackpressureNotice? then [] else [y]);
      } else {
        UnnoticedSubsequence(a[..|a| - 1], front);
        if y.0.BackpressureNotice? {
          assert Unnoticed(a) == Unnoticed(a[..|a| - 1]) && Unnoticed(b) == Unnoticed(front);
        } else {
          SubsequenceAppend(Unnoticed(a[..|a| - 1]), Unnoticed(front), y);
        }
      }
    }
  }

  /** The pairs that do not repeat a chat message seen earlier among them. */
  function Firsts(ps: seq<Tagged>): seq<Tagged> {
    if ps == [] then []
    else
      var front, last := ps[..|ps| - 1], ps[|ps| - 1];
      Firsts(front)
      + (if last.0.Chat? && last.0.msg.messageId in Ids(ChatsOf(front)) then [] else [last])
  }

  lemma FirstsSnoc(ps: seq<Tagged>, p: Tagged)
    ensures Firsts(ps + [p]) ==
              Firsts(ps) + (if p.0.Chat? && p.0.msg.messageId in Ids(ChatsOf(ps)) then [] else [p])
  {
    assert (ps + [p])[..|ps|] == ps;
  }

  lemma UnnoticedSnoc(ps: seq<Tagged>, p: Tagged)
    ensures Unnoticed(ps + [p]) == Unnoticed(ps) + (if p.0.BackpressureNotice? then [] else [p])
  {
    assert (ps + [p])[..|ps|] == ps;
  }

  lemma {:induction false} UnnoticedChats(ps: seq<Tagged>)
    ensures ChatsOf(Unnoticed(ps)) == ChatsOf(ps)
  {
    if ps != [] {
      var front, last := ps[..|ps| - 1], ps[|ps| - 1];
      UnnoticedChats(front);
      assert ps == front + [last];
      UnnoticedSnoc(front, last);
      ChatsOfParts(front, [last]);
      ChatsOfParts(Unnoticed(front), [last]);
      ChatsOfOne(last.0, last.1);
      assert ChatsOf(front) + [] == ChatsOf(front) && Unnoticed(front) + [] == Unnoticed(front);
      hide ChatsOf;
      hide Unnoticed;
    }
  }

  lemma {:induction false} FirstsUnnoticed(ps: seq<Tagged>)
    ensures Firsts(Unnoticed(ps)) == Unnoticed(Firsts(ps))
  {
    if ps != [] {
      hide ChatsOf;
      hide Unnoticed;
      hide Firsts;
      hide Ids;
      var front, last := ps[..|ps| - 1], ps[|ps| - 1];
      FirstsUnnoticed(front);
      UnnoticedChats(front);
      assert ps == front + [last];
      UnnoticedSnoc(front, last);
      FirstsSnoc(front, last);
      if last.0.BackpressureNotice? {
        UnnoticedSnoc(Firsts(front), last);
        assert Unnoticed(ps) == Unnoticed(front) && Unnoticed(Firsts(ps)) == Unnoticed(Firsts(front));
      } else {
        FirstsSnoc(Unnoticed(front), last);
        if last.0.Chat? && last.0.msg.messageId in Ids(ChatsOf(front)) {
          assert Firsts(ps) == Firsts(front) && Firsts(Unnoticed(ps)) == Firsts(Unnoticed(front));
        } else {
          UnnoticedSnoc(Firsts(front), last);
        }
      }
    }
  }

  /** An operation that drops nothing leaves everything outgoing and adds what is new. */
  lemma StepWithoutLoss(s: SessionState, cap: nat, op: Op)
    requires s.Valid() && Step(s, cap, op).dropped == 0
    ensures s.dropped == 0
    ensures Outgoing(Step(s, cap, op)) == Outgoing(s) +
              (if op.Enqueue? && !(op.event.Chat? && op.event.msg.messageId in s.seen) then OfferedBy(op) else [])
  {
    hide Step;
    hide Outgoing;
    var gone := StepOutgoing(s, cap, op);
    if op.Enqueue? { NewOrRepeat(s, cap, op); }
  }

  lemma NewOrRepeat(s: SessionState, cap: nat, op: Op)
    requires s.Valid() && op.Enqueue?
    ensures IsDuplicate(s, op.event) <==> op.event.Chat? && op.event.msg.messageId in s.seen
    ensures Accepts(s, cap, op.event) ==> !IsDuplicate(s, op.event)
  {
  }

  lemma SeenOffered(cap: nat, ops: seq<Op>)
    ensures Run(NEW_SESSION, cap, ops).seen == Ids(ChatsOf(Offered(ops)))
  {
    ChatsAreNeverLost(NEW_SESSION, cap, ops);
  }

  /** As long as nothing is dropped, what is outgoing is exactly the first occurrences of what was offered. */
  lemma {:induction false} NothingDroppedNothingMissing(cap: nat, ops: seq<Op>)
    requires Run(NEW_SESSION, cap, ops).dropped == 0
    ensures Outgoing(Run(NEW_SESSION, cap, ops)) == Firsts(Offered(ops))
  {
    if ops == [] {
      assert Outgoing(NEW_SESSION) == [];
    } else {
      hide Step;
      hide Firsts;
      hide ChatsOf;
      hide Ids;
      hide Outgoing;
      var front, last := ops[..|ops| - 1], ops[|ops| - 1];
      var s := Run(NEW_SESSION, cap, front);
      StepWithoutLoss(s, cap, last);
      NothingDroppedNothingMissing(cap, front);
      SeenOffered(cap, front);
      if last.Enqueue? {
        FirstsSnoc(Offered(front), (last.event, last.origin));
      } else {
        assert Outgoing(s) + [] == Outgoing(s) && Offered(front) + [] == Offered(front);
      }
    }
  }

  lemma SessionFrames(cap: nat, ops: seq<Op>)
    ensures var r := Run(NEW_SESSION, cap, ops);
            && Subsequence(Unnoticed(Outgoing(r)), Unnoticed(Offered(ops)))
            && (r.dropped == 0 ==> Unnoticed(Outgoing(r)) == Firsts(Unnoticed(Offered(ops))))
  {
    hide Subsequence;
    OriginsStayAttached(NEW_SESSION, cap, ops);
    assert Outgoing(NEW_SESSION) + Offered(ops) == Offered(ops);
    var r := Run(NEW_SESSION, cap, ops);
    UnnoticedSubsequence(Outgoing(r), Offered(ops));
    if r.dropped == 0 {
      NothingDroppedNothingMissing(cap, ops);
      FirstsUnnoticed(Offered(ops));
    }
  }

  /**
   * After any run of the bus, what fan-out sent and still holds for a session, the notices aside, are
   * events published or announced to it since it subscribed, in that order and each with the origin of
   * its publication; and they are all of them, repeated chats aside, unless something was dropped.
   */
  lemma FramesCarryOrigins(ops: seq<BusOp>, id: string)
    requires id in RunBus(ops).sessions
    ensures var s := RunBus(ops).sessions[id].s;
            && Subsequence(Unnoticed(Outgoing(s)), Offered(Calls(ops, id)))
            && (s.dropped == 0 ==> Unnoticed(Outgoing(s)) == Firsts(Offered(Calls(ops, id))))
  {
    hide Subsequence;
    hide Calls;
    var m := RunBus(ops).sessions[id];
    EverySessionRunsAlone(ops, id);
    var sops: seq<Op> :| ReachesBy(Member(m.cap, NEW_SESSION), m, Calls(ops, id), sops);
    EssenceIsUnnoticed(sops);
    SessionFrames(m.cap, sops);
  }

  // ---------------------------------------------------------------- direct frames and liveness

  /** What reached the wire past the queue, in order. */
  function Directs(wire: seq<Frame>): seq<Event> {
    if wire == [] then []
    else Directs(wire[..|wire| - 1]) + (if wire[|wire| - 1].Direct? then [wire[|wire| - 1].event] else [])
  }

  function Sent(ops: seq<Op>): seq<Event> {
    if ops == [] then []
    else Sent(ops[..|ops| - 1]) + (if ops[|ops| - 1].Send? then [ops[|ops| - 1].event] else [])
  }

  lemma {:induction false} DirectsConcat(a: seq<Frame>, b: seq<Frame>)
    ensures Directs(a + b) == Directs(a) + Directs(b)
  {
    if b == [] {
      assert a + b == a;
    } else {
      var c := a + b;
      assert c[..|c| - 1] == a + b[..|b| - 1];
      DirectsConcat(a, b[..|b| - 1]);
    }
  }

  lemma {:induction false} FramesAreNotDirect(fs: seq<Frame>)
    requires forall k :: 0 <= k < |fs| ==> fs[k].Fanout?
    ensures Directs(fs) == []
  {
    if fs != [] { FramesAreNotDirect(fs[..|fs| - 1]); }
  }

  lemma StepDirects(s: SessionState, cap: nat, op: Op)
    requires s.Valid()
    ensures Directs(Step(s, cap, op).wire) == Directs(s.wire) + (if op.Send? then [op.event] else [])
  {
    match op
    case Enqueue(e, origin, now) => OfferTakes(s, cap, e, origin, now);
    case FlushOp =>
      DirectsConcat(s.wire, Frames(s.queue, s.origins));
      FramesAreNotDirect(Frames(s.queue, s.origins));
    case Send(e) =>
      DirectsConcat(s.wire, [Direct(e)]);
      assert [Direct(e)][..0] == [];
    case _ =>
  }

  lemma {:induction false} RunDirects(cap: nat, ops: seq<Op>)
    ensures Directs(Run(NEW_SESSION, cap, ops).wire) == Sent(Essence(ops))
  {
    hide Step;
    if ops != [] {
      var front, last := ops[..|ops| - 1], ops[|ops| - 1];
      RunDirects(cap, front);
      StepDirects(Run(NEW_SESSION, cap, front), cap, last);
      if Essential(last) {
        assert (Essence(front) + [last])[..|Essence(front)|] == Essence(front);
      } else {
        assert Essence(ops) == Essence(front);
      }
    }
  }

  /** Flushes and notices count for nothing in the heartbeat. */
  lemma {:induction false} EssenceKeepsBeats(ops: seq<Op>)
    ensures Unanswered(0, Essence(ops)) == Unanswered(0, ops)
    ensures EverOverdue(Essence(ops)) <==> EverOverdue(ops)
  {
    if ops != [] {
      var front, last := ops[..|ops| - 1], ops[|ops| - 1];
      EssenceKeepsBeats(front);
      assert ops == front + [last];
      EverOverdueSnoc(front, last);
      if Essential(last) {
        EverOverdueSnoc(Essence(front), last);
        assert (Essence(front) + [last])[..|Essence(front)|] == Essence(front);
      } else {
        assert Essence(ops) == Essence(front);
        OverdueNow(front);
      }
    }
  }

  lemma OverdueNow(ops: seq<Op>)
    ensures Unanswered(0, ops) > 2 ==> EverOverdue(ops)
  {
    assert ops[..|ops|] == ops;
  }

  /**
   * After any run of the bus, a session received past its queue exactly its replays and the pings,
   * in order; it counts the pings since its last pong and is dead exactly when they ever were too many.
   */
  lemma DirectsAndLiveness(ops: seq<BusOp>, id: string)
    requires id in RunBus(ops).sessions
    ensures var s := RunBus(ops).sessions[id].s;
            && Directs(s.wire) == Sent(Calls(ops, id))
            && s.missed == Unanswered(0, Calls(ops, id))
            && (!s.alive <==> EverOverdue(Calls(ops, id)))
  {
    hide Calls;
    hide EverOverdue;
    var m := RunBus(ops).sessions[id];
    EverySessionRunsAlone(ops, id);
    var sops: seq<Op> :| ReachesBy(Member(m.cap, NEW_SESSION), m, Calls(ops, id), sops);
    RunDirects(m.cap, sops);
    EssenceKeepsBeats(sops);
    DeadIff(m.cap, sops);
  }

  /** In every run a session's drop count and drop window agree, so NoticeComesLastIff applies to it. */
  lemma WindowsAgree(ops: seq<BusOp>, id: string)
    requires id in RunBus(ops).sessions
    ensures RunBus(ops).sessions[id].s.dropSince.Some? <==> RunBus(ops).sessions[id].s.dropped > 0
  {
    var m := RunBus(ops).sessions[id];
    EverySessionRunsAlone(ops, id);
    var sops: seq<Op> :| ReachesBy(Member(m.cap, NEW_SESSION), m, Calls(ops, id), sops);
    DropWindow(NEW_SESSION, m.cap, sops);
  }

  // ---------------------------------------------------------------- who is subscribed

  datatype Place = Place(cap: nat, name: string)

  /** The room and the label under which `who` last subscribed, if it has not left or been reaped since. */
  function Online(ops: seq<BusOp>, who: string): Option<Place> {
    if ops == [] then None
    else
      var front, last := ops[..|ops| - 1], ops[|ops| - 1];
      match last
      case Subscribe(id, cap, client, _) =>
        if id == who then Some(Place(cap, if client.Some? && client.value != "" then client.value else "operator"))
        else Online(front, who)
      case Unsubscribe(id, _, _) => if id == who then None else Online(front, who)
      case Reap(dead, _) => if who in dead then None else Online(front, who)
      case _ => Online(front, who)
  }

  ghost predicate Stands(b: BusState, who: string, p: Option<Place>) {
    if p.None? then who !in b.sessions && who !in b.clients
    else who in b.sessions && who in b.clients && b.sessions[who].cap == p.value.cap && b.clients[who] == p.value.name
  }

  lemma {:induction false} PublishedAllClients(b: BusState, es: seq<Event>, origin: Option<string>, now: int)
    requires b.Valid()
    ensures PublishedAll(b, es, origin, now).clients == b.clients
  {
    if es != [] { PublishedAllClients(b, es[..|es| - 1], origin, now); }
  }

  /** But for a subscription of its own, an operation keeps the label of every session it keeps. */
  lemma StepClients(b: BusState, op: BusOp, who: string)
    requires b.Valid() && !(op.Subscribe? && op.id == who)
    ensures var gone := (op.Unsubscribe? && op.id == who) || (op.Reap? && who in op.dead);
            && Lookup(StepBus(b, op).clients, who) == (if gone then None else Lookup(b.clients, who))
            && (who in StepBus(b, op).sessions <==> who in b.sessions && !gone)
  {
    hide DeliveredAll;
    hide PublishedAll;
    hide ReapedAll;
    hide ReplayEvents;
    hide SentAll;
    hide Appended;
    hide Evicted;
    match op
    case PublishMany(es, origin, flush, now) => PublishedAllClients(b, es, origin, now);
    case Reap(dead, now) => ReapedAllMembers(b, dead, now, who);
    case _ =>
  }

  /** After any run, exactly the sessions that subscribed and have not left since are there, under their labels. */
  lemma {:induction false} SubscribersAreOnline(ops: seq<BusOp>, who: string)
    ensures Stands(RunBus(ops), who, Online(ops, who))
  {
    if ops != [] {
      hide StepBus;
      var front, last := ops[..|ops| - 1], ops[|ops| - 1];
      var b := RunBus(front);
      SubscribersAreOnline(front, who);
      if last.Subscribe? && last.id == who {
        NewcomerStands(b, last);
      } else {
        StepClients(b, last, who);
        if who in StepBus(b, last).sessions { SameCap(b, last, who); }
      }
    }
  }

  lemma NewcomerStands(b: BusState, op: BusOp)
    requires b.Valid() && op.Subscribe?
    ensures var r := StepBus(b, op);
            && op.id in r.sessions && r.sessions[op.id] == Member(op.cap, NEW_SESSION)
            && Lookup(r.clients, op.id) ==
                 Some(if op.client.Some? && op.client.value != "" then op.client.value else "operator")
  {
    hide Delivered;
  }

  // ---------------------------------------------------------------- the order of the pending confirmations

  datatype Ask = Asked(req: ConfirmationRequest) | Answered(callId: string)

  function AsksOf(es: seq<Event>): seq<Ask> {
    if es == [] then []
    else AsksOf(es[..|es| - 1]) + (if es[|es| - 1].Confirm? then [Asked(es[|es| - 1].req)] else [])
  }

  lemma AsksOfOne(e: Event)
    ensures AsksOf([e]) == if e.Confirm? then [Asked(e.req)] else []
  {
    assert [e][..0] == [];
  }

  /** The requests published and the answers given in a run. */
  function Asks(ops: seq<BusOp>): seq<Ask> {
    if ops == [] then []
    else
      Asks(ops[..|ops| - 1]) +
      match ops[|ops| - 1]
      case Publish(e, _, _, _, _) => AsksOf([e])
      case PublishMany(es, _, _, _) => AsksOf(es)
      case Resolve(c) => [Answered(c)]
      case _ => []
  }

  /** When the request that stands open for `c` was first published. */
  function OpenSince(asks: seq<Ask>, c: string): Option<nat> {
    if asks == [] then None
    else
      var front, last := asks[..|asks| - 1], asks[|asks| - 1];
      match last
      case Asked(req) =>
        if req.callId == c && OpenSince(front, c).None? then Some(|front|) else OpenSince(front, c)
      case Answered(d) => if c == d then None else OpenSince(front, c)
  }

  lemma {:induction false} OpenSinceIsPast(asks: seq<Ask>, c: string)
    ensures OpenSince(asks, c).Some? ==> OpenSince(asks, c).value < |asks|
  {
    if asks != [] { OpenSinceIsPast(asks[..|asks| - 1], c); }
  }

  /** Both requests stand open, and `c` was opened first. */
  ghost predicate Earlier(asks: seq<Ask>, c: string, d: string) {
    && OpenSince(asks, c).Some? && OpenSince(asks, d).Some?
    && OpenSince(asks, c).value < OpenSince(asks, d).value
  }

  /** `order` lists the open calls, the one opened first in front. */
  ghost predicate InOrder(order: seq<string>, asks: seq<Ask>) {
    && (forall c :: c in order <==> OpenSince(asks, c).Some?)
    && (forall i, j :: 0 <= i < j < |order| ==> Earlier(asks, order[i], order[j]))
  }

  lemma OpenSinceSnoc(asks: seq<Ask>, a: Ask, c: string)
    ensures OpenSince(asks + [a], c) ==
              match a
              case Asked(req) =>
                if req.callId == c && OpenSince(asks, c).None? then Some(|asks|) else OpenSince(asks, c)
              case Answered(d) => if c == d then None else OpenSince(asks, c)
  {
    assert (asks + [a])[..|asks|] == asks;
  }

  lemma StaysEarlier(asks: seq<Ask>, a: Ask, c: string, d: string)
    requires Earlier(asks, c, d) && (a.Answered? ==> a.callId != c && a.callId != d)
    ensures Earlier(asks + [a], c, d)
  {
    OpenSinceSnoc(asks, a, c);
    OpenSinceSnoc(asks, a, d);
  }

  lemma NewIsLater(asks: seq<Ask>, c: string, req: ConfirmationRequest)
    requires OpenSince(asks, c).Some? && OpenSince(asks, req.callId).None?
    ensures Earlier(asks + [Asked(req)], c, req.callId)
  {
    OpenSinceIsPast(asks, c);
    OpenSinceSnoc(asks, Asked(req), c);
    OpenSinceSnoc(asks, Asked(req), req.callId);
  }

  lemma AskedKeepsOrder(order: seq<string>, asks: seq<Ask>, req: ConfirmationRequest)
    requires InOrder(order, asks)
    ensures InOrder(if req.callId in order then order else order + [req.callId], asks + [Asked(req)])
  {
    hide OpenSince;
    var more := if req.callId in order then order else order + [req.callId];
    forall c ensures c in more <==> OpenSince(asks + [Asked(req)], c).Some? {
      OpenSinceSnoc(asks, Asked(req), c);
      assert c in more <==> c in order || c == req.callId;
    }
    forall i, j | 0 <= i < j < |more| ensures Earlier(asks + [Asked(req)], more[i], more[j]) {
      assert order[i] in order;
      if j < |order| {
        StaysEarlier(asks, Asked(req), order[i], order[j]);
      } else {
        NewIsLater(asks, order[i], req);
      }
    }
  }

  lemma AnsweredKeepsOrder(order: seq<string>, rest: seq<string>, asks: seq<Ask>, d: string)
    requires InOrder(order, asks) && NoDuplicates(order)
    requires if d in order then rest == Forgotten(order, d) else rest == order
    ensures InOrder(rest, asks + [Answered(d)])
  {
    hide OpenSince;
    forall c ensures c in rest <==> OpenSince(asks + [Answered(d)], c).Some? {
      OpenSinceSnoc(asks, Answered(d), c);
    }
    forall i, j | 0 <= i < j < |rest| ensures Earlier(asks + [Answered(d)], rest[i], rest[j]) {
      assert rest[i] in rest && rest[j] in rest && rest[i] != d && rest[j] != d;
      var k, l := PlacesBefore(order, rest, d, i, j);
      StaysEarlier(asks, Answered(d), order[k], order[l]);
    }
  }

  /** Two elements of what is left stood in the same order before. */
  lemma PlacesBefore(order: seq<string>, rest: seq<string>, d: string, i: nat, j: nat) returns (k: nat, l: nat)
    requires NoDuplicates(order) && i < j < |rest|
    requires if d in order then rest == Forgotten(order, d) else rest == order
    ensures k < l < |order| && order[k] == rest[i] && order[l] == rest[j]
  {
    var x := FirstWhere(order, k => k == d);
    if d in order && x < |order| {
      k, l := if i < x then i else i + 1, if j < x then j else j + 1;
    } else {
      k, l := i, j;
    }
  }

  lemma {:induction false} PublishedAllOrder(
      b: BusState, es: seq<Event>, origin: Option<string>, now: int, asks: seq<Ask>)
    requires b.Valid() && InOrder(b.pendingOrder, asks)
    ensures InOrder(PublishedAll(b, es, origin, now).pendingOrder, asks + AsksOf(es))
  {
    hide InOrder;
    hide DeliveredAll;
    hide Appended;
    if es == [] {
      assert asks + [] == asks;
    } else {
      var front, last := es[..|es| - 1], es[|es| - 1];
      var mid := PublishedAll(b, front, origin, now);
      PublishedAllOrder(b, front, origin, now, asks);
      if last.Confirm? {
        AskedKeepsOrder(mid.pendingOrder, asks + AsksOf(front), last.req);
        assert asks + AsksOf(es) == asks + AsksOf(front) + [Asked(last.req)];
      } else {
        assert AsksOf(es) == AsksOf(front);
      }
    }
  }

  lemma {:induction false} ReapedAllOrder(b: BusState, dead: seq<string>, now: int)
    requires b.Valid()
    ensures ReapedAll(b, dead, now).pendingOrder == b.pendingOrder
  {
    if dead != [] { ReapedAllOrder(b, dead[..|dead| - 1], now); }
  }

  lemma StepOrder(b: BusState, op: BusOp, asks: seq<Ask>)
    requires b.Valid() && InOrder(b.pendingOrder, asks)
    ensures InOrder(StepBus(b, op).pendingOrder, asks +
              match op
              case Publish(e, _, _, _, _) => AsksOf([e])
              case PublishMany(es, _, _, _) => AsksOf(es)
              case Resolve(c) => [Answered(c)]
              case _ => [])
  {
    hide InOrder;
    hide DeliveredAll;
    hide Appended;
    hide ReplayEvents;
    hide SentAll;
    assert asks + [] == asks;
    match op
    case Publish(e, origin, exclude, flush, now) =>
      AsksOfOne(e);
      if e.Confirm? { AskedKeepsOrder(b.pendingOrder, asks, e.req); }
    case PublishMany(es, origin, flush, now) => PublishedAllOrder(b, es, origin, now, asks);
    case Resolve(c) => AnsweredKeepsOrder(b.pendingOrder, Resolved(b, c).pendingOrder, asks, c);
    case Reap(dead, now) => ReapedAllOrder(b, dead, now);
    case _ =>
  }

  /** After any run, the pending confirmations stand in the order in which they were first asked for. */
  lemma {:induction false} PendingInOrder(ops: seq<BusOp>)
    ensures InOrder(RunBus(ops).pendingOrder, Asks(ops))
  {
    if ops != [] {
      hide StepBus;
      hide InOrder;
      PendingInOrder(ops[..|ops| - 1]);
      StepOrder(RunBus(ops[..|ops| - 1]), ops[|ops| - 1], Asks(ops[..|ops| - 1]));
    }
  }
}
