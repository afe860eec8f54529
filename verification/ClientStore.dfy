/** The client side of the chat bus: streaming assembly with orphan buffering. */
module ClientStores {
  import opened Common
  import opened Events

  const ORPHAN_TTL_NS: int := 2 * 1_000_000_000

  /** An update buffered before its parent, with the time it was seen. */
  datatype Orphan = Orphan(seen: int, upd: ChannelUpdate)

  datatype StoreState = StoreState(
    messages: map<string, ChatMessage>,
    order: seq<string>,
    done: set<string>,
    orphans: map<string, seq<Orphan>>,
    renders: map<string, nat>)

  const EMPTY_STORE := StoreState(map[], [], {}, map[], map[])

  // ---------------------------------------------------------------- operations

  function ApplyUpdate(s: StoreState, upd: ChannelUpdate): StoreState {
    if upd.messageId !in s.messages || upd.messageId in s.done then s
    else
      var m := s.messages[upd.messageId];
      s.(messages := s.messages[upd.messageId := m.(body := m.body + upd.deltaText)],
         done := if upd.done then s.done + {upd.messageId} else s.done)
  }

  function ApplyAll(s: StoreState, os: seq<Orphan>): StoreState {
    if os == [] then s else ApplyUpdate(ApplyAll(s, os[..|os| - 1]), os[|os| - 1].upd)
  }

  function OrphansOf(s: StoreState, id: string): seq<Orphan> {
    if id in s.orphans then s.orphans[id] else []
  }

  function IngestMessage(s: StoreState, m: ChatMessage): StoreState {
    var id := m.messageId;
    if id in s.messages then
      s.(renders := s.renders[id := if id in s.renders then s.renders[id] else 1])
    else
      var stored := s.(messages := s.messages[id := m],
                       order := s.order + [id],
                       renders := s.renders[id := 1],
                       done := if m.streaming then s.done else s.done + {id},
                       orphans := s.orphans - {id});
      ApplyAll(stored, OrphansOf(s, id))
  }

  function IngestUpdate(s: StoreState, upd: ChannelUpdate, now: int): StoreState {
    if upd.messageId in s.messages then ApplyUpdate(s, upd)
    else s.(orphans := s.orphans[upd.messageId := OrphansOf(s, upd.messageId) + [Orphan(now, upd)]])
  }

  /** The orphans younger than the time limit, in order. */
  function Fresh(os: seq<Orphan>, now: int): seq<Orphan> {
    if os == [] then []
    else Fresh(os[..|os| - 1], now) + (if now - os[|os| - 1].seen < ORPHAN_TTL_NS then [os[|os| - 1]] else [])
  }

  function Swept(s: StoreState, now: int): StoreState {
    s.(orphans := map id | id in s.orphans && Fresh(s.orphans[id], now) != [] :: Fresh(s.orphans[id], now))
  }

  datatype Arrival =
    | Message(msg: ChatMessage)
    | Update(upd: ChannelUpdate, now: int)
    | Sweep(now: int)

  function Step(s: StoreState, a: Arrival): StoreState {
    match a
    case Message(m) => IngestMessage(s, m)
    case Update(u, now) => IngestUpdate(s, u, now)
    case Sweep(now) => Swept(s, now)
  }

  function Run(tr: seq<Arrival>): StoreState {
    if tr == [] then EMPTY_STORE else Step(Run(tr[..|tr| - 1]), tr[|tr| - 1])
  }

  // ---------------------------------------------------------------- what a trace means, read off the trace

  /** The first message with this id, if one has arrived. */
  function Parent(tr: seq<Arrival>, id: string): Option<ChatMessage> {
    if tr == [] then None
    else
      var front, last := Parent(tr[..|tr| - 1], id), tr[|tr| - 1];
      if front.None? && last.Message? && last.msg.messageId == id then Some(last.msg) else front
  }

  /** The arrival at `i` is an update that was swept away while it still waited for its parent. */
  ghost predicate Expired(tr: seq<Arrival>, i: nat)
    requires i < |tr|
  {
    && tr[i].Update?
    && exists j :: i < j < |tr| && SweptAt(tr, i, j)
  }

  ghost predicate SweptAt(tr: seq<Arrival>, i: nat, j: nat)
    requires i < j < |tr| && tr[i].Update?
  {
    tr[j].Sweep? && Parent(tr[..j], tr[i].upd.messageId).None? && tr[j].now - tr[i].now >= 2_000_000_000
  }

  /** The arrival at `i`, if it is an unexpired update for `id`. */
  ghost function LiveAt(tr: seq<Arrival>, id: string, i: nat): seq<Orphan>
    requires i < |tr|
  {
    var a := tr[i];
    if a.Update? && a.upd.messageId == id && !Expired(tr, i) then [Orphan(a.now, a.upd)] else []
  }

  /** The unexpired updates for `id` among the first `n` arrivals, in arrival order. */
  ghost function Live(tr: seq<Arrival>, id: string, n: nat): seq<Orphan>
    requires n <= |tr|
  {
    if n == 0 then [] else Live(tr, id, n - 1) + LiveAt(tr, id, n - 1)
  }

  ghost function LiveUpdates(tr: seq<Arrival>, id: string): seq<Orphan> {
    Live(tr, id, |tr|)
  }

  /** The deltas up to and including the first one marked done, joined. */
  function Joined(os: seq<Orphan>): string {
    if os == [] then ""
    else Joined(os[..|os| - 1]) + (if AnyDone(os[..|os| - 1]) then "" else os[|os| - 1].upd.deltaText)
  }

  predicate AnyDone(os: seq<Orphan>) {
    exists o :: o in os && o.upd.done
  }

  function Assembled(parent: ChatMessage, os: seq<Orphan>): ChatMessage {
    if parent.streaming then parent.(body := parent.body + Joined(os)) else parent
  }

  /** What the store must hold about one id. */
  ghost predicate Holds(s: StoreState, id: string, parent: Option<ChatMessage>, os: seq<Orphan>) {
    match parent
    case Some(p) =>
      && id in s.messages && s.messages[id] == Assembled(p, os)
      && (id in s.done <==> !p.streaming || AnyDone(os))
      && id !in s.orphans
      && id in s.renders && s.renders[id] == 1
    case None =>
      && id !in s.messages && id !in s.done && id !in s.renders
      && (id in s.orphans <==> os != []) && OrphansOf(s, id) == os
  }

  function NextParent(a: Arrival, id: string, parent: Option<ChatMessage>): Option<ChatMessage> {
    if parent.None? && a.Message? && a.msg.messageId == id then Some(a.msg) else parent
  }

  function NextLive(a: Arrival, id: string, parent: Option<ChatMessage>, os: seq<Orphan>): seq<Orphan> {
    match a
    case Message(_) => os
    case Update(u, now) => if u.messageId == id then os + [Orphan(now, u)] else os
    case Sweep(now) => if parent.None? then Fresh(os, now) else os
  }

  // ---------------------------------------------------------------- steps

  lemma JoinedSnoc(os: seq<Orphan>, o: Orphan)
    ensures Joined(os + [o]) == Joined(os) + (if AnyDone(os) then "" else o.upd.deltaText)
    ensures AnyDone(os + [o]) <==> AnyDone(os) || o.upd.done
  {
    assert (os + [o])[..|os|] == os;
    assert forall x :: x in os + [o] <==> x in os || x == o;
    if o.upd.done { assert o in os + [o]; }
  }

  /** An update for a known message extends what the message has assembled. */
  lemma ApplyExtends(s: StoreState, id: string, p: ChatMessage, os: seq<Orphan>, o: Orphan)
    requires Holds(s, id, Some(p), os) && o.upd.messageId == id
    ensures Holds(ApplyUpdate(s, o.upd), id, Some(p), os + [o])
  {
    JoinedSnoc(os, o);
    if p.streaming && !AnyDone(os) {
      assert p.body + (Joined(os) + o.upd.deltaText) == (p.body + Joined(os)) + o.upd.deltaText;
    } else {
      assert Joined(os) + "" == Joined(os);
    }
  }

  lemma {:induction false} ApplyAllExtends(s: StoreState, id: string, p: ChatMessage, os: seq<Orphan>)
    requires Holds(s, id, Some(p), []) && forall o :: o in os ==> o.upd.messageId == id
    ensures Holds(ApplyAll(s, os), id, Some(p), os)
  {
    if os != [] {
      var front, last := os[..|os| - 1], os[|os| - 1];
      assert os == front + [last];
      ApplyAllExtends(s, id, p, front);
      ApplyExtends(ApplyAll(s, front), id, p, front, last);
    }
  }

  /** Nothing that is not about `id` changes what the store holds about `id`. */
  ghost predicate SameFor(s: StoreState, r: StoreState, id: string) {
    && (id in s.messages <==> id in r.messages) && (id in s.messages ==> s.messages[id] == r.messages[id])
    && (id in s.done <==> id in r.done)
    && (id in s.orphans <==> id in r.orphans) && (id in s.orphans ==> s.orphans[id] == r.orphans[id])
    && (id in s.renders <==> id in r.renders) && (id in s.renders ==> s.renders[id] == r.renders[id])
  }

  lemma {:induction false} ApplyAllElsewhere(s: StoreState, os: seq<Orphan>, at: string, id: string)
    requires id != at && forall o :: o in os ==> o.upd.messageId == at
    ensures SameFor(s, ApplyAll(s, os), id)
  {
    if os != [] { ApplyAllElsewhere(s, os[..|os| - 1], at, id); }
  }

  lemma {:induction false} ApplyAllOrder(s: StoreState, os: seq<Orphan>)
    ensures ApplyAll(s, os).order == s.order
    ensures ApplyAll(s, os).messages.Keys == s.messages.Keys
  {
    if os != [] { ApplyAllOrder(s, os[..|os| - 1]); }
  }

  /** Orphans are filed under the id of their update. */
  ghost predicate Filed(s: StoreState) {
    forall id, o :: id in s.orphans && o in s.orphans[id] ==> o.upd.messageId == id
  }

  lemma {:induction false} FreshMembers(os: seq<Orphan>, now: int)
    ensures forall o :: o in Fresh(os, now) ==> o in os
  {
    if os != [] { FreshMembers(os[..|os| - 1], now); }
  }

  lemma {:induction false} ApplyAllOrphans(s: StoreState, os: seq<Orphan>)
    ensures ApplyAll(s, os).orphans == s.orphans
  {
    if os != [] { ApplyAllOrphans(s, os[..|os| - 1]); }
  }

  lemma StepFiled(s: StoreState, a: Arrival)
    requires Filed(s)
    ensures Filed(Step(s, a))
  {
    match a
    case Message(m) =>
      if m.messageId !in s.messages {
        var stored := s.(messages := s.messages[m.messageId := m],
                         order := s.order + [m.messageId],
                         renders := s.renders[m.messageId := 1],
                         done := if m.streaming then s.done else s.done + {m.messageId},
                         orphans := s.orphans - {m.messageId});
        ApplyAllOrphans(stored, OrphansOf(s, m.messageId));
      }
    case Update(u, now) =>
    case Sweep(now) =>
      forall id | id in s.orphans ensures forall o :: o in Fresh(s.orphans[id], now) ==> o in s.orphans[id] {
        FreshMembers(s.orphans[id], now);
      }
  }

  /** One arrival, seen from one id. */
  lemma StepHolds(s: StoreState, a: Arrival, id: string, parent: Option<ChatMessage>, os: seq<Orphan>)
    requires Filed(s) && Holds(s, id, parent, os)
    ensures Holds(Step(s, a), id, NextParent(a, id, parent), NextLive(a, id, parent, os))
  {
    match a
    case Message(m) =>
      var stored := s.(messages := s.messages[m.messageId := m],
                       order := s.order + [m.messageId],
                       renders := s.renders[m.messageId := 1],
                       done := if m.streaming then s.done else s.done + {m.messageId},
                       orphans := s.orphans - {m.messageId});
      if m.messageId in s.messages {
      } else if m.messageId == id {
        assert m.body + Joined([]) == m.body;
        ApplyAllExtends(stored, id, m, os);
      } else {
        ApplyAllElsewhere(stored, OrphansOf(s, m.messageId), m.messageId, id);
      }
    case Update(u, now) =>
      if u.messageId == id && parent.Some? {
        ApplyExtends(s, id, parent.value, os, Orphan(now, u));
      }
    case Sweep(now) =>
  }

  // ---------------------------------------------------------------- expiry, as the trace grows

  lemma ParentSnoc(tr: seq<Arrival>, a: Arrival, id: string)
    ensures Parent(tr + [a], id) == NextParent(a, id, Parent(tr, id))
  {
    assert (tr + [a])[..|tr|] == tr;
  }

  lemma ExpiredSnoc(tr: seq<Arrival>, a: Arrival, i: nat)
    requires i < |tr| && tr[i].Update?
    ensures Expired(tr + [a], i) <==>
              Expired(tr, i)
                  || (a.Sweep? && Parent(tr, tr[i].upd.messageId).None? && a.now - tr[i].now >= ORPHAN_TTL_NS)
  {
    var all := tr + [a];
    assert all[..|tr|] == tr;
    forall j | i < j < |tr| ensures SweptAt(all, i, j) <==> SweptAt(tr, i, j) {
      assert all[..j] == tr[..j];
    }
    if Expired(tr, i) {
      var j :| i < j < |tr| && SweptAt(tr, i, j);
      assert SweptAt(all, i, j);
    }
    if a.Sweep? && Parent(tr, tr[i].upd.messageId).None? && a.now - tr[i].now >= ORPHAN_TTL_NS {
      assert SweptAt(all, i, |tr|);
    }
  }

  lemma FreshSnoc(os: seq<Orphan>, o: Orphan, now: int)
    ensures Fresh(os + [o], now) == Fresh(os, now) + (if now - o.seen < ORPHAN_TTL_NS then [o] else [])
  {
    assert (os + [o])[..|os|] == os;
  }

  lemma LiveAtGrows(tr: seq<Arrival>, a: Arrival, id: string, i: nat)
    requires i < |tr|
    ensures LiveAt(tr + [a], id, i)
            == if a.Sweep? && Parent(tr, id).None? then Fresh(LiveAt(tr, id, i), a.now) else LiveAt(tr, id, i)
  {
    var x := tr[i];
    assert (tr + [a])[i] == x;
    if x.Update? && x.upd.messageId == id {
      ExpiredSnoc(tr, a, i);
      if a.Sweep? {
        assert [] + [Orphan(x.now, x.upd)] == [Orphan(x.now, x.upd)];
        FreshSnoc([], Orphan(x.now, x.upd), a.now);
      }
    }
  }

  lemma FreshAppend(os: seq<Orphan>, at: seq<Orphan>, now: int)
    requires |at| <= 1
    ensures Fresh(os + at, now) == Fresh(os, now) + Fresh(at, now)
  {
    if at == [] {
      assert os + at == os;
    } else {
      FreshSnoc(os, at[0], now);
      FreshSnoc([], at[0], now);
      assert os + at == os + [at[0]] && [] + [at[0]] == at;
    }
  }

  /** Growing a trace only deletes updates that wait for a parent when a sweep finds them too old. */
  lemma {:induction false} LiveGrows(tr: seq<Arrival>, a: Arrival, id: string, n: nat)
    requires n <= |tr|
    ensures Live(tr + [a], id, n)
            == if a.Sweep? && Parent(tr, id).None? then Fresh(Live(tr, id, n), a.now) else Live(tr, id, n)
  {
    hide LiveAt;
    hide Parent;
    if n > 0 {
      assert Live(tr + [a], id, n) == Live(tr + [a], id, n - 1) + LiveAt(tr + [a], id, n - 1);
      assert Live(tr, id, n) == Live(tr, id, n - 1) + LiveAt(tr, id, n - 1);
      hide Fresh;
      hide Live;
      LiveGrows(tr, a, id, n - 1);
      LiveAtGrows(tr, a, id, n - 1);
      LiveAtIsShort(tr, id, n - 1);
      if a.Sweep? {
        FreshAppend(Live(tr, id, n - 1), LiveAt(tr, id, n - 1), a.now);
      }
    }
  }

  lemma LiveAtIsShort(tr: seq<Arrival>, id: string, i: nat)
    requires i < |tr|
    ensures |LiveAt(tr, id, i)| <= 1
  {
  }

  lemma LiveSnoc(tr: seq<Arrival>, a: Arrival, id: string)
    ensures LiveUpdates(tr + [a], id) == NextLive(a, id, Parent(tr, id), LiveUpdates(tr, id))
  {
    LiveGrows(tr, a, id, |tr|);
    var all := tr + [a];
    assert Live(all, id, |tr|) + [] == Live(all, id, |tr|);
    if a.Update? {
      assert !Expired(all, |tr|);
    }
  }

  // ---------------------------------------------------------------- the theorems

  lemma {:induction false} RunFiled(tr: seq<Arrival>)
    ensures Filed(Run(tr))
  {
    if tr != [] {
      RunFiled(tr[..|tr| - 1]);
      StepFiled(Run(tr[..|tr| - 1]), tr[|tr| - 1]);
    }
  }

  /**
   * Whatever the interleaving and wherever the parent arrives, each message's final body is the
   * first parent's body followed by its unexpired deltas, in arrival order, up to and including the
   * first one marked done (nothing when the parent does not stream); it is done exactly when its
   * parent does not stream or such a delta arrived; it is rendered once. Without a parent exactly
   * the unexpired updates wait.
   */
  lemma {:induction false} AssemblyIsCorrect(tr: seq<Arrival>, id: string)
    ensures Holds(Run(tr), id, Parent(tr, id), LiveUpdates(tr, id))
  {
    if tr == [] {
      assert Live(tr, id, 0) == [];
    } else {
      var front, last := tr[..|tr| - 1], tr[|tr| - 1];
      assert tr == front + [last];
      AssemblyIsCorrect(front, id);
      RunFiled(front);
      StepHolds(Run(front), last, id, Parent(front, id), LiveUpdates(front, id));
      ParentSnoc(front, last, id);
      LiveSnoc(front, last, id);
    }
  }

  /** The ids of the parents, in order of first arrival. */
  function ParentIds(tr: seq<Arrival>): seq<string> {
    if tr == [] then []
    else
      var front, last := tr[..|tr| - 1], tr[|tr| - 1];
      ParentIds(front) + (if last.Message? && Parent(front, last.msg.messageId).None? then [last.msg.messageId] else [])
  }

  /** Messages are rendered in order of first arrival. */
  lemma {:induction false} OrderIsFirstArrival(tr: seq<Arrival>)
    ensures Run(tr).order == ParentIds(tr)
  {
    if tr != [] {
      var front, last := tr[..|tr| - 1], tr[|tr| - 1];
      var s := Run(front);
      OrderIsFirstArrival(front);
      if last.Message? {
        var m := last.msg;
        AssemblyIsCorrect(front, m.messageId);
        ApplyAllOrder(s.(messages := s.messages[m.messageId := m],
                         order := s.order + [m.messageId],
                         renders := s.renders[m.messageId := 1],
                         done := if m.streaming then s.done else s.done + {m.messageId},
                         orphans := s.orphans - {m.messageId}), OrphansOf(s, m.messageId));
      }
    }
  }

  /**
   * Confluence: two traces that agree, id by id, on the first parent and on the unexpired updates
   * end in the same messages, done flags, render counts and orphans, however they interleave.
   */
  lemma Confluence(a: seq<Arrival>, b: seq<Arrival>)
    requires forall id :: Parent(a, id) == Parent(b, id) && LiveUpdates(a, id) == LiveUpdates(b, id)
    ensures Run(a) == Run(b).(order := Run(a).order)
  {
    var s, r := Run(a), Run(b);
    forall id ensures SameFor(s, r, id) {
      AssemblyIsCorrect(a, id);
      AssemblyIsCorrect(b, id);
      assert Parent(a, id) == Parent(b, id) && LiveUpdates(a, id) == LiveUpdates(b, id);
    }
    SameEverywhere(s, r);
  }

  lemma SameEverywhere(s: StoreState, r: StoreState)
    requires forall id :: SameFor(s, r, id)
    ensures s == r.(order := s.order)
  {
    forall id ensures id in s.messages <==> id in r.messages { assert SameFor(s, r, id); }
    forall id | id in s.messages ensures s.messages[id] == r.messages[id] { assert SameFor(s, r, id); }
    forall id ensures id in s.done <==> id in r.done { assert SameFor(s, r, id); }
    forall id ensures id in s.orphans <==> id in r.orphans { assert SameFor(s, r, id); }
    forall id | id in s.orphans ensures s.orphans[id] == r.orphans[id] { assert SameFor(s, r, id); }
    forall id ensures id in s.renders <==> id in r.renders { assert SameFor(s, r, id); }
    forall id | id in s.renders ensures s.renders[id] == r.renders[id] { assert SameFor(s, r, id); }
    assert s.messages == r.messages;
    assert s.orphans == r.orphans;
    assert s.renders == r.renders;
  }

  /** A second message with a known id changes nothing. */
  lemma DuplicateParentIsNoOp(tr: seq<Arrival>, m: ChatMessage)
    requires Parent(tr, m.messageId).Some?
    ensures Run(tr + [Message(m)]) == Run(tr)
  {
    assert (tr + [Message(m)])[..|tr|] == tr;
    AssemblyIsCorrect(tr, m.messageId);
    var s := Run(tr);
    assert s.renders[m.messageId := 1] == s.renders;
  }

  /** The trace without its sweeps and without exactly the updates they expired. */
  ghost function Purged(tr: seq<Arrival>, n: nat): seq<Arrival>
    requires n <= |tr|
  {
    if n == 0 then []
    else Purged(tr, n - 1) + (if tr[n - 1].Sweep? || Expired(tr, n - 1) then [] else [tr[n - 1]])
  }

  /** The three things read off a trace, for one id. */
  ghost predicate SameReading(p: seq<Arrival>, tr: seq<Arrival>, n: nat, id: string)
    requires n <= |tr|
  {
    && Parent(p, id) == Parent(tr[..n], id)
    && LiveUpdates(p, id) == Live(tr, id, n)
    && ParentIds(p) == ParentIds(tr[..n])
  }

  /** An arrival that the purge drops contributes nothing but a sweep or an expired update. */
  lemma DroppedReading(p: seq<Arrival>, tr: seq<Arrival>, n: nat, id: string)
    requires n < |tr| && SameReading(p, tr, n, id) && (tr[n].Sweep? || Expired(tr, n))
    ensures SameReading(p, tr, n + 1, id)
  {
    var front, a := tr[..n], tr[n];
    assert tr[..n + 1] == front + [a];
    ParentSnoc(front, a, id);
    assert (front + [a])[..n] == front;
    assert Live(tr, id, n) + [] == Live(tr, id, n);
    hide Expired;
    hide Live;
    hide Parent;
  }

  /** An arrival that the purge keeps contributes the same to both. */
  lemma KeptReading(p: seq<Arrival>, tr: seq<Arrival>, n: nat, id: string)
    requires n < |tr| && SameReading(p, tr, n, id) && !tr[n].Sweep? && !Expired(tr, n)
    requires tr[n].Message? ==> Parent(p, tr[n].msg.messageId) == Parent(tr[..n], tr[n].msg.messageId)
    ensures SameReading(p + [tr[n]], tr, n + 1, id)
  {
    var front, a := tr[..n], tr[n];
    assert tr[..n + 1] == front + [a];
    ParentSnoc(front, a, id);
    ParentSnoc(p, a, id);
    LiveSnoc(p, a, id);
    assert (front + [a])[..n] == front && (p + [a])[..|p|] == p;
    assert Live(tr, id, n + 1) == Live(tr, id, n) + LiveAt(tr, id, n);
    assert Live(tr, id, n) + [] == Live(tr, id, n);
    hide Expired;
    hide Live;
    hide Parent;
  }

  lemma EmptyReading(tr: seq<Arrival>, id: string)
    ensures SameReading([], tr, 0, id)
  {
    assert tr[..0] == [];
  }

  lemma {:induction false} PurgedAgrees(tr: seq<Arrival>, n: nat, id: string)
    requires n <= |tr|
    ensures SameReading(Purged(tr, n), tr, n, id)
    ensures forall i :: 0 <= i < |Purged(tr, n)| ==> !Purged(tr, n)[i].Sweep?
  {
    hide Expired;
    hide SameReading;
    if n == 0 {
      EmptyReading(tr, id);
    } else {
      var p, a := Purged(tr, n - 1), tr[n - 1];
      PurgedAgrees(tr, n - 1, id);
      if a.Sweep? || Expired(tr, n - 1) {
        DroppedReading(p, tr, n - 1, id);
        assert Purged(tr, n) == p;
      } else {
        if a.Message? {
          PurgedAgrees(tr, n - 1, a.msg.messageId);
          ReadsParent(p, tr, n - 1, a.msg.messageId);
        }
        KeptReading(p, tr, n - 1, id);
        assert Purged(tr, n) == p + [a];
      }
    }
  }

  lemma ReadsParent(p: seq<Arrival>, tr: seq<Arrival>, n: nat, id: string)
    requires n <= |tr| && SameReading(p, tr, n, id)
    ensures Parent(p, id) == Parent(tr[..n], id)
  {
  }

  /** A trace with sweeps ends exactly as the trace from which the expired orphans were deleted. */
  lemma SweepsOnlyDeleteExpired(tr: seq<Arrival>)
    ensures Run(tr) == Run(Purged(tr, |tr|))
    ensures forall i :: 0 <= i < |Purged(tr, |tr|)| ==> !Purged(tr, |tr|)[i].Sweep?
  {
    var p := Purged(tr, |tr|);
    assert tr[..|tr|] == tr;
    forall id ensures Parent(tr, id) == Parent(p, id) && LiveUpdates(tr, id) == LiveUpdates(p, id) {
      PurgedAgrees(tr, |tr|, id);
    }
    PurgedAgrees(tr, |tr|, "");
    Confluence(tr, p);
    OrderIsFirstArrival(tr);
    OrderIsFirstArrival(p);
  }

  // ---------------------------------------------------------------- the object

  /** How many updates wait for a parent. */
  ghost function OrphanCount(orphans: map<string, seq<Orphan>>): nat
    decreases |orphans|
  {
    if orphans == map[] then 0
    else
      var id :| id in orphans;
      |orphans[id]| + OrphanCount(orphans - {id})
  }

  lemma {:induction false} OrphanCountSplit(orphans: map<string, seq<Orphan>>, id: string)
    requires id in orphans
    ensures OrphanCount(orphans) == |orphans[id]| + OrphanCount(orphans - {id})
    decreases |orphans|
  {
    var pick :| pick in orphans && OrphanCount(orphans) == |orphans[pick]| + OrphanCount(orphans - {pick});
    if pick != id {
      OrphanCountSplit(orphans - {pick}, id);
      OrphanCountSplit(orphans - {id}, pick);
      assert orphans - {pick} - {id} == orphans - {id} - {pick};
    }
  }

  lemma OrphanCountRemove(orphans: map<string, seq<Orphan>>, id: string)
    requires id in orphans
    ensures OrphanCount(orphans - {id}) == OrphanCount(orphans) - |orphans[id]|
  {
    OrphanCountSplit(orphans, id);
  }

  /** The orphan table with only the fresh orphans of one id left in it. */
  function SweptOne(orphans: map<string, seq<Orphan>>, id: string, now: int): map<string, seq<Orphan>>
    requires id in orphans
  {
    var kept := Fresh(orphans[id], now);
    if kept != [] then orphans[id := kept] else orphans - {id}
  }

  lemma SweptOneCount(orphans: map<string, seq<Orphan>>, id: string, now: int)
    requires id in orphans
    ensures OrphanCount(SweptOne(orphans, id, now)) == OrphanCount(orphans) - |orphans[id]| + |Fresh(orphans[id], now)|
  {
    OrphanCountRemove(orphans, id);
    OrphanCountUpdate(orphans, id, Fresh(orphans[id], now));
  }

  lemma OrphanCountUpdate(orphans: map<string, seq<Orphan>>, id: string, kept: seq<Orphan>)
    requires id in orphans
    ensures OrphanCount(orphans[id := kept]) == OrphanCount(orphans) - |orphans[id]| + |kept|
  {
    OrphanCountSplit(orphans, id);
    OrphanCountSplit(orphans[id := kept], id);
    assert orphans[id := kept] - {id} == orphans - {id};
  }

  class ClientMessageStore {
    var messages: map<string, ChatMessage>
    var order: seq<string>
    var done: set<string>
    var orphans: map<string, seq<Orphan>>
    var renders: map<string, nat>

    ghost function State(): StoreState
      reads this
    {
      StoreState(messages, order, done, orphans, renders)
    }

    constructor ()
      ensures State() == EMPTY_STORE
    {
      messages, order, done, orphans, renders := map[], [], {}, map[], map[];
    }

    method ApplyToMessage(upd: ChannelUpdate)
      modifies this`messages, this`done
      ensures State() == ApplyUpdate(old(State()), upd)
    {
      if upd.messageId !in messages {
        return;
      }
      var msg := messages[upd.messageId];
      if upd.messageId in done {
        return;
      }
      messages := messages[upd.messageId := msg.(body := msg.body + upd.deltaText)];
      if upd.done {
        done := done + {upd.messageId};
      }
    }

    method Ingest(a: Arrival)
      requires !a.Sweep?
      modifies this
      ensures State() == Step(old(State()), a)
    {
      match a
      case Message(m) => IngestChat(m);
      case Update(u, now) =>
        if u.messageId in messages {
          ApplyToMessage(u);
        } else {
          var waiting := if u.messageId in orphans then orphans[u.messageId] else [];
          orphans := orphans[u.messageId := waiting + [Orphan(now, u)]];
        }
    }

    method IngestChat(m: ChatMessage)
      modifies this
      ensures State() == IngestMessage(old(State()), m)
    {
      var id := m.messageId;
      if id in messages {
        renders := renders[id := if id in renders then renders[id] else 1];
        return;
      }
      var waiting := if id in orphans then orphans[id] else [];
      messages := messages[id := m];
      order := order + [id];
      renders := renders[id := 1];
      if !m.streaming {
        done := done + {id};
      }
      orphans := orphans - {id};
      ghost var stored := State();
      for i := 0 to |waiting|
        invariant State() == ApplyAll(stored, waiting[..i])
      {
        assert waiting[..i + 1][..i] == waiting[..i];
        ApplyToMessage(waiting[i].upd);
      }
      assert waiting[..|waiting|] == waiting;
    }

    /** Returns how many updates were dropped. */
    method SweepOrphans(now: int) returns (dropped: int)
      modifies this`orphans
      ensures State() == Swept(old(State()), now)
      ensures dropped == OrphanCount(old(orphans)) - OrphanCount(orphans)
    {
      hide OrphanCount;
      hide Fresh;
      dropped := 0;
      ghost var before := orphans;
      var todo := orphans.Keys;
      while todo != {}
        invariant todo <= orphans.Keys <= before.Keys
        invariant forall id :: id in todo ==> orphans[id] == before[id]
        invariant forall id :: id in orphans && id !in todo ==> orphans[id] == Fresh(before[id], now) != []
        invariant forall id :: id in before && id !in orphans ==> Fresh(before[id], now) == []
        invariant dropped == OrphanCount(before) - OrphanCount(orphans)
        decreases todo
      {
        var id :| id in todo;
        var kept := Fresh(orphans[id], now);
        dropped := dropped + |orphans[id]| - |kept|;
        SweptOneCount(orphans, id, now);
        if kept != [] {
          orphans := orphans[id := kept];
        } else {
          orphans := orphans - {id};
        }
        todo := todo - {id};
      }
    }
  }
}
