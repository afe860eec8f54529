/**
 * Exactly-once publication of whole sessions: the outbox trace that turns, answers, replays and drains give
 * rise to.
 */
module Delivery {
  import opened Common
  import opened Fanout
  import opened Engine
  import Confirmations
  import P = Publishing

  // ---------------------------------------------------------------- what an operation appends

  /** The confirmation requests among the entries. */
  function Requests(es: seq<Outbound>): seq<Request> {
    if es == [] then []
    else
      var last := es[|es| - 1];
      Requests(es[..|es| - 1]) + (if last.event.Ask? then [last.event.req] else [])
  }

  /** How many entries are other events. */
  function EventCount(es: seq<Outbound>): nat {
    if es == [] then 0 else EventCount(es[..|es| - 1]) + (if es[|es| - 1].event.Ask? then 0 else 1)
  }

  function Unstreamed(es: seq<Outbound>): seq<OutEvent> {
    if es == [] then []
    else
      var last := es[|es| - 1];
      Unstreamed(es[..|es| - 1]) + (if last.streamed then [] else [last.event])
  }

  function Pushed(es: seq<Outbound>): seq<OutEvent> {
    if es == [] then []
    else
      var last := es[|es| - 1];
      Pushed(es[..|es| - 1]) + (if last.streamed then [last.event] else [])
  }

  lemma Snoc(es: seq<Outbound>, e: Outbound)
    ensures Requests(es + [e]) == Requests(es) + (if e.event.Ask? then [e.event.req] else [])
    ensures EventCount(es + [e]) == EventCount(es) + (if e.event.Ask? then 0 else 1)
    ensures Unstreamed(es + [e]) == Unstreamed(es) + (if e.streamed then [] else [e.event])
    ensures Pushed(es + [e]) == Pushed(es) + (if e.streamed then [e.event] else [])
  {
    assert (es + [e])[..|es|] == es;
  }

  lemma {:induction false} RequestsConcat(a: seq<Outbound>, b: seq<Outbound>)
    ensures Requests(a + b) == Requests(a) + Requests(b)
  {
    if b == [] {
      assert a + b == a;
    } else {
      RequestsConcat(a, b[..|b| - 1]);
      assert (a + b)[..|a + b| - 1] == a + b[..|b| - 1];
    }
  }

  ghost predicate NoAsk(es: seq<Outbound>) {
    forall i :: 0 <= i < |es| ==> !es[i].event.Ask?
  }

  lemma {:induction false} NoAskNoRequests(es: seq<Outbound>)
    requires NoAsk(es)
    ensures Requests(es) == []
  {
    if es != [] { NoAskNoRequests(es[..|es| - 1]); }
  }

  /** Requests are never streamed, and carry the call ids from `n` on. */
  ghost predicate Numbered(es: seq<Outbound>, n: nat) {
    && (forall i :: 0 <= i < |es| && es[i].event.Ask? ==> !es[i].streamed)
    && (forall i :: 0 <= i < |Requests(es)| ==> Requests(es)[i].callId == n + i)
  }

  /** What has been appended on the way from `s` to `t`. */
  function Appended(s: State, t: State): seq<Outbound> {
    if |s.outbound| <= |t.outbound| then t.outbound[|s.outbound|..] else []
  }

  /** From `s` to `t` only events other than requests were appended, and nothing was asked. */
  ghost predicate Speaks(s: State, t: State) {
    s.outbound <= t.outbound && NoAsk(Appended(s, t)) && t.pending == s.pending && t.nextId == s.nextId
  }

  /** From `s` to `t` events were appended, each new request once, with the next call id. */
  ghost predicate Grows(s: State, t: State) {
    && s.outbound <= t.outbound && Numbered(Appended(s, t), s.nextId)
    && t.pending == s.pending + Requests(Appended(s, t))
    && t.nextId == s.nextId + |Requests(Appended(s, t))|
  }

  lemma AppendedParts(s: State, m: State, t: State)
    requires s.outbound <= m.outbound <= t.outbound
    ensures s.outbound <= t.outbound && Appended(s, t) == Appended(s, m) + Appended(m, t)
  {
  }

  lemma SpeaksOn(s: State, m: State, t: State)
    requires Speaks(s, m) && Speaks(m, t)
    ensures Speaks(s, t)
  {
    AppendedParts(s, m, t);
  }

  lemma SpeakingGrows(s: State, t: State)
    requires Speaks(s, t)
    ensures Grows(s, t)
  {
    NoAskNoRequests(Appended(s, t));
  }

  lemma GrowsOn(s: State, m: State, t: State)
    requires Grows(s, m) && Grows(m, t)
    ensures Grows(s, t)
  {
    hide Appended;
    hide Requests;
    hide Numbered;
    AppendedParts(s, m, t);
    var a, b := Appended(s, m), Appended(m, t);
    RequestsConcat(a, b);
    NumberedConcat(a, b, s.nextId);
    assert (s.pending + Requests(a)) + Requests(b) == s.pending + (Requests(a) + Requests(b));
  }

  lemma NumberedConcat(a: seq<Outbound>, b: seq<Outbound>, n: nat)
    requires Numbered(a, n) && Numbered(b, n + |Requests(a)|)
    ensures Numbered(a + b, n)
  {
    RequestsConcat(a, b);
    hide Requests;
  }

  // ---------------------------------------------------------------- the nodes

  lemma OneSpeaks(s: State, t: State, e: Outbound)
    requires t.outbound == s.outbound + [e] && !e.event.Ask? && t.pending == s.pending && t.nextId == s.nextId
    ensures Speaks(s, t)
  {
  }

  lemma SummoningSpeaks(s: State, r: Round)
    ensures Speaks(s, Summoned(s, r))
  {
    var noticed := if s.crossExamRound == 0 then Emit(s, SummonNotice(s.roster)) else s;
    var t := Summoned(s, r);
    assert Appended(noticed, t) == Outs(Stream(JobOf(s, r), |s.roster|));
    hide Stream;
    hide Table;
    hide InvokersUpTo;
    assert Speaks(s, noticed) && Speaks(noticed, t);
    hide Speaks;
    SpeaksOn(s, noticed, t);
  }

  lemma MergingSpeaks(s: State, answer: Option<(string, seq<string>)>)
    ensures Speaks(s, MergedWith(s, answer))
  {
    hide TakenFrom;
    hide Kept;
    hide OpenQuestions;
  }

  lemma DissentSpeaks(s: State, answer: Option<DissentResult>)
    ensures Speaks(s, Dissented(s, answer).0)
  {
  }

  lemma RoundSpeaks(u: Setup, s: State, r: Round)
    ensures Speaks(s, RoundDone(u, s, r).0)
  {
    var s1 := Summoned(s, r);
    var s2 := Aggregated(s1, u.queueMax);
    var s3 := MergedWith(s2, r.merge);
    SummoningSpeaks(s, r);
    OneSpeaks(s1, s2, Outbound(Digest(Coalesced(Lines(s1.responses), u.queueMax)), false));
    MergingSpeaks(s2, r.merge);
    DissentSpeaks(s3, r.dissent);
    hide Speaks;
    hide Summoned;
    hide MergedWith;
    hide Dissented;
    SpeaksOn(s, s1, s2);
    SpeaksOn(s, s2, s3);
    SpeaksOn(s, s3, Dissented(s3, r.dissent).0);
  }

  lemma {:induction false} DeliberationSpeaks(u: Setup, s: State, rounds: nat -> Round, k: nat)
    ensures Speaks(s, Deliberated(u, s, rounds, k))
    decreases CROSS_EXAM_CAP - s.crossExamRound
  {
    hide RoundDone;
    hide Deliberated;
    RoundSpeaks(u, s, rounds(k));
    DeliberatedUnfolds(u, s, rounds, k);
    var (r, more) := RoundDone(u, s, rounds(k));
    if more && r.crossExamRound < CROSS_EXAM_CAP {
      var next := r.(crossExamRound := r.crossExamRound + 1);
      DeliberationSpeaks(u, next, rounds, k + 1);
      CounterIsSilent(s, r, next);
      hide Speaks;
      SpeaksOn(s, next, Deliberated(u, next, rounds, k + 1));
    }
  }

  lemma CounterIsSilent(s: State, r: State, next: State)
    requires Speaks(s, r) && next == r.(crossExamRound := next.crossExamRound)
    ensures Speaks(s, next)
  {
  }

  lemma ConsultingSpeaks(u: Setup, s: State, t: Turn)
    ensures Speaks(s, Consulted(u, s, t)) && Speaks(s, Opened(s, t))
  {
    var start := Opened(s, t).(roster := Supervised(t).0.smes);
    hide Supervised;
    DeliberationSpeaks(u, start, t.rounds, 0);
    hide Deliberated;
    assert Speaks(s, start) && Speaks(s, Opened(s, t));
    SpeaksOn(s, start, Consulted(u, s, t));
  }

  lemma AskedGrows(s: State, t: State, req: Request)
    requires t.outbound == s.outbound + [Outbound(Ask(req), false)] && req.callId == s.nextId
    requires t.pending == s.pending + [req] && t.nextId == s.nextId + 1
    ensures Grows(s, t)
  {
    var es := Appended(s, t);
    assert es == [] + [Outbound(Ask(req), false)];
    Snoc([], Outbound(Ask(req), false));
    assert Requests(es) == [req];
  }

  lemma GatedOneGrows(u: Setup, s: State, p: Proposed)
    ensures Grows(s, GatedOne(u, s, p))
  {
    var (d, g) := Gates.Evaluate(u.cfg, u.profile, p.action, InvokerFor(s, p), s.gate, false, 0.0);
    var mid := s.(gate := g);
    hide Gates.Evaluate;
    hide RequestFor;
    var t := GatedOne(u, s, p);
    hide InvokerFor;
    if d.decision == Gates.ToConfirm {
      var req := RequestFor(s.nextId, p, InvokerFor(s, p), d);
      RequestIdIs(s.nextId, p, InvokerFor(s, p), d);
      AskedGrows(s, t, req);
    } else {
      assert Speaks(s, t);
      SpeakingGrows(s, t);
    }
  }

  lemma RequestIdIs(callId: nat, p: Proposed, invoker: string, d: Gates.GateDecision)
    ensures RequestFor(callId, p, invoker, d).callId == callId
  {
  }

  lemma {:induction false} GatedAllGrows(u: Setup, s: State, ps: seq<Proposed>)
    ensures Grows(s, GatedAll(u, s, ps))
  {
    hide GatedOne;
    if ps == [] {
      assert Speaks(s, s);
      SpeakingGrows(s, s);
    } else {
      var mid := GatedAll(u, s, ps[..|ps| - 1]);
      GatedAllGrows(u, s, ps[..|ps| - 1]);
      GatedOneGrows(u, mid, ps[|ps| - 1]);
      hide Grows;
      GrowsOn(s, mid, GatedOne(u, mid, ps[|ps| - 1]));
    }
  }

  lemma RanGrows(u: Setup, s: State, t: Turn)
    ensures Grows(s, Ran(u, s, t).0)
  {
    var mid := Consulted(u, s, t);
    ConsultingSpeaks(u, s, t);
    hide Supervised;
    hide Consulted;
    hide Opened;
    if !Supervised(t).0.needsGuild {
      var r := Ran(u, s, t).0;
      OneSpeaks(Opened(s, t), r, Outbound(Speech(t.transcript), false));
      hide Speaks;
      SpeaksOn(s, Opened(s, t), r);
      SpeakingGrows(s, r);
    } else {
      var checked, r := SafetyChecked(u, mid).0, Ran(u, s, t).0;
      CheckingGrows(u, mid);
      SpeakingGrows(s, mid);
      GrowsOn(s, mid, checked);
      hide SafetyChecked;
      hide Grows;
      if r != checked {
        OneSpeaks(checked, r, Outbound(Speech(Headline(checked)), false));
        SpeakingGrows(checked, r);
        GrowsOn(s, checked, r);
      }
    }
  }

  lemma CheckingGrows(u: Setup, s: State)
    ensures Grows(s, SafetyChecked(u, s).0)
  {
    GatedAllGrows(u, s, ActionsOf(s));
    if ActionsOf(s) == [] {
      assert Speaks(s, s);
      SpeakingGrows(s, s);
    }
    hide GatedAll;
    hide Grows;
  }

  /** An answer takes one request off the list and appends no request. */
  lemma AnsweringSpeaks(s: State, callId: nat, approved: bool)
    ensures var r, i := Resumed(s, callId, approved).0, FindPending(s.pending, callId);
            && s.outbound <= r.outbound && NoAsk(Appended(s, r)) && r.nextId == s.nextId
            && r.pending == if i < |s.pending| then RemoveAt(s.pending, i) else s.pending
  {
    hide FindBySummary;
    hide Headline;
    hide RemoveAt;
  }

  /** The entries of a replay of the first `k` pending requests. */
  function AskedAgain(pending: seq<Request>, k: nat): (es: seq<Outbound>)
    requires k <= |pending|
    ensures |es| == k
  {
    if k == 0 then [] else AskedAgain(pending, k - 1) + [Outbound(Ask(pending[k - 1]), false)]
  }

  lemma {:induction false} ReplayAppends(s: State, n: nat)
    requires n <= |s.pending|
    ensures AskAgain(s, n) == s.(outbound := s.outbound + AskedAgain(s.pending, n))
    ensures EventCount(AskedAgain(s.pending, n)) == 0
  {
    if n > 0 {
      ReplayAppends(s, n - 1);
      Snoc(AskedAgain(s.pending, n - 1), Outbound(Ask(s.pending[n - 1]), false));
    }
  }

  // ---------------------------------------------------------------- the outbox trace of a session

  /** What the model does not determine: the addresses of objects, and which pushes the sink accepts. */
  datatype World = World(addr: P.Identity -> nat, accepts: nat -> bool)

  function RequestObj(w: World, q: Request): P.Obj {
    P.Obj(w.addr(P.RequestOf(q.callId)), P.RequestOf(q.callId), Ask(q))
  }

  function EventObj(w: World, n: nat, e: OutEvent): P.Obj {
    P.Obj(w.addr(P.EventNo(n)), P.EventNo(n), e)
  }

  /** The outbox operation that appends the entry, the `n`-th event unless it is a request. */
  function OpFor(w: World, n: nat, e: Outbound): P.Op {
    if e.event.Ask? then P.Post(RequestObj(w, e.event.req), true)
    else if e.streamed then P.Emit(EventObj(w, n, e.event), w.accepts(n))
    else P.Post(EventObj(w, n, e.event), false)
  }

  function OpsFor(w: World, n: nat, es: seq<Outbound>): seq<P.Op> {
    if es == [] then []
    else
      var front := es[..|es| - 1];
      OpsFor(w, n, front) + [OpFor(w, n + EventCount(front), es[|es| - 1])]
  }

  /** A replay appends the pending request objects themselves. */
  function Replays(w: World, pending: seq<Request>, k: nat): seq<P.Op>
    requires k <= |pending|
  {
    if k == 0 then [] else Replays(w, pending, k - 1) + [P.Again(RequestObj(w, pending[k - 1]))]
  }

  /** One engine operation as outbox operations; an answered request is let go before anything is appended. */
  function TraceOf(u: Setup, w: World, s: State, n: nat, op: Op): seq<P.Op> {
    match op
    case RunTurn(_) => OpsFor(w, n, Appended(s, Step(u, s, op)))
    case Answer(callId, _) =>
      var i := FindPending(s.pending, callId);
      (if i < |s.pending| then [P.Release(RequestObj(w, s.pending[i]))] else [])
      + OpsFor(w, n, Appended(s, Step(u, s, op)))
    case ReplayPending => Replays(w, s.pending, |s.pending|)
    case Drain => [P.Drain]
  }

  /** What one operation adds to the entries ever appended. */
  function Logs(u: Setup, s: State, op: Op): seq<Outbound> {
    if op.Drain? then [] else Appended(s, Step(u, s, op))
  }

  /** Every entry the session has ever appended, in order. */
  function Produced(u: Setup, ops: seq<Op>): seq<Outbound> {
    if ops == [] then []
    else
      var front, last := ops[..|ops| - 1], ops[|ops| - 1];
      Produced(u, front) + Logs(u, Session(u, front), last)
  }

  function NewEvents(u: Setup, ops: seq<Op>): nat {
    EventCount(Produced(u, ops))
  }

  function Trace(u: Setup, w: World, ops: seq<Op>): seq<P.Op> {
    if ops == [] then []
    else
      var front, last := ops[..|ops| - 1], ops[|ops| - 1];
      Trace(u, w, front) + TraceOf(u, w, Session(u, front), NewEvents(u, front), last)
  }

  // ---------------------------------------------------------------- the trace tracks the session

  /** The buffer as the engine sees it: an entry is streamed when its address is remembered. */
  function Flags(b: P.Box): (es: seq<Outbound>)
    ensures |es| == |b.buffer|
  {
    seq(|b.buffer|, i requires 0 <= i < |b.buffer| => Outbound(b.buffer[i].event, b.buffer[i].addr in b.streamed))
  }

  function EventsOf(os: seq<P.Obj>): (es: seq<OutEvent>)
    ensures |es| == |os|
  {
    seq(|os|, i requires 0 <= i < |os| => os[i].event)
  }

  lemma EventsOfSnoc(os: seq<P.Obj>, o: P.Obj)
    ensures EventsOf(os + [o]) == EventsOf(os) + [o.event]
  {
  }

  /** The object's identity has been handed out, and it is where the world put it. */
  predicate Issued(w: World, o: P.Obj, n: nat, nextId: nat) {
    o.addr == w.addr(o.id) &&
    match o.id
    case EventNo(k) => k < n
    case RequestOf(c) => c < nextId
  }

  /** The objects kept alive are those of the pending requests. */
  ghost predicate Holds(w: World, b: P.Box, pending: seq<Request>) {
    forall o :: o in b.held <==> exists i :: 0 <= i < |pending| && o == RequestObj(w, pending[i])
  }

  ghost predicate AllIssued(w: World, tr: seq<P.Op>, n: nat, nextId: nat) {
    forall o :: o in P.Posted(tr) || o in P.Emitted(tr) ==> Issued(w, o, n, nextId)
  }

  ghost predicate Logged(tr: seq<P.Op>, log: seq<Outbound>) {
    EventsOf(P.Posted(tr)) == Unstreamed(log) && EventsOf(P.Emitted(tr)) == Pushed(log)
  }

  /** The trace so far is permitted, and its box is the session's outbound list, pending requests and history. */
  ghost predicate Tracks(
      w: World, tr: seq<P.Op>, outbound: seq<Outbound>, pending: seq<Request>, n: nat, nextId: nat, log: seq<Outbound>)
  {
    && P.Permitted(tr) && Flags(P.Final(tr)) == outbound && Holds(w, P.Final(tr), pending)
    && AllIssued(w, tr, n, nextId) && Logged(tr, log)
  }

  lemma FlagsAppend(b: P.Box, o: P.Obj, keep: bool)
    requires P.AddressesCurrent(b)
    requires P.Allocatable(b, o) || o in b.held
    ensures Flags(P.Apply(b, P.Post(o, keep))) == Flags(b) + [Outbound(o.event, false)]
    ensures Flags(P.Apply(b, P.Again(o))) == Flags(b) + [Outbound(o.event, false)]
  {
    if P.Allocatable(b, o) {
      forall i | 0 <= i < |b.buffer| ensures b.buffer[i].addr != o.addr { assert b.buffer[i] in b.buffer; }
    }
    assert o.addr !in b.streamed;
  }

  lemma FlagsEmit(b: P.Box, o: P.Obj, accepts: bool)
    requires P.Allocatable(b, o)
    ensures Flags(P.Apply(b, P.Emit(o, accepts))) == Flags(b) + [Outbound(o.event, true)]
  {
    forall i | 0 <= i < |b.buffer| ensures b.buffer[i].addr != o.addr { assert b.buffer[i] in b.buffer; }
  }

  lemma HoldsPost(w: World, b: P.Box, pending: seq<Request>, q: Request)
    requires Holds(w, b, pending)
    ensures Holds(w, P.Apply(b, P.Post(RequestObj(w, q), true)), pending + [q])
  {
    var r, more := P.Apply(b, P.Post(RequestObj(w, q), true)), pending + [q];
    forall o ensures o in r.held <==> exists i :: 0 <= i < |more| && o == RequestObj(w, more[i]) {
      if o in b.held {
        var i :| 0 <= i < |pending| && o == RequestObj(w, pending[i]);
        assert o == RequestObj(w, more[i]);
      }
      assert more[|pending|] == q;
    }
  }

  lemma IssuedAfter(w: World, tr: seq<P.Op>, op: P.Op, n: nat, nextId: nat, n': nat, nextId': nat)
    requires AllIssued(w, tr, n, nextId) && n <= n' && nextId <= nextId'
    requires op.Post? || op.Again? || op.Emit? ==> Issued(w, op.o, n', nextId')
    ensures AllIssued(w, tr + [op], n', nextId')
  {
    P.RunSnoc(tr, op);
    hide P.Posted;
    hide P.Emitted;
  }

  lemma LoggedAfter(tr: seq<P.Op>, op: P.Op, log: seq<Outbound>, e: Outbound)
    requires Logged(tr, log) && !op.Release? && !op.Drain?
    requires op.o.event == e.event && (op.Emit? <==> e.streamed)
    ensures Logged(tr + [op], log + [e])
  {
    P.RunSnoc(tr, op);
    Snoc(log, e);
    EventsOfSnoc(P.Posted(tr), op.o);
    EventsOfSnoc(P.Emitted(tr), op.o);
    hide P.Posted;
    hide P.Emitted;
    hide EventsOf;
    hide Pushed;
    hide Unstreamed;
  }

  /** An object with an identity not handed out yet has never been appended. */
  lemma NewIsNew(w: World, tr: seq<P.Op>, o: P.Obj, n: nat, nextId: nat)
    requires AllIssued(w, tr, n, nextId)
    requires match o.id case EventNo(k) => k >= n case RequestOf(c) => c >= nextId
    ensures o !in P.Posted(tr) && o !in P.Emitted(tr)
  {
  }

  lemma OpForReads(w: World, n: nat, e: Outbound)
    requires e.event.Ask? ==> !e.streamed
    ensures var op := OpFor(w, n, e);
            && (op.Post? || op.Emit?) && op.o.event == e.event && (op.Emit? <==> e.streamed)
            && op.o.id == (if e.event.Ask? then P.RequestOf(e.event.req.callId) else P.EventNo(n))
            && op.o.addr == w.addr(op.o.id)
  {
  }

  /** What appending the entry does to the box. */
  lemma BoxAfter(w: World, b: P.Box, pending: seq<Request>, n: nat, e: Outbound)
    requires P.AddressesCurrent(b) && P.Allocatable(b, OpFor(w, n, e).o) && Holds(w, b, pending)
    requires e.event.Ask? ==> !e.streamed
    ensures var r := P.Apply(b, OpFor(w, n, e));
            Flags(r) == Flags(b) + [e] && Holds(w, r, if e.event.Ask? then pending + [e.event.req] else pending)
  {
    var op := OpFor(w, n, e);
    if e.event.Ask? {
      FlagsAppend(b, op.o, true);
      HoldsPost(w, b, pending, e.event.req);
    } else if e.streamed {
      FlagsEmit(b, op.o, w.accepts(n));
    } else {
      FlagsAppend(b, op.o, false);
    }
    hide Flags;
    hide P.Allocatable;
    hide P.AddressesCurrent;
  }

  /** Appending one entry keeps the trace in step, provided its object gets a free address. */
  lemma EntryTracks(
      w: World, tr: seq<P.Op>, outbound: seq<Outbound>, pending: seq<Request>, n: nat, nextId: nat, log: seq<Outbound>,
      e: Outbound)
    requires Tracks(w, tr, outbound, pending, n, nextId, log) && P.FreshlyAllocated(tr + [OpFor(w, n, e)])
    requires e.event.Ask? ==> !e.streamed && e.event.req.callId == nextId
    ensures var ask := e.event.Ask?;
            Tracks(w, tr + [OpFor(w, n, e)], outbound + [e], if ask then pending + [e.event.req] else pending,
                   if ask then n else n + 1, if ask then nextId + 1 else nextId, log + [e])
  {
    hide AllIssued;
    hide Logged;
    hide Holds;
    hide Flags;
    hide OpFor;
    hide P.FreshlyAllocated;
    hide P.Permitted;
    hide P.Allocatable;
    hide P.Final;
    hide P.Apply;
    var op, ask := OpFor(w, n, e), e.event.Ask?;
    OpForReads(w, n, e);
    P.RunSnoc(tr, op);
    P.PermittedSnoc(tr, op);
    P.LedgerBalances(tr);
    NewIsNew(w, tr, op.o, n, nextId);
    IssuedAfter(w, tr, op, n, nextId, if ask then n else n + 1, if ask then nextId + 1 else nextId);
    LoggedAfter(tr, op, log, e);
    BoxAfter(w, P.Final(tr), pending, n, e);
  }

  lemma {:induction false} FreshPrefix(a: seq<P.Op>, b: seq<P.Op>)
    requires P.FreshlyAllocated(a + b)
    ensures P.FreshlyAllocated(a)
  {
    if b == [] {
      assert a + b == a;
    } else {
      var front, last := b[..|b| - 1], b[|b| - 1];
      assert a + b == (a + front) + [last];
      P.PermittedSnoc(a + front, last);
      FreshPrefix(a, front);
    }
  }

  lemma NumberedFront(es: seq<Outbound>, n: nat)
    requires es != [] && Numbered(es, n)
    ensures var front, last := es[..|es| - 1], es[|es| - 1];
            && Numbered(front, n)
            && (last.event.Ask? ==> !last.streamed && last.event.req.callId == n + |Requests(front)|)
  {
    var front, last := es[..|es| - 1], es[|es| - 1];
    assert es == front + [last];
    Snoc(front, last);
    var rs := Requests(es);
    assert forall i :: 0 <= i < |Requests(front)| ==> Requests(front)[i] == rs[i];
    if last.event.Ask? {
      assert rs[|rs| - 1] == last.event.req;
    }
  }

  lemma {:induction false} EntriesTrack(
      w: World, tr: seq<P.Op>, outbound: seq<Outbound>, pending: seq<Request>, n: nat, nextId: nat, log: seq<Outbound>,
      es: seq<Outbound>)
    requires Tracks(w, tr, outbound, pending, n, nextId, log)
    requires P.FreshlyAllocated(tr + OpsFor(w, n, es)) && Numbered(es, nextId)
    ensures Tracks(w, tr + OpsFor(w, n, es), outbound + es, pending + Requests(es),
                   n + EventCount(es), nextId + |Requests(es)|, log + es)
  {
    hide Tracks;
    hide OpsFor;
    hide OpFor;
    hide Requests;
    hide EventCount;
    hide Numbered;
    if es == [] {
      NoEntries(w, n);
      assert tr + [] == tr && outbound + es == outbound && log + es == log && pending + [] == pending;
    } else {
      var front, last := es[..|es| - 1], es[|es| - 1];
      var mid, op := tr + OpsFor(w, n, front), OpFor(w, n + EventCount(front), last);
      OpsForSnoc(w, n, front, last);
      Snoc(front, last);
      assert es == front + [last] && tr + OpsFor(w, n, es) == mid + [op];
      FreshPrefix(mid, [op]);
      NumberedFront(es, nextId);
      EntriesTrack(w, tr, outbound, pending, n, nextId, log, front);
      EntryTracks(w, mid, outbound + front, pending + Requests(front), n + EventCount(front),
                  nextId + |Requests(front)|, log + front, last);
      assert (outbound + front) + [last] == outbound + es && (log + front) + [last] == log + es;
      assert pending + Requests(es)
             == if last.event.Ask? then (pending + Requests(front)) + [last.event.req] else pending + Requests(front);
    }
  }

  lemma NoEntries(w: World, n: nat)
    ensures OpsFor(w, n, []) == [] && Requests([]) == [] && EventCount([]) == 0
  {
  }

  lemma OpsForSnoc(w: World, n: nat, front: seq<Outbound>, last: Outbound)
    ensures OpsFor(w, n, front + [last]) == OpsFor(w, n, front) + [OpFor(w, n + EventCount(front), last)]
  {
    assert (front + [last])[..|front|] == front;
  }

  lemma ReplayedTracks(
      w: World, tr: seq<P.Op>, outbound: seq<Outbound>, pending: seq<Request>, n: nat, nextId: nat, log: seq<Outbound>,
      i: nat)
    requires Tracks(w, tr, outbound, pending, n, nextId, log) && i < |pending| && pending[i].callId < nextId
    ensures var e := Outbound(Ask(pending[i]), false);
            Tracks(w, tr + [P.Again(RequestObj(w, pending[i]))], outbound + [e], pending, n, nextId, log + [e])
  {
    var o := RequestObj(w, pending[i]);
    P.RunSnoc(tr, P.Again(o));
    P.PermittedSnoc(tr, P.Again(o));
    P.LedgerBalances(tr);
    FlagsAppend(P.Final(tr), o, true);
    IssuedAfter(w, tr, P.Again(o), n, nextId, n, nextId);
    LoggedAfter(tr, P.Again(o), log, Outbound(Ask(pending[i]), false));
    hide AllIssued;
    hide Logged;
    hide Flags;
    hide P.Permitted;
    hide P.Final;
  }

  lemma {:induction false} ReplaysTrack(
      w: World, tr: seq<P.Op>, outbound: seq<Outbound>, pending: seq<Request>, n: nat, nextId: nat, log: seq<Outbound>,
      k: nat)
    requires Tracks(w, tr, outbound, pending, n, nextId, log) && k <= |pending|
    requires forall i :: 0 <= i < |pending| ==> pending[i].callId < nextId
    ensures Tracks(w, tr + Replays(w, pending, k), outbound + AskedAgain(pending, k), pending, n, nextId,
                   log + AskedAgain(pending, k))
  {
    hide Tracks;
    hide RequestObj;
    var es := AskedAgain(pending, k);
    if k == 0 {
      assert tr + Replays(w, pending, k) == tr && outbound + es == outbound && log + es == log;
    } else {
      var front, e := AskedAgain(pending, k - 1), Outbound(Ask(pending[k - 1]), false);
      ReplaysTrack(w, tr, outbound, pending, n, nextId, log, k - 1);
      var mid := tr + Replays(w, pending, k - 1);
      ReplayedTracks(w, mid, outbound + front, pending, n, nextId, log + front, k - 1);
      assert tr + Replays(w, pending, k) == mid + [P.Again(RequestObj(w, pending[k - 1]))];
      assert (outbound + front) + [e] == outbound + es && (log + front) + [e] == log + es;
    }
  }

  lemma HoldsRelease(w: World, b: P.Box, pending: seq<Request>, i: nat, nextId: nat)
    requires Holds(w, b, pending) && Confirmations.IdsInOrder(pending, nextId) && i < |pending|
    ensures Holds(w, P.Apply(b, P.Release(RequestObj(w, pending[i]))), RemoveAt(pending, i))
  {
    var gone, rest := RequestObj(w, pending[i]), RemoveAt(pending, i);
    forall o ensures o in b.held - {gone} <==> exists j :: 0 <= j < |rest| && o == RequestObj(w, rest[j]) {
      if o in b.held && o != gone {
        var j :| 0 <= j < |pending| && o == RequestObj(w, pending[j]);
        assert j != i && rest[if j < i then j else j - 1] == pending[j];
      }
      if j :| 0 <= j < |rest| && o == RequestObj(w, rest[j]) {
        var k := if j < i then j else j + 1;
        assert rest[j] == pending[k] && pending[k].callId != pending[i].callId;
      }
    }
  }

  lemma ReleaseTracks(
      w: World, tr: seq<P.Op>, outbound: seq<Outbound>, pending: seq<Request>, n: nat, nextId: nat, log: seq<Outbound>,
      i: nat)
    requires Tracks(w, tr, outbound, pending, n, nextId, log)
    requires Confirmations.IdsInOrder(pending, nextId) && i < |pending|
    ensures Tracks(w, tr + [P.Release(RequestObj(w, pending[i]))], outbound, RemoveAt(pending, i), n, nextId, log)
  {
    var op := P.Release(RequestObj(w, pending[i]));
    P.RunSnoc(tr, op);
    P.PermittedSnoc(tr, op);
    HoldsRelease(w, P.Final(tr), pending, i, nextId);
    assert Flags(P.Apply(P.Final(tr), op)) == Flags(P.Final(tr));
    hide Holds;
  }

  lemma DrainTracks(
      w: World, tr: seq<P.Op>, outbound: seq<Outbound>, pending: seq<Request>, n: nat, nextId: nat, log: seq<Outbound>)
    requires Tracks(w, tr, outbound, pending, n, nextId, log)
    ensures Tracks(w, tr + [P.Drain], [], pending, n, nextId, log)
  {
    P.RunSnoc(tr, P.Drain);
    P.PermittedSnoc(tr, P.Drain);
    assert P.Apply(P.Final(tr), P.Drain).buffer == [];
    assert Flags(P.Apply(P.Final(tr), P.Drain)) == [];
  }

  // ---------------------------------------------------------------- whole sessions

  lemma {:induction false} EventCountConcat(a: seq<Outbound>, b: seq<Outbound>)
    ensures EventCount(a + b) == EventCount(a) + EventCount(b)
  {
    if b == [] {
      assert a + b == a;
    } else {
      EventCountConcat(a, b[..|b| - 1]);
      assert (a + b)[..|a + b| - 1] == a + b[..|b| - 1];
    }
  }

  /** `tr` tracks a session in state `s` that has produced `log`. */
  ghost predicate TracksState(w: World, tr: seq<P.Op>, s: State, log: seq<Outbound>) {
    Tracks(w, tr, s.outbound, s.pending, EventCount(log), s.nextId, log)
  }

  lemma TurnTracks(u: Setup, w: World, tr: seq<P.Op>, s: State, log: seq<Outbound>, t: Turn)
    requires TracksState(w, tr, s, log)
    requires P.FreshlyAllocated(tr + OpsFor(w, EventCount(log), Appended(s, Ran(u, s, t).0)))
    ensures var r := Ran(u, s, t).0;
            TracksState(w, tr + OpsFor(w, EventCount(log), Appended(s, r)), r, log + Appended(s, r))
  {
    var r := Ran(u, s, t).0;
    var es := Appended(s, r);
    RanGrows(u, s, t);
    hide Ran;
    hide Tracks;
    assert r.outbound == s.outbound + es;
    EntriesTrack(w, tr, s.outbound, s.pending, EventCount(log), s.nextId, log, es);
    EventCountConcat(log, es);
  }

  /** The request at `i`, if there is one, is let go; then other events are appended. */
  function LetGo(w: World, pending: seq<Request>, i: nat): seq<P.Op> {
    if i < |pending| then [P.Release(RequestObj(w, pending[i]))] else []
  }

  lemma LetGoTracks(
      w: World, tr: seq<P.Op>, outbound: seq<Outbound>, pending: seq<Request>, n: nat, nextId: nat, log: seq<Outbound>,
      i: nat)
    requires Tracks(w, tr, outbound, pending, n, nextId, log) && Confirmations.IdsInOrder(pending, nextId)
    ensures var rest := if i < |pending| then RemoveAt(pending, i) else pending;
            Tracks(w, tr + LetGo(w, pending, i), outbound, rest, n, nextId, log)
  {
    hide Tracks;
    if i < |pending| {
      ReleaseTracks(w, tr, outbound, pending, n, nextId, log, i);
    } else {
      assert tr + LetGo(w, pending, i) == tr;
    }
  }

  lemma SpeakingTracks(
      w: World, tr: seq<P.Op>, outbound: seq<Outbound>, pending: seq<Request>, n: nat, nextId: nat, log: seq<Outbound>,
      es: seq<Outbound>)
    requires Tracks(w, tr, outbound, pending, n, nextId, log) && NoAsk(es)
    requires P.FreshlyAllocated(tr + OpsFor(w, n, es))
    ensures Tracks(w, tr + OpsFor(w, n, es), outbound + es, pending, n + EventCount(es), nextId, log + es)
  {
    hide Tracks;
    hide OpsFor;
    hide P.FreshlyAllocated;
    NoAskNoRequests(es);
    NoAskNumbered(es, nextId);
    EntriesTrack(w, tr, outbound, pending, n, nextId, log, es);
    assert pending + [] == pending;
  }

  lemma AnswerTracks(u: Setup, w: World, tr: seq<P.Op>, s: State, log: seq<Outbound>, callId: nat, approved: bool)
    requires TracksState(w, tr, s, log) && Confirmations.IdsInOrder(s.pending, s.nextId)
    requires P.FreshlyAllocated(tr + TraceOf(u, w, s, EventCount(log), Answer(callId, approved)))
    ensures var r := Resumed(s, callId, approved).0;
            TracksState(w, tr + TraceOf(u, w, s, EventCount(log), Answer(callId, approved)), r, log + Appended(s, r))
  {
    hide Tracks;
    hide OpsFor;
    hide P.FreshlyAllocated;
    hide LetGo;
    hide Resumed;
    hide TraceOf;
    hide RemoveAt;
    var r, i, n := Resumed(s, callId, approved).0, FindPending(s.pending, callId), EventCount(log);
    var es, first := Appended(s, r), LetGo(w, s.pending, i);
    AnsweringSpeaks(s, callId, approved);
    AnswerTrace(u, w, s, n, callId, approved);
    assert s.outbound + es == r.outbound;
    hide Appended;
    hide EventCount;
    EventCountConcat(log, es);
    LetGoTracks(w, tr, s.outbound, s.pending, n, s.nextId, log, i);
    assert tr + (first + OpsFor(w, n, es)) == (tr + first) + OpsFor(w, n, es);
    SpeakingTracks(w, tr + first, s.outbound, r.pending, n, s.nextId, log, es);
  }

  lemma AnswerTrace(u: Setup, w: World, s: State, n: nat, callId: nat, approved: bool)
    ensures var i, r := FindPending(s.pending, callId), Resumed(s, callId, approved).0;
            TraceOf(u, w, s, n, Answer(callId, approved))
            == LetGo(w, s.pending, i) + OpsFor(w, n, Appended(s, r))
  {
    hide Resumed;
    hide OpsFor;
    hide Appended;
  }

  lemma NoAskNumbered(es: seq<Outbound>, n: nat)
    requires NoAsk(es)
    ensures Numbered(es, n)
  {
    NoAskNoRequests(es);
  }

  /** A replay appends the pending requests and does nothing else. */
  lemma ReplayEffect(s: State)
    ensures var r, es := AskAgain(s, |s.pending|), AskedAgain(s.pending, |s.pending|);
            && r.outbound == s.outbound + es && Appended(s, r) == es && EventCount(es) == 0
            && r.pending == s.pending && r.nextId == s.nextId
  {
    ReplayAppends(s, |s.pending|);
    hide AskAgain;
    hide AskedAgain;
    hide EventCount;
  }

  lemma ReplayTracks(w: World, tr: seq<P.Op>, s: State, log: seq<Outbound>)
    requires TracksState(w, tr, s, log) && Confirmations.IdsInOrder(s.pending, s.nextId)
    ensures var r := AskAgain(s, |s.pending|);
            TracksState(w, tr + Replays(w, s.pending, |s.pending|), r, log + Appended(s, r))
  {
    hide AskAgain;
    hide AskedAgain;
    hide Appended;
    hide Tracks;
    hide Replays;
    hide EventCount;
    var k := |s.pending|;
    ReplayEffect(s);
    EventCountConcat(log, AskedAgain(s.pending, k));
    ReplaysTrack(w, tr, s.outbound, s.pending, EventCount(log), s.nextId, log, k);
  }

  lemma StepTracks(u: Setup, w: World, tr: seq<P.Op>, s: State, log: seq<Outbound>, op: Op)
    requires TracksState(w, tr, s, log) && Confirmations.IdsInOrder(s.pending, s.nextId)
    requires P.FreshlyAllocated(tr + TraceOf(u, w, s, EventCount(log), op))
    ensures TracksState(w, tr + TraceOf(u, w, s, EventCount(log), op), Step(u, s, op), log + Logs(u, s, op))
  {
    hide Tracks;
    hide Ran;
    hide Resumed;
    hide AskAgain;
    hide Appended;
    hide P.FreshlyAllocated;
    match op
    case RunTurn(t) => TurnTracks(u, w, tr, s, log, t);
    case Answer(c, approved) => AnswerTracks(u, w, tr, s, log, c, approved);
    case ReplayPending => ReplayTracks(w, tr, s, log);
    case Drain =>
      DrainTracks(w, tr, s.outbound, s.pending, EventCount(log), s.nextId, log);
      assert log + [] == log;
  }

  lemma {:induction false} SessionTracks(u: Setup, w: World, ops: seq<Op>)
    requires P.FreshlyAllocated(Trace(u, w, ops))
    ensures TracksState(w, Trace(u, w, ops), Session(u, ops), Produced(u, ops))
  {
    hide TraceOf;
    hide Step;
    hide Logs;
    hide P.FreshlyAllocated;
    if ops != [] {
      var front, last := ops[..|ops| - 1], ops[|ops| - 1];
      var s, tr, log := Session(u, front), Trace(u, w, front), Produced(u, front);
      FreshPrefix(tr, TraceOf(u, w, s, EventCount(log), last));
      SessionTracks(u, w, front);
      Confirmations.Reachable(u, front);
      hide TracksState;
      StepTracks(u, w, tr, s, log, last);
    } else {
      assert Flags(P.EMPTY) == [] && EventsOf([]) == [];
    }
  }

  lemma {:induction false} UndrainedIsUnstreamed(buffer: seq<P.Obj>, streamed: set<nat>, held: set<P.Obj>)
    ensures EventsOf(P.Undrained(buffer, streamed)) == Unstreamed(Flags(P.Box(buffer, streamed, held)))
  {
    if buffer != [] {
      var front, last := buffer[..|buffer| - 1], buffer[|buffer| - 1];
      UndrainedIsUnstreamed(front, streamed, held);
      assert Flags(P.Box(buffer, streamed, held))[..|buffer| - 1] == Flags(P.Box(front, streamed, held));
      if last.addr !in streamed { EventsOfSnoc(P.Undrained(front, streamed), last); }
    }
  }

  lemma EventsOfConcat(a: seq<P.Obj>, b: seq<P.Obj>)
    ensures EventsOf(a + b) == EventsOf(a) + EventsOf(b)
  {
  }

  /**
   * Exactly once, for every session: as long as the allocator never gives a new event the address of a live one,
   * the remembered addresses mark exactly the streamed entries of the outbound list; what the drains have handed
   * to the bus, followed by what is still to be drained, is exactly what turns, answers and replays produced
   * without streaming, in order; what was pushed to the sink is exactly what they streamed, in order; and nothing
   * pushed is ever drained.
   */
  lemma SessionPublishesExactlyOnce(u: Setup, w: World, ops: seq<Op>)
    requires P.FreshlyAllocated(Trace(u, w, ops))
    ensures var s, tr, log := Session(u, ops), Trace(u, w, ops), Produced(u, ops);
            && P.Permitted(tr)
            && Flags(P.Final(tr)) == s.outbound
            && EventsOf(P.AllDrained(tr)) + Unstreamed(s.outbound) == Unstreamed(log)
            && EventsOf(P.Emitted(tr)) == Pushed(log)
            && (forall o :: o in P.Emitted(tr) ==> o !in P.AllDrained(tr))
  {
    var tr := Trace(u, w, ops);
    SessionTracks(u, w, ops);
    hide Trace;
    hide Session;
    hide Produced;
    P.PublishedExactlyOnce(tr);
    var b := P.Final(tr);
    UndrainedIsUnstreamed(b.buffer, b.streamed, b.held);
    assert P.Box(b.buffer, b.streamed, b.held) == b;
    EventsOfConcat(P.AllDrained(tr), P.Undrained(b.buffer, b.streamed));
  }

  // ---------------------------------------------------------------- the allocator's duty can be met

  /** No address is ever used twice. */
  ghost predicate NeverReused(w: World) {
    forall a, b :: w.addr(a) == w.addr(b) ==> a == b
  }

  lemma {:induction false} LiveIsOnRecord(tr: seq<P.Op>)
    requires P.Permitted(tr)
    ensures var b := P.Final(tr); forall o :: o in b.buffer || o in b.held ==> o in P.Posted(tr) || o in P.Emitted(tr)
  {
    if tr != [] {
      var front, last := tr[..|tr| - 1], tr[|tr| - 1];
      assert tr == front + [last];
      P.RunSnoc(front, last);
      P.PermittedSnoc(front, last);
      LiveIsOnRecord(front);
      hide P.Final;
      hide P.Posted;
      hide P.Emitted;
      hide P.Permitted;
    }
  }

  lemma EntryIsFresh(
      w: World, tr: seq<P.Op>, outbound: seq<Outbound>, pending: seq<Request>, n: nat, nextId: nat, log: seq<Outbound>,
      e: Outbound)
    requires Tracks(w, tr, outbound, pending, n, nextId, log) && P.FreshlyAllocated(tr) && NeverReused(w)
    requires e.event.Ask? ==> e.event.req.callId == nextId
    ensures P.FreshlyAllocated(tr + [OpFor(w, n, e)])
  {
    var o, b := OpFor(w, n, e).o, P.Final(tr);
    LiveIsOnRecord(tr);
    forall p | p in b.buffer || p in b.held ensures p.addr != o.addr {
      assert Issued(w, p, n, nextId);
    }
    P.PermittedSnoc(tr, OpFor(w, n, e));
  }

  lemma {:induction false} EntriesAreFresh(
      w: World, tr: seq<P.Op>, outbound: seq<Outbound>, pending: seq<Request>, n: nat, nextId: nat, log: seq<Outbound>,
      es: seq<Outbound>)
    requires Tracks(w, tr, outbound, pending, n, nextId, log) && P.FreshlyAllocated(tr) && NeverReused(w)
    requires Numbered(es, nextId)
    ensures P.FreshlyAllocated(tr + OpsFor(w, n, es))
  {
    hide Tracks;
    hide P.FreshlyAllocated;
    hide NeverReused;
    hide OpsFor;
    hide OpFor;
    hide Numbered;
    if es == [] {
      NoEntries(w, n);
      assert tr + [] == tr;
    } else {
      var front, last := es[..|es| - 1], es[|es| - 1];
      OpsForSnoc(w, n, front, last);
      NumberedFront(es, nextId);
      EntriesAreFresh(w, tr, outbound, pending, n, nextId, log, front);
      EntriesTrack(w, tr, outbound, pending, n, nextId, log, front);
      var mid := tr + OpsFor(w, n, front);
      EntryIsFresh(w, mid, outbound + front, pending + Requests(front), n + EventCount(front),
                   nextId + |Requests(front)|, log + front, last);
      assert es == front + [last];
      assert tr + OpsFor(w, n, es) == mid + [OpFor(w, n + EventCount(front), last)];
    }
  }

  lemma {:induction false} NoAllocation(tr: seq<P.Op>, ops: seq<P.Op>)
    requires P.FreshlyAllocated(tr) && forall op :: op in ops ==> !op.Post? && !op.Emit?
    ensures P.FreshlyAllocated(tr + ops)
  {
    hide P.FreshlyAllocated;
    if ops == [] {
      assert tr + ops == tr;
    } else {
      var front, last := ops[..|ops| - 1], ops[|ops| - 1];
      assert tr + ops == (tr + front) + [last];
      NoAllocation(tr, front);
      P.PermittedSnoc(tr + front, last);
    }
  }

  lemma {:induction false} ReplaysOnlyAgain(w: World, pending: seq<Request>, k: nat)
    requires k <= |pending|
    ensures forall op :: op in Replays(w, pending, k) ==> op.Again?
  {
    if k > 0 { ReplaysOnlyAgain(w, pending, k - 1); }
  }

  lemma AnswerIsFresh(u: Setup, w: World, tr: seq<P.Op>, s: State, log: seq<Outbound>, callId: nat, approved: bool)
    requires TracksState(w, tr, s, log) && P.FreshlyAllocated(tr) && NeverReused(w)
    requires Confirmations.IdsInOrder(s.pending, s.nextId)
    ensures P.FreshlyAllocated(tr + TraceOf(u, w, s, EventCount(log), Answer(callId, approved)))
  {
    hide Tracks;
    hide OpsFor;
    hide P.FreshlyAllocated;
    hide Resumed;
    hide TraceOf;
    hide RemoveAt;
    hide NeverReused;
    var i, n := FindPending(s.pending, callId), EventCount(log);
    var es, first := Appended(s, Resumed(s, callId, approved).0), LetGo(w, s.pending, i);
    AnsweringSpeaks(s, callId, approved);
    AnswerTrace(u, w, s, n, callId, approved);
    LetGoTracks(w, tr, s.outbound, s.pending, n, s.nextId, log, i);
    NoAllocation(tr, first);
    hide LetGo;
    hide Appended;
    NoAskNumbered(es, s.nextId);
    hide NoAsk;
    hide Numbered;
    var rest := if i < |s.pending| then RemoveAt(s.pending, i) else s.pending;
    EntriesAreFresh(w, tr + first, s.outbound, rest, n, s.nextId, log, es);
    assert tr + (first + OpsFor(w, n, es)) == (tr + first) + OpsFor(w, n, es);
  }

  /** A world that reuses no address meets the allocator's duty in every session: the theorem above is never idle. */
  lemma {:induction false} SomeWorldIsFresh(u: Setup, w: World, ops: seq<Op>)
    requires NeverReused(w)
    ensures P.FreshlyAllocated(Trace(u, w, ops))
  {
    hide NeverReused;
    hide P.FreshlyAllocated;
    if ops == [] {
      P.NothingAllocated();
    } else {
      var front, last := ops[..|ops| - 1], ops[|ops| - 1];
      var s, tr, log := Session(u, front), Trace(u, w, front), Produced(u, front);
      SomeWorldIsFresh(u, w, front);
      SessionTracks(u, w, front);
      Confirmations.Reachable(u, front);
      hide Tracks;
      hide Session;
      hide Produced;
      match last
      case RunTurn(t) =>
        RanGrows(u, s, t);
        hide Ran;
        EntriesAreFresh(w, tr, s.outbound, s.pending, EventCount(log), s.nextId, log, Appended(s, Ran(u, s, t).0));
      case Answer(c, approved) => hide Resumed; AnswerIsFresh(u, w, tr, s, log, c, approved);
      case ReplayPending =>
        ReplaysOnlyAgain(w, s.pending, |s.pending|);
        NoAllocation(tr, Replays(w, s.pending, |s.pending|));
      case Drain => NoAllocation(tr, [P.Drain]);
    }
  }
}
