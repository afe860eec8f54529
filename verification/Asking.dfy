/** When a session can still ask for a confirmation: exactly until three answers have kept their slots. */
module Asking {
  import opened Common
  import opened Events
  import opened Gates
  import opened Fanout
  import opened Engine
  import opened Opinions
  import opened Confirmations

  // ---------------------------------------------------------------- a turn with one expert

  function Reply(sme: string, ps: seq<Proposed>): SmeResponse {
    SmeResponse(sme, 1.0, "", "", ps)
  }

  /** One expert is consulted once, and proposes `ps`. */
  function SoloRound(sme: string, ps: seq<Proposed>): Round {
    Round(i => Script([], Some(Reply(sme, ps))), {}, Some(("", [])), None)
  }

  function Solo(sme: string, ps: seq<Proposed>): Turn {
    Turn("", [], Some(Route(true, [sme])), None, k => SoloRound(sme, ps))
  }

  /** The merge of a solo turn: the expert's new reply among the earlier replies of the others. */
  function SoloTaken(s: State, sme: string, ps: seq<Proposed>): Taken {
    TakenFrom(AssignAll(s.invokerOf, ps, sme), Kept(Upsert(s.responses, sme, Reply(sme, ps))))
  }

  lemma SoloFanOut(s: State, sme: string, ps: seq<Proposed>)
    requires s.roster == [sme]
    ensures var t := Summoned(s, SoloRound(sme, ps));
            && t.responses == Upsert(s.responses, sme, Reply(sme, ps))
            && t.invokerOf == AssignAll(s.invokerOf, ps, sme)
  {
    var job := JobOf(s, SoloRound(sme, ps));
    assert ResponseAt(job, 0) == Reply(sme, ps);
    hide Upsert;
    hide AssignAll;
    hide BufferAt;
    assert Table(job, s.responses, 0) == s.responses && InvokersUpTo(s.invokerOf, job, 0) == s.invokerOf;
    assert Table(job, s.responses, 1) == Upsert(s.responses, sme, Reply(sme, ps));
    assert InvokersUpTo(s.invokerOf, job, 1) == AssignAll(s.invokerOf, ps, sme);
  }

  lemma SoloMerges(u: Setup, s: State, sme: string, ps: seq<Proposed>)
    requires s.roster == [sme]
    ensures var r := RoundDone(u, s, SoloRound(sme, ps)).0;
            && ActionsOf(r) == SoloTaken(s, sme, ps).actions && r.invokerOf == SoloTaken(s, sme, ps).invokerOf
            && r.responses == Upsert(s.responses, sme, Reply(sme, ps))
    ensures !RoundDone(u, s, SoloRound(sme, ps)).1
  {
    SoloFanOut(s, sme, ps);
    hide Summoned;
    hide TakenFrom;
    hide Kept;
    hide Upsert;
    hide AssignAll;
  }

  lemma SoloConsults(u: Setup, s: State, sme: string, ps: seq<Proposed>)
    ensures var r := Consulted(u, s, Solo(sme, ps));
            && ActionsOf(r) == SoloTaken(s, sme, ps).actions && r.invokerOf == SoloTaken(s, sme, ps).invokerOf
            && r.responses == Upsert(s.responses, sme, Reply(sme, ps))
    ensures Supervised(Solo(sme, ps)).0.needsGuild
  {
    var t := Solo(sme, ps);
    assert Supervised(t) == (Route(true, [sme]), false);
    var start := Opened(s, t).(roster := [sme]);
    hide Supervised;
    SoloMerges(u, start, sme, ps);
    hide RoundDone;
    hide SoloTaken;
    DeliberatedUnfolds(u, start, t.rounds, 0);
    assert t.rounds(0) == SoloRound(sme, ps);
    hide Deliberated;
    assert SoloTaken(start, sme, ps) == SoloTaken(s, sme, ps) by { SoloTakenReads(start, s, sme, ps); }
  }

  lemma SoloTakenReads(s: State, t: State, sme: string, ps: seq<Proposed>)
    requires s.invokerOf == t.invokerOf && s.responses == t.responses
    ensures SoloTaken(s, sme, ps) == SoloTaken(t, sme, ps)
  {
  }

  // ---------------------------------------------------------------- a new proposal reaches the gate

  ghost predicate NewText(t: Responses, text: string) {
    forall i, q :: 0 <= i < |t| && q in t[i].1.proposed ==> q.action.argsText != text
  }

  lemma {:induction false} UpsertMembers(t: Responses, sme: string, r: SmeResponse)
    ensures exists i :: 0 <= i < |Upsert(t, sme, r)| && Upsert(t, sme, r)[i].1 == r
    ensures forall e :: e in Upsert(t, sme, r) ==> e.1 == r || e in t
  {
    var w := Upsert(t, sme, r);
    if t == [] {
      assert w[0].1 == r;
    } else if t[0].0 == sme {
      assert w[0].1 == r;
      assert forall e :: e in t[1..] ==> e in t;
    } else {
      UpsertMembers(t[1..], sme, r);
      var i :| 0 <= i < |Upsert(t[1..], sme, r)| && Upsert(t[1..], sme, r)[i].1 == r;
      assert w[i + 1].1 == r;
      assert t == [t[0]] + t[1..];
    }
  }

  lemma {:induction false} ProposedBySome(rs: seq<SmeResponse>, p: Proposed)
    ensures p in AllProposed(rs) <==> exists r :: r in rs && p in r.proposed
  {
    if rs != [] {
      var front, last := rs[..|rs| - 1], rs[|rs| - 1];
      ProposedBySome(front, p);
      assert rs == front + [last];
    }
  }

  lemma {:induction false} TakingKeepsInvokers(acc: Taken, sme: string, ps: seq<Proposed>, uid: nat)
    requires uid in acc.invokerOf
    ensures var t := TakeAll(acc, sme, ps); uid in t.invokerOf && t.invokerOf[uid] == acc.invokerOf[uid]
  {
    if ps != [] { TakingKeepsInvokers(acc, sme, ps[..|ps| - 1], uid); }
  }

  lemma {:induction false} MergingKeepsInvokers(m: map<nat, string>, rs: seq<SmeResponse>, uid: nat)
    requires uid in m
    ensures var t := TakenFrom(m, rs); uid in t.invokerOf && t.invokerOf[uid] == m[uid]
  {
    if rs != [] {
      MergingKeepsInvokers(m, rs[..|rs| - 1], uid);
      TakingKeepsInvokers(TakenFrom(m, rs[..|rs| - 1]), rs[|rs| - 1].smeId, rs[|rs| - 1].proposed, uid);
    }
  }

  lemma AssignOne(m: map<nat, string>, p: Proposed, sme: string)
    ensures AssignAll(m, [p], sme) == m[p.uid := sme]
  {
    assert [p][..0] == [];
    assert AssignAll(m, [], sme) == m;
  }

  /** A proposal with a new argument text is merged, and under its proposer's name. */
  lemma NewProposalIsTaken(s: State, sme: string, p: Proposed)
    requires NewText(s.responses, p.action.argsText)
    ensures var t := SoloTaken(s, sme, [p]); p in t.actions && p.uid in t.invokerOf && t.invokerOf[p.uid] == sme
  {
    var m, table := AssignAll(s.invokerOf, [p], sme), Upsert(s.responses, sme, Reply(sme, [p]));
    var kept, reply := Kept(table), Reply(sme, [p]);
    var taken := TakenFrom(m, kept).actions;
    AssignOne(s.invokerOf, p, sme);
    MergingKeepsInvokers(m, kept, p.uid);
    MergeKeepsFirstOccurrences(m, kept);
    UpsertMembers(s.responses, sme, reply);
    KeptIffConfident(table, reply);
    ProposedBySome(kept, p);
    hide AssignAll;
    hide TakenFrom;
    hide Kept;
    hide Upsert;
    assert p in reply.proposed && p in AllProposed(kept);
    var q :| q in taken && SameStep(q, p);
    TakenIsProposed(taken, AllProposed(kept), q);
    ProposedBySome(kept, q);
    var r :| r in kept && q in r.proposed;
    KeptIffConfident(table, r);
    var i :| 0 <= i < |table| && table[i].1 == r;
    assert table[i] in table;
    assert r == reply && q == p;
  }

  lemma TakenIsProposed(taken: seq<Proposed>, from: seq<Proposed>, q: Proposed)
    requires FirstOccurrences(taken, from) && q in taken
    ensures q in from
  {
    var at: seq<nat> :| Embeds(at, taken, from);
    var i :| 0 <= i < |taken| && taken[i] == q;
    assert from[at[i]] == q;
  }

  // ---------------------------------------------------------------- a confirmable proposal is asked about

  /** A gating pass takes one slot and adds one request per call id, and touches nothing else of the session. */
  ghost predicate GateLedger(s: State, t: State) {
    && s.nextId <= t.nextId
    && t.gate.pendingCount == s.gate.pendingCount + (t.nextId - s.nextId)
    && |t.pending| == |s.pending| + (t.nextId - s.nextId) && s.pending <= t.pending
    && t.gate.skipCounts == s.gate.skipCounts && t.invokerOf == s.invokerOf
  }

  lemma GatedOneLedger(u: Setup, s: State, p: Proposed)
    ensures GateLedger(s, GatedOne(u, s, p))
    ensures GatedOne(u, s, p).nextId > s.nextId <==> RowFor(u, s, p).decision == ToConfirm
  {
    GatedOneSteps(u, s, p);
    EvaluationEffect(u.cfg, u.profile, p.action, InvokerFor(s, p), s.gate, false, 0.0);
    hide Evaluate;
    hide RequestFor;
  }

  lemma {:induction false} GatedAllLedger(u: Setup, s: State, ps: seq<Proposed>)
    ensures GateLedger(s, GatedAll(u, s, ps))
  {
    if ps != [] {
      GatedAllLedger(u, s, ps[..|ps| - 1]);
      GatedOneLedger(u, GatedAll(u, s, ps[..|ps| - 1]), ps[|ps| - 1]);
      hide GatedOne;
    }
  }

  /** A step that any expert may recommend and that always needs a confirmation. */
  predicate Confirmable(a: Action) {
    a.actor == Operator && a.tool == "request_human_confirmation"
  }

  lemma ConfirmableIsAsked(u: Setup, s: State, p: Proposed)
    requires Confirmable(p.action) && !SkipListed(s.gate, p.action) && s.gate.pendingCount < MAX_PENDING
    requires p.uid in s.invokerOf && s.invokerOf[p.uid] in u.cfg.roster
    ensures RowFor(u, s, p).decision == ToConfirm
  {
    hide SkipListed;
  }

  lemma SkipListReads(g: GateState, h: GateState, a: Action)
    requires g.skipCounts == h.skipCounts
    ensures SkipListed(g, a) == SkipListed(h, a)
  {
  }

  lemma {:induction false} PassAsks(u: Setup, s: State, ps: seq<Proposed>, p: Proposed)
    requires p in ps && Confirmable(p.action) && !SkipListed(s.gate, p.action) && s.gate.pendingCount < MAX_PENDING
    requires p.uid in s.invokerOf && s.invokerOf[p.uid] in u.cfg.roster
    ensures GatedAll(u, s, ps).nextId > s.nextId
  {
    hide GatedOne;
    hide RowFor;
    hide SkipListed;
    var front, last := ps[..|ps| - 1], ps[|ps| - 1];
    var mid := GatedAll(u, s, front);
    GatedAllLedger(u, s, front);
    GatedOneLedger(u, mid, last);
    assert ps == front + [last];
    if p in front {
      PassAsks(u, s, front, p);
    } else if mid.nextId == s.nextId {
      SkipListReads(s.gate, mid.gate, p.action);
      ConfirmableIsAsked(u, mid, p);
    }
  }

  // ---------------------------------------------------------------- continuing any session

  lemma {:induction false} LongerThanAll(ss: set<string>) returns (t: string)
    ensures t !in ss && forall x :: x in ss ==> |x| < |t|
  {
    if ss == {} {
      t := "";
    } else {
      var x :| x in ss;
      t := LongerThanAll(ss - {x});
      if |t| <= |x| { t := x + "x"; }
    }
  }

  /** Some argument text that neither the replies on file nor the skip list have. */
  lemma SomeNewText(s: State) returns (text: string)
    ensures NewText(s.responses, text)
    ensures forall sig :: sig in s.gate.skipCounts ==> sig.args.rest != text
  {
    var texts := set e, q | e in s.responses && q in e.1.proposed :: q.action.argsText;
    var rests := set sig | sig in s.gate.skipCounts :: sig.args.rest;
    text := LongerThanAll(texts + rests);
    forall i, q | 0 <= i < |s.responses| && q in s.responses[i].1.proposed ensures q.action.argsText != text {
      assert s.responses[i] in s.responses && q.action.argsText in texts;
    }
    forall sig | sig in s.gate.skipCounts ensures sig.args.rest != text {
      assert sig.args.rest in rests;
    }
  }

  function Question(text: string): Proposed {
    Proposed(0, Action(Operator, "request_human_confirmation", text, NO_ARGS.(rest := text), "", LOW, None, None))
  }

  /** With a slot free, a solo turn with a new question makes the session ask. */
  lemma FreeSlotAsks(u: Setup, s: State, sme: string) returns (t: Turn)
    requires sme in u.cfg.roster && s.gate.pendingCount < MAX_PENDING
    ensures Ran(u, s, t).0.nextId > s.nextId && Ran(u, s, t).0.pending != []
  {
    var text := SomeNewText(s);
    var p := Question(text);
    t := Solo(sme, [p]);
    var mid := Consulted(u, s, t);
    NewProposalIsTaken(s, sme, p);
    SoloConsults(u, s, sme, [p]);
    hide Consulted;
    hide SoloTaken;
    hide Supervised;
    PassAsks(u, mid, ActionsOf(mid), p);
    GatedAllLedger(u, mid, ActionsOf(mid));
    hide GatedAll;
  }

  /** An unguarded step with a given text, which the gate lets through without a slot. */
  function Quiet(text: string, summary: string): Proposed {
    Proposed(0, Action(Guild, "", text, NO_ARGS, summary, LOW, Some(summary), None))
  }

  /** With all slots taken, a solo turn can put a step with any text into the opinion without asking anything. */
  lemma FullGateListens(u: Setup, s: State, sme: string, summary: string) returns (t: Turn)
    requires s.gate.pendingCount >= MAX_PENDING
    ensures var r := Ran(u, s, t).0;
            && r.pending == s.pending && r.nextId == s.nextId && r.gate.pendingCount == s.gate.pendingCount
            && FindBySummary(ActionsOf(r), summary).Some?
  {
    var text := SomeNewText(s);
    var p := Quiet(text, summary);
    t := Solo(sme, [p]);
    var mid := Consulted(u, s, t);
    NewProposalIsTaken(s, sme, p);
    SoloConsults(u, s, sme, [p]);
    assert Instructions(p.action) == summary;
    hide Consulted;
    hide SoloTaken;
    hide Supervised;
    GatingWithoutSlots(u, mid, ActionsOf(mid));
    GatingKeepsOpinion(u, mid, ActionsOf(mid));
    hide GatedAll;
    var r := Ran(u, s, t).0;
    assert ActionsOf(r) == ActionsOf(mid);
    FoundHasSummary(ActionsOf(r), summary);
  }

  /** Skipping a matched request gives its slot back. */
  lemma SkipFrees(s: State, q: Request)
    requires Confirmations.Inv(s) && q in s.pending && FindBySummary(ActionsOf(s), q.summary).Some?
    ensures var r := Resumed(s, q.callId, false).0;
            r.gate.pendingCount == s.gate.pendingCount - 1 && r.nextId == s.nextId
  {
    PendingIsFound(s.pending, s.nextId, q);
    ResumedSteps(s, q.callId, false);
    hide Resumed;
    hide FindBySummary;
    hide ActionsOf;
  }

  lemma FreeSessionAsks(u: Setup, ops: seq<Op>, sme: string) returns (t: Turn)
    requires sme in u.cfg.roster && Session(u, ops).gate.pendingCount < MAX_PENDING
    ensures Session(u, ops + [RunTurn(t)]).nextId > Session(u, ops).nextId
  {
    hide Session;
    hide Ran;
    t := FreeSlotAsks(u, Session(u, ops), sme);
    SessionSnoc(u, ops, RunTurn(t));
  }

  /** A session whose slots are all taken, some by pending requests, can be made to free one without asking. */
  lemma FullSessionFrees(u: Setup, ops: seq<Op>, sme: string) returns (more: seq<Op>)
    requires Session(u, ops).gate.pendingCount >= MAX_PENDING && Session(u, ops).pending != []
    ensures Session(u, ops + more).gate.pendingCount < MAX_PENDING
    ensures Session(u, ops + more).nextId == Session(u, ops).nextId
  {
    var s := Session(u, ops);
    var q := s.pending[0];
    hide Session;
    hide Ran;
    hide Resumed;
    var t := FullGateListens(u, s, sme, q.summary);
    SessionSnoc(u, ops, RunTurn(t));
    var one := ops + [RunTurn(t)];
    Reachable(u, one);
    SlotsAreThree(Session(u, one));
    hide Confirmations.Inv;
    SkipFrees(Session(u, one), q);
    SessionSnoc(u, one, Answer(q.callId, false));
    more := [RunTurn(t), Answer(q.callId, false)];
    assert one + [Answer(q.callId, false)] == ops + more;
  }

  lemma SlotsAreThree(s: State)
    requires Confirmations.Inv(s)
    ensures s.gate.pendingCount <= MAX_PENDING
    ensures s.gate.pendingCount >= MAX_PENDING && Leaks(s.audit) < MAX_PENDING ==> s.pending != []
  {
  }

  /**
   * As long as fewer than three slots have leaked and some expert is on the gate's roster, the session can
   * ask again.
   */
  lemma CanAskAgain(u: Setup, ops: seq<Op>) returns (more: seq<Op>)
    requires Leaks(Session(u, ops).audit) < MAX_PENDING && u.cfg.roster != {}
    ensures Session(u, ops + more).nextId > Session(u, ops).nextId
  {
    var sme :| sme in u.cfg.roster;
    Reachable(u, ops);
    SlotsAreThree(Session(u, ops));
    hide Session;
    hide Confirmations.Inv;
    if Session(u, ops).gate.pendingCount < MAX_PENDING {
      var t := FreeSessionAsks(u, ops, sme);
      more := [RunTurn(t)];
    } else {
      var first := FullSessionFrees(u, ops, sme);
      var t := FreeSessionAsks(u, ops + first, sme);
      more := first + [RunTurn(t)];
      assert ops + more == (ops + first) + [RunTurn(t)];
    }
  }

  // ---------------------------------------------------------------- no one to ask

  lemma EmptyRosterNeverAsks(u: Setup, s: State, p: Proposed)
    requires u.cfg.roster == {}
    ensures RowFor(u, s, p).decision != ToConfirm
  {
    hide Classify;
    hide SkipListed;
  }

  lemma {:induction false} EmptyRosterPass(u: Setup, s: State, ps: seq<Proposed>)
    requires u.cfg.roster == {}
    ensures GatedAll(u, s, ps).nextId == s.nextId
  {
    if ps != [] {
      var mid := GatedAll(u, s, ps[..|ps| - 1]);
      EmptyRosterPass(u, s, ps[..|ps| - 1]);
      EmptyRosterNeverAsks(u, mid, ps[|ps| - 1]);
      GatedOneLedger(u, mid, ps[|ps| - 1]);
      hide GatedOne;
      hide RowFor;
    }
  }

  lemma EmptyRosterStep(u: Setup, s: State, op: Op)
    requires u.cfg.roster == {}
    ensures Step(u, s, op).nextId == s.nextId
  {
    hide Supervised;
    hide Consulted;
    hide GatedAll;
    match op
    case RunTurn(t) => var mid := Consulted(u, s, t); EmptyRosterPass(u, mid, ActionsOf(mid));
    case Answer(c, approved) => ResumedSteps(s, c, approved); hide Resumed;
    case ReplayPending => AskAgainOnlySpeaks(s, |s.pending|);
    case Drain =>
  }

  lemma {:induction false} EmptyRosterSession(u: Setup, ops: seq<Op>, more: seq<Op>)
    requires u.cfg.roster == {}
    ensures Session(u, ops + more).nextId == Session(u, ops).nextId
  {
    hide Step;
    if more == [] {
      assert ops + more == ops;
    } else {
      var front, last := more[..|more| - 1], more[|more| - 1];
      EmptyRosterSession(u, ops, front);
      SessionSnoc(u, ops + front, last);
      EmptyRosterStep(u, Session(u, ops + front), last);
      assert ops + more == (ops + front) + [last];
    }
  }

  /** Some continuation of the session asks for a confirmation. */
  ghost predicate MayAskAgain(u: Setup, ops: seq<Op>) {
    exists more: seq<Op> :: Session(u, ops + more).nextId > Session(u, ops).nextId
  }

  /**
   * A session may ask again if and only if fewer than three answers have kept their slot (approvals, and
   * answers whose text matched no action) and the gate knows at least one expert.
   */
  lemma AsksAgainIff(u: Setup, ops: seq<Op>)
    ensures MayAskAgain(u, ops) <==> Leaks(Session(u, ops).audit) < MAX_PENDING && u.cfg.roster != {}
  {
    if Leaks(Session(u, ops).audit) < MAX_PENDING && u.cfg.roster != {} {
      var more := CanAskAgain(u, ops);
      assert MayAskAgain(u, ops);
    } else {
      forall more: seq<Op> ensures Session(u, ops + more).nextId == Session(u, ops).nextId {
        if u.cfg.roster == {} {
          EmptyRosterSession(u, ops, more);
        } else {
          ThirdLeakSilencesTheGate(u, ops, more);
        }
      }
    }
  }
}
