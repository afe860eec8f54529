/** Whole-session properties of confirmations: slots, answers, and what gets approved. */
module Confirmations {
  import opened Common
  import opened Gates
  import opened Fanout
  import opened Engine
  import opened Opinions

  // ---------------------------------------------------------------- the audit trail as a ledger

  /** An answered confirmation whose slot is never given back: only a skip of a known action releases one. */
  predicate Leaky(row: AuditRow) {
    row.Answered? && (row.approved || !row.matched)
  }

  function Leaks(audit: seq<AuditRow>): nat {
    if audit == [] then 0 else Leaks(audit[..|audit| - 1]) + (if Leaky(audit[|audit| - 1]) then 1 else 0)
  }

  lemma LeaksSnoc(audit: seq<AuditRow>, row: AuditRow)
    ensures Leaks(audit + [row]) == Leaks(audit) + (if Leaky(row) then 1 else 0)
  {
    assert (audit + [row])[..|audit|] == audit;
  }

  ghost predicate Asked(audit: seq<AuditRow>, callId: nat, summary: string) {
    exists row :: row in audit && row.Gated? && row.decision == ToConfirm && row.askedAs == Some(callId)
                  && Instructions(row.action.action) == summary
  }

  ghost predicate WasGated(audit: seq<AuditRow>, p: Proposed) {
    exists row :: row in audit && row.Gated? && row.action == p
  }

  ghost predicate WasAllowed(audit: seq<AuditRow>, p: Proposed) {
    exists row :: row in audit && row.Gated? && row.action == p && row.decision == Allow
  }

  /** The operator approved a request that carries the text of `p`. */
  ghost predicate TextApproved(audit: seq<AuditRow>, p: Proposed) {
    exists callId: nat :: Asked(audit, callId, Instructions(p.action)) && Answered(callId, true, true) in audit
  }

  ghost predicate Justified(audit: seq<AuditRow>, p: Proposed) {
    WasGated(audit, p) && (WasAllowed(audit, p) || TextApproved(audit, p))
  }

  /** Rows are only ever added, so everything on record stays on record. */
  lemma RecordsPersist(audit: seq<AuditRow>, later: seq<AuditRow>)
    requires audit <= later
    ensures forall c, t :: Asked(audit, c, t) ==> Asked(later, c, t)
    ensures forall p :: WasGated(audit, p) ==> WasGated(later, p)
    ensures forall p :: Justified(audit, p) ==> Justified(later, p)
  {
    assert forall row :: row in audit ==> row in later;
    forall c, t | Asked(audit, c, t) ensures Asked(later, c, t) {}
  }

  // ---------------------------------------------------------------- the invariant

  /** Every taken slot is a pending request or a leak, and there are three slots. */
  ghost predicate SlotsBalance(slots: nat, pending: seq<Request>, audit: seq<AuditRow>) {
    slots == |pending| + Leaks(audit) && slots <= MAX_PENDING
  }

  ghost predicate IdsInOrder(pending: seq<Request>, nextId: nat) {
    && (forall i, j :: 0 <= i < j < |pending| ==> pending[i].callId < pending[j].callId)
    && (forall i :: 0 <= i < |pending| ==> pending[i].callId < nextId)
  }

  ghost predicate NotPending(pending: seq<Request>, callId: nat) {
    forall i :: 0 <= i < |pending| ==> pending[i].callId != callId
  }

  /** No call id is answered twice, and none on record as answered is pending. */
  ghost predicate AnsweredOnce(audit: seq<AuditRow>, pending: seq<Request>, nextId: nat) {
    && (forall i :: 0 <= i < |audit| && audit[i].Answered? ==>
        audit[i].callId < nextId && NotPending(pending, audit[i].callId))
    && (forall i, j :: 0 <= i < j < |audit| && audit[i].Answered? && audit[j].Answered? ==>
        audit[i].callId != audit[j].callId)
  }

  /** Call ids are handed out once each. */
  ghost predicate AskedOnce(audit: seq<AuditRow>, nextId: nat) {
    && (forall i :: 0 <= i < |audit| && audit[i].Gated? && audit[i].askedAs.Some? ==> audit[i].askedAs.value < nextId)
    && (forall i, j :: 0 <= i < j < |audit| && audit[i].Gated? && audit[j].Gated? && audit[i].askedAs.Some?
          ==> audit[i].askedAs != audit[j].askedAs)
  }

  ghost predicate PendingOnRecord(audit: seq<AuditRow>, pending: seq<Request>) {
    forall q :: q in pending ==> Asked(audit, q.callId, q.summary)
  }

  ghost predicate ApprovedOnRecord(audit: seq<AuditRow>, approved: seq<Proposed>) {
    forall p :: p in approved ==> Justified(audit, p)
  }

  ghost predicate Inv(s: State) {
    && SlotsBalance(s.gate.pendingCount, s.pending, s.audit)
    && IdsInOrder(s.pending, s.nextId)
    && AnsweredOnce(s.audit, s.pending, s.nextId)
    && AskedOnce(s.audit, s.nextId)
    && PendingOnRecord(s.audit, s.pending)
    && ApprovedOnRecord(s.audit, s.approved)
    && (s.pending != [] ==> s.merged.Some?)
    && s.crossExamRound <= CROSS_EXAM_CAP
  }

  /** Between operations every action of the current opinion has been through the gate. */
  ghost predicate OpinionGated(s: State) {
    forall p :: p in ActionsOf(s) ==> WasGated(s.audit, p)
  }

  // ---------------------------------------------------------------- gating

  /** What gating one action does to the books, without saying how the decision is made. */
  ghost predicate GateStep(s: State, t: State, row: AuditRow) {
    && row.Gated? && row.askedAs == (if row.decision == ToConfirm then Some(s.nextId) else None)
    && t.merged == s.merged && t.crossExamRound == s.crossExamRound
    && t.audit == s.audit + [row]
    && t.approved == s.approved + (if row.decision == Allow then [row.action] else [])
    && t.nextId == s.nextId + (if row.decision == ToConfirm then 1 else 0)
    && t.gate.pendingCount == s.gate.pendingCount + (if row.decision == ToConfirm then 1 else 0)
    && (row.decision == ToConfirm ==> s.gate.pendingCount < MAX_PENDING)
    && (if row.decision == ToConfirm then
          exists q: Request ::
            t.pending == s.pending + [q] && q.callId == s.nextId && q.summary == Instructions(row.action.action)
        else t.pending == s.pending)
  }

  /** The row that gating `p` writes. */
  function RowFor(u: Setup, s: State, p: Proposed): AuditRow {
    var d := Evaluate(u.cfg, u.profile, p.action, InvokerFor(s, p), s.gate, false, 0.0).0;
    Gated(p, InvokerFor(s, p), d.decision, if d.decision == ToConfirm then Some(s.nextId) else None)
  }

  lemma GatedOneSteps(u: Setup, s: State, p: Proposed)
    ensures GateStep(s, GatedOne(u, s, p), RowFor(u, s, p)) && RowFor(u, s, p).action == p
  {
    EvaluationEffect(u.cfg, u.profile, p.action, InvokerFor(s, p), s.gate, false, 0.0);
    hide Evaluate;
    hide Instructions;
    hide InvokerFor;
    var (d, _) := Evaluate(u.cfg, u.profile, p.action, InvokerFor(s, p), s.gate, false, 0.0);
    if d.decision == ToConfirm {
      assert GatedOne(u, s, p).pending == s.pending + [RequestFor(s.nextId, p, InvokerFor(s, p), d)];
    }
  }

  lemma GatingKeepsAnswers(s: State, t: State, row: AuditRow)
    requires AnsweredOnce(s.audit, s.pending, s.nextId) && GateStep(s, t, row)
    ensures AnsweredOnce(t.audit, t.pending, t.nextId)
  {
    forall i | 0 <= i < |t.audit| && t.audit[i].Answered?
      ensures t.audit[i].callId < t.nextId && NotPending(t.pending, t.audit[i].callId)
    {
      assert t.audit[i] == s.audit[i];
      assert NotPending(s.pending, s.audit[i].callId);
    }
  }

  lemma GatingKeepsIssue(s: State, t: State, row: AuditRow)
    requires AskedOnce(s.audit, s.nextId) && GateStep(s, t, row)
    ensures AskedOnce(t.audit, t.nextId)
  {
  }

  lemma GatingKeepsRecords(s: State, t: State, row: AuditRow)
    requires PendingOnRecord(s.audit, s.pending) && ApprovedOnRecord(s.audit, s.approved) && GateStep(s, t, row)
    ensures PendingOnRecord(t.audit, t.pending) && ApprovedOnRecord(t.audit, t.approved)
    ensures WasGated(t.audit, row.action)
  {
    RecordsPersist(s.audit, t.audit);
    assert row in t.audit;
    hide TextApproved;
    hide Instructions;
    if row.decision == ToConfirm {
      assert Asked(t.audit, s.nextId, Instructions(row.action.action));
    }
    if row.decision == Allow {
      assert WasAllowed(t.audit, row.action);
    }
  }

  lemma GatingKeepsSlots(s: State, t: State, row: AuditRow)
    requires SlotsBalance(s.gate.pendingCount, s.pending, s.audit) && IdsInOrder(s.pending, s.nextId)
    requires GateStep(s, t, row)
    ensures SlotsBalance(t.gate.pendingCount, t.pending, t.audit) && IdsInOrder(t.pending, t.nextId)
  {
    LeaksSnoc(s.audit, row);
    hide Leaks;
    hide Instructions;
  }

  lemma GateStepKeepsInv(s: State, t: State, row: AuditRow)
    requires Inv(s) && s.merged.Some? && GateStep(s, t, row)
    ensures Inv(t)
  {
    hide Leaks;
    hide SlotsBalance;
    hide IdsInOrder;
    hide AnsweredOnce;
    hide AskedOnce;
    hide PendingOnRecord;
    hide ApprovedOnRecord;
    hide Instructions;
    GatingKeepsSlots(s, t, row);
    GatingKeepsIssue(s, t, row);
    GatingKeepsAnswers(s, t, row);
    GatingKeepsRecords(s, t, row);
  }

  lemma {:induction false} GatedAllKeepsInv(u: Setup, s: State, ps: seq<Proposed>)
    requires Inv(s) && s.merged.Some?
    ensures var t := GatedAll(u, s, ps);
            && Inv(t) && t.merged == s.merged && t.crossExamRound == s.crossExamRound
            && s.audit <= t.audit && s.nextId <= t.nextId
            && (forall p :: p in ps ==> WasGated(t.audit, p))
  {
    if ps != [] {
      var front, p := ps[..|ps| - 1], ps[|ps| - 1];
      GatedAllKeepsInv(u, s, front);
      var mid := GatedAll(u, s, front);
      GatedOneSteps(u, mid, p);
      var t, row := GatedOne(u, mid, p), RowFor(u, mid, p);
      hide GatedOne;
      hide RowFor;
      GateStepKeepsInv(mid, t, row);
      GatingKeepsRecords(mid, t, row);
      hide Inv;
      RecordsPersist(mid.audit, t.audit);
    }
  }

  // ---------------------------------------------------------------- turns and answers

  lemma SafetyKeepsInv(u: Setup, s: State)
    requires Inv(s)
    ensures var r := SafetyChecked(u, s).0; Inv(r) && OpinionGated(r) && s.audit <= r.audit && s.nextId <= r.nextId
  {
    if s.merged.Some? && s.merged.value.actions != [] {
      GatedAllKeepsInv(u, s, s.merged.value.actions);
    }
  }

  /** Nothing that the invariant is about is different. */
  ghost predicate SameBooks(s: State, t: State) {
    t.pending == s.pending && t.approved == s.approved && t.audit == s.audit && t.nextId == s.nextId && t.gate == s.gate
  }

  lemma SameBooksKeepInv(s: State, t: State)
    requires Inv(s) && SameBooks(s, t) && (s.merged.Some? ==> t.merged.Some?) && t.crossExamRound <= CROSS_EXAM_CAP
    ensures Inv(t)
  {
  }

  lemma RanKeepsInv(u: Setup, s: State, t: Turn)
    requires Inv(s) && OpinionGated(s)
    ensures var r := Ran(u, s, t).0; Inv(r) && OpinionGated(r) && s.audit <= r.audit && s.nextId <= r.nextId
  {
    var r := Ran(u, s, t).0;
    hide Supervised;
    if !Supervised(t).0.needsGuild {
      SameBooksKeepInv(s, r);
    } else {
      var mid := Consulted(u, s, t);
      SameBooksKeepInv(s, mid);
      SafetyKeepsInv(u, mid);
      SameBooksKeepInv(SafetyChecked(u, mid).0, r);
    }
  }

  /** Removing a request keeps the rest in order and leaves its id behind. */
  lemma RemovedRequest(pending: seq<Request>, i: nat, nextId: nat)
    requires IdsInOrder(pending, nextId) && i < |pending|
    ensures IdsInOrder(RemoveAt(pending, i), nextId) && NotPending(RemoveAt(pending, i), pending[i].callId)
    ensures forall c :: NotPending(pending, c) ==> NotPending(RemoveAt(pending, i), c)
    ensures forall q :: q in RemoveAt(pending, i) ==> q in pending
  {
  }

  lemma AnsweringKeepsAnswers(audit: seq<AuditRow>, row: AuditRow, pending: seq<Request>, i: nat, nextId: nat)
    requires AnsweredOnce(audit, pending, nextId) && IdsInOrder(pending, nextId) && i < |pending|
    requires row.Answered? && row.callId == pending[i].callId
    ensures AnsweredOnce(audit + [row], RemoveAt(pending, i), nextId)
  {
    RemovedRequest(pending, i, nextId);
    hide RemoveAt;
    hide IdsInOrder;
    assert !NotPending(pending, row.callId);
    hide NotPending;
  }

  /** An answered request: its row, and what it does to the approvals and the slots. */
  ghost predicate AnswerStep(s: State, t: State, i: nat, approved: bool) {
    && i < |s.pending|
    && var found := FindBySummary(ActionsOf(s), s.pending[i].summary);
    && t.merged == s.merged && t.crossExamRound == s.crossExamRound && t.nextId == s.nextId
    && t.pending == RemoveAt(s.pending, i)
    && t.audit == s.audit + [Answered(s.pending[i].callId, approved, found.Some?)]
    && t.approved == s.approved + (if approved && found.Some? then [found.value] else [])
    && t.gate.pendingCount
       == s.gate.pendingCount - (if !approved && found.Some? && s.gate.pendingCount > 0 then 1 else 0)
  }

  lemma ResumedSteps(s: State, callId: nat, approved: bool)
    ensures var (t, status) := Resumed(s, callId, approved);
            var i := FindPending(s.pending, callId);
            if i == |s.pending| then t == s && status == Paused
            else AnswerStep(s, t, i, approved) && status == (if |s.pending| == 1 then Complete else Paused)
  {
    hide FindBySummary;
    hide Headline;
  }

  lemma {:induction false} FoundHasSummary(ps: seq<Proposed>, summary: string)
    ensures var found := FindBySummary(ps, summary);
            && (found.Some? ==> found.value in ps && Instructions(found.value.action) == summary)
            && (found.None? ==> forall p :: p in ps ==> Instructions(p.action) != summary)
  {
    if ps != [] {
      FoundHasSummary(ps[1..], summary);
      assert ps == [ps[0]] + ps[1..];
    }
  }

  lemma AnsweringKeepsRecords(s: State, t: State, i: nat, approved: bool)
    requires PendingOnRecord(s.audit, s.pending) && ApprovedOnRecord(s.audit, s.approved)
    requires IdsInOrder(s.pending, s.nextId)
    requires OpinionGated(s) && AnswerStep(s, t, i, approved)
    ensures PendingOnRecord(t.audit, t.pending) && ApprovedOnRecord(t.audit, t.approved)
  {
    var req := s.pending[i];
    var found := FindBySummary(ActionsOf(s), req.summary);
    FoundHasSummary(ActionsOf(s), req.summary);
    RecordsPersist(s.audit, t.audit);
    RemovedRequest(s.pending, i, s.nextId);
    hide FindBySummary;
    hide RemoveAt;
    hide IdsInOrder;
    hide ActionsOf;
    assert t.audit[|s.audit|] in t.audit;
    if approved && found.Some? {
      assert Asked(s.audit, req.callId, req.summary);
      assert TextApproved(t.audit, found.value);
    }
    hide Asked;
    hide TextApproved;
    hide WasAllowed;
  }

  lemma AnsweringKeepsIssue(audit: seq<AuditRow>, row: AuditRow, nextId: nat)
    requires AskedOnce(audit, nextId) && row.Answered?
    ensures AskedOnce(audit + [row], nextId)
  {
  }

  lemma AnswerStepKeepsInv(s: State, t: State, i: nat, approved: bool)
    requires Inv(s) && OpinionGated(s) && AnswerStep(s, t, i, approved)
    ensures Inv(t)
  {
    var row := t.audit[|s.audit|];
    AnsweringKeepsAnswers(s.audit, row, s.pending, i, s.nextId);
    AnsweringKeepsIssue(s.audit, row, s.nextId);
    AnsweringKeepsRecords(s, t, i, approved);
    RemovedRequest(s.pending, i, s.nextId);
    LeaksSnoc(s.audit, row);
    hide Leaks;
    hide FindBySummary;
    hide AnsweredOnce;
    hide AskedOnce;
    hide PendingOnRecord;
    hide ApprovedOnRecord;
    hide IdsInOrder;
  }

  lemma ResumedKeepsInv(s: State, callId: nat, approved: bool)
    requires Inv(s) && OpinionGated(s)
    ensures var r := Resumed(s, callId, approved).0;
            Inv(r) && OpinionGated(r) && s.audit <= r.audit && s.nextId <= r.nextId
  {
    ResumedSteps(s, callId, approved);
    var i, r := FindPending(s.pending, callId), Resumed(s, callId, approved).0;
    hide Resumed;
    if i < |s.pending| {
      AnswerStepKeepsInv(s, r, i, approved);
      RecordsPersist(s.audit, r.audit);
    }
    hide Inv;
    hide WasGated;
  }

  lemma {:induction false} AskAgainOnlySpeaks(s: State, n: nat)
    requires n <= |s.pending|
    ensures AskAgain(s, n) == s.(outbound := AskAgain(s, n).outbound)
  {
    if n > 0 { AskAgainOnlySpeaks(s, n - 1); }
  }

  lemma StepKeepsInv(u: Setup, s: State, op: Op)
    requires Inv(s) && OpinionGated(s)
    ensures var r := Step(u, s, op); Inv(r) && OpinionGated(r) && s.audit <= r.audit && s.nextId <= r.nextId
  {
    match op
    case RunTurn(t) => RanKeepsInv(u, s, t);
    case Answer(callId, approved) => ResumedKeepsInv(s, callId, approved);
    case ReplayPending => AskAgainOnlySpeaks(s, |s.pending|); SameBooksKeepInv(s, AskAgain(s, |s.pending|));
    case Drain => SameBooksKeepInv(s, s.(outbound := []));
  }

  lemma {:induction false} Reachable(u: Setup, ops: seq<Op>)
    ensures Inv(Session(u, ops)) && OpinionGated(Session(u, ops))
  {
    if ops != [] {
      Reachable(u, ops[..|ops| - 1]);
      StepKeepsInv(u, Session(u, ops[..|ops| - 1]), ops[|ops| - 1]);
    }
  }

  lemma SessionSnoc(u: Setup, ops: seq<Op>, op: Op)
    ensures Session(u, ops + [op]) == Step(u, Session(u, ops), op)
  {
    assert (ops + [op])[..|ops|] == ops;
  }

  // ---------------------------------------------------------------- bounded confirmations

  /**
   * However turns, answers, replays and drains interleave: there are never more pending confirmations
   * than taken slots, nor more than three slots; the taken slots are exactly the pending requests plus
   * the answers that gave none back; and no call id is answered twice.
   */
  lemma ConfirmationsAreBounded(u: Setup, ops: seq<Op>)
    ensures var s := Session(u, ops);
            && |s.pending| <= s.gate.pendingCount <= MAX_PENDING
            && s.gate.pendingCount == |s.pending| + Leaks(s.audit)
            && (forall i, j :: 0 <= i < j < |s.audit| && s.audit[i].Answered? && s.audit[j].Answered? ==>
                s.audit[i].callId != s.audit[j].callId)
            && s.crossExamRound <= CROSS_EXAM_CAP
  {
    Reachable(u, ops);
  }

  /** The floor at zero in recording a skip is never what decides: whenever an answer arrives, a slot is taken. */
  lemma ClampNeverFires(u: Setup, ops: seq<Op>, callId: nat, a: Action)
    requires !NotPending(Session(u, ops).pending, callId)
    ensures var g := Session(u, ops).gate; g.pendingCount > 0 && SkipRecorded(g, a).pendingCount == g.pendingCount - 1
  {
    Reachable(u, ops);
  }

  /** Resuming completes the turn exactly when it answers the only outstanding request. */
  lemma ResumeCompletesIff(s: State, callId: nat, approved: bool)
    ensures Resumed(s, callId, approved).1 == Complete <==> |s.pending| == 1 && s.pending[0].callId == callId
  {
    ResumedSteps(s, callId, approved);
    hide Resumed;
  }

  /** A call id that has been issued and is not pending never becomes pending again. */
  lemma {:induction false} GatingLeavesConsumed(u: Setup, s: State, ps: seq<Proposed>, callId: nat)
    requires callId < s.nextId && NotPending(s.pending, callId)
    ensures var t := GatedAll(u, s, ps); callId < t.nextId && NotPending(t.pending, callId)
  {
    if ps != [] {
      GatingLeavesConsumed(u, s, ps[..|ps| - 1], callId);
      GatedOneSteps(u, GatedAll(u, s, ps[..|ps| - 1]), ps[|ps| - 1]);
      hide GatedOne;
      hide RowFor;
    }
  }

  lemma StepLeavesConsumed(u: Setup, s: State, op: Op, callId: nat)
    requires callId < s.nextId && NotPending(s.pending, callId)
    ensures var t := Step(u, s, op); callId < t.nextId && NotPending(t.pending, callId)
  {
    hide Supervised;
    hide Consulted;
    hide GatedAll;
    match op
    case RunTurn(t) => var mid := Consulted(u, s, t); GatingLeavesConsumed(u, mid, ActionsOf(mid), callId);
    case Answer(c, approved) => ResumedSteps(s, c, approved); hide Resumed;
    case ReplayPending => AskAgainOnlySpeaks(s, |s.pending|);
    case Drain =>
  }

  lemma {:induction false} ConsumedStaysConsumed(u: Setup, ops: seq<Op>, more: seq<Op>, callId: nat)
    requires callId < Session(u, ops).nextId && NotPending(Session(u, ops).pending, callId)
    ensures var t := Session(u, ops + more); callId < t.nextId && NotPending(t.pending, callId)
  {
    if more == [] {
      assert ops + more == ops;
    } else {
      var front, last := more[..|more| - 1], more[|more| - 1];
      ConsumedStaysConsumed(u, ops, front, callId);
      assert ops + more == (ops + front) + [last];
      SessionSnoc(u, ops + front, last);
      StepLeavesConsumed(u, Session(u, ops + front), last, callId);
    }
  }

  /** Answering an issued call id a second time changes nothing, whatever happened in between. */
  lemma SecondAnswerIsNoOp(u: Setup, ops: seq<Op>, callId: nat, first: bool, more: seq<Op>, second: bool)
    requires callId < Session(u, ops).nextId
    ensures var before := ops + [Answer(callId, first)] + more;
            && Session(u, before + [Answer(callId, second)]) == Session(u, before)
            && Resumed(Session(u, before), callId, second).1 == Paused
  {
    var s := Session(u, ops);
    Reachable(u, ops);
    SessionSnoc(u, ops, Answer(callId, first));
    ResumedSteps(s, callId, first);
    var i := FindPending(s.pending, callId);
    if i < |s.pending| { RemovedRequest(s.pending, i, s.nextId); }
    assert NotPending(Session(u, ops + [Answer(callId, first)]).pending, callId);
    ConsumedStaysConsumed(u, ops + [Answer(callId, first)], more, callId);
    var before := ops + [Answer(callId, first)] + more;
    ResumedSteps(Session(u, before), callId, second);
    SessionSnoc(u, before, Answer(callId, second));
  }

  /**
   * A turn reports completion with requests still pending exactly when it consults the experts while requests
   * are pending and has nothing to gate: the last round whose merge succeeded saw no proposal from any response
   * at least 0.2 confident, or every merge failed and the opinion it began with had no actions.
   */
  lemma CompleteLeavesPendingIff(u: Setup, s: State, t: Turn)
    ensures var (r, status) := Ran(u, s, t);
            status == Complete && r.pending != []
            <==> Supervised(t).0.needsGuild && s.pending != [] && NothingToGate(s, t)
  {
    var mid := Consulted(u, s, t);
    OpinionEmptyIff(u, s, t);
    hide Supervised;
    hide Consulted;
    hide NothingToGate;
    GatingKeepsOpinion(u, mid, ActionsOf(mid));
  }

  lemma {:induction false} GatingKeepsOpinion(u: Setup, s: State, ps: seq<Proposed>)
    ensures GatedAll(u, s, ps).merged == s.merged
  {
    if ps != [] {
      GatingKeepsOpinion(u, s, ps[..|ps| - 1]);
      GatedOneSteps(u, GatedAll(u, s, ps[..|ps| - 1]), ps[|ps| - 1]);
      hide GatedOne;
      hide RowFor;
    }
  }

  // ---------------------------------------------------------------- leaked slots

  lemma {:induction false} GatingWithoutSlots(u: Setup, s: State, ps: seq<Proposed>)
    requires s.gate.pendingCount >= MAX_PENDING
    ensures var t := GatedAll(u, s, ps);
            t.pending == s.pending && t.nextId == s.nextId && t.gate.pendingCount == s.gate.pendingCount
  {
    if ps != [] {
      GatingWithoutSlots(u, s, ps[..|ps| - 1]);
      GatedOneSteps(u, GatedAll(u, s, ps[..|ps| - 1]), ps[|ps| - 1]);
      hide GatedOne;
      hide RowFor;
    }
  }

  lemma {:induction false} LeaksMonotone(audit: seq<AuditRow>, later: seq<AuditRow>)
    requires audit <= later
    ensures Leaks(audit) <= Leaks(later)
  {
    if |audit| == |later| {
      assert audit == later;
    } else {
      LeaksMonotone(audit, later[..|later| - 1]);
    }
  }

  lemma StepWithoutSlots(u: Setup, s: State, op: Op)
    requires Inv(s) && OpinionGated(s) && Leaks(s.audit) == MAX_PENDING
    ensures var t := Step(u, s, op); t.pending == [] && t.nextId == s.nextId && Leaks(t.audit) == MAX_PENDING
  {
    var r := Step(u, s, op);
    StepKeepsInv(u, s, op);
    LeaksMonotone(s.audit, r.audit);
    hide Leaks;
    hide Supervised;
    hide Consulted;
    hide GatedAll;
    hide AnsweredOnce;
    hide PendingOnRecord;
    hide ApprovedOnRecord;
    hide OpinionGated;
    match op
    case RunTurn(t) => var mid := Consulted(u, s, t); GatingWithoutSlots(u, mid, ActionsOf(mid));
    case Answer(c, approved) => ResumedSteps(s, c, approved); hide Resumed;
    case ReplayPending => AskAgainOnlySpeaks(s, |s.pending|);
    case Drain =>
  }

  ghost predicate Silent(s: State, nextId: nat) {
    Leaks(s.audit) == MAX_PENDING && s.pending == [] && s.nextId == nextId
  }

  lemma SilentStart(u: Setup, ops: seq<Op>)
    requires Leaks(Session(u, ops).audit) >= MAX_PENDING
    ensures Silent(Session(u, ops), Session(u, ops).nextId)
  {
    Reachable(u, ops);
    hide Session;
    hide Leaks;
  }

  lemma SilentStep(u: Setup, ops: seq<Op>, op: Op, nextId: nat)
    requires Silent(Session(u, ops), nextId)
    ensures Silent(Session(u, ops + [op]), nextId)
  {
    Reachable(u, ops);
    SessionSnoc(u, ops, op);
    hide Session;
    hide Leaks;
    hide Inv;
    hide OpinionGated;
    hide Step;
    StepWithoutSlots(u, Session(u, ops), op);
  }

  /**
   * Approvals and unmatched answers never give their slot back, so a session survives at most three of
   * them: after the third nothing is pending and no later operation ever asks again.
   */
  lemma {:induction false} ThirdLeakSilencesTheGate(u: Setup, ops: seq<Op>, more: seq<Op>)
    requires Leaks(Session(u, ops).audit) >= MAX_PENDING
    ensures Silent(Session(u, ops + more), Session(u, ops).nextId)
  {
    hide Session;
    hide Silent;
    if more == [] {
      SilentStart(u, ops);
      assert ops + more == ops;
    } else {
      var front, last := more[..|more| - 1], more[|more| - 1];
      ThirdLeakSilencesTheGate(u, ops, front);
      SilentStep(u, ops + front, last, Session(u, ops).nextId);
      assert ops + more == (ops + front) + [last];
    }
  }

  // ---------------------------------------------------------------- approval soundness

  /** Every approved step was shown without confirmation, or the operator approved a request with its text. */
  lemma ApprovalsAreSound(u: Setup, ops: seq<Op>, p: Proposed)
    requires p in Session(u, ops).approved
    ensures var audit := Session(u, ops).audit; WasGated(audit, p) && (WasAllowed(audit, p) || TextApproved(audit, p))
  {
    Reachable(u, ops);
  }

  // ---------------------------------------------------------------- the approved list as a ledger

  /** The row puts a step on the approved list. */
  predicate Crediting(row: AuditRow) {
    if row.Gated? then row.decision == Allow else row.approved && row.matched
  }

  function Credits(audit: seq<AuditRow>): seq<AuditRow> {
    if audit == [] then []
    else
      var last := audit[|audit| - 1];
      Credits(audit[..|audit| - 1]) + (if Crediting(last) then [last] else [])
  }

  /** The step is what the row was about: the action shown, or a gated step with the text of the request answered. */
  ghost predicate CreditFits(audit: seq<AuditRow>, row: AuditRow, p: Proposed) {
    if row.Gated? then row.action == p
    else Asked(audit, row.callId, Instructions(p.action)) && WasGated(audit, p)
  }

  /** The approved list is, in order, one step for each crediting row. */
  ghost predicate ApprovedLedger(audit: seq<AuditRow>, approved: seq<Proposed>) {
    && |approved| == |Credits(audit)|
    && (forall i :: 0 <= i < |approved| ==> CreditFits(audit, Credits(audit)[i], approved[i]))
  }

  lemma LedgerSnoc(audit: seq<AuditRow>, approved: seq<Proposed>, row: AuditRow, gained: seq<Proposed>)
    requires ApprovedLedger(audit, approved)
    requires if Crediting(row) then |gained| == 1 && CreditFits(audit + [row], row, gained[0]) else gained == []
    ensures ApprovedLedger(audit + [row], approved + gained)
  {
    assert (audit + [row])[..|audit|] == audit;
    RecordsPersist(audit, audit + [row]);
    hide Asked;
    hide WasGated;
    hide Crediting;
    var all, credits := approved + gained, Credits(audit + [row]);
    forall i | 0 <= i < |all| ensures CreditFits(audit + [row], credits[i], all[i]) {
      if i < |approved| { assert CreditFits(audit, Credits(audit)[i], approved[i]); }
    }
  }

  lemma GateStepKeepsLedger(s: State, t: State, row: AuditRow)
    requires ApprovedLedger(s.audit, s.approved) && GateStep(s, t, row)
    ensures ApprovedLedger(t.audit, t.approved)
  {
    LedgerSnoc(s.audit, s.approved, row, if row.decision == Allow then [row.action] else []);
    hide ApprovedLedger;
    assert s.approved + [] == s.approved;
  }

  lemma AnswerStepKeepsLedger(s: State, t: State, i: nat, approved: bool)
    requires ApprovedLedger(s.audit, s.approved) && PendingOnRecord(s.audit, s.pending) && OpinionGated(s)
    requires AnswerStep(s, t, i, approved)
    ensures ApprovedLedger(t.audit, t.approved)
  {
    var q := s.pending[i];
    var found, row := FindBySummary(ActionsOf(s), q.summary), t.audit[|s.audit|];
    FoundHasSummary(ActionsOf(s), q.summary);
    hide FindBySummary;
    hide ActionsOf;
    hide RemoveAt;
    assert q in s.pending;
    RecordsPersist(s.audit, t.audit);
    LedgerSnoc(s.audit, s.approved, row, if approved && found.Some? then [found.value] else []);
  }

  lemma {:induction false} PassKeepsLedger(u: Setup, s: State, ps: seq<Proposed>)
    requires ApprovedLedger(s.audit, s.approved)
    ensures var t := GatedAll(u, s, ps); ApprovedLedger(t.audit, t.approved)
  {
    hide GatedOne;
    hide RowFor;
    hide ApprovedLedger;
    if ps != [] {
      var mid, p := GatedAll(u, s, ps[..|ps| - 1]), ps[|ps| - 1];
      PassKeepsLedger(u, s, ps[..|ps| - 1]);
      GatedOneSteps(u, mid, p);
      GateStepKeepsLedger(mid, GatedOne(u, mid, p), RowFor(u, mid, p));
    }
  }

  lemma StepKeepsLedger(u: Setup, s: State, op: Op)
    requires Inv(s) && OpinionGated(s) && ApprovedLedger(s.audit, s.approved)
    ensures var r := Step(u, s, op); ApprovedLedger(r.audit, r.approved)
  {
    hide Supervised;
    hide Consulted;
    hide GatedAll;
    hide ApprovedLedger;
    hide OpinionGated;
    match op
    case RunTurn(t) => var mid := Consulted(u, s, t); PassKeepsLedger(u, mid, ActionsOf(mid));
    case Answer(c, approved) =>
      ResumedSteps(s, c, approved);
      var i := FindPending(s.pending, c);
      if i < |s.pending| { AnswerStepKeepsLedger(s, Resumed(s, c, approved).0, i, approved); }
      hide Resumed;
    case ReplayPending => AskAgainOnlySpeaks(s, |s.pending|);
    case Drain =>
  }

  /**
   * The approved list is a ledger of the audit trail: in order, exactly one step for each row that allowed an
   * action, that action, and for each approval that matched, a gated step with the text of the request approved.
   */
  lemma {:induction false} ApprovedIsLedger(u: Setup, ops: seq<Op>)
    ensures ApprovedLedger(Session(u, ops).audit, Session(u, ops).approved)
  {
    if ops != [] {
      hide Step;
      hide ApprovedLedger;
      ApprovedIsLedger(u, ops[..|ops| - 1]);
      Reachable(u, ops[..|ops| - 1]);
      hide Inv;
      hide OpinionGated;
      StepKeepsLedger(u, Session(u, ops[..|ops| - 1]), ops[|ops| - 1]);
    }
  }

  /** Steps on record that share the operator-facing text are the same step, proposed once or many times. */
  ghost predicate TextsIdentify(audit: seq<AuditRow>) {
    forall r, q ::
      (r in audit && q in audit && r.Gated? && q.Gated?
       && Instructions(r.action.action) == Instructions(q.action.action)) ==> r.action.action == q.action.action
  }

  /** The gate let the step through without confirmation. */
  ghost predicate StepAllowed(audit: seq<AuditRow>, a: Action) {
    exists row :: row in audit && row.Gated? && row.action.action == a && row.decision == Allow
  }

  /** The gate asked about the step itself, and the operator approved that very request. */
  ghost predicate StepApproved(audit: seq<AuditRow>, a: Action) {
    exists row :: row in audit && row.Gated? && row.action.action == a && row.decision == ToConfirm && row.askedAs.Some?
                  && Answered(row.askedAs.value, true, true) in audit
  }

  /** With identifying texts, no step that was only ever denied, queued or suppressed is approved. */
  lemma NothingRefusedIsApproved(u: Setup, ops: seq<Op>, p: Proposed)
    requires TextsIdentify(Session(u, ops).audit)
    requires p in Session(u, ops).approved
    ensures StepAllowed(Session(u, ops).audit, p.action) || StepApproved(Session(u, ops).audit, p.action)
  {
    ApprovalsAreSound(u, ops, p);
    var audit := Session(u, ops).audit;
    if !WasAllowed(audit, p) {
      var callId: nat :| Asked(audit, callId, Instructions(p.action)) && Answered(callId, true, true) in audit;
      var row :| row in audit && row.Gated? && row.decision == ToConfirm && row.askedAs == Some(callId)
                 && Instructions(row.action.action) == Instructions(p.action);
      var own :| own in audit && own.Gated? && own.action == p;
      assert row.action.action == own.action.action;
    }
  }

  // ---------------------------------------------------------------- where an approval lands

  /** The first action with the text, at position `j`. */
  ghost predicate FirstWithText(ps: seq<Proposed>, text: string, j: nat) {
    j < |ps| && Instructions(ps[j].action) == text && forall i :: 0 <= i < j ==> Instructions(ps[i].action) != text
  }

  lemma {:induction false} SearchFindsFirst(ps: seq<Proposed>, text: string)
    ensures FindBySummary(ps, text).None? <==> forall i :: 0 <= i < |ps| ==> Instructions(ps[i].action) != text
    ensures FindBySummary(ps, text).Some? ==>
        exists j: nat :: FirstWithText(ps, text, j) && ps[j] == FindBySummary(ps, text).value
  {
    hide Instructions;
    if ps != [] {
      SearchFindsFirst(ps[1..], text);
      assert forall i :: 1 <= i < |ps| ==> ps[i] == ps[1..][i - 1];
      if Instructions(ps[0].action) == text {
        assert FirstWithText(ps, text, 0);
      } else if FindBySummary(ps[1..], text).Some? {
        var j: nat :| FirstWithText(ps[1..], text, j) && ps[1..][j] == FindBySummary(ps[1..], text).value;
        assert FirstWithText(ps, text, j + 1);
      }
    }
  }

  /** The gate asked about `p` under this call id. */
  ghost predicate AskedAbout(audit: seq<AuditRow>, callId: nat, p: Proposed) {
    exists row ::
      row in audit && row.Gated? && row.action == p && row.decision == ToConfirm && row.askedAs == Some(callId)
  }

  /** A pending request carries the text of the step that was asked about under its call id. */
  lemma RequestSpeaksForItsStep(s: State, q: Request, p: Proposed)
    requires Inv(s) && q in s.pending && AskedAbout(s.audit, q.callId, p)
    ensures q.summary == Instructions(p.action)
  {
    assert Asked(s.audit, q.callId, q.summary);
    var mine :| mine in s.audit && mine.Gated? && mine.action == p && mine.decision == ToConfirm
                && mine.askedAs == Some(q.callId);
    var row :| row in s.audit && row.Gated? && row.decision == ToConfirm && row.askedAs == Some(q.callId)
               && Instructions(row.action.action) == q.summary;
    var i :| 0 <= i < |s.audit| && s.audit[i] == mine;
    var j :| 0 <= j < |s.audit| && s.audit[j] == row;
    hide Instructions;
    assert i == j;
  }

  lemma PendingIsFound(pending: seq<Request>, nextId: nat, q: Request)
    requires IdsInOrder(pending, nextId) && q in pending
    ensures var i := FindPending(pending, q.callId); i < |pending| && pending[i] == q
  {
    var k :| 0 <= k < |pending| && pending[k] == q;
  }

  /** Approving a pending request appends the first action of the current opinion with its text, if there is one. */
  lemma ApprovalEffect(u: Setup, ops: seq<Op>, q: Request, p: Proposed)
    requires q in Session(u, ops).pending && AskedAbout(Session(u, ops).audit, q.callId, p)
    ensures var s := Session(u, ops);
            var found := FindBySummary(ActionsOf(s), Instructions(p.action));
            Resumed(s, q.callId, true).0.approved == s.approved + (if found.Some? then [found.value] else [])
  {
    var s := Session(u, ops);
    Reachable(u, ops);
    RequestSpeaksForItsStep(s, q, p);
    PendingIsFound(s.pending, s.nextId, q);
    ResumedSteps(s, q.callId, true);
    hide Resumed;
    hide FindBySummary;
    hide Instructions;
    hide ActionsOf;
  }

  /**
   * Where the approval of a pending request lands, in every session. It reaches the step it was asked for
   * exactly when that step is still in the opinion and no earlier action has its text; it lands on another
   * step exactly when the first action with that text is another one; and it is lost, its slot with it,
   * exactly when a later turn has left no action with that text.
   */
  lemma ApprovalHitsItsStepIff(u: Setup, ops: seq<Op>, q: Request, p: Proposed)
    requires q in Session(u, ops).pending && AskedAbout(Session(u, ops).audit, q.callId, p)
    ensures var s, text := Session(u, ops), Instructions(p.action);
            var ps, r := ActionsOf(s), Resumed(s, q.callId, true).0;
            && (r.approved == s.approved + [p] <==> exists j: nat :: FirstWithText(ps, text, j) && ps[j] == p)
            && ((exists x :: x != p && r.approved == s.approved + [x])
                <==> exists j: nat :: FirstWithText(ps, text, j) && ps[j] != p)
            && (r.approved == s.approved <==> forall i :: 0 <= i < |ps| ==> Instructions(ps[i].action) != text)
  {
    var s, text := Session(u, ops), Instructions(p.action);
    var ps, r := ActionsOf(s), Resumed(s, q.callId, true).0;
    ApprovalEffect(u, ops, q, p);
    SearchFindsFirst(ps, text);
    hide Session;
    hide Resumed;
    hide FindBySummary;
    hide Instructions;
    hide ActionsOf;
    FirstIsUnique(ps, text);
    SnocDiffers(s.approved);
    if FindBySummary(ps, text).Some? {
      assert r.approved == s.approved + [FindBySummary(ps, text).value];
    }
  }

  lemma FirstIsUnique(ps: seq<Proposed>, text: string)
    ensures forall i: nat, j: nat :: FirstWithText(ps, text, i) && FirstWithText(ps, text, j) ==> i == j
  {
  }

  lemma SnocDiffers(s: seq<Proposed>)
    ensures forall x, y :: s + [x] == s + [y] ==> x == y
    ensures forall x :: s + [x] != s
  {
    forall x, y | s + [x] == s + [y] ensures x == y {
      assert (s + [x])[|s|] == x && (s + [y])[|s|] == y;
    }
    forall x ensures s + [x] != s { assert |s + [x]| != |s|; }
  }

  // ---------------------------------------------------------------- one row per action

  /** The rows a gating pass adds: one per action, in order, each under the name on file for it. */
  ghost predicate RowsFor(rows: seq<AuditRow>, ps: seq<Proposed>, invokerOf: map<nat, string>) {
    && |rows| == |ps|
    && (forall i :: 0 <= i < |ps| ==>
          && rows[i].Gated? && rows[i].action == ps[i]
          && ps[i].uid in invokerOf && rows[i].invoker == invokerOf[ps[i].uid])
  }

  lemma GatedOneRow(u: Setup, s: State, p: Proposed)
    requires p.uid in s.invokerOf
    ensures var t, row := GatedOne(u, s, p), RowFor(u, s, p);
            && t.invokerOf == s.invokerOf && t.responses == s.responses && t.merged == s.merged
            && t.audit == s.audit + [row] && row.Gated? && row.action == p && row.invoker == s.invokerOf[p.uid]
  {
    hide Evaluate;
    hide RequestFor;
  }

  /** What a gating pass over `ps` leads to from `s`. */
  ghost predicate GatedRows(s: State, t: State, ps: seq<Proposed>) {
    && t.invokerOf == s.invokerOf && t.responses == s.responses && t.merged == s.merged
    && s.audit <= t.audit && RowsFor(t.audit[|s.audit|..], ps, t.invokerOf)
  }

  lemma OneMoreRow(s: State, mid: State, t: State, ps: seq<Proposed>, p: Proposed, row: AuditRow)
    requires GatedRows(s, mid, ps) && p.uid in mid.invokerOf
    requires t.invokerOf == mid.invokerOf && t.responses == mid.responses && t.merged == mid.merged
    requires t.audit == mid.audit + [row]
    requires row.Gated? && row.action == p && row.invoker == mid.invokerOf[p.uid]
    ensures GatedRows(s, t, ps + [p])
  {
    assert t.audit[|s.audit|..] == mid.audit[|s.audit|..] + [row];
  }

  lemma {:induction false} GatingRows(u: Setup, s: State, ps: seq<Proposed>)
    requires Known(s.invokerOf, ps)
    ensures GatedRows(s, GatedAll(u, s, ps), ps)
  {
    hide GatedOne;
    hide RowFor;
    if ps != [] {
      var front, p := ps[..|ps| - 1], ps[|ps| - 1];
      GatingRows(u, s, front);
      var mid := GatedAll(u, s, front);
      assert p in ps && mid.invokerOf == s.invokerOf;
      hide GatedRows;
      GatedOneRow(u, mid, p);
      OneMoreRow(s, mid, GatedOne(u, mid, p), front, p, RowFor(u, mid, p));
      assert ps == front + [p];
    }
  }

  lemma {:induction false} OpinionsStayOk(u: Setup, ops: seq<Op>)
    ensures OpinionOk(Session(u, ops))
  {
    if ops != [] {
      var s, op := Session(u, ops[..|ops| - 1]), ops[|ops| - 1];
      OpinionsStayOk(u, ops[..|ops| - 1]);
      match op
      case RunTurn(t) => TurnRows(u, s, t);
      case Answer(c, approved) => ResumedKeepsOpinion(s, c, approved);
      case ReplayPending => AskAgainOnlySpeaks(s, |s.pending|);
      case Drain =>
    }
  }

  lemma ResumedKeepsOpinion(s: State, callId: nat, approved: bool)
    ensures var t := Resumed(s, callId, approved).0;
            t.merged == s.merged && t.responses == s.responses && t.invokerOf == s.invokerOf
  {
  }

  lemma ConsultingKeepsOpinionOk(u: Setup, s: State, t: Turn)
    requires OpinionOk(s)
    ensures OpinionOk(Consulted(u, s, t))
  {
    DeliberationKeepsOpinionOk(u, Opened(s, t).(roster := Supervised(t).0.smes), t.rounds, 0);
    hide Deliberated;
    hide Supervised;
  }

  lemma SafetyRows(u: Setup, s: State)
    requires OpinionOk(s)
    ensures var r := SafetyChecked(u, s).0;
            && OpinionOk(r) && s.audit <= r.audit && ActionsOf(r) == ActionsOf(s)
            && RowsFor(r.audit[|s.audit|..], ActionsOf(r), r.invokerOf)
  {
    GatingRows(u, s, ActionsOf(s));
    hide GatedAll;
  }

  lemma TurnRows(u: Setup, s: State, t: Turn)
    requires OpinionOk(s)
    ensures var (r, status) := Ran(u, s, t);
            && OpinionOk(r) && s.audit <= r.audit
            && RowsFor(r.audit[|s.audit|..], if status == DirectReply then [] else ActionsOf(r), r.invokerOf)
  {
    hide Supervised;
    hide Consulted;
    hide SafetyChecked;
    hide StepsDistinct;
    hide TableKnown;
    if Supervised(t).0.needsGuild {
      hide RowsFor;
      ConsultingKeepsOpinionOk(u, s, t);
      SafetyRows(u, Consulted(u, s, t));
    }
  }

  /**
   * Each turn that consults the experts gates every action of its opinion exactly once, in order, under
   * the name of the expert it was collected from; the fallback invoker is never used, and no two actions
   * of the opinion share tool and arguments.
   */
  lemma EveryActionIsGatedOnce(u: Setup, ops: seq<Op>, t: Turn)
    ensures var s, (r, status) := Session(u, ops), Ran(u, Session(u, ops), t);
            && s.audit <= r.audit
            && RowsFor(r.audit[|s.audit|..], if status == DirectReply then [] else ActionsOf(r), r.invokerOf)
            && StepsDistinct(ActionsOf(r))
  {
    OpinionsStayOk(u, ops);
    TurnRows(u, Session(u, ops), t);
  }
}
