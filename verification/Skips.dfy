/** What the gate knows from the session: how often a step was skipped, and that the supply counts as off. */
module Skips {
  import opened Common
  import opened Events
  import opened Gates
  import opened Fanout
  import opened Engine
  import opened Opinions
  import opened Confirmations
  import opened Asking
  import opened Verdicts

  /** The answer meets a pending request whose text first names a step with this tool and these arguments. */
  ghost predicate Hits(s: State, callId: nat, sig: Signature) {
    exists i: nat, j: nat ::
      i < |s.pending| && s.pending[i].callId == callId && FirstWithText(ActionsOf(s), s.pending[i].summary, j)
      && ActionsOf(s)[j].action.tool == sig.tool && ActionsOf(s)[j].action.args == sig.args
  }

  /** How many answers of the run skipped a step with this tool and these arguments. */
  ghost function SkipsIn(u: Setup, ops: seq<Op>, sig: Signature): nat {
    if ops == [] then 0
    else
      var front, last := ops[..|ops| - 1], ops[|ops| - 1];
      SkipsIn(u, front, sig)
      + (if last.Answer? && !last.approved && Hits(Session(u, front), last.callId, sig) then 1 else 0)
  }

  function OnRecord(g: GateState, sig: Signature): nat {
    if sig in g.skipCounts then g.skipCounts[sig] else 0
  }

  // ---------------------------------------------------------------- one answer

  /** What an answer leads to: which request it meets, and which step that names. */
  ghost predicate Meets(s: State, callId: nat, i: nat, found: Option<Proposed>) {
    i < |s.pending| && s.pending[i].callId == callId && found == FindBySummary(ActionsOf(s), s.pending[i].summary)
  }

  lemma HitsIff(s: State, callId: nat, sig: Signature, i: nat, found: Option<Proposed>)
    requires IdsInOrder(s.pending, s.nextId) && Meets(s, callId, i, found)
    ensures Hits(s, callId, sig) <==>
              found.Some? && found.value.action.tool == sig.tool && found.value.action.args == sig.args
  {
    var ps, text := ActionsOf(s), s.pending[i].summary;
    SearchFindsFirst(ps, text);
    FirstIsUnique(ps, text);
    hide ActionsOf;
    hide FindBySummary;
    assert forall k: nat :: k < |s.pending| && s.pending[k].callId == callId ==> k == i;
    hide IdsInOrder;
    if found.Some? {
      var j: nat :| FirstWithText(ps, text, j) && ps[j] == found.value;
    }
  }

  lemma NothingHit(s: State, callId: nat, sig: Signature)
    requires FindPending(s.pending, callId) == |s.pending|
    ensures !Hits(s, callId, sig)
  {
  }

  lemma AnswerCounts(s: State, callId: nat, approved: bool, sig: Signature)
    requires Confirmations.Inv(s)
    ensures OnRecord(Resumed(s, callId, approved).0.gate, sig)
            == OnRecord(s.gate, sig) + (if !approved && Hits(s, callId, sig) then 1 else 0)
  {
    var i := FindPending(s.pending, callId);
    if i < |s.pending| {
      var found := FindBySummary(ActionsOf(s), s.pending[i].summary);
      HitsIff(s, callId, sig, i, found);
      ResumedGate(s, callId, approved, i, found);
    } else {
      NothingHit(s, callId, sig);
    }
    hide Resumed;
    hide FindBySummary;
    hide Hits;
    hide Confirmations.Inv;
  }

  /** One more skip on the record of the step, none on any other. */
  lemma ResumedGate(s: State, callId: nat, approved: bool, i: nat, found: Option<Proposed>)
    requires i == FindPending(s.pending, callId) && Meets(s, callId, i, found)
    ensures var r := Resumed(s, callId, approved).0;
            forall sig :: OnRecord(r.gate, sig)
              == OnRecord(s.gate, sig)
                 + (if !approved && found.Some? && Signature(found.value.action.tool, found.value.action.args) == sig
                    then 1 else 0)
  {
    hide FindBySummary;
    hide Headline;
    hide RemoveAt;
  }

  // ---------------------------------------------------------------- whole sessions

  lemma TurnCountsNothing(u: Setup, s: State, t: Turn)
    ensures Ran(u, s, t).0.gate.skipCounts == s.gate.skipCounts
  {
    hide Supervised;
    hide Consulted;
    hide GatedAll;
    GatedAllLedger(u, Consulted(u, s, t), ActionsOf(Consulted(u, s, t)));
  }

  /**
   * The recorded count of a step is, in every session, the number of answers that were no approval, met a pending
   * request, and whose text named that tool with those arguments.
   */
  lemma {:induction false} SkipsAreCounted(u: Setup, ops: seq<Op>, sig: Signature)
    ensures OnRecord(Session(u, ops).gate, sig) == SkipsIn(u, ops, sig)
  {
    hide Ran;
    hide Resumed;
    hide Hits;
    if ops != [] {
      var front, last := ops[..|ops| - 1], ops[|ops| - 1];
      SkipsAreCounted(u, front, sig);
      Reachable(u, front);
      hide Confirmations.Inv;
      match last
      case RunTurn(t) => TurnCountsNothing(u, Session(u, front), t);
      case Answer(c, approved) => AnswerCounts(Session(u, front), c, approved, sig);
      case ReplayPending => AskAgainOnlySpeaks(Session(u, front), |Session(u, front).pending|);
      case Drain =>
    }
  }

  // ---------------------------------------------------------------- what is suppressed

  /** The step is the operator's to do, no lookup, and comes from an expert who may recommend it. */
  predicate InScope(u: Setup, a: Action, invoker: string) {
    a.actor == Operator && !Lookup(a.tool) && invoker in u.cfg.roster && MayRecommend(a.tool, invoker)
  }

  lemma SuppressedByCount(u: Setup, a: Action, invoker: string, g: GateState)
    ensures Evaluate(u.cfg, u.profile, a, invoker, g, false, 0.0).0.decision == Suppressed
            <==> InScope(u, a, invoker) && OnRecord(g, Signature(a.tool, a.args)) >= 2
  {
    CrossCuttingVerdict(u.cfg, u.profile, a, invoker, g, false, 0.0);
    if ReachesItsRule(u.cfg, a, invoker, g, false) {
      if a.tool == "set_psu" {
        SetpointVerdict(u.cfg, u.profile, a, invoker, g, false, 0.0);
      } else {
        StepVerdict(u.cfg, u.profile, a, invoker, g, false, 0.0);
      }
    }
    hide Evaluate;
    hide MayRecommend;
    hide Lookup;
    hide Harmful;
    hide Sourced;
    hide LimitOf;
  }

  /** The row was decided by the gate on the skip record and with the supply of `before`. */
  ghost predicate DecidedUnder(u: Setup, row: AuditRow, before: GateState) {
    row.Gated? && exists g: GateState ::
      g.skipCounts == before.skipCounts && g.psuOutputOn == before.psuOutputOn
      && row.decision == Evaluate(u.cfg, u.profile, row.action.action, row.invoker, g, false, 0.0).0.decision
  }

  lemma RowIsDecided(u: Setup, s: State, p: Proposed)
    ensures DecidedUnder(u, RowFor(u, s, p), s.gate)
  {
    hide Evaluate;
  }

  lemma SameDecision(u: Setup, row: AuditRow, g: GateState, before: GateState)
    requires DecidedUnder(u, row, g) && g.skipCounts == before.skipCounts && g.psuOutputOn == before.psuOutputOn
    ensures DecidedUnder(u, row, before)
  {
    hide Evaluate;
  }

  lemma {:induction false} PassKeepsSupply(u: Setup, s: State, ps: seq<Proposed>)
    ensures GatedAll(u, s, ps).gate.psuOutputOn == s.gate.psuOutputOn
  {
    if ps != [] {
      var mid, p := GatedAll(u, s, ps[..|ps| - 1]), ps[|ps| - 1];
      PassKeepsSupply(u, s, ps[..|ps| - 1]);
      EvaluationEffect(u.cfg, u.profile, p.action, InvokerFor(mid, p), mid.gate, false, 0.0);
      hide Evaluate;
      hide RequestFor;
    }
  }

  lemma {:induction false} RowsAreDecided(u: Setup, s: State, ps: seq<Proposed>)
    ensures var t := GatedAll(u, s, ps);
            && s.audit <= t.audit && |t.audit| == |s.audit| + |ps|
            && (forall i :: |s.audit| <= i < |t.audit| ==> DecidedUnder(u, t.audit[i], s.gate))
  {
    hide GatedOne;
    hide RowFor;
    hide DecidedUnder;
    if ps != [] {
      var front, p := ps[..|ps| - 1], ps[|ps| - 1];
      var mid := GatedAll(u, s, front);
      RowsAreDecided(u, s, front);
      GatedAllLedger(u, s, front);
      PassKeepsSupply(u, s, front);
      RowIsDecided(u, mid, p);
      SameDecision(u, RowFor(u, mid, p), mid.gate, s.gate);
      GatedOneSteps(u, mid, p);
    }
  }

  lemma TurnRowsAreDecided(u: Setup, s: State, t: Turn)
    ensures var r := Ran(u, s, t).0;
            && s.audit <= r.audit
            && (forall i :: |s.audit| <= i < |r.audit| ==> DecidedUnder(u, r.audit[i], s.gate))
  {
    hide Supervised;
    hide Consulted;
    hide GatedAll;
    hide DecidedUnder;
    RowsAreDecided(u, Consulted(u, s, t), ActionsOf(Consulted(u, s, t)));
  }

  /**
   * In every turn of every session, exactly those steps are suppressed that are in scope and have been skipped twice
   * or more so far: the gate neither forgets a skip nor counts one too many.
   */
  lemma SuppressedIff(u: Setup, ops: seq<Op>, t: Turn, i: nat)
    requires |Session(u, ops).audit| <= i < |Ran(u, Session(u, ops), t).0.audit|
    ensures var row := Ran(u, Session(u, ops), t).0.audit[i];
            && row.Gated?
            && (row.decision == Suppressed <==>
                  InScope(u, row.action.action, row.invoker)
                  && SkipsIn(u, ops, Signature(row.action.action.tool, row.action.action.args)) >= 2)
  {
    hide Ran;
    hide Session;
    hide Evaluate;
    hide InScope;
    hide SkipsIn;
    var s := Session(u, ops);
    TurnRowsAreDecided(u, s, t);
    var row := Ran(u, s, t).0.audit[i];
    var a := row.action.action;
    var g: GateState :| g.skipCounts == s.gate.skipCounts && g.psuOutputOn == s.gate.psuOutputOn
      && row.decision == Evaluate(u.cfg, u.profile, a, row.invoker, g, false, 0.0).0.decision;
    SuppressedByCount(u, a, row.invoker, g);
    SkipsAreCounted(u, ops, Signature(a.tool, a.args));
  }

  // ---------------------------------------------------------------- the supply

  /** Nothing in a session ever tells the gate that the supply is on. */
  lemma {:induction false} SupplyCountsAsOff(u: Setup, ops: seq<Op>)
    ensures !Session(u, ops).gate.psuOutputOn
  {
    hide Supervised;
    hide Consulted;
    hide GatedAll;
    hide FindBySummary;
    if ops != [] {
      var front, last := ops[..|ops| - 1], ops[|ops| - 1];
      var s := Session(u, front);
      SupplyCountsAsOff(u, front);
      match last
      case RunTurn(t) => PassKeepsSupply(u, Consulted(u, s, t), ActionsOf(Consulted(u, s, t)));
      case Answer(_, _) =>
      case ReplayPending => AskAgainOnlySpeaks(s, |s.pending|);
      case Drain =>
    }
  }

  /**
   * Hence the rules that forbid flashing and reflow while the supply is on never apply: in every turn of every
   * session such a step, from an expert who may recommend it, is put to the operator, queued or suppressed.
   */
  lemma SupplyRulesNeverApply(u: Setup, ops: seq<Op>, t: Turn, i: nat)
    requires |Session(u, ops).audit| <= i < |Ran(u, Session(u, ops), t).0.audit|
    ensures var row := Ran(u, Session(u, ops), t).0.audit[i];
            && row.Gated?
            && (row.action.action.tool in ["flash_mcu", "reflow_pin"] && InScope(u, row.action.action, row.invoker) ==>
                  row.decision in [ToConfirm, Queued, Suppressed])
  {
    hide Ran;
    hide Session;
    hide Evaluate;
    hide InScope;
    var s := Session(u, ops);
    TurnRowsAreDecided(u, s, t);
    SupplyCountsAsOff(u, ops);
    var row := Ran(u, s, t).0.audit[i];
    var a := row.action.action;
    var g: GateState :| g.skipCounts == s.gate.skipCounts && g.psuOutputOn == s.gate.psuOutputOn
      && row.decision == Evaluate(u.cfg, u.profile, a, row.invoker, g, false, 0.0).0.decision;
    if a.tool in ["flash_mcu", "reflow_pin"] && InScope(u, a, row.invoker) {
      AskedWithSupplyOff(u, a, row.invoker, g);
    }
  }

  lemma AskedWithSupplyOff(u: Setup, a: Action, invoker: string, g: GateState)
    requires a.tool in ["flash_mcu", "reflow_pin"] && InScope(u, a, invoker) && !g.psuOutputOn
    ensures Evaluate(u.cfg, u.profile, a, invoker, g, false, 0.0).0.decision in [ToConfirm, Queued, Suppressed]
  {
    hide Evaluate;
    hide MayRecommend;
    CrossCuttingVerdict(u.cfg, u.profile, a, invoker, g, false, 0.0);
    if ReachesItsRule(u.cfg, a, invoker, g, false) {
      StepVerdict(u.cfg, u.profile, a, invoker, g, false, 0.0);
    }
  }
}
