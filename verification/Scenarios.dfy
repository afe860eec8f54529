/** Concrete sessions, from the initial state, in which the deliberation does not do what its documentation says. */
module Scenarios {
  import opened Common
  import opened Events
  import opened Gates
  import opened Fanout
  import opened Engine
  import opened Confirmations
  import opened Asking

  const REFUSED :=
      Proposed(0, Action(Operator, "mystery_tool", "", NO_ARGS, "because", LOW, Some("press the button"), None))
  const CONFIRMED :=
      Proposed(1, Action(Operator, "enable_psu_output", "", NO_ARGS, "because", LOW, Some("press the button"), None))
  const TWO_STEPS := [REFUSED, CONFIRMED]

  /** @power proposes a step the gate refuses and, with the same text, one it wants confirmed. */
  const ASKING := RunTurn(Solo("@power", TWO_STEPS))

  /** @power has nothing to propose any more. */
  const SILENT := RunTurn(Solo("@power", []))

  // ---------------------------------------------------------------- solo turns of a session with one expert

  /** Only @power has ever been consulted. */
  ghost predicate OnlyPower(s: State) {
    s.responses == [] || exists r :: s.responses == [("@power", r)]
  }

  lemma OnlyReply(s: State, ps: seq<Proposed>)
    requires OnlyPower(s)
    ensures Upsert(s.responses, "@power", Reply("@power", ps)) == [("@power", Reply("@power", ps))]
    ensures Kept([("@power", Reply("@power", ps))]) == [Reply("@power", ps)]
  {
    var t: Responses := [("@power", Reply("@power", ps))];
    assert t[..0] == [];
  }

  lemma TwoTaken(m: map<nat, string>)
    requires 0 in m && 1 in m
    ensures TakenFrom(m, [Reply("@power", TWO_STEPS)]) == Taken(TWO_STEPS, m)
  {
    var rs := [Reply("@power", TWO_STEPS)];
    assert rs[..0] == [] && TWO_STEPS[..1] == [REFUSED] && [REFUSED][..0] == [];
    assert TakeOne(Taken([], m), "@power", REFUSED) == Taken([REFUSED], m);
    assert TakeOne(Taken([REFUSED], m), "@power", CONFIRMED) == Taken(TWO_STEPS, m);
    hide TakeOne;
    assert TakeAll(Taken([], m), "@power", []) == Taken([], m);
    assert TakeAll(Taken([], m), "@power", [REFUSED]) == Taken([REFUSED], m);
  }

  lemma TwoAssigned(m: map<nat, string>)
    ensures AssignAll(m, TWO_STEPS, "@power") == m[0 := "@power"][1 := "@power"]
  {
    assert TWO_STEPS[..1] == [REFUSED];
    AssignOne(m, REFUSED, "@power");
  }

  /** What the gate sees of the two steps. */
  lemma AskingConsults(u: Setup, s: State)
    requires OnlyPower(s)
    ensures var r := Consulted(u, s, ASKING.turn);
            && ActionsOf(r) == TWO_STEPS && OnlyPower(r)
            && 0 in r.invokerOf && r.invokerOf[0] == "@power" && 1 in r.invokerOf && r.invokerOf[1] == "@power"
  {
    SoloConsults(u, s, "@power", TWO_STEPS);
    hide Consulted;
    OnlyReply(s, TWO_STEPS);
    TwoAssigned(s.invokerOf);
    TwoTaken(s.invokerOf[0 := "@power"][1 := "@power"]);
    hide TakenFrom;
    hide Kept;
    hide Upsert;
    hide AssignAll;
  }

  lemma SilentConsults(u: Setup, s: State)
    requires OnlyPower(s)
    ensures var r := Consulted(u, s, SILENT.turn); ActionsOf(r) == [] && OnlyPower(r)
  {
    SoloConsults(u, s, "@power", []);
    hide Consulted;
    OnlyReply(s, []);
    var rs := [Reply("@power", [])];
    assert rs[..0] == [];
    assert AssignAll(s.invokerOf, [], "@power") == s.invokerOf;
    assert TakenFrom(s.invokerOf, rs) == Taken([], s.invokerOf);
    hide Kept;
    hide Upsert;
    hide TakenFrom;
  }

  /** The session has one pending request, about CONFIRMED, under the latest call id. */
  ghost predicate OnePending(s: State) {
    && |s.pending| == 1 && s.nextId > 0 && s.pending[0].callId == s.nextId - 1
    && s.pending[0].summary == "press the button"
  }

  /** Between turns: nothing pending, nothing on the skip list, only @power consulted, `n` requests asked so far. */
  ghost predicate Idle(s: State, n: nat) {
    OnlyPower(s) && s.pending == [] && s.nextId == n && s.gate.pendingCount < MAX_PENDING && s.gate.skipCounts == map[]
  }

  lemma TwoRows(u: Setup, s: State)
    requires "@power" in u.cfg.roster && s.gate.pendingCount < MAX_PENDING && s.gate.skipCounts == map[]
    requires 0 in s.invokerOf && s.invokerOf[0] == "@power" && 1 in s.invokerOf && s.invokerOf[1] == "@power"
    ensures RowFor(u, s, REFUSED) == Gated(REFUSED, "@power", Deny, None)
    ensures RowFor(u, s, CONFIRMED) == Gated(CONFIRMED, "@power", ToConfirm, Some(s.nextId))
  {
    hide SetPsu;
    hide FlashMcu;
    hide SerialSend;
    hide Reflow;
    hide PsuLimit;
  }

  /** What the gate records of the two steps when it asks under `callId`. */
  function AskingRows(callId: nat): seq<AuditRow> {
    [Gated(REFUSED, "@power", Deny, None), Gated(CONFIRMED, "@power", ToConfirm, Some(callId))]
  }

  lemma TwoGatings(u: Setup, s: State)
    requires "@power" in u.cfg.roster && Idle(s, s.nextId)
    requires 0 in s.invokerOf && s.invokerOf[0] == "@power" && 1 in s.invokerOf && s.invokerOf[1] == "@power"
    ensures var t := GatedAll(u, s, TWO_STEPS);
            && t.audit == s.audit + AskingRows(s.nextId)
            && t.approved == s.approved && OnePending(t) && t.nextId == s.nextId + 1 && t.responses == s.responses
            && t.gate.pendingCount == s.gate.pendingCount + 1 && t.gate.skipCounts == map[] && t.merged == s.merged
  {
    assert TWO_STEPS[..1] == [REFUSED] && [REFUSED][..0] == [];
    var mid := GatedOne(u, s, REFUSED);
    TwoRows(u, s);
    GatedOneSteps(u, s, REFUSED);
    GatedOneLedger(u, s, REFUSED);
    GatedOneRow(u, s, REFUSED);
    TwoRows(u, mid);
    GatedOneSteps(u, mid, CONFIRMED);
    GatedOneLedger(u, mid, CONFIRMED);
    GatedOneRow(u, mid, CONFIRMED);
    assert Instructions(CONFIRMED.action) == "press the button";
    hide GatedOne;
    hide RowFor;
    assert GatedAll(u, s, []) == s && GatedAll(u, s, [REFUSED]) == mid;
    assert GatedAll(u, s, TWO_STEPS) == GatedOne(u, mid, CONFIRMED);
  }

  lemma AskingRuns(u: Setup, s: State)
    requires "@power" in u.cfg.roster && Idle(s, s.nextId)
    ensures var t := Ran(u, s, ASKING.turn).0;
            && t.audit == s.audit + AskingRows(s.nextId)
            && t.approved == s.approved && OnePending(t) && t.nextId == s.nextId + 1 && OnlyPower(t)
            && t.gate.pendingCount == s.gate.pendingCount + 1 && t.gate.skipCounts == map[] && ActionsOf(t) == TWO_STEPS
  {
    AskingConsults(u, s);
    SoloConsults(u, s, "@power", TWO_STEPS);
    var mid := Consulted(u, s, ASKING.turn);
    hide Consulted;
    hide Supervised;
    TwoGatings(u, mid);
    hide GatedAll;
  }

  lemma OneSearch()
    ensures FindBySummary(TWO_STEPS, "press the button") == Some(REFUSED)
  {
  }

  /** Approving the one pending request while the two steps are the opinion. */
  lemma ApprovedAnswer(s: State)
    requires OnePending(s) && ActionsOf(s) == TWO_STEPS
    ensures var (r, status) := Resumed(s, s.nextId - 1, true);
            && r.approved == s.approved + [REFUSED] && r.audit == s.audit + [Answered(s.nextId - 1, true, true)]
            && r.pending == [] && r.nextId == s.nextId && r.gate.pendingCount == s.gate.pendingCount
            && r.responses == s.responses && r.gate.skipCounts == s.gate.skipCounts && status == Complete
  {
    OneSearch();
    ResumedSteps(s, s.nextId - 1, true);
    hide FindBySummary;
  }

  /** A turn that asks, and the approval of its request, cost an idle session one slot. */
  lemma ApprovedTurn(u: Setup, s: State)
    requires "@power" in u.cfg.roster && Idle(s, s.nextId)
    ensures var r := Resumed(Ran(u, s, ASKING.turn).0, s.nextId, true).0;
            && OnlyPower(r) && r.pending == [] && r.nextId == s.nextId + 1 && r.gate.skipCounts == map[]
            && r.gate.pendingCount == s.gate.pendingCount + 1 && r.approved == s.approved + [REFUSED]
            && r.audit == s.audit + AskingRows(s.nextId) + [Answered(s.nextId, true, true)]
  {
    AskingRuns(u, s);
    ApprovedAnswer(Ran(u, s, ASKING.turn).0);
    hide Ran;
    hide Resumed;
    hide ActionsOf;
  }

  lemma TwoOps(u: Setup, ops: seq<Op>, t: Turn, callId: nat)
    ensures Session(u, ops + [RunTurn(t), Answer(callId, true)])
            == Resumed(Ran(u, Session(u, ops), t).0, callId, true).0
  {
    SessionSnoc(u, ops, RunTurn(t));
    SessionSnoc(u, ops + [RunTurn(t)], Answer(callId, true));
    assert (ops + [RunTurn(t)]) + [Answer(callId, true)] == ops + [RunTurn(t), Answer(callId, true)];
    hide Session;
    hide Ran;
    hide Resumed;
  }

  // ---------------------------------------------------------------- the scenarios

  /**
   * A denied step and a confirmed one with the same text: approving the second puts the denied one on the
   * approved list.
   */
  lemma SharedTextApprovesADeniedStep(u: Setup)
    requires "@power" in u.cfg.roster
    ensures var s := Session(u, [ASKING, Answer(0, true)]);
            s.approved == [REFUSED] && |s.audit| == 3 && s.audit[0] == Gated(REFUSED, "@power", Deny, None)
  {
    assert Session(u, []) == INITIAL;
    ApprovedTurn(u, INITIAL);
    TwoOps(u, [], ASKING.turn, 0);
    assert [] + [ASKING, Answer(0, true)] == [ASKING, Answer(0, true)];
    hide Session;
    hide Ran;
    hide Resumed;
  }

  /** A turn without proposals runs to completion although a request of the turn before is pending. */
  lemma SilentTurnCompletes(u: Setup, s: State)
    requires OnePending(s) && OnlyPower(s)
    ensures var (r, status) := Ran(u, s, SILENT.turn);
            && status == Complete && r.pending == s.pending && r.nextId == s.nextId && ActionsOf(r) == []
            && r.approved == s.approved && r.audit == s.audit && r.gate == s.gate
  {
    SilentConsults(u, s);
    SoloConsults(u, s, "@power", []);
    hide Consulted;
    hide Supervised;
  }

  lemma CompletesWhilePending(u: Setup)
    requires "@power" in u.cfg.roster
    ensures var (r, status) := Ran(u, Session(u, [ASKING]), SILENT.turn);
            status == Complete && |r.pending| == 1 && r.pending[0].callId == 0
  {
    AskingRuns(u, INITIAL);
    SilentTurnCompletes(u, Ran(u, INITIAL, ASKING.turn).0);
    hide Ran;
    SessionSnoc(u, [], ASKING);
    assert [] + [ASKING] == [ASKING];
  }

  /** The operator approves a request whose step has left the opinion: nothing is approved, and the slot is gone. */
  lemma LateApprovalIsLost(u: Setup)
    requires "@power" in u.cfg.roster
    ensures var s := Session(u, [ASKING, SILENT, Answer(0, true)]);
            && s.approved == [] && s.pending == [] && Leaks(s.audit) == 1 && s.gate.pendingCount == 1
            && Outbound(Skipped("press the button"), false) in s.outbound
  {
    hide Ran;
    hide Resumed;
    hide Leaks;
    AskingRuns(u, INITIAL);
    var s1 := Ran(u, INITIAL, ASKING.turn).0;
    SilentTurnCompletes(u, s1);
    LostAnswer(Ran(u, s1, SILENT.turn).0);
    SessionSnoc(u, [], ASKING);
    SessionSnoc(u, [ASKING], SILENT);
    SessionSnoc(u, [ASKING, SILENT], Answer(0, true));
    assert [] + [ASKING] == [ASKING] && [ASKING] + [SILENT] == [ASKING, SILENT];
    assert [ASKING, SILENT] + [Answer(0, true)] == [ASKING, SILENT, Answer(0, true)];
    ConfirmationsAreBounded(u, [ASKING, SILENT, Answer(0, true)]);
    assert Session(u, []) == INITIAL;
    hide Session;
    hide ActionsOf;
  }

  lemma LostAnswer(s: State)
    requires OnePending(s) && ActionsOf(s) == []
    ensures var r := Resumed(s, s.nextId - 1, true).0;
            && r.approved == s.approved && r.pending == [] && r.gate == s.gate
            && Outbound(Skipped("press the button"), false) in r.outbound
  {
    assert FindBySummary([], "press the button") == None;
    var r := Resumed(s, s.nextId - 1, true).0;
    assert r.outbound[|s.outbound|] == Outbound(Skipped("press the button"), false);
  }

  /** The session is idle after `n` requests, all of them leaked. */
  ghost predicate IdleLeaked(s: State, n: nat) {
    Idle(s, n) && Leaks(s.audit) == n
  }

  /** One more turn asks, one more approval leaks. */
  lemma AskAndApprove(u: Setup, ops: seq<Op>, n: nat)
    requires "@power" in u.cfg.roster && IdleLeaked(Session(u, ops), n)
    ensures var s := Session(u, ops + [ASKING, Answer(n, true)]);
            Leaks(s.audit) == n + 1 && (n < 2 ==> IdleLeaked(s, n + 1))
  {
    ApprovedTurn(u, Session(u, ops));
    TwoOps(u, ops, ASKING.turn, n);
    ConfirmationsAreBounded(u, ops);
    ConfirmationsAreBounded(u, ops + [ASKING, Answer(n, true)]);
    hide Ran;
    hide Resumed;
    hide Session;
    hide Leaks;
    hide OnlyPower;
  }

  const THREE_APPROVALS := [ASKING, Answer(0, true), ASKING, Answer(1, true), ASKING, Answer(2, true)]

  /** Three approved requests in three turns: no continuation of this session ever asks again. */
  lemma ThreeApprovalsSilence(u: Setup)
    requires "@power" in u.cfg.roster
    ensures Leaks(Session(u, THREE_APPROVALS).audit) == 3 && !MayAskAgain(u, THREE_APPROVALS)
  {
    var one, two := [ASKING, Answer(0, true)], [ASKING, Answer(0, true), ASKING, Answer(1, true)];
    assert IdleLeaked(Session(u, []), 0);
    assert [] + one == one && one + [ASKING, Answer(1, true)] == two;
    assert two + [ASKING, Answer(2, true)] == THREE_APPROVALS;
    hide IdleLeaked;
    hide Session;
    hide MayAskAgain;
    AskAndApprove(u, [], 0);
    AskAndApprove(u, one, 1);
    AskAndApprove(u, two, 2);
    AsksAgainIff(u, THREE_APPROVALS);
  }

  // ---------------------------------------------------------------- an approved step comes back

  const ONE_STEP := [CONFIRMED]

  /** @signal is asked, and has nothing to propose; @power is not asked. */
  const OTHERS := RunTurn(Solo("@signal", []))

  lemma OneTaken(m: map<nat, string>)
    requires 1 in m
    ensures TakenFrom(m, [Reply("@power", ONE_STEP)]) == Taken(ONE_STEP, m)
    ensures TakenFrom(m, [Reply("@power", ONE_STEP), Reply("@signal", [])]) == Taken(ONE_STEP, m)
  {
    var one, two := [Reply("@power", ONE_STEP)], [Reply("@power", ONE_STEP), Reply("@signal", [])];
    assert one[..0] == [] && two[..1] == one && ONE_STEP[..0] == [];
    assert TakeOne(Taken([], m), "@power", CONFIRMED) == Taken(ONE_STEP, m);
    hide TakeOne;
    assert TakeAll(Taken([], m), "@power", []) == Taken([], m);
  }

  lemma OnePowerReply()
    ensures Upsert([], "@power", Reply("@power", ONE_STEP)) == [("@power", Reply("@power", ONE_STEP))]
    ensures Upsert([("@power", Reply("@power", ONE_STEP))], "@signal", Reply("@signal", []))
            == [("@power", Reply("@power", ONE_STEP)), ("@signal", Reply("@signal", []))]
    ensures Kept([("@power", Reply("@power", ONE_STEP))]) == [Reply("@power", ONE_STEP)]
    ensures Kept([("@power", Reply("@power", ONE_STEP)), ("@signal", Reply("@signal", []))])
            == [Reply("@power", ONE_STEP), Reply("@signal", [])]
  {
    var one: Responses := [("@power", Reply("@power", ONE_STEP))];
    var two: Responses := [("@power", Reply("@power", ONE_STEP)), ("@signal", Reply("@signal", []))];
    assert one[..0] == [] && two[..1] == one && one[1..] == [];
    assert Upsert(one[1..], "@signal", Reply("@signal", [])) == [("@signal", Reply("@signal", []))];
  }

  /** The step is the opinion, under @power's name, and nothing but @power's reply has been filed. */
  ghost predicate StepStands(s: State) {
    && ActionsOf(s) == ONE_STEP && s.responses == [("@power", Reply("@power", ONE_STEP))]
    && 1 in s.invokerOf && s.invokerOf[1] == "@power"
  }

  lemma FirstConsults(u: Setup)
    ensures StepStands(Consulted(u, INITIAL, Solo("@power", ONE_STEP)))
  {
    SoloConsults(u, INITIAL, "@power", ONE_STEP);
    hide Consulted;
    AssignOne(INITIAL.invokerOf, CONFIRMED, "@power");
    OneTaken(INITIAL.invokerOf[1 := "@power"]);
    OnePowerReply();
    hide TakenFrom;
    hide Kept;
    hide Upsert;
    hide AssignAll;
  }

  /** @power's step is in the opinion of a turn in which only @signal is asked. */
  lemma OthersConsult(u: Setup, s: State)
    requires StepStands(s)
    ensures var r := Consulted(u, s, OTHERS.turn);
            ActionsOf(r) == ONE_STEP && 1 in r.invokerOf && r.invokerOf[1] == "@power"
  {
    SoloConsults(u, s, "@signal", []);
    hide Consulted;
    assert AssignAll(s.invokerOf, [], "@signal") == s.invokerOf;
    OneTaken(s.invokerOf);
    OnePowerReply();
    hide TakenFrom;
    hide Kept;
    hide Upsert;
    hide AssignAll;
  }

  /** What gating the one step does, when a slot is free. */
  lemma OneGating(u: Setup, s: State)
    requires "@power" in u.cfg.roster && s.gate.pendingCount < MAX_PENDING && s.gate.skipCounts == map[]
    requires 1 in s.invokerOf && s.invokerOf[1] == "@power" && s.pending == []
    ensures var t := GatedAll(u, s, ONE_STEP);
            && t.audit == s.audit + [Gated(CONFIRMED, "@power", ToConfirm, Some(s.nextId))]
            && t.approved == s.approved && OnePending(t) && t.nextId == s.nextId + 1 && t.merged == s.merged
            && t.responses == s.responses && t.invokerOf == s.invokerOf
            && t.gate.pendingCount == s.gate.pendingCount + 1 && t.gate.skipCounts == map[]
  {
    assert ONE_STEP[..0] == [];
    ConfirmedRow(u, s);
    GatedOneSteps(u, s, CONFIRMED);
    GatedOneLedger(u, s, CONFIRMED);
    GatedOneRow(u, s, CONFIRMED);
    assert Instructions(CONFIRMED.action) == "press the button";
    hide GatedOne;
    hide RowFor;
    assert GatedAll(u, s, []) == s;
    assert GatedAll(u, s, ONE_STEP) == GatedOne(u, s, CONFIRMED);
  }

  lemma ConfirmedRow(u: Setup, s: State)
    requires "@power" in u.cfg.roster && s.gate.pendingCount < MAX_PENDING && s.gate.skipCounts == map[]
    requires 1 in s.invokerOf && s.invokerOf[1] == "@power"
    ensures RowFor(u, s, CONFIRMED) == Gated(CONFIRMED, "@power", ToConfirm, Some(s.nextId))
  {
    hide SetPsu;
    hide FlashMcu;
    hide SerialSend;
    hide Reflow;
    hide PsuLimit;
  }

  /** A turn whose opinion is the one step, under @power's name, asks about it. */
  lemma OneStepRuns(u: Setup, s: State, t: Turn)
    requires "@power" in u.cfg.roster && s.gate.pendingCount < MAX_PENDING && s.gate.skipCounts == map[]
    requires s.pending == [] && Supervised(t).0.needsGuild
    requires var mid := Consulted(u, s, t);
             ActionsOf(mid) == ONE_STEP && 1 in mid.invokerOf && mid.invokerOf[1] == "@power"
    ensures var r, mid := Ran(u, s, t).0, Consulted(u, s, t);
            && r.audit == s.audit + [Gated(CONFIRMED, "@power", ToConfirm, Some(s.nextId))]
            && r.approved == s.approved && OnePending(r) && r.nextId == s.nextId + 1
            && r.merged == mid.merged && r.responses == mid.responses && r.invokerOf == mid.invokerOf
            && r.gate.pendingCount == s.gate.pendingCount + 1 && r.gate.skipCounts == map[]
  {
    hide Consulted;
    hide Supervised;
    hide GatedAll;
    hide OnePending;
    var mid := Consulted(u, s, t);
    OneGating(u, mid);
    assert GatedAll(u, mid, ONE_STEP).pending != [] by { PendingIsOne(GatedAll(u, mid, ONE_STEP)); }
  }

  lemma PendingIsOne(s: State)
    requires OnePending(s)
    ensures s.pending != []
  {
  }

  lemma FirstAsks(u: Setup)
    requires "@power" in u.cfg.roster
    ensures var t := Ran(u, INITIAL, Solo("@power", ONE_STEP)).0;
            && StepStands(t) && OnePending(t) && t.nextId == 1 && t.approved == []
            && t.gate.pendingCount == 1 && t.gate.skipCounts == map[]
  {
    hide Consulted;
    hide Ran;
    hide Supervised;
    hide OnePending;
    hide SoloTaken;
    FirstConsults(u);
    SoloConsults(u, INITIAL, "@power", ONE_STEP);
    OneStepRuns(u, INITIAL, Solo("@power", ONE_STEP));
  }

  lemma ApprovedOnce(s: State)
    requires StepStands(s) && OnePending(s) && s.nextId == 1 && s.approved == []
    ensures var r := Resumed(s, 0, true).0;
            && StepStands(r) && r.approved == ONE_STEP && r.pending == [] && r.nextId == 1
            && r.gate.pendingCount == s.gate.pendingCount && r.gate.skipCounts == s.gate.skipCounts
  {
    ResumedSteps(s, 0, true);
    assert FindBySummary(ONE_STEP, "press the button") == Some(CONFIRMED);
    hide FindBySummary;
  }

  lemma AsksOnceMore(u: Setup, s: State)
    requires "@power" in u.cfg.roster && StepStands(s) && s.pending == [] && s.nextId == 1
    requires s.gate.pendingCount == 1 && s.gate.skipCounts == map[]
    ensures var r := Ran(u, s, OTHERS.turn).0;
            && r.approved == s.approved && OnePending(r) && r.nextId == 2
            && r.audit == s.audit + [Gated(CONFIRMED, "@power", ToConfirm, Some(1))]
  {
    hide Consulted;
    hide Ran;
    hide Supervised;
    hide OnePending;
    hide SoloTaken;
    OthersConsult(u, s);
    SoloConsults(u, s, "@signal", []);
    OneStepRuns(u, s, OTHERS.turn);
  }

  /** A step approved in one turn is asked about again in the next, although its expert is not consulted in it. */
  lemma ApprovedStepIsAskedAgain(u: Setup)
    requires "@power" in u.cfg.roster
    ensures var s := Session(u, [RunTurn(Solo("@power", ONE_STEP)), Answer(0, true), OTHERS]);
            && s.approved == [CONFIRMED] && |s.pending| == 1 && s.pending[0].callId == 1
            && s.pending[0].summary == "press the button"
            && Gated(CONFIRMED, "@power", ToConfirm, Some(1)) in s.audit
  {
    hide Ran;
    hide Resumed;
    hide StepStands;
    FirstAsks(u);
    var first := RunTurn(Solo("@power", ONE_STEP));
    var s1 := Ran(u, INITIAL, first.turn).0;
    ApprovedOnce(s1);
    var s2 := Resumed(s1, 0, true).0;
    AsksOnceMore(u, s2);
    assert Session(u, []) == INITIAL;
    TwoOps(u, [], first.turn, 0);
    SessionSnoc(u, [first, Answer(0, true)], OTHERS);
    assert [] + [first, Answer(0, true)] == [first, Answer(0, true)];
    assert [first, Answer(0, true)] + [OTHERS] == [first, Answer(0, true), OTHERS];
    hide Session;
    var r := Ran(u, s2, OTHERS.turn).0;
    assert r.audit[|s2.audit|] == Gated(CONFIRMED, "@power", ToConfirm, Some(1));
  }
}
