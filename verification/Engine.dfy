/** The deliberation graph: one turn of a session, the safety pause, and its resumption by the operator. */
module Engine {
  import opened Common
  import opened Events
  import opened Knowledge
  import opened Gates
  import opened Fanout

  const CROSS_EXAM_CAP: nat := 2
  const DEFAULT_INVOKER: string := "@power"
  const INCONCLUSIVE: string := "Inconclusive; need more evidence."
  const INTERNAL_ERROR: string := "Inconclusive; internal error."

  // ---------------------------------------------------------------- state

  datatype Merged = Merged(
    headline: string, supporting: seq<string>, openQuestions: seq<string>, actions: seq<Proposed>)

  datatype Request = Request(callId: nat, summary: string, risk: Risk, invoker: string, card: Option<Card>)

  datatype OutEvent =
    | Checkpoint
    | SummonNotice(roster: seq<string>)
    | Streamed(event: StreamEvent)
    | Digest(lines: seq<(string, string)>)
    | Dissent(pairs: seq<(string, string)>)
    | Denied(why: Reason)
    | NodeFailed(node: string)
    | Ask(req: Request)
    | Skipped(summary: string)
    | Speech(text: string)

  /** An outbound event, and whether it was pushed to the incremental sink when it was produced. */
  datatype Outbound = Outbound(event: OutEvent, streamed: bool)

  /** The audit trail; a gate row keeps the whole action and the call id it was given, if any. */
  datatype AuditRow =
    | Gated(action: Proposed, invoker: string, decision: Decision, askedAs: Option<nat>)
    | Answered(callId: nat, approved: bool, matched: bool)

  /** `pending` is the pending-confirmation dictionary in insertion order; `nextId` supplies fresh call ids. */
  datatype State = State(
    roster: seq<string>,
    responses: Responses,
    merged: Option<Merged>,
    dissentReport: Option<seq<(string, string)>>,
    crossExamRound: nat,
    invokerOf: map<nat, string>,
    pending: seq<Request>,
    approved: seq<Proposed>,
    audit: seq<AuditRow>,
    outbound: seq<Outbound>,
    errors: seq<string>,
    nextId: nat,
    gate: GateState)

  const NEW_GATE := GateState(false, 0, map[], None)
  const INITIAL := State([], [], None, None, 0, map[], [], [], [], [], [], 0, NEW_GATE)

  datatype Status = Complete | Paused | DirectReply

  // ---------------------------------------------------------------- what the models answer

  datatype Route = Route(needsGuild: bool, smes: seq<string>)

  datatype DissentResult = DissentResult(pairs: seq<(string, string)>, moreRounds: bool)

  /** One round: the experts' scripts and lateness by roster position, the merge and dissent answers (None: raised). */
  datatype Round = Round(
    scripts: nat -> Script, late: set<nat>, merge: Option<(string, seq<string>)>, dissent: Option<DissentResult>)

  /** One turn: the mentions in the transcript, the two routing attempts, and the rounds. */
  datatype Turn = Turn(
    transcript: string, mentions: seq<string>, first: Option<Route>, second: Option<Route>, rounds: nat -> Round)

  /** What stays fixed: gate configuration, board profile, aggregator queue size. */
  datatype Setup = Setup(cfg: Config, profile: Profile, queueMax: nat)

  // ---------------------------------------------------------------- nodes

  function Post(s: State, e: OutEvent): State {
    s.(outbound := s.outbound + [Outbound(e, false)])
  }

  function Emit(s: State, e: OutEvent): State {
    s.(outbound := s.outbound + [Outbound(e, true)])
  }

  function AddMissing(smes: seq<string>, forced: seq<string>): seq<string> {
    if forced == [] then smes
    else
      var r := AddMissing(smes, forced[..|forced| - 1]);
      if forced[|forced| - 1] in r then r else r + [forced[|forced| - 1]]
  }

  /** The routing decision, and whether routing failed altogether. */
  function Supervised(t: Turn): (Route, bool) {
    var decision := if t.first.Some? then t.first else t.second;
    match decision
    case None => if t.mentions != [] then (Route(true, t.mentions), false) else (Route(false, []), true)
    case Some(d) => (Route(d.needsGuild || t.mentions != [], AddMissing(d.smes, t.mentions)), false)
  }

  function Scripts(r: Round, n: nat): (t: seq<Script>)
    ensures |t| == n
  {
    seq(n, i requires 0 <= i < n => r.scripts(i))
  }

  function JobOf(s: State, r: Round): (job: Job)
    ensures job.Valid() && job.roster == s.roster
  {
    Job(s.roster, Scripts(r, |s.roster|), r.late)
  }

  function AssignAll(m: map<nat, string>, ps: seq<Proposed>, sme: string): map<nat, string> {
    if ps == [] then m else AssignAll(m, ps[..|ps| - 1], sme)[ps[|ps| - 1].uid := sme]
  }

  function Outs(es: seq<StreamEvent>): (os: seq<Outbound>)
    ensures |os| == |es|
  {
    seq(|es|, i requires 0 <= i < |es| => Outbound(Streamed(es[i]), true))
  }

  /** The collector's work for one roster position. */
  function Collected(s: State, job: Job, i: nat): State
    requires job.Valid() && i < |job.roster|
  {
    var sme, resp := job.roster[i], ResponseAt(job, i);
    s.(responses := Upsert(s.responses, sme, resp),
       invokerOf := AssignAll(s.invokerOf, resp.proposed, sme),
       outbound := s.outbound + Outs(BufferAt(job, i)))
  }

  function InvokersUpTo(m: map<nat, string>, job: Job, n: nat): map<nat, string>
    requires job.Valid() && n <= |job.roster|
  {
    if n == 0 then m else AssignAll(InvokersUpTo(m, job, n - 1), ResponseAt(job, n - 1).proposed, job.roster[n - 1])
  }

  /** The first `n` positions at once: the sequential stream and table of the fan-out. */
  function CollectedUpTo(s: State, job: Job, n: nat): State
    requires job.Valid() && n <= |job.roster|
  {
    s.(responses := Table(job, s.responses, n),
       invokerOf := InvokersUpTo(s.invokerOf, job, n),
       outbound := s.outbound + Outs(Stream(job, n)))
  }

  lemma CollectedNext(s: State, job: Job, i: nat)
    requires job.Valid() && i < |job.roster|
    ensures CollectedUpTo(s, job, i + 1) == Collected(CollectedUpTo(s, job, i), job, i)
  {
    hide ResponseAt;
    hide BufferAt;
    hide Upsert;
    hide AssignAll;
    assert Outs(Stream(job, i) + BufferAt(job, i)) == Outs(Stream(job, i)) + Outs(BufferAt(job, i));
    assert s.outbound + Outs(Stream(job, i + 1)) == (s.outbound + Outs(Stream(job, i))) + Outs(BufferAt(job, i));
  }

  function Summoned(s: State, r: Round): (t: State)
    ensures t == s.(responses := t.responses, invokerOf := t.invokerOf, outbound := t.outbound)
  {
    var noticed := if s.crossExamRound == 0 then Emit(s, SummonNotice(s.roster)) else s;
    CollectedUpTo(noticed, JobOf(s, r), |s.roster|)
  }

  function Lines(t: Responses): (ls: seq<(string, string)>)
    ensures |ls| == |t|
  {
    seq(|t|, i requires 0 <= i < |t| => (t[i].0, t[i].1.claim))
  }

  /** Python's `q[-cap:]` keeps everything when `cap` is 0. */
  function Coalesced(ls: seq<(string, string)>, cap: nat): seq<(string, string)> {
    if cap == 0 then ls else LastN(ls, cap)
  }

  function Aggregated(s: State, queueMax: nat): State {
    Post(s, Digest(Coalesced(Lines(s.responses), queueMax)))
  }

  /** The responses confident enough to be merged. */
  function Kept(t: Responses): seq<SmeResponse> {
    if t == [] then []
    else Kept(t[..|t| - 1]) + (if t[|t| - 1].1.confidence >= 0.2 then [t[|t| - 1].1] else [])
  }

  function OpenQuestions(t: Responses): seq<string> {
    if t == [] then []
    else
      var last := t[|t| - 1].1;
      OpenQuestions(t[..|t| - 1]) + (if last.confidence < 0.2 then [last.smeId + ": " + last.claim] else [])
  }

  predicate SameStep(a: Proposed, b: Proposed) {
    a.action.tool == b.action.tool && a.action.argsText == b.action.argsText
  }

  predicate AlreadyIn(ps: seq<Proposed>, p: Proposed) {
    exists q :: q in ps && SameStep(q, p)
  }

  /** The merge in progress: the actions taken so far and the invoker table. */
  datatype Taken = Taken(actions: seq<Proposed>, invokerOf: map<nat, string>)

  /** An action with a new tool and arguments is taken, and given a default invoker if it has none. */
  function TakeOne(acc: Taken, sme: string, p: Proposed): Taken {
    if AlreadyIn(acc.actions, p) then acc
    else Taken(acc.actions + [p], if p.uid in acc.invokerOf then acc.invokerOf else acc.invokerOf[p.uid := sme])
  }

  function TakeAll(acc: Taken, sme: string, ps: seq<Proposed>): Taken {
    if ps == [] then acc else TakeOne(TakeAll(acc, sme, ps[..|ps| - 1]), sme, ps[|ps| - 1])
  }

  /** The actions of all kept responses, without repeats of the same tool and arguments. */
  function TakenFrom(m: map<nat, string>, rs: seq<SmeResponse>): Taken {
    if rs == [] then Taken([], m)
    else TakeAll(TakenFrom(m, rs[..|rs| - 1]), rs[|rs| - 1].smeId, rs[|rs| - 1].proposed)
  }

  /** A merge that raises keeps the previous opinion, or falls back to an empty one. */
  function MergedWith(s: State, answer: Option<(string, seq<string>)>): (t: State)
    ensures t == s.(merged := t.merged, invokerOf := t.invokerOf, outbound := t.outbound, errors := t.errors)
    ensures t.merged.Some?
  {
    match answer
    case Some((headline, supporting)) =>
      var taken := TakenFrom(s.invokerOf, Kept(s.responses));
      var opinion := if headline != "" then headline else INCONCLUSIVE;
      s.(merged := Some(Merged(opinion, supporting, OpenQuestions(s.responses), taken.actions)),
         invokerOf := taken.invokerOf)
    case None =>
      var r := Post(s.(errors := s.errors + ["MergeOpinion"]), NodeFailed("MergeOpinion"));
      r.(merged := if s.merged.None? then Some(Merged(INTERNAL_ERROR, [], [], [])) else s.merged)
  }

  /** A dissent check that raises counts as converged. */
  function Dissented(s: State, answer: Option<DissentResult>): (t: (State, bool))
    ensures t.0 == s.(dissentReport := t.0.dissentReport, outbound := t.0.outbound)
  {
    match answer
    case None => (s, false)
    case Some(d) =>
      var r := if d.pairs != [] then Post(s.(dissentReport := Some(d.pairs)), Dissent(d.pairs)) else s;
      (r, d.moreRounds)
  }

  /** Only the deliberation's own fields change: nothing is asked, approved, audited or gated. */
  ghost predicate Talked(s: State, t: State) {
    t == s.(responses := t.responses, merged := t.merged, dissentReport := t.dissentReport,
            crossExamRound := t.crossExamRound, invokerOf := t.invokerOf, outbound := t.outbound, errors := t.errors)
  }

  function RoundDone(u: Setup, s: State, r: Round): (t: (State, bool))
    ensures Talked(s, t.0) && t.0.crossExamRound == s.crossExamRound && t.0.merged.Some?
  {
    Dissented(MergedWith(Aggregated(Summoned(s, r), u.queueMax), r.merge), r.dissent)
  }

  /** Cross-examination goes on while the dissent check asks for it and the session's two extra rounds last. */
  function Deliberated(u: Setup, s: State, rounds: nat -> Round, k: nat): (t: State)
    ensures Talked(s, t) && t.merged.Some? && s.crossExamRound <= t.crossExamRound
    ensures s.crossExamRound <= CROSS_EXAM_CAP ==> t.crossExamRound <= CROSS_EXAM_CAP
    decreases CROSS_EXAM_CAP - s.crossExamRound
  {
    var (r, more) := RoundDone(u, s, rounds(k));
    if more && r.crossExamRound < CROSS_EXAM_CAP then
      Deliberated(u, r.(crossExamRound := r.crossExamRound + 1), rounds, k + 1)
    else r
  }

  lemma DeliberatedUnfolds(u: Setup, s: State, rounds: nat -> Round, k: nat)
    ensures var (r, more) := RoundDone(u, s, rounds(k));
            Deliberated(u, s, rounds, k)
            == if more && r.crossExamRound < CROSS_EXAM_CAP
               then Deliberated(u, r.(crossExamRound := r.crossExamRound + 1), rounds, k + 1)
               else r
  {
    hide RoundDone;
  }

  function InvokerFor(s: State, p: Proposed): string {
    if p.uid in s.invokerOf then s.invokerOf[p.uid] else DEFAULT_INVOKER
  }

  function RequestFor(callId: nat, p: Proposed, invoker: string, d: GateDecision): Request {
    Request(callId, Instructions(p.action), if d.risk == HALT then HIGH else d.risk, invoker, d.card)
  }

  /** Acting on a decision: audited always; warned about, approved, or asked about according to the decision. */
  function Decided(s: State, p: Proposed, invoker: string, d: GateDecision): State {
    var asked := d.decision == ToConfirm;
    var r := s.(audit := s.audit + [Gated(p, invoker, d.decision, if asked then Some(s.nextId) else None)]);
    if d.decision == Deny then Post(r, Denied(d.reason))
    else if d.decision == Allow then r.(approved := r.approved + [p])
    else if asked then
      var req := RequestFor(s.nextId, p, invoker, d);
      Post(r.(nextId := r.nextId + 1, pending := r.pending + [req]), Ask(req))
    else r
  }

  function GatedOne(u: Setup, s: State, p: Proposed): State {
    var invoker := InvokerFor(s, p);
    var (d, g) := Evaluate(u.cfg, u.profile, p.action, invoker, s.gate, false, 0.0);
    Decided(s.(gate := g), p, invoker, d)
  }

  function GatedAll(u: Setup, s: State, ps: seq<Proposed>): State {
    if ps == [] then s else GatedOne(u, GatedAll(u, s, ps[..|ps| - 1]), ps[|ps| - 1])
  }

  lemma GatedNext(u: Setup, s: State, ps: seq<Proposed>, i: nat)
    requires i < |ps|
    ensures GatedAll(u, s, ps[..i + 1]) == GatedOne(u, GatedAll(u, s, ps[..i]), ps[i])
  {
    hide GatedOne;
    assert ps[..i + 1][..i] == ps[..i];
  }

  lemma GatedNone(u: Setup, s: State)
    ensures GatedAll(u, s, []) == s
  {
  }

  /** An opinion without actions goes through even while earlier confirmations are pending. */
  function SafetyChecked(u: Setup, s: State): (State, bool) {
    if s.merged.None? || s.merged.value.actions == [] then (s, false)
    else
      var r := GatedAll(u, s, s.merged.value.actions);
      (r, r.pending != [])
  }

  function Headline(s: State): string {
    if s.merged.Some? then s.merged.value.headline else ""
  }

  /** The start of a turn: a checkpoint, and a note of a failed routing. */
  function Opened(s: State, t: Turn): State {
    var s0 := Post(s, Checkpoint);
    if Supervised(t).1 then s0.(errors := s0.errors + ["routing_failed"]) else s0
  }

  /** The state in which the gate gets to see the opinion. */
  function Consulted(u: Setup, s: State, t: Turn): (r: State)
    ensures Talked(s, r.(roster := s.roster)) && r.merged.Some?
    ensures s.crossExamRound <= CROSS_EXAM_CAP ==> r.crossExamRound <= CROSS_EXAM_CAP
  {
    Deliberated(u, Opened(s, t).(roster := Supervised(t).0.smes), t.rounds, 0)
  }

  function Ran(u: Setup, s: State, t: Turn): (State, Status) {
    if !Supervised(t).0.needsGuild then (Post(Opened(s, t), Speech(t.transcript)), DirectReply)
    else
      var (r, paused) := SafetyChecked(u, Consulted(u, s, t));
      if paused then (r, Paused) else (Post(r, Speech(Headline(r))), Complete)
  }

  function FindPending(pending: seq<Request>, callId: nat): (i: nat)
    ensures i <= |pending|
    ensures i < |pending| ==> pending[i].callId == callId
    ensures forall j :: 0 <= j < i ==> pending[j].callId != callId
  {
    if pending == [] then 0 else if pending[0].callId == callId then 0 else 1 + FindPending(pending[1..], callId)
  }

  /** The first merged action whose text is the summary. */
  function FindBySummary(ps: seq<Proposed>, summary: string): Option<Proposed> {
    if ps == [] then None
    else if Instructions(ps[0].action) == summary then Some(ps[0])
    else FindBySummary(ps[1..], summary)
  }

  function ActionsOf(s: State): seq<Proposed> {
    if s.merged.Some? then s.merged.value.actions else []
  }

  /** An unknown call id changes nothing; an approval without a matching action is treated as a skip. */
  function Resumed(s: State, callId: nat, approved: bool): (State, Status) {
    var i := FindPending(s.pending, callId);
    if i == |s.pending| then (s, Paused)
    else
      var req := s.pending[i];
      var found := FindBySummary(ActionsOf(s), req.summary);
      var s0 := s.(pending := RemoveAt(s.pending, i));
      var s1 :=
        if approved && found.Some? then s0.(approved := s0.approved + [found.value])
        else
          var freed := if found.Some? then s0.(gate := SkipRecorded(s0.gate, found.value.action)) else s0;
          Post(freed, Skipped(req.summary));
      var s2 := s1.(audit := s1.audit + [Answered(callId, approved, found.Some?)]);
      if s2.pending != [] then (s2, Paused) else (Post(s2, Speech(Headline(s2))), Complete)
  }

  // ---------------------------------------------------------------- runs of a session

  datatype Op =
    | RunTurn(turn: Turn)
    | Answer(callId: nat, approved: bool)
    | ReplayPending
    | Drain

  function AskAgain(s: State, n: nat): State
    requires n <= |s.pending|
  {
    if n == 0 then s else Post(AskAgain(s, n - 1), Ask(s.pending[n - 1]))
  }

  function Step(u: Setup, s: State, op: Op): State {
    match op
    case RunTurn(t) => Ran(u, s, t).0
    case Answer(callId, approved) => Resumed(s, callId, approved).0
    case ReplayPending => AskAgain(s, |s.pending|)
    case Drain => s.(outbound := [])
  }

  function Session(u: Setup, ops: seq<Op>): State {
    if ops == [] then INITIAL else Step(u, Session(u, ops[..|ops| - 1]), ops[|ops| - 1])
  }

  // ---------------------------------------------------------------- the objects

  class ForgeState {
    var activeSmes: seq<string>
    var smeResponses: Responses
    var mergedOpinion: Option<Merged>
    var dissentReport: Option<seq<(string, string)>>
    var crossExamRound: nat
    var invokerOf: map<nat, string>
    var pendingConfirmations: seq<Request>
    var approvedActions: seq<Proposed>
    var audit: seq<AuditRow>
    var outboundEvents: seq<Outbound>
    var errors: seq<string>
    var nextCallId: nat

    constructor ()
      ensures activeSmes == [] && smeResponses == [] && mergedOpinion == None && dissentReport == None
      ensures crossExamRound == 0 && invokerOf == map[]
      ensures pendingConfirmations == [] && approvedActions == [] && audit == []
      ensures outboundEvents == [] && errors == [] && nextCallId == 0
    {
      activeSmes, smeResponses, mergedOpinion, dissentReport, crossExamRound, invokerOf := [], [], None, None, 0, map[];
      pendingConfirmations, approvedActions, audit, outboundEvents, errors, nextCallId := [], [], [], [], [], 0;
    }

    method PostEvent(e: OutEvent)
      modifies `outboundEvents
      ensures outboundEvents == old(outboundEvents) + [Outbound(e, false)]
    {
      outboundEvents := outboundEvents + [Outbound(e, false)];
    }

    method EmitEvent(e: OutEvent)
      modifies `outboundEvents
      ensures outboundEvents == old(outboundEvents) + [Outbound(e, true)]
    {
      outboundEvents := outboundEvents + [Outbound(e, true)];
    }
  }

  class GraphEngine {
    const gate: SafetyGate
    const gateSession: GateSession
    const aggregatorQueueMax: nat

    ghost predicate Valid()
      reads gate.knowledge, gate.knowledge.profile, gate.knowledge.resolver
    {
      gate.Valid()
    }

    /** What no turn changes. */
    ghost function Fixed(): Setup
      reads gate.knowledge.profile
    {
      Setup(gate.cfg, gate.knowledge.profile.State(), aggregatorQueueMax)
    }

    ghost function Snapshot(st: ForgeState): State
      reads st, gateSession
    {
      State(st.activeSmes, st.smeResponses, st.mergedOpinion, st.dissentReport, st.crossExamRound, st.invokerOf,
            st.pendingConfirmations, st.approvedActions, st.audit, st.outboundEvents, st.errors,
            st.nextCallId, gateSession.State())
    }

    constructor (gate: SafetyGate, aggregatorQueueMax: nat)
      requires gate.Valid()
      ensures Valid() && this.gate == gate && this.aggregatorQueueMax == aggregatorQueueMax
      ensures fresh(gateSession) && gateSession.State() == NEW_GATE
    {
      this.gate, this.aggregatorQueueMax := gate, aggregatorQueueMax;
      gateSession := new GateSession();
    }

    /** Files one expert's response and flushes its buffered events. */
    method Collect(st: ForgeState, job: Job, pos: nat)
      requires job.Valid() && pos < |job.roster|
      modifies st
      ensures Snapshot(st) == Collected(old(Snapshot(st)), job, pos)
    {
      var sme, resp, buf := job.roster[pos], ResponseAt(job, pos), BufferAt(job, pos);
      hide ResponseAt;
      hide BufferAt;
      ghost var s := Snapshot(st);
      st.smeResponses := Upsert(st.smeResponses, sme, resp);
      for i := 0 to |resp.proposed|
        invariant Snapshot(st) == s.(responses := Upsert(s.responses, sme, resp),
                                     invokerOf := AssignAll(s.invokerOf, resp.proposed[..i], sme))
      {
        assert resp.proposed[..i + 1][..i] == resp.proposed[..i];
        st.invokerOf := st.invokerOf[resp.proposed[i].uid := sme];
      }
      assert resp.proposed[..|resp.proposed|] == resp.proposed;
      ghost var filed := Snapshot(st);
      for i := 0 to |buf|
        invariant Snapshot(st) == filed.(outbound := filed.outbound + Outs(buf)[..i])
      {
        st.EmitEvent(Streamed(buf[i]));
      }
    }

    method CollectEach(st: ForgeState, job: Job)
      requires job.Valid()
      modifies st
      ensures Snapshot(st) == CollectedUpTo(old(Snapshot(st)), job, |job.roster|)
    {
      hide Collected;
      ghost var s := Snapshot(st);
      assert s.outbound + Outs([]) == s.outbound;
      for i := 0 to |job.roster|
        invariant Snapshot(st) == CollectedUpTo(s, job, i)
      {
        CollectedNext(s, job, i);
        hide CollectedUpTo;
        Collect(st, job, i);
      }
    }

    method ParallelSummon(st: ForgeState, r: Round)
      modifies st
      ensures Snapshot(st) == Summoned(old(Snapshot(st)), r)
    {
      hide CollectedUpTo;
      ghost var s := Snapshot(st);
      var job := Job(st.activeSmes, Scripts(r, |st.activeSmes|), r.late);
      assert job == JobOf(s, r);
      if st.crossExamRound == 0 {
        st.EmitEvent(SummonNotice(st.activeSmes));
      }
      CollectEach(st, job);
    }

    /** The running queue never holds more than its bound, yet ends as one cut of the whole list. */
    method Aggregate(st: ForgeState)
      modifies st
      ensures Snapshot(st) == Aggregated(old(Snapshot(st)), aggregatorQueueMax)
    {
      var q: seq<(string, string)> := [];
      ghost var all := Lines(st.smeResponses);
      for i := 0 to |st.smeResponses|
        invariant q == Coalesced(all[..i], aggregatorQueueMax)
      {
        q := q + [(st.smeResponses[i].0, st.smeResponses[i].1.claim)];
        assert all[..i + 1] == all[..i] + [all[i]];
        if |q| > aggregatorQueueMax && aggregatorQueueMax > 0 {
          q := q[|q| - aggregatorQueueMax..];
        }
      }
      assert all[..|all|] == all;
      st.PostEvent(Digest(q));
    }

    /** What has been seen is what has been taken, up to tool and arguments. */
    ghost predicate SeenIsTaken(seen: set<(string, string)>, ps: seq<Proposed>) {
      forall key :: key in seen <==> exists p :: p in ps && (p.action.tool, p.action.argsText) == key
    }

    method TakeProposals(st: ForgeState, resp: SmeResponse, seen0: set<(string, string)>, actions0: seq<Proposed>)
      returns (seen: set<(string, string)>, actions: seq<Proposed>)
      requires SeenIsTaken(seen0, actions0)
      modifies st`invokerOf
      ensures SeenIsTaken(seen, actions)
      ensures Taken(actions, st.invokerOf) == TakeAll(Taken(actions0, old(st.invokerOf)), resp.smeId, resp.proposed)
    {
      seen, actions := seen0, actions0;
      ghost var start := Taken(actions0, st.invokerOf);
      for i := 0 to |resp.proposed|
        invariant SeenIsTaken(seen, actions)
        invariant Taken(actions, st.invokerOf) == TakeAll(start, resp.smeId, resp.proposed[..i])
      {
        assert resp.proposed[..i + 1][..i] == resp.proposed[..i];
        var a := resp.proposed[i];
        var key := (a.action.tool, a.action.argsText);
        assert key in seen <==> AlreadyIn(actions, a);
        if key !in seen {
          seen, actions := seen + {key}, actions + [a];
          if a.uid !in st.invokerOf {
            st.invokerOf := st.invokerOf[a.uid := resp.smeId];
          }
        }
      }
      assert resp.proposed[..|resp.proposed|] == resp.proposed;
    }

    /** The merge inside its error envelope; `answer` is None when the merge model raises. */
    method Merge(st: ForgeState, answer: Option<(string, seq<string>)>)
      modifies st
      ensures Snapshot(st) == MergedWith(old(Snapshot(st)), answer)
    {
      var kept: seq<SmeResponse> := [];
      var openQuestions: seq<string> := [];
      var t := st.smeResponses;
      for i := 0 to |t|
        invariant kept == Kept(t[..i]) && openQuestions == OpenQuestions(t[..i])
      {
        assert t[..i + 1][..i] == t[..i];
        if t[i].1.confidence >= 0.2 {
          kept := kept + [t[i].1];
        } else {
          openQuestions := openQuestions + [t[i].1.smeId + ": " + t[i].1.claim];
        }
      }
      assert t[..|t|] == t;
      if answer.None? {
        st.errors := st.errors + ["MergeOpinion"];
        st.PostEvent(NodeFailed("MergeOpinion"));
        if st.mergedOpinion.None? {
          st.mergedOpinion := Some(Merged(INTERNAL_ERROR, [], [], []));
        }
        return;
      }
      var (headline, supporting) := answer.value;
      var actions := MergeKept(st, kept);
      var opinion := if headline != "" then headline else INCONCLUSIVE;
      st.mergedOpinion := Some(Merged(opinion, supporting, openQuestions, actions));
    }

    method MergeKept(st: ForgeState, kept: seq<SmeResponse>) returns (actions: seq<Proposed>)
      modifies st`invokerOf
      ensures Taken(actions, st.invokerOf) == TakenFrom(old(st.invokerOf), kept)
    {
      var seen: set<(string, string)> := {};
      actions := [];
      ghost var m := st.invokerOf;
      for i := 0 to |kept|
        invariant SeenIsTaken(seen, actions)
        invariant Taken(actions, st.invokerOf) == TakenFrom(m, kept[..i])
      {
        assert kept[..i + 1][..i] == kept[..i];
        seen, actions := TakeProposals(st, kept[i], seen, actions);
      }
      assert kept[..|kept|] == kept;
    }

    method Dissenting(st: ForgeState, answer: Option<DissentResult>) returns (more: bool)
      modifies st`outboundEvents, st`dissentReport
      ensures (Snapshot(st), more) == Dissented(old(Snapshot(st)), answer)
    {
      if answer.None? { return false; }
      if answer.value.pairs != [] {
        st.dissentReport := Some(answer.value.pairs);
        st.PostEvent(Dissent(answer.value.pairs));
      }
      return answer.value.moreRounds;
    }

    method OneRound(st: ForgeState, r: Round) returns (more: bool)
      modifies st
      ensures (Snapshot(st), more) == RoundDone(Fixed(), old(Snapshot(st)), r)
    {
      hide Summoned;
      hide Aggregated;
      hide MergedWith;
      hide Dissented;
      ParallelSummon(st, r);
      Aggregate(st);
      Merge(st, r.merge);
      more := Dissenting(st, r.dissent);
    }

    /** One round, and whether another one follows. */
    method RoundAndCount(st: ForgeState, rounds: nat -> Round, k: nat) returns (again: bool)
      modifies st
      ensures Deliberated(Fixed(), old(Snapshot(st)), rounds, k)
              == if again then Deliberated(Fixed(), Snapshot(st), rounds, k + 1) else Snapshot(st)
      ensures again ==> old(st.crossExamRound) < st.crossExamRound <= CROSS_EXAM_CAP
    {
      hide Deliberated;
      hide RoundDone;
      hide Talked;
      DeliberatedUnfolds(Fixed(), Snapshot(st), rounds, k);
      again := OneRound(st, rounds(k));
      again := again && st.crossExamRound < CROSS_EXAM_CAP;
      if again {
        st.crossExamRound := st.crossExamRound + 1;
      }
    }

    method Deliberate(st: ForgeState, rounds: nat -> Round)
      modifies st
      ensures Snapshot(st) == Deliberated(Fixed(), old(Snapshot(st)), rounds, 0)
    {
      hide Deliberated;
      ghost var u := Fixed();
      var k: nat := 0;
      var again := RoundAndCount(st, rounds, 0);
      while again
        invariant Fixed() == u
        invariant Deliberated(u, old(Snapshot(st)), rounds, 0)
            == if again then Deliberated(u, Snapshot(st), rounds, k + 1) else Snapshot(st)
        invariant again ==> st.crossExamRound <= CROSS_EXAM_CAP
        decreases again, CROSS_EXAM_CAP - st.crossExamRound
      {
        k := k + 1;
        again := RoundAndCount(st, rounds, k);
      }
    }

    method Decide(st: ForgeState, p: Proposed, invoker: string, d: GateDecision)
      modifies st
      ensures Snapshot(st) == Decided(old(Snapshot(st)), p, invoker, d)
    {
      hide RequestFor;
      var askedAs := if d.decision == ToConfirm then Some(st.nextCallId) else None;
      st.audit := st.audit + [Gated(p, invoker, d.decision, askedAs)];
      if d.decision == Deny {
        st.PostEvent(Denied(d.reason));
      } else if d.decision == Allow {
        st.approvedActions := st.approvedActions + [p];
      } else if d.decision == ToConfirm {
        var req := RequestFor(st.nextCallId, p, invoker, d);
        st.nextCallId := st.nextCallId + 1;
        st.pendingConfirmations := st.pendingConfirmations + [req];
        st.PostEvent(Ask(req));
      }
    }

    method GateOne(st: ForgeState, p: Proposed)
      requires Valid()
      modifies st, gateSession, gate.knowledge.resolver
      ensures Valid() && Snapshot(st) == GatedOne(Fixed(), old(Snapshot(st)), p)
    {
      hide Evaluate;
      hide Decided;
      var invoker := if p.uid in st.invokerOf then st.invokerOf[p.uid] else DEFAULT_INVOKER;
      var d := gate.EvaluateAction(p.action, invoker, gateSession, false, 0.0);
      Decide(st, p, invoker, d);
    }

    method GateEach(st: ForgeState, ps: seq<Proposed>)
      requires Valid()
      modifies st, gateSession, gate.knowledge.resolver
      ensures Valid() && Fixed() == old(Fixed()) && Snapshot(st) == GatedAll(Fixed(), old(Snapshot(st)), ps)
    {
      hide GatedAll;
      hide GatedOne;
      ghost var s, u := Snapshot(st), Fixed();
      GatedNone(u, s);
      assert ps[..0] == [];
      for i := 0 to |ps|
        invariant Valid() && Fixed() == u && Snapshot(st) == GatedAll(u, s, ps[..i])
      {
        GatedNext(u, s, ps, i);
        GateOne(st, ps[i]);
      }
      assert ps[..|ps|] == ps;
    }

    method Safety(st: ForgeState) returns (paused: bool)
      requires Valid()
      modifies st, gateSession, gate.knowledge.resolver
      ensures Valid() && (Snapshot(st), paused) == SafetyChecked(Fixed(), old(Snapshot(st)))
    {
      if st.mergedOpinion.None? || st.mergedOpinion.value.actions == [] { return false; }
      ghost var s := Snapshot(st);
      GateEach(st, st.mergedOpinion.value.actions);
      hide GatedAll;
      return st.pendingConfirmations != [];
    }

    /** Two attempts at routing, then the mentions are forced in. */
    method Supervise(st: ForgeState, t: Turn) returns (route: Route)
      modifies st`errors
      ensures route == Supervised(t).0
      ensures st.errors == if Supervised(t).1 then old(st.errors) + ["routing_failed"] else old(st.errors)
    {
      var attempts, decision := 0, None;
      while attempts < 2 && decision.None?
        invariant attempts <= 2
        invariant decision == if attempts == 0 then None
                              else if attempts == 1 || t.first.Some? then t.first else t.second
      {
        decision := if attempts == 0 then t.first else t.second;
        attempts := attempts + 1;
      }
      if decision.None? {
        if t.mentions != [] { return Route(true, t.mentions); }
        st.errors := st.errors + ["routing_failed"];
        return Route(false, []);
      }
      var smes := decision.value.smes;
      for i := 0 to |t.mentions|
        invariant smes == AddMissing(decision.value.smes, t.mentions[..i])
      {
        assert t.mentions[..i + 1][..i] == t.mentions[..i];
        if t.mentions[i] !in smes {
          smes := smes + [t.mentions[i]];
        }
      }
      assert t.mentions[..|t.mentions|] == t.mentions;
      return Route(decision.value.needsGuild || t.mentions != [], smes);
    }

    method Run(st: ForgeState, t: Turn) returns (status: Status)
      requires Valid()
      modifies st, gateSession, gate.knowledge.resolver
      ensures Valid() && (Snapshot(st), status) == Ran(Fixed(), old(Snapshot(st)), t)
    {
      hide Supervised;
      hide Deliberated;
      hide SafetyChecked;
      st.PostEvent(Checkpoint);
      var route := Supervise(st, t);
      if !route.needsGuild {
        st.PostEvent(Speech(t.transcript));
        return DirectReply;
      }
      st.activeSmes := route.smes;
      Deliberate(st, t.rounds);
      var paused := Safety(st);
      if paused { return Paused; }
      st.PostEvent(Speech(if st.mergedOpinion.Some? then st.mergedOpinion.value.headline else ""));
      return Complete;
    }

    method FindAction(ps: seq<Proposed>, summary: string) returns (found: Option<Proposed>)
      ensures found == FindBySummary(ps, summary)
    {
      for i := 0 to |ps|
        invariant FindBySummary(ps, summary) == FindBySummary(ps[i..], summary)
      {
        if Instructions(ps[i].action) == summary { return Some(ps[i]); }
        assert ps[i..][1..] == ps[i + 1..];
      }
      return None;
    }

    method Resume(st: ForgeState, callId: nat, approved: bool) returns (status: Status)
      modifies st, gateSession
      ensures (Snapshot(st), status) == Resumed(old(Snapshot(st)), callId, approved)
    {
      hide FindBySummary;
      hide FindPending;
      hide RemoveAt;
      hide SkipRecorded;
      var i := FindPending(st.pendingConfirmations, callId);
      if i == |st.pendingConfirmations| { return Paused; }
      var req := st.pendingConfirmations[i];
      st.pendingConfirmations := RemoveAt(st.pendingConfirmations, i);
      var found := FindAction(if st.mergedOpinion.Some? then st.mergedOpinion.value.actions else [], req.summary);
      if approved && found.Some? {
        st.approvedActions := st.approvedActions + [found.value];
      } else {
        if found.Some? {
          gate.RecordSkip(gateSession, found.value.action);
        }
        st.PostEvent(Skipped(req.summary));
      }
      st.audit := st.audit + [Answered(callId, approved, found.Some?)];
      if st.pendingConfirmations != [] { return Paused; }
      st.PostEvent(Speech(if st.mergedOpinion.Some? then st.mergedOpinion.value.headline else ""));
      return Complete;
    }

    method ReplayPendingRequests(st: ForgeState)
      modifies st`outboundEvents
      ensures Snapshot(st) == AskAgain(old(Snapshot(st)), |st.pendingConfirmations|)
    {
      ghost var s := Snapshot(st);
      for i := 0 to |st.pendingConfirmations|
        invariant Snapshot(st) == AskAgain(s, i) && st.pendingConfirmations == s.pending
      {
        st.PostEvent(Ask(st.pendingConfirmations[i]));
      }
    }
  }
}
