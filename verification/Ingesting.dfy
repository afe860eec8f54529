/** Sessions in which schematics are ingested between turns: the knowledge grows, the session does not notice. */
module Ingesting {
  import opened Common
  import opened Knowledge
  import opened Gates
  import opened Fanout
  import opened Engine

  datatype GrowingOp = Act(op: Op) | Ingest(schematic: Schematic)

  /** What stays fixed, with the profile that has absorbed the schematics. */
  function Grown(u: Setup, schs: seq<Schematic>): Setup {
    u.(profile := MergedAll(u.cfg.lib, u.profile, schs))
  }

  function Ingested(ops: seq<GrowingOp>): seq<Schematic> {
    if ops == [] then []
    else
      var last := ops[|ops| - 1];
      Ingested(ops[..|ops| - 1]) + (if last.Ingest? then [last.schematic] else [])
  }

  function Acts(ops: seq<GrowingOp>): seq<Op> {
    if ops == [] then []
    else
      var last := ops[|ops| - 1];
      Acts(ops[..|ops| - 1]) + (if last.Act? then [last.op] else [])
  }

  /** A session whose every operation sees the profile as it is at that time. */
  function GrowingSession(u: Setup, ops: seq<GrowingOp>): State {
    if ops == [] then INITIAL
    else
      var front, last := ops[..|ops| - 1], ops[|ops| - 1];
      if last.Act? then Step(Grown(u, Ingested(front)), GrowingSession(u, front), last.op) else GrowingSession(u, front)
  }

  lemma GatingIgnores(u: Setup, schs: seq<Schematic>, s: State, p: Proposed)
    ensures GatedOne(Grown(u, schs), s, p) == GatedOne(u, s, p)
  {
    GateIgnoresIngest(u.cfg, u.profile, schs, p.action, InvokerFor(s, p), s.gate, false, 0.0);
    hide Evaluate;
    hide Decided;
  }

  lemma {:induction false} PassIgnores(u: Setup, schs: seq<Schematic>, s: State, ps: seq<Proposed>)
    ensures GatedAll(Grown(u, schs), s, ps) == GatedAll(u, s, ps)
  {
    hide GatedOne;
    hide Grown;
    if ps != [] {
      PassIgnores(u, schs, s, ps[..|ps| - 1]);
      GatingIgnores(u, schs, GatedAll(u, s, ps[..|ps| - 1]), ps[|ps| - 1]);
    }
  }

  lemma RoundIgnores(u: Setup, schs: seq<Schematic>, s: State, r: Round)
    ensures RoundDone(Grown(u, schs), s, r) == RoundDone(u, s, r)
  {
    hide Summoned;
    hide Aggregated;
    hide MergedWith;
    hide Dissented;
  }

  lemma {:induction false} DeliberationIgnores(
      u: Setup, schs: seq<Schematic>, s: State, rounds: nat -> Round, k: nat)
    ensures Deliberated(Grown(u, schs), s, rounds, k) == Deliberated(u, s, rounds, k)
    decreases CROSS_EXAM_CAP - s.crossExamRound
  {
    hide RoundDone;
    hide Deliberated;
    hide Grown;
    RoundIgnores(u, schs, s, rounds(k));
    DeliberatedUnfolds(u, s, rounds, k);
    DeliberatedUnfolds(Grown(u, schs), s, rounds, k);
    var (r, more) := RoundDone(u, s, rounds(k));
    if more && r.crossExamRound < CROSS_EXAM_CAP {
      DeliberationIgnores(u, schs, r.(crossExamRound := r.crossExamRound + 1), rounds, k + 1);
    }
  }

  lemma TurnIgnores(u: Setup, schs: seq<Schematic>, s: State, t: Turn)
    ensures Ran(Grown(u, schs), s, t) == Ran(u, s, t)
  {
    hide Supervised;
    hide Deliberated;
    hide GatedAll;
    hide Grown;
    var mid := Consulted(u, s, t);
    DeliberationIgnores(u, schs, Opened(s, t).(roster := Supervised(t).0.smes), t.rounds, 0);
    assert Consulted(Grown(u, schs), s, t) == mid;
    hide Consulted;
    if mid.merged.Some? { PassIgnores(u, schs, mid, mid.merged.value.actions); }
  }

  lemma StepIgnores(u: Setup, schs: seq<Schematic>, s: State, op: Op)
    ensures Step(Grown(u, schs), s, op) == Step(u, s, op)
  {
    hide Ran;
    hide Grown;
    if op.RunTurn? { TurnIgnores(u, schs, s, op.turn); }
  }

  /**
   * Whatever schematics are ingested in between, the session is the one without them: what is gated, asked,
   * approved and audited never depends on an ingest, so all that holds of sessions holds of growing ones.
   */
  lemma {:induction false} SessionIgnoresIngest(u: Setup, ops: seq<GrowingOp>)
    ensures GrowingSession(u, ops) == Session(u, Acts(ops))
  {
    hide Step;
    hide Grown;
    if ops != [] {
      var front, last := ops[..|ops| - 1], ops[|ops| - 1];
      SessionIgnoresIngest(u, front);
      match last
      case Act(op) =>
        StepIgnores(u, Ingested(front), GrowingSession(u, front), op);
        assert (Acts(front) + [op])[..|Acts(front)|] == Acts(front);
      case Ingest(_) => assert Acts(front) + [] == Acts(front);
    }
  }
}
