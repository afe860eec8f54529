/** The concurrent fan-out to the experts: workers with private buffers, one collector in roster order. */
module Fanout {
  import opened Common
  import opened Gates

  /** A proposed action with the identity of its object. */
  datatype Proposed = Proposed(uid: nat, action: Action)

  datatype SmeResponse = SmeResponse(
    smeId: string, confidence: real, claim: string, rationale: string, proposed: seq<Proposed>)

  datatype StreamEvent =
    | ToolActivity(sme: string, call: string)
    | Claim(sme: string, resp: SmeResponse)

  /** What one expert's call does: the tool calls it reports, then its response, or None when it raises. */
  datatype Script = Script(calls: seq<string>, result: Option<SmeResponse>)

  /**
   * One fan-out: the roster, a script per roster position, and the positions at which the collector
   * runs out of patience. A name may occur twice in the roster.
   */
  datatype Job = Job(roster: seq<string>, scripts: seq<Script>, late: set<nat>) {
    ghost predicate Valid() { |scripts| == |roster| }
  }

  function Placeholder(sme: string, why: string): SmeResponse {
    SmeResponse(sme, 0.0, "<timeout>", why, [])
  }

  /** The futures are filed by name: a repeated name leads to the worker submitted last. */
  function WorkerOf(roster: seq<string>, sme: string): (i: nat)
    requires sme in roster
    ensures i < |roster| && roster[i] == sme
  {
    var n := |roster| - 1;
    if roster[n] == sme then n else WorkerOf(roster[..n], sme)
  }

  function Activities(sme: string, calls: seq<string>): (es: seq<StreamEvent>)
    ensures |es| == |calls|
  {
    seq(|calls|, i requires 0 <= i < |calls| => ToolActivity(sme, calls[i]))
  }

  function ResponseOf(sme: string, script: Script): SmeResponse {
    script.result.GetOr(Placeholder(sme, "error"))
  }

  /** The buffer of a worker that ran to its end: tool activity, then the claim. */
  function FullBuffer(sme: string, script: Script): seq<StreamEvent> {
    Activities(sme, script.calls) + [Claim(sme, ResponseOf(sme, script))]
  }

  /** What the collector takes at one roster position. */
  function ResponseAt(job: Job, pos: nat): SmeResponse
    requires job.Valid() && pos < |job.roster|
  {
    var sme := job.roster[pos];
    if pos in job.late then Placeholder(sme, "timeout") else ResponseOf(sme, job.scripts[WorkerOf(job.roster, sme)])
  }

  function BufferAt(job: Job, pos: nat): seq<StreamEvent>
    requires job.Valid() && pos < |job.roster|
  {
    var sme := job.roster[pos];
    if pos in job.late then [Claim(sme, Placeholder(sme, "timeout"))]
    else FullBuffer(sme, job.scripts[WorkerOf(job.roster, sme)])
  }

  /** A Python dictionary of responses, in insertion order. */
  type Responses = seq<(string, SmeResponse)>

  function Upsert(t: Responses, sme: string, r: SmeResponse): Responses {
    if t == [] then [(sme, r)]
    else if t[0].0 == sme then [(sme, r)] + t[1..]
    else [t[0]] + Upsert(t[1..], sme, r)
  }

  /** The stream of the first `n` roster positions: what running the experts one after the other would emit. */
  function Stream(job: Job, n: nat): seq<StreamEvent>
    requires job.Valid() && n <= |job.roster|
  {
    if n == 0 then [] else Stream(job, n - 1) + BufferAt(job, n - 1)
  }

  function Table(job: Job, before: Responses, n: nat): Responses
    requires job.Valid() && n <= |job.roster|
  {
    if n == 0 then before else Upsert(Table(job, before, n - 1), job.roster[n - 1], ResponseAt(job, n - 1))
  }

  /** What an expert counts as having said when nothing came of the call: nothing, with no confidence. */
  function Silence(sme: string, why: string): SmeResponse {
    SmeResponse(sme, 0.0, "<timeout>", why, [])
  }

  /**
   * What is collected at a roster position. A late expert has timed out. Otherwise it is what the worker submitted
   * last for that name did: its tool calls in order, then its claim, which is its answer or that the call failed.
   */
  lemma CollectedAt(job: Job, pos: nat) returns (w: nat)
    requires job.Valid() && pos < |job.roster|
    ensures w < |job.roster| && job.roster[w] == job.roster[pos]
    ensures forall k :: w < k < |job.roster| ==> job.roster[k] != job.roster[pos]
    ensures var sme, calls, result := job.roster[pos], job.scripts[w].calls, job.scripts[w].result;
            var resp, buf := ResponseAt(job, pos), BufferAt(job, pos);
            if pos in job.late then resp == Silence(sme, "timeout") && buf == [Claim(sme, resp)]
            else
              && resp == (if result.Some? then result.value else Silence(sme, "error"))
              && |buf| == |calls| + 1 && buf[|calls|] == Claim(sme, resp)
              && forall i :: 0 <= i < |calls| ==> buf[i] == ToolActivity(sme, calls[i])
  {
    w := WorkerOf(job.roster, job.roster[pos]);
    LastOfItsName(job.roster, job.roster[pos]);
  }

  lemma {:induction false} LastOfItsName(roster: seq<string>, sme: string)
    requires sme in roster
    ensures forall k :: WorkerOf(roster, sme) < k < |roster| ==> roster[k] != sme
  {
    var n := |roster| - 1;
    if roster[n] != sme {
      assert roster == roster[..n] + [roster[n]];
      LastOfItsName(roster[..n], sme);
    }
  }

  // ---------------------------------------------------------------- the concurrent system

  datatype Worker = Worker(reported: nat, finished: bool, buf: seq<StreamEvent>)

  datatype System = System(workers: seq<Worker>, pos: nat, emitted: seq<StreamEvent>, responses: Responses)

  datatype Move = Report(w: nat) | Finish(w: nat) | Collect | GiveUp

  function Start(job: Job, before: Responses): System
    requires job.Valid()
  {
    System(seq(|job.roster|, i => Worker(0, false, [])), 0, [], before)
  }

  ghost predicate Enabled(job: Job, s: System, a: Move)
    requires job.Valid() && |s.workers| == |job.roster|
  {
    match a
    case Report(w) => w < |s.workers| && !s.workers[w].finished && s.workers[w].reported < |job.scripts[w].calls|
    case Finish(w) => w < |s.workers| && !s.workers[w].finished && s.workers[w].reported == |job.scripts[w].calls|
    case Collect =>
      s.pos < |job.roster| && s.pos !in job.late && s.workers[WorkerOf(job.roster, job.roster[s.pos])].finished
    case GiveUp => s.pos < |job.roster| && s.pos in job.late
  }

  ghost function Next(job: Job, s: System, a: Move): (r: System)
    requires job.Valid() && |s.workers| == |job.roster| && Enabled(job, s, a)
    ensures |r.workers| == |s.workers|
  {
    match a
    case Report(w) =>
      var k := s.workers[w];
      s.(workers := s.workers[w := k.(reported := k.reported + 1,
                                     buf := k.buf + [ToolActivity(job.roster[w], job.scripts[w].calls[k.reported])])])
    case Finish(w) =>
      var k := s.workers[w];
      s.(workers := s.workers[w := k.(finished := true,
                                     buf := k.buf + [Claim(job.roster[w], ResponseOf(job.roster[w], job.scripts[w]))])])
    case Collect =>
      var sme := job.roster[s.pos];
      var w := WorkerOf(job.roster, sme);
      s.(pos := s.pos + 1,
         emitted := s.emitted + s.workers[w].buf,
         responses := Upsert(s.responses, sme, ResponseOf(sme, job.scripts[w])))
    case GiveUp =>
      var sme := job.roster[s.pos];
      s.(pos := s.pos + 1,
         emitted := s.emitted + [Claim(sme, Placeholder(sme, "timeout"))],
         responses := Upsert(s.responses, sme, Placeholder(sme, "timeout")))
  }

  /** `s` can be reached by the schedule: every step is enabled when it is taken. */
  ghost predicate ReachedBy(job: Job, before: Responses, schedule: seq<Move>, s: System)
    requires job.Valid()
    decreases |schedule|
  {
    if schedule == [] then s == Start(job, before)
    else
      var front, last := schedule[..|schedule| - 1], schedule[|schedule| - 1];
      exists m :: ReachedBy(job, before, front, m) && StepTo(job, m, last, s)
  }

  ghost predicate StepTo(job: Job, m: System, a: Move, s: System)
    requires job.Valid()
  {
    |m.workers| == |job.roster| && Enabled(job, m, a) && s == Next(job, m, a)
  }

  // ---------------------------------------------------------------- the invariant

  ghost predicate WorkerOk(job: Job, w: nat, k: Worker)
    requires job.Valid() && w < |job.roster|
  {
    && k.reported <= |job.scripts[w].calls|
    && (k.finished ==> k.reported == |job.scripts[w].calls| && k.buf == FullBuffer(job.roster[w], job.scripts[w]))
    && (!k.finished ==> k.buf == Activities(job.roster[w], job.scripts[w].calls[..k.reported]))
  }

  ghost predicate Inv(job: Job, before: Responses, s: System)
    requires job.Valid()
  {
    && |s.workers| == |job.roster| && s.pos <= |job.roster|
    && (forall w :: 0 <= w < |s.workers| ==> WorkerOk(job, w, s.workers[w]))
    && s.emitted == Stream(job, s.pos)
    && s.responses == Table(job, before, s.pos)
  }

  lemma WorkerStepOk(job: Job, s: System, w: nat)
    requires job.Valid() && |s.workers| == |job.roster| && w < |s.workers| && WorkerOk(job, w, s.workers[w])
    ensures Enabled(job, s, Report(w)) ==> WorkerOk(job, w, Next(job, s, Report(w)).workers[w])
    ensures Enabled(job, s, Finish(w)) ==> WorkerOk(job, w, Next(job, s, Finish(w)).workers[w])
  {
    var k, sme, calls := s.workers[w], job.roster[w], job.scripts[w].calls;
    if Enabled(job, s, Report(w)) {
      assert Activities(sme, calls[..k.reported + 1]) == Activities(sme, calls[..k.reported])
          + [ToolActivity(sme, calls[k.reported])];
    }
    if Enabled(job, s, Finish(w)) {
      assert calls[..k.reported] == calls;
    }
  }

  lemma StepKeepsInv(job: Job, before: Responses, s: System, a: Move)
    requires job.Valid() && Inv(job, before, s) && Enabled(job, s, a)
    ensures Inv(job, before, Next(job, s, a))
  {
    hide WorkerOk;
    hide FullBuffer;
    match a
    case Report(w) => WorkerStepOk(job, s, w);
    case Finish(w) => WorkerStepOk(job, s, w);
    case Collect =>
      var w := WorkerOf(job.roster, job.roster[s.pos]);
      FinishedBuffer(job, w, s.workers[w]);
    case GiveUp =>
  }

  lemma FinishedBuffer(job: Job, w: nat, k: Worker)
    requires job.Valid() && w < |job.roster| && WorkerOk(job, w, k) && k.finished
    ensures k.buf == FullBuffer(job.roster[w], job.scripts[w])
  {
  }

  lemma {:induction false} ReachedInv(job: Job, before: Responses, schedule: seq<Move>, s: System)
    requires job.Valid() && ReachedBy(job, before, schedule, s)
    ensures Inv(job, before, s)
    decreases |schedule|
  {
    if schedule == [] {
      assert forall w :: 0 <= w < |s.workers| ==>
          s.workers[w].buf == Activities(job.roster[w], job.scripts[w].calls[..0]);
    } else {
      var front, last := schedule[..|schedule| - 1], schedule[|schedule| - 1];
      var m :| ReachedBy(job, before, front, m) && StepTo(job, m, last, s);
      ReachedInv(job, before, front, m);
      StepKeepsInv(job, before, m, last);
    }
  }

  /**
   * Schedule independence: however workers and collector interleave, what has been emitted is the
   * roster-order stream of the positions collected so far, each expert's tool activity before its
   * claim, and the response table is the sequential one; when the collector is through, both are
   * determined by the job alone.
   */
  lemma ScheduleIndependence(job: Job, before: Responses, schedule: seq<Move>, s: System)
    requires job.Valid() && ReachedBy(job, before, schedule, s)
    ensures s.pos <= |job.roster|
    ensures s.emitted == Stream(job, s.pos) && s.responses == Table(job, before, s.pos)
    ensures s.emitted <= Stream(job, |job.roster|)
    ensures s.pos == |job.roster| ==>
        s.emitted == Stream(job, |job.roster|) && s.responses == Table(job, before, |job.roster|)
  {
    ReachedInv(job, before, schedule, s);
    StreamPrefix(job, s.pos, |job.roster|);
  }

  lemma PrefixExtends<T>(a: seq<T>, b: seq<T>, c: seq<T>)
    requires a <= b
    ensures a <= b + c
  {
  }

  lemma {:induction false} StreamPrefix(job: Job, m: nat, n: nat)
    requires job.Valid() && m <= n <= |job.roster|
    ensures Stream(job, m) <= Stream(job, n)
  {
    hide BufferAt;
    if m < n {
      StreamPrefix(job, m, n - 1);
      PrefixExtends(Stream(job, m), Stream(job, n - 1), BufferAt(job, n - 1));
    }
  }

  // ---------------------------------------------------------------- progress

  /** What workers `0..n` still have to do. */
  ghost function WorkLeft(job: Job, workers: seq<Worker>, n: nat): int
    requires job.Valid() && |workers| == |job.roster| && n <= |workers|
  {
    if n == 0 then 0
    else
      WorkLeft(job, workers, n - 1)
      + (|job.scripts[n - 1].calls| - workers[n - 1].reported) + (if workers[n - 1].finished then 0 else 1)
  }

  ghost function Measure(job: Job, s: System): int
    requires job.Valid() && |s.workers| == |job.roster|
  {
    WorkLeft(job, s.workers, |s.workers|) + |job.roster| - s.pos
  }

  lemma {:induction false} WorkLeftUpdate(job: Job, workers: seq<Worker>, w: nat, k: Worker, n: nat)
    requires job.Valid() && |workers| == |job.roster| && w < |workers| && n <= |workers|
    ensures WorkLeft(job, workers[w := k], n)
            == WorkLeft(job, workers, n)
               + (if w >= n then 0
                  else workers[w].reported - k.reported
                       + (if k.finished then 0 else 1) - (if workers[w].finished then 0 else 1))
  {
    if n > 0 { WorkLeftUpdate(job, workers, w, k, n - 1); }
  }

  lemma {:induction false} WorkLeftNatural(job: Job, before: Responses, s: System, n: nat)
    requires job.Valid() && Inv(job, before, s) && n <= |s.workers|
    ensures WorkLeft(job, s.workers, n) >= 0
  {
    if n > 0 {
      WorkLeftNatural(job, before, s, n - 1);
      assert WorkerOk(job, n - 1, s.workers[n - 1]);
    }
  }

  lemma StepDecreasesMeasure(job: Job, s: System, a: Move)
    requires job.Valid() && |s.workers| == |job.roster| && Enabled(job, s, a)
    ensures Measure(job, Next(job, s, a)) == Measure(job, s) - 1
  {
    match a
    case Report(w) =>
      WorkLeftUpdate(job, s.workers, w, Next(job, s, a).workers[w], |s.workers|);
    case Finish(w) =>
      WorkLeftUpdate(job, s.workers, w, Next(job, s, a).workers[w], |s.workers|);
    case Collect =>
    case GiveUp =>
  }

  /** No schedule is longer than the total work, and none gets stuck before the collector is through. */
  lemma {:induction false} FanOutTerminates(job: Job, before: Responses, schedule: seq<Move>, s: System)
    requires job.Valid() && ReachedBy(job, before, schedule, s)
    ensures |schedule| + Measure(job, s) == Measure(job, Start(job, before)) && Measure(job, s) >= 0
    ensures s.pos < |job.roster| ==> exists a :: Enabled(job, s, a)
    decreases |schedule|
  {
    ReachedInv(job, before, schedule, s);
    WorkLeftNatural(job, before, s, |s.workers|);
    if schedule != [] {
      var front, last := schedule[..|schedule| - 1], schedule[|schedule| - 1];
      var m :| ReachedBy(job, before, front, m) && StepTo(job, m, last, s);
      FanOutTerminates(job, before, front, m);
      StepDecreasesMeasure(job, m, last);
    }
    if s.pos < |job.roster| {
      SomeStepEnabled(job, before, s);
    }
  }

  lemma SomeStepEnabled(job: Job, before: Responses, s: System)
    requires job.Valid() && Inv(job, before, s) && s.pos < |job.roster|
    ensures exists a :: Enabled(job, s, a)
  {
    var w := WorkerOf(job.roster, job.roster[s.pos]);
    assert WorkerOk(job, w, s.workers[w]);
    if s.pos in job.late {
      assert Enabled(job, s, GiveUp);
    } else if s.workers[w].finished {
      assert Enabled(job, s, Collect);
    } else if s.workers[w].reported < |job.scripts[w].calls| {
      assert Enabled(job, s, Report(w));
    } else {
      assert Enabled(job, s, Finish(w));
    }
  }
}
