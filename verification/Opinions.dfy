/** What the merge keeps of the experts' proposals, and under whose name each action reaches the gate. */
module Opinions {
  import opened Common
  import opened Fanout
  import opened Engine

  /** Adding the missing names keeps those that are there, in front, and adds each new one once. */
  lemma {:induction false} AddMissingCovers(smes: seq<string>, forced: seq<string>)
    ensures var r := AddMissing(smes, forced);
            && smes <= r && Subsequence(r[|smes|..], forced)
            && (forall m :: m in r <==> m in smes || m in forced)
            && (forall i, j :: |smes| <= i < |r| && 0 <= j < i ==> r[i] != r[j])
  {
    hide Subsequence;
    if forced == [] {
      SubsequenceReflexive<string>([]);
      assert AddMissing(smes, forced)[|smes|..] == [];
    } else {
      var front, last := forced[..|forced| - 1], forced[|forced| - 1];
      AddMissingCovers(smes, front);
      assert forced == front + [last];
      var r := AddMissing(smes, front);
      if last in r {
        SubsequenceExtend(r[|smes|..], front, [last]);
      } else {
        SubsequenceAppend(r[|smes|..], front, last);
        assert (r + [last])[|smes|..] == r[|smes|..] + [last];
      }
    }
  }

  /**
   * Routing honours the mentions. The model's answer is the first that was well formed, the second failing that.
   * The experts are consulted if it says so or anyone is mentioned; its choice comes first and the mentioned who
   * are not in it follow in order, each once. Without an answer the mentioned are asked, as they come; no answer
   * and no mention is a failed routing, and no one is asked.
   */
  lemma RoutingHonoursMentions(t: Turn)
    ensures var (route, failed) := Supervised(t);
            && (failed <==> t.first.None? && t.second.None? && t.mentions == [])
            && (t.first.None? && t.second.None? ==> route == Route(t.mentions != [], t.mentions))
            && (t.first.Some? || t.second.Some? ==>
                  var d := if t.first.Some? then t.first.value else t.second.value;
                  && (route.needsGuild <==> d.needsGuild || t.mentions != [])
                  && d.smes <= route.smes && Subsequence(route.smes[|d.smes|..], t.mentions)
                  && (forall m :: m in route.smes <==> m in d.smes || m in t.mentions)
                  && (forall i, j :: |d.smes| <= i < |route.smes| && 0 <= j < i ==> route.smes[i] != route.smes[j]))
  {
    hide Subsequence;
    var decision := if t.first.Some? then t.first else t.second;
    if decision.Some? { AddMissingCovers(decision.value.smes, t.mentions); }
  }

  ghost predicate StepsDistinct(ps: seq<Proposed>) {
    forall i, j :: 0 <= i < j < |ps| ==>
      ps[i].action.tool != ps[j].action.tool || ps[i].action.argsText != ps[j].action.argsText
  }

  /** Everything proposed by `rs`, response after response. */
  function AllProposed(rs: seq<SmeResponse>): seq<Proposed> {
    if rs == [] then [] else AllProposed(rs[..|rs| - 1]) + rs[|rs| - 1].proposed
  }

  /** `taken` is the sequence of first occurrences in `from`, up to tool and arguments. */
  ghost predicate FirstOccurrences(taken: seq<Proposed>, from: seq<Proposed>) {
    && StepsDistinct(taken)
    && Subsequence(taken, from)
    && (forall p :: p in from ==> AlreadyIn(taken, p))
  }

  /** A step counts as there already when one with its tool and its argument text is. */
  lemma AlreadyInIff(ps: seq<Proposed>, p: Proposed)
    ensures AlreadyIn(ps, p) <==>
              exists i :: 0 <= i < |ps|
                && ps[i].action.tool == p.action.tool && ps[i].action.argsText == p.action.argsText
  {
    if AlreadyIn(ps, p) {
      var q :| q in ps && SameStep(q, p);
      var i :| 0 <= i < |ps| && ps[i] == q;
    }
    if i :| 0 <= i < |ps| && ps[i].action.tool == p.action.tool && ps[i].action.argsText == p.action.argsText {
      assert ps[i] in ps && SameStep(ps[i], p);
    }
  }

  lemma TakingOne(acc: Taken, sme: string, from: seq<Proposed>, p: Proposed)
    requires FirstOccurrences(acc.actions, from)
    ensures FirstOccurrences(TakeOne(acc, sme, p).actions, from + [p])
  {
    var t := TakeOne(acc, sme, p).actions;
    if AlreadyIn(acc.actions, p) {
      SubsequenceExtend(acc.actions, from, [p]);
    } else {
      SubsequenceAppend(acc.actions, from, p);
      forall i | 0 <= i < |acc.actions| ensures !SameStep(acc.actions[i], p) {
        assert acc.actions[i] in acc.actions;
      }
      assert t[|t| - 1] == p && SameStep(p, p);
      assert forall q :: q in acc.actions ==> q in t;
      assert forall q :: AlreadyIn(acc.actions, q) ==> AlreadyIn(t, q);
    }
  }

  lemma {:induction false} TakingAll(acc: Taken, sme: string, from: seq<Proposed>, ps: seq<Proposed>)
    requires FirstOccurrences(acc.actions, from)
    ensures FirstOccurrences(TakeAll(acc, sme, ps).actions, from + ps)
  {
    if ps == [] {
      assert from + ps == from;
    } else {
      var front, p := ps[..|ps| - 1], ps[|ps| - 1];
      TakingAll(acc, sme, from, front);
      TakingOne(TakeAll(acc, sme, front), sme, from + front, p);
      assert from + ps == (from + front) + [p];
    }
  }

  /**
   * The merged actions are, in the order of the responses, the first occurrences of everything the
   * kept responses propose: nothing is invented, repeated, reordered or dropped.
   */
  lemma {:induction false} MergeKeepsFirstOccurrences(m: map<nat, string>, rs: seq<SmeResponse>)
    ensures FirstOccurrences(TakenFrom(m, rs).actions, AllProposed(rs))
  {
    if rs == [] {
      SubsequenceReflexive<Proposed>([]);
    } else {
      var front, r := rs[..|rs| - 1], rs[|rs| - 1];
      MergeKeepsFirstOccurrences(m, front);
      TakingAll(TakenFrom(m, front), r.smeId, AllProposed(front), r.proposed);
    }
  }

  /** The kept responses are those at least 0.2 confident; the others become open questions. */
  lemma {:induction false} KeptIffConfident(t: Responses, r: SmeResponse)
    ensures r in Kept(t) <==> r.confidence >= 0.2 && exists i :: 0 <= i < |t| && t[i].1 == r
    ensures |Kept(t)| + |OpenQuestions(t)| == |t|
  {
    if t != [] {
      var front := t[..|t| - 1];
      KeptIffConfident(front, r);
      assert forall i :: 0 <= i < |front| ==> front[i] == t[i];
    }
  }

  // ---------------------------------------------------------------- when a turn has nothing to gate

  /** The response table after `n` rounds of a turn, read off the scripts. */
  function ResponsesAfter(roster: seq<string>, before: Responses, rounds: nat -> Round, n: nat): Responses {
    if n == 0 then before
    else
      var r := rounds(n - 1);
      Table(Job(roster, Scripts(r, |roster|), r.late), ResponsesAfter(roster, before, rounds, n - 1), |roster|)
  }

  /** The dissent check asks for another round. */
  predicate AsksForMore(r: Round) {
    r.dissent.Some? && r.dissent.value.moreRounds
  }

  /** How many rounds follow from round `k` on, itself included. */
  function RoundsRun(rounds: nat -> Round, k: nat, crossExamRound: nat): nat
    decreases 2 - crossExamRound
  {
    if AsksForMore(rounds(k)) && crossExamRound < 2 then 1 + RoundsRun(rounds, k + 1, crossExamRound + 1)
    else 1
  }

  /** The last of the first `n` rounds whose merge did not fail. */
  function LastMerged(rounds: nat -> Round, n: nat): Option<nat> {
    if n == 0 then None else if rounds(n - 1).merge.Some? then Some(n - 1) else LastMerged(rounds, n - 1)
  }

  ghost predicate NothingConfident(t: Responses) {
    forall i :: 0 <= i < |t| && t[i].1.confidence >= 0.2 ==> t[i].1.proposed == []
  }

  /** After `n` rounds: the last good merge saw no confident proposal, or there was none and nothing to begin with. */
  ghost predicate EmptyAfter(before: State, roster: seq<string>, rounds: nat -> Round, n: nat) {
    var last := LastMerged(rounds, n);
    if last.None? then ActionsOf(before) == []
    else NothingConfident(ResponsesAfter(roster, before.responses, rounds, last.value + 1))
  }

  /** The turn has nothing to gate, as far as its inputs tell. */
  ghost predicate NothingToGate(s: State, t: Turn) {
    EmptyAfter(s, Supervised(t).0.smes, t.rounds, RoundsRun(t.rounds, 0, s.crossExamRound))
  }

  lemma {:induction false} NothingProposedIff(rs: seq<SmeResponse>)
    ensures AllProposed(rs) == [] <==> forall r :: r in rs ==> r.proposed == []
  {
    if rs != [] {
      var front, last := rs[..|rs| - 1], rs[|rs| - 1];
      NothingProposedIff(front);
      assert rs == front + [last];
    }
  }

  lemma NothingTakenIff(m: map<nat, string>, t: Responses)
    ensures TakenFrom(m, Kept(t)).actions == [] <==> NothingConfident(t)
  {
    var kept, taken := Kept(t), TakenFrom(m, Kept(t)).actions;
    MergeKeepsFirstOccurrences(m, kept);
    NothingProposedIff(kept);
    NoFirstOccurrences(taken, AllProposed(kept));
    forall r ensures r in kept <==> r.confidence >= 0.2 && exists i :: 0 <= i < |t| && t[i].1 == r {
      KeptIffConfident(t, r);
    }
    hide Kept;
    hide TakenFrom;
    hide AllProposed;
    hide FirstOccurrences;
    assert forall i :: 0 <= i < |t| && t[i].1.confidence >= 0.2 ==> t[i].1 in kept;
    if NothingConfident(t) {
      forall r | r in kept ensures r.proposed == [] {
        var i :| 0 <= i < |t| && t[i].1 == r;
      }
    }
  }

  lemma NoFirstOccurrences(taken: seq<Proposed>, from: seq<Proposed>)
    requires FirstOccurrences(taken, from)
    ensures taken == [] <==> from == []
  {
    SubsequenceIsShorter(taken, from);
    if from != [] {
      assert from[0] in from && AlreadyIn(taken, from[0]);
    }
  }

  lemma RoundReads(u: Setup, s: State, r: Round)
    ensures var (t, more) := RoundDone(u, s, r);
            && t.responses == Table(JobOf(s, r), s.responses, |s.roster|)
            && (ActionsOf(t) == [] <==> if r.merge.Some? then NothingConfident(t.responses) else ActionsOf(s) == [])
            && (more <==> AsksForMore(r)) && t.roster == s.roster
  {
    var mid := Aggregated(Summoned(s, r), u.queueMax);
    NothingTakenIff(mid.invokerOf, mid.responses);
    hide TakenFrom;
    hide Kept;
    hide NothingConfident;
    hide Table;
    hide InvokersUpTo;
  }

  /** `s` stands before round `k` of a turn that began with `before`. */
  ghost predicate StandsBefore(before: State, s: State, rounds: nat -> Round, k: nat) {
    && s.responses == ResponsesAfter(s.roster, before.responses, rounds, k)
    && (ActionsOf(s) == [] <==> EmptyAfter(before, s.roster, rounds, k))
  }

  lemma RoundMovesOn(u: Setup, before: State, s: State, rounds: nat -> Round, k: nat)
    requires StandsBefore(before, s, rounds, k)
    ensures var r := RoundDone(u, s, rounds(k)).0;
            && StandsBefore(before, r, rounds, k + 1) && r.roster == s.roster
            && StandsBefore(before, r.(crossExamRound := r.crossExamRound + 1), rounds, k + 1)
  {
    RoundReads(u, s, rounds(k));
    hide RoundDone;
    hide NothingConfident;
    hide Table;
  }

  lemma {:induction false} DeliberationReads(u: Setup, before: State, s: State, rounds: nat -> Round, k: nat)
    requires StandsBefore(before, s, rounds, k)
    ensures ActionsOf(Deliberated(u, s, rounds, k)) == []
            <==> EmptyAfter(before, s.roster, rounds, k + RoundsRun(rounds, k, s.crossExamRound))
    decreases CROSS_EXAM_CAP - s.crossExamRound
  {
    hide RoundDone;
    hide Deliberated;
    hide NothingConfident;
    RoundReads(u, s, rounds(k));
    RoundMovesOn(u, before, s, rounds, k);
    DeliberatedUnfolds(u, s, rounds, k);
    var (r, more) := RoundDone(u, s, rounds(k));
    if more && r.crossExamRound < CROSS_EXAM_CAP {
      hide StandsBefore;
      DeliberationReads(u, before, r.(crossExamRound := r.crossExamRound + 1), rounds, k + 1);
    }
  }

  /** Whether a turn that consults the experts ends up with nothing to gate is decided by its inputs. */
  lemma OpinionEmptyIff(u: Setup, s: State, t: Turn)
    ensures ActionsOf(Consulted(u, s, t)) == [] <==> NothingToGate(s, t)
  {
    var start := Opened(s, t).(roster := Supervised(t).0.smes);
    hide Supervised;
    hide Deliberated;
    DeliberationReads(u, s, start, t.rounds, 0);
  }

  // ---------------------------------------------------------------- the engine and its concurrent fan-out

  /** Whatever the schedule of the workers, the collected state has the same stream and the same responses. */
  lemma AnyScheduleGivesThisState(s: State, job: Job, schedule: seq<Move>, end: System)
    requires job.Valid() && ReachedBy(job, s.responses, schedule, end) && end.pos == |job.roster|
    ensures var t := CollectedUpTo(s, job, |job.roster|);
            t.responses == end.responses && t.outbound == s.outbound + Outs(end.emitted)
  {
    ScheduleIndependence(job, s.responses, schedule, end);
  }

  // ---------------------------------------------------------------- invokers

  ghost predicate Known(m: map<nat, string>, ps: seq<Proposed>) {
    forall p :: p in ps ==> p.uid in m
  }

  ghost predicate TableKnown(m: map<nat, string>, t: Responses) {
    forall i :: 0 <= i < |t| ==> Known(m, t[i].1.proposed)
  }

  /** Every action that the session still holds was collected under some expert's name. */
  ghost predicate InvokersKnown(s: State) {
    TableKnown(s.invokerOf, s.responses) && Known(s.invokerOf, ActionsOf(s))
  }

  lemma {:induction false} AssignAllKnows(m: map<nat, string>, ps: seq<Proposed>, sme: string)
    ensures var r := AssignAll(m, ps, sme); m.Keys <= r.Keys && Known(r, ps)
  {
    if ps != [] { AssignAllKnows(m, ps[..|ps| - 1], sme); }
  }

  lemma {:induction false} UpsertKnown(m: map<nat, string>, t: Responses, sme: string, r: SmeResponse)
    requires TableKnown(m, t) && Known(m, r.proposed)
    ensures TableKnown(m, Upsert(t, sme, r))
  {
    if t != [] && t[0].0 != sme {
      assert forall i :: 0 <= i < |t[1..]| ==> t[1..][i] == t[i + 1];
      UpsertKnown(m, t[1..], sme, r);
    }
  }

  lemma {:induction false} CollectingKnows(m: map<nat, string>, before: Responses, job: Job, n: nat)
    requires job.Valid() && n <= |job.roster| && TableKnown(m, before)
    ensures var r := InvokersUpTo(m, job, n); m.Keys <= r.Keys && TableKnown(r, Table(job, before, n))
  {
    if n > 0 {
      CollectingKnows(m, before, job, n - 1);
      var mid, t := InvokersUpTo(m, job, n - 1), Table(job, before, n - 1);
      var sme, resp := job.roster[n - 1], ResponseAt(job, n - 1);
      AssignAllKnows(mid, resp.proposed, sme);
      hide AssignAll;
      hide ResponseAt;
      UpsertKnown(AssignAll(mid, resp.proposed, sme), t, sme, resp);
    }
  }

  lemma {:induction false} TakingKnown(acc: Taken, sme: string, ps: seq<Proposed>)
    requires Known(acc.invokerOf, acc.actions) && Known(acc.invokerOf, ps)
    ensures var t := TakeAll(acc, sme, ps); t.invokerOf == acc.invokerOf && Known(t.invokerOf, t.actions)
  {
    if ps != [] { TakingKnown(acc, sme, ps[..|ps| - 1]); }
  }

  lemma {:induction false} MergingKnown(m: map<nat, string>, rs: seq<SmeResponse>)
    requires forall r :: r in rs ==> Known(m, r.proposed)
    ensures var t := TakenFrom(m, rs); t.invokerOf == m && Known(m, t.actions)
  {
    if rs != [] {
      MergingKnown(m, rs[..|rs| - 1]);
      TakingKnown(TakenFrom(m, rs[..|rs| - 1]), rs[|rs| - 1].smeId, rs[|rs| - 1].proposed);
    }
  }

  ghost predicate OpinionOk(s: State) {
    InvokersKnown(s) && StepsDistinct(ActionsOf(s))
  }

  lemma RoundKeepsOpinionOk(u: Setup, s: State, r: Round)
    requires OpinionOk(s)
    ensures OpinionOk(RoundDone(u, s, r).0)
  {
    var noticed := if s.crossExamRound == 0 then Emit(s, SummonNotice(s.roster)) else s;
    CollectingKnows(noticed.invokerOf, noticed.responses, JobOf(s, r), |s.roster|);
    var s1 := Aggregated(Summoned(s, r), u.queueMax);
    forall x | x in Kept(s1.responses) ensures Known(s1.invokerOf, x.proposed) {
      KeptIffConfident(s1.responses, x);
    }
    MergingKnown(s1.invokerOf, Kept(s1.responses));
    MergeKeepsFirstOccurrences(s1.invokerOf, Kept(s1.responses));
    assert OpinionOk(MergedWith(s1, r.merge));
  }

  lemma NextRoundOk(u: Setup, s: State, r: Round)
    requires OpinionOk(s)
    ensures var t := RoundDone(u, s, r).0; OpinionOk(t) && OpinionOk(t.(crossExamRound := t.crossExamRound + 1))
  {
    RoundKeepsOpinionOk(u, s, r);
    hide RoundDone;
  }

  lemma {:induction false} DeliberationKeepsOpinionOk(u: Setup, s: State, rounds: nat -> Round, k: nat)
    requires OpinionOk(s)
    ensures OpinionOk(Deliberated(u, s, rounds, k))
    decreases CROSS_EXAM_CAP - s.crossExamRound
  {
    hide RoundDone;
    hide OpinionOk;
    hide Deliberated;
    NextRoundOk(u, s, rounds(k));
    DeliberatedUnfolds(u, s, rounds, k);
    var (r, more) := RoundDone(u, s, rounds(k));
    if more && r.crossExamRound < CROSS_EXAM_CAP {
      DeliberationKeepsOpinionOk(u, r.(crossExamRound := r.crossExamRound + 1), rounds, k + 1);
    }
  }
}
