/** What a turn says and leaves behind: the opinion, the requests, and every event it puts out, read off its inputs. */
module Turns {
  import opened Common
  import opened Events
  import opened Gates
  import opened Fanout
  import opened Engine
  import opened Opinions
  import opened Confirmations
  import opened Memory

  // ---------------------------------------------------------------- the opinion

  /** `at` lists the positions of the replies less than 0.2 confident; `qs` puts these as questions. */
  ghost predicate PutAs(at: seq<nat>, qs: seq<string>, t: Responses) {
    && |at| == |qs|
    && (forall i :: 0 <= i < |at| ==> at[i] < |t| && qs[i] == t[at[i]].1.smeId + ": " + t[at[i]].1.claim)
    && (forall i, j :: 0 <= i < j < |at| ==> at[i] < at[j])
    && (forall k: nat :: k < |t| ==> (k in at <==> t[k].1.confidence < 0.2))
  }

  /** `qs` puts as a question, in order, what each of the unsure experts claims. */
  ghost predicate Questions(qs: seq<string>, t: Responses) {
    exists at: seq<nat> :: PutAs(at, qs, t)
  }

  /** The headline that a session speaks after the rounds `xs`. */
  function HeadlineAfter(xs: seq<Sitting>): string {
    if xs == [] then ""
    else if LastGood(xs).None? then "Inconclusive; internal error."
    else if xs[LastGood(xs).value].round.merge.GetOr(("", [])).0 == "" then "Inconclusive; need more evidence."
    else xs[LastGood(xs).value].round.merge.GetOr(("", [])).0
  }

  /** The opinion after the rounds `xs`: what the last good merge answered, on the replies it was given. */
  ghost predicate OpinionIs(m: Option<Merged>, xs: seq<Sitting>) {
    if xs == [] then m.None?
    else
      && m.Some? && m.value.headline == HeadlineAfter(xs) && m.value.actions == OpinionFrom(xs)
      && if LastGood(xs).None? then m.value.supporting == [] && m.value.openQuestions == []
         else
           var k := LastGood(xs).value;
           && m.value.supporting == xs[k].round.merge.GetOr(("", [])).1
           && Questions(m.value.openQuestions, Latest(AllReplies(xs[..k + 1])))
  }

  /** The last dissent that was found, if any. */
  function LastDissent(xs: seq<Sitting>): Option<seq<(string, string)>> {
    if xs == [] then None
    else
      var d := xs[|xs| - 1].round.dissent;
      if d.Some? && d.value.pairs != [] then Some(d.value.pairs) else LastDissent(xs[..|xs| - 1])
  }

  /** The expert who last proposed the action with this identity. */
  function LastProposer(rs: Replies, uid: nat): Option<string> {
    if rs == [] then None
    else if exists p :: p in rs[|rs| - 1].1.proposed && p.uid == uid then Some(rs[|rs| - 1].0)
    else LastProposer(rs[..|rs| - 1], uid)
  }

  lemma SureReply(at: seq<nat>, qs: seq<string>, t: Responses, x: (string, SmeResponse))
    requires PutAs(at, qs, t) && x.1.confidence >= 0.2
    ensures PutAs(at, qs, t + [x])
  {
  }

  lemma UnsureReply(at: seq<nat>, qs: seq<string>, t: Responses, x: (string, SmeResponse))
    requires PutAs(at, qs, t) && x.1.confidence < 0.2
    ensures PutAs(at + [|t|], qs + [x.1.smeId + ": " + x.1.claim], t + [x])
  {
    var more, all := at + [|t|], t + [x];
    assert forall k: nat :: k < |t| ==> all[k] == t[k];
    assert forall k: nat :: k in more <==> k in at || k == |t|;
  }

  lemma {:induction false} OpenQuestionsAre(t: Responses)
    ensures Questions(OpenQuestions(t), t)
  {
    if t == [] {
      assert PutAs([], [], t);
    } else {
      hide PutAs;
      var front, last := t[..|t| - 1], t[|t| - 1];
      OpenQuestionsAre(front);
      assert t == front + [last];
      var at: seq<nat> :| PutAs(at, OpenQuestions(front), front);
      if last.1.confidence < 0.2 {
        UnsureReply(at, OpenQuestions(front), front, last);
      } else {
        SureReply(at, OpenQuestions(front), front, last);
        assert OpenQuestions(t) == OpenQuestions(front);
      }
    }
  }

  // ---------------------------------------------------------------- who proposed what

  ghost predicate NamesProposers(m: map<nat, string>, rs: Replies) {
    forall uid: nat :: LastProposer(rs, uid) == if uid in m then Some(m[uid]) else None
  }

  lemma {:induction false} AssignAllAssigns(m: map<nat, string>, ps: seq<Proposed>, sme: string, uid: nat)
    ensures var r := AssignAll(m, ps, sme);
            if exists p :: p in ps && p.uid == uid then uid in r && r[uid] == sme
            else (uid in r <==> uid in m) && (uid in m ==> r[uid] == m[uid])
  {
    if ps != [] {
      var front, last := ps[..|ps| - 1], ps[|ps| - 1];
      AssignAllAssigns(m, front, sme, uid);
      assert ps == front + [last];
    }
  }

  lemma ReplyNamesProposer(m: map<nat, string>, rs: Replies, sme: string, r: SmeResponse)
    requires NamesProposers(m, rs)
    ensures NamesProposers(AssignAll(m, r.proposed, sme), rs + [(sme, r)])
  {
    assert (rs + [(sme, r)])[..|rs|] == rs;
    forall uid: nat
      ensures var t := AssignAll(m, r.proposed, sme);
              LastProposer(rs + [(sme, r)], uid) == if uid in t then Some(t[uid]) else None
    {
      AssignAllAssigns(m, r.proposed, sme, uid);
    }
  }

  lemma {:induction false} RoundNamesProposers(m: map<nat, string>, rs: Replies, x: Sitting, n: nat)
    requires NamesProposers(m, rs) && n <= |x.roster|
    ensures NamesProposers(InvokersUpTo(m, JobFor(x), n), rs + RoundReplies(x)[..n])
  {
    hide NamesProposers;
    hide AssignAll;
    hide ResponseAt;
    if n == 0 {
      assert rs + RoundReplies(x)[..0] == rs;
    } else {
      RoundNamesProposers(m, rs, x, n - 1);
      var (sme, r) := RoundReplies(x)[n - 1];
      ReplyNamesProposer(InvokersUpTo(m, JobFor(x), n - 1), rs + RoundReplies(x)[..n - 1], sme, r);
      assert rs + RoundReplies(x)[..n] == (rs + RoundReplies(x)[..n - 1]) + [(sme, r)];
    }
  }

  // ---------------------------------------------------------------- what a round says

  /** One line for each of the experts who last came to the table, as many as the queue holds. */
  function LastLines(t: Responses, queueMax: nat): (ls: seq<(string, string)>) {
    var n := if queueMax == 0 || |t| <= queueMax then |t| else queueMax;
    seq(n, i requires 0 <= i < n => (t[|t| - n + i].0, t[|t| - n + i].1.claim))
  }

  /** An event that was pushed to the sink as it came up, and one that waits for the drain. */
  function Now(e: OutEvent): Outbound { Outbound(e, true) }
  function Later(e: OutEvent): Outbound { Outbound(e, false) }

  /** The experts' activities and claims, expert after expert. */
  function Streams(x: Sitting): seq<Outbound> {
    var es := Stream(JobFor(x), |x.roster|);
    seq(|es|, i requires 0 <= i < |es| => Now(Streamed(es[i])))
  }

  /** What the round `x` puts out when it leaves the reply table `t`. */
  function RoundSays(x: Sitting, t: Responses, queueMax: nat, noticed: bool): seq<Outbound> {
    (if noticed then [Now(SummonNotice(x.roster))] else [])
    + Streams(x)
    + [Later(Digest(LastLines(t, queueMax)))]
    + (if x.round.merge.None? then [Later(NodeFailed("MergeOpinion"))] else [])
    + (if x.round.dissent.Some? && x.round.dissent.value.pairs != [] then [Later(Dissent(x.round.dissent.value.pairs))]
       else [])
  }

  /** What the first `n` rounds of a turn put out; only the first of them can be announced. */
  function RoundsSay(
      xs: seq<Sitting>, roster: seq<string>, rounds: nat -> Round, n: nat, queueMax: nat, noticed: bool): seq<Outbound>
  {
    if n == 0 then []
    else
      RoundsSay(xs, roster, rounds, n - 1, queueMax, noticed)
      + RoundSays(Sitting(roster, rounds(n - 1)), Latest(AllReplies(xs + FirstRounds(roster, rounds, n))), queueMax,
                  noticed && n == 1)
  }

  /** One entry for every merge that failed. */
  function Failures(rounds: nat -> Round, n: nat): seq<string> {
    if n == 0 then []
    else Failures(rounds, n - 1) + (if rounds(n - 1).merge.None? then ["MergeOpinion"] else [])
  }

  lemma LinesAre(t: Responses, queueMax: nat)
    ensures Coalesced(Lines(t), queueMax) == LastLines(t, queueMax)
  {
  }

  /** The session's books after the rounds `xs`. */
  ghost predicate Recalls(s: State, xs: seq<Sitting>) {
    && Remembers(s, xs) && OpinionIs(s.merged, xs)
    && s.dissentReport == LastDissent(xs) && NamesProposers(s.invokerOf, AllReplies(xs))
  }

  /** Filing, aggregating, merging and comparing: the round as a whole, step by step. */
  lemma RoundInSteps(u: Setup, s: State, r: Round)
    ensures var x, t := Sitting(s.roster, r), RoundDone(u, s, r).0;
            var table := Table(JobFor(x), s.responses, |s.roster|);
            var named := InvokersUpTo(s.invokerOf, JobFor(x), |s.roster|);
            var taken := TakenFrom(named, Kept(table));
            && t.roster == s.roster && t.responses == table
            && t.invokerOf == (if r.merge.Some? then taken.invokerOf else named)
            && t.errors == s.errors + (if r.merge.None? then ["MergeOpinion"] else [])
            && t.merged == (if r.merge.Some? then
                              var headline := r.merge.value.0;
                              Some(Merged(if headline != "" then headline else "Inconclusive; need more evidence.",
                                          r.merge.value.1, OpenQuestions(table), taken.actions))
                            else if s.merged.Some? then s.merged
                            else Some(Merged("Inconclusive; internal error.", [], [], [])))
            && t.dissentReport == (if r.dissent.Some? && r.dissent.value.pairs != [] then Some(r.dissent.value.pairs)
                                   else s.dissentReport)
            && t.outbound == s.outbound + RoundSays(x, table, u.queueMax, s.crossExamRound == 0)
  {
    hide Table;
    hide InvokersUpTo;
    hide TakenFrom;
    hide Kept;
    hide OpenQuestions;
    hide Stream;
    hide Coalesced;
    hide LastLines;
    var x := Sitting(s.roster, r);
    LinesAre(Table(JobFor(x), s.responses, |s.roster|), u.queueMax);
    assert Outs(Stream(JobFor(x), |s.roster|)) == Streams(x);
    hide Streams;
    hide Outs;
    SaidInOrder(s.outbound, if s.crossExamRound == 0 then [Now(SummonNotice(s.roster))] else [], Streams(x),
                [Later(Digest(LastLines(Table(JobFor(x), s.responses, |s.roster|), u.queueMax)))],
                if r.merge.None? then [Later(NodeFailed("MergeOpinion"))] else [],
                if r.dissent.Some? && r.dissent.value.pairs != [] then [Later(Dissent(r.dissent.value.pairs))] else []);
  }

  lemma SaidInOrder<T>(s: seq<T>, a: seq<T>, b: seq<T>, c: seq<T>, d: seq<T>, e: seq<T>)
    ensures s + (a + b + c + d + e) == ((((s + a) + b) + c) + d) + e
    ensures a == [] ==> s + a == s
    ensures d == [] ==> ((((s + a) + b) + c) + d) + e == (((s + a) + b) + c) + e
    ensures e == [] ==> ((((s + a) + b) + c) + d) + e == (((s + a) + b) + c) + d
    ensures d == [] && e == [] ==> ((((s + a) + b) + c) + d) + e == ((s + a) + b) + c
  {
  }

  lemma TakingKeepsNames(m: map<nat, string>, t: Responses)
    requires TableKnown(m, t)
    ensures TakenFrom(m, Kept(t)).invokerOf == m
  {
    forall r | r in Kept(t) ensures Known(m, r.proposed) { KeptIffConfident(t, r); }
    MergingKnown(m, Kept(t));
  }

  lemma DissentSnoc(xs: seq<Sitting>, x: Sitting)
    ensures LastDissent(xs + [x]) ==
              if x.round.dissent.Some? && x.round.dissent.value.pairs != [] then Some(x.round.dissent.value.pairs)
              else LastDissent(xs)
  {
    assert (xs + [x])[..|xs|] == xs;
  }

  lemma GoodSnoc(xs: seq<Sitting>, x: Sitting)
    ensures LastGood(xs + [x]) == if x.round.merge.Some? then Some(|xs|) else LastGood(xs)
    ensures HeadlineAfter(xs + [x]) ==
              if x.round.merge.Some? then
                if x.round.merge.value.0 == "" then "Inconclusive; need more evidence." else x.round.merge.value.0
              else if xs == [] then "Inconclusive; internal error."
              else HeadlineAfter(xs)
  {
    assert (xs + [x])[..|xs|] == xs;
  }

  lemma OpinionMovesOn(before: Option<Merged>, after: Option<Merged>, xs: seq<Sitting>, x: Sitting)
    requires OpinionIs(before, xs)
    requires if x.round.merge.Some? then
               var t, headline := Latest(AllReplies(xs + [x])), x.round.merge.value.0;
               after == Some(Merged(if headline != "" then headline else "Inconclusive; need more evidence.",
                                    x.round.merge.value.1, OpenQuestions(t), Firsts(AllProposed(Kept(t)))))
             else if before.Some? then after == before
             else after == Some(Merged("Inconclusive; internal error.", [], [], []))
    ensures OpinionIs(after, xs + [x])
  {
    hide Latest;
    hide AllReplies;
    hide Questions;
    hide Firsts;
    hide Kept;
    hide AllProposed;
    GoodSnoc(xs, x);
    OpinionAfter(xs, x);
    NoOpinionYet();
    hide OpinionFrom;
    hide HeadlineAfter;
    var all := xs + [x];
    if x.round.merge.Some? {
      assert all[..|xs| + 1] == all;
      OpenQuestionsAre(Latest(AllReplies(all)));
    } else if LastGood(xs).Some? {
      var k := LastGood(xs).value;
      assert all[..k + 1] == xs[..k + 1] && all[k] == xs[k];
    } else {
      OpinionOfNone(xs);
    }
    hide LastGood;
  }

  lemma NoOpinionYet()
    ensures OpinionFrom([]) == [] && LastGood([]).None?
  {
  }

  lemma OpinionOfNone(xs: seq<Sitting>)
    requires LastGood(xs).None?
    ensures OpinionFrom(xs) == []
    ensures xs != [] ==> HeadlineAfter(xs) == "Inconclusive; internal error."
  {
  }

  lemma RoundRecalls(u: Setup, s: State, r: Round, xs: seq<Sitting>)
    requires Recalls(s, xs) && InvokersKnown(s)
    ensures Recalls(RoundDone(u, s, r).0, xs + [Sitting(s.roster, r)])
  {
    hide RoundDone;
    hide Table;
    hide InvokersUpTo;
    hide TakenFrom;
    hide Kept;
    hide OpenQuestions;
    hide Latest;
    hide AllReplies;
    hide OpinionIs;
    hide NamesProposers;
    hide LastDissent;
    hide Firsts;
    hide AllProposed;
    hide OpinionFrom;
    hide Streams;
    hide LastLines;
    hide TableKnown;
    hide Known;
    var x := Sitting(s.roster, r);
    RoundRemembers(u, s, r, xs);
    RoundInSteps(u, s, r);
    RepliesAfter(xs, x);
    DissentSnoc(xs, x);
    NamesAfter(s, x, xs);
    MergeTakesFirsts(InvokersUpTo(s.invokerOf, JobFor(x), |x.roster|), Kept(Table(JobFor(x), s.responses, |x.roster|)));
    OpinionMovesOn(s.merged, RoundDone(u, s, r).0.merged, xs, x);
  }

  lemma NamesAfter(s: State, x: Sitting, xs: seq<Sitting>)
    requires InvokersKnown(s) && NamesProposers(s.invokerOf, AllReplies(xs))
    ensures var named, table := InvokersUpTo(s.invokerOf, JobFor(x), |x.roster|),
                                Table(JobFor(x), s.responses, |x.roster|);
            && NamesProposers(named, AllReplies(xs + [x]))
            && TakenFrom(named, Kept(table)).invokerOf == named
  {
    hide NamesProposers;
    hide TableKnown;
    hide Known;
    hide Table;
    hide InvokersUpTo;
    hide TakenFrom;
    hide Kept;
    CollectingKnows(s.invokerOf, s.responses, JobFor(x), |x.roster|);
    TakingKeepsNames(InvokersUpTo(s.invokerOf, JobFor(x), |x.roster|), Table(JobFor(x), s.responses, |x.roster|));
    RoundNamesProposers(s.invokerOf, AllReplies(xs), x, |x.roster|);
    assert RoundReplies(x)[..|x.roster|] == RoundReplies(x);
    hide RoundReplies;
    assert (xs + [x])[..|xs|] == xs;
  }

  // ---------------------------------------------------------------- all rounds of a turn

  /** `s` stands before round `k` of a turn that began after the rounds `xs` with the given output and errors. */
  ghost predicate Underway(
      s: State, xs: seq<Sitting>, rounds: nat -> Round, k: nat, queueMax: nat, noticed: bool,
      said: seq<Outbound>, failed: seq<string>)
  {
    && OpinionOk(s) && Recalls(s, xs + FirstRounds(s.roster, rounds, k))
    && s.outbound == said + RoundsSay(xs, s.roster, rounds, k, queueMax, noticed)
    && s.errors == failed + Failures(rounds, k)
  }

  lemma RoundUnderway(
      u: Setup, s: State, xs: seq<Sitting>, rounds: nat -> Round, k: nat, noticed: bool,
      said: seq<Outbound>, failed: seq<string>)
    requires Underway(s, xs, rounds, k, u.queueMax, noticed, said, failed)
    requires s.crossExamRound == 0 <==> noticed && k == 0
    ensures var t := RoundDone(u, s, rounds(k)).0;
            t.roster == s.roster && Underway(t, xs, rounds, k + 1, u.queueMax, noticed, said, failed)
  {
    hide RoundDone;
    hide Recalls;
    hide InvokersKnown;
    hide StepsDistinct;
    hide RoundSays;
    hide Table;
    hide InvokersUpTo;
    hide TakenFrom;
    hide Kept;
    hide OpenQuestions;
    hide Latest;
    hide AllReplies;
    var before, x := xs + FirstRounds(s.roster, rounds, k), Sitting(s.roster, rounds(k));
    RoundRecalls(u, s, rounds(k), before);
    RoundKeepsOpinionOk(u, s, rounds(k));
    hide OpinionOk;
    RoundInSteps(u, s, rounds(k));
    RecallsTable(RoundDone(u, s, rounds(k)).0, before + [x]);
    assert xs + FirstRounds(s.roster, rounds, k + 1) == before + [x];
    hide FirstRounds;
    SaidMore(said, RoundsSay(xs, s.roster, rounds, k, u.queueMax, noticed),
             RoundSays(x, Latest(AllReplies(before + [x])), u.queueMax, noticed && k == 0));
  }

  lemma SaidMore(a: seq<Outbound>, b: seq<Outbound>, c: seq<Outbound>)
    ensures (a + b) + c == a + (b + c)
  {
  }

  lemma RecallsTable(s: State, xs: seq<Sitting>)
    requires Recalls(s, xs)
    ensures s.responses == Latest(AllReplies(xs))
  {
  }

  lemma UnderwayReads(
      s: State, t: State, xs: seq<Sitting>, rounds: nat -> Round, k: nat, queueMax: nat, noticed: bool,
      said: seq<Outbound>, failed: seq<string>)
    requires Underway(s, xs, rounds, k, queueMax, noticed, said, failed) && t == s.(crossExamRound := t.crossExamRound)
    ensures Underway(t, xs, rounds, k, queueMax, noticed, said, failed)
  {
    hide RoundsSay;
    hide OpinionFrom;
    hide Latest;
    hide AllReplies;
  }

  lemma {:induction false} DeliberationUnderway(
      u: Setup, s: State, xs: seq<Sitting>, rounds: nat -> Round, k: nat, noticed: bool,
      said: seq<Outbound>, failed: seq<string>)
    requires Underway(s, xs, rounds, k, u.queueMax, noticed, said, failed)
    requires s.crossExamRound == 0 <==> noticed && k == 0
    ensures var n, t := k + RoundsRun(rounds, k, s.crossExamRound), Deliberated(u, s, rounds, k);
            t.roster == s.roster && Underway(t, xs, rounds, n, u.queueMax, noticed, said, failed)
    decreases CROSS_EXAM_CAP - s.crossExamRound
  {
    hide RoundDone;
    hide Deliberated;
    hide Underway;
    RoundUnderway(u, s, xs, rounds, k, noticed, said, failed);
    RoundReads(u, s, rounds(k));
    DeliberatedUnfolds(u, s, rounds, k);
    var (r, more) := RoundDone(u, s, rounds(k));
    if more && r.crossExamRound < CROSS_EXAM_CAP {
      var next := r.(crossExamRound := r.crossExamRound + 1);
      UnderwayReads(r, next, xs, rounds, k + 1, u.queueMax, noticed, said, failed);
      DeliberationUnderway(u, next, xs, rounds, k + 1, noticed, said, failed);
    }
  }

  // ---------------------------------------------------------------- what the gate says

  /** The request that puts a step to the operator: its text, its risk as far as the card scale goes, its expert. */
  function RequestOf(callId: nat, p: Proposed, invoker: string, d: GateDecision): Request {
    var text := if p.action.instruction.Some? && p.action.instruction.value != "" then p.action.instruction.value
                else p.action.rationale;
    Request(callId, text, if d.risk in [LOW, MEDIUM, HIGH] then d.risk else HIGH, invoker, d.card)
  }

  /** Under whose name a step reaches the gate. */
  function NameOf(s: State, p: Proposed): string {
    if p.uid in s.invokerOf then s.invokerOf[p.uid] else "@power"
  }

  /** What one step makes the gate do, given its decision. */
  ghost predicate ActsOn(s: State, p: Proposed, d: GateDecision, t: State) {
    var req := RequestOf(s.nextId, p, NameOf(s, p), d);
    && t.outbound == s.outbound + (if d.decision == Deny then [Later(Denied(d.reason))]
                                   else if d.decision == ToConfirm then [Later(Ask(req))]
                                   else [])
    && t.pending == s.pending + (if d.decision == ToConfirm then [req] else [])
    && t.approved == s.approved + (if d.decision == Allow then [p] else [])
    && t.audit == s.audit
         + [Gated(p, NameOf(s, p), d.decision, if d.decision == ToConfirm then Some(s.nextId) else None)]
    && t.nextId == s.nextId + (if d.decision == ToConfirm then 1 else 0)
    && t == s.(outbound := t.outbound, pending := t.pending, approved := t.approved, audit := t.audit,
               nextId := t.nextId, gate := t.gate)
  }

  /** One step: the gate's decision on it, in the session as it stands, is acted upon. */
  lemma StepActs(u: Setup, s: State, p: Proposed)
    ensures var (d, g) := Evaluate(u.cfg, u.profile, p.action, NameOf(s, p), s.gate, false, 0.0);
            ActsOn(s, p, d, GatedOne(u, s, p)) && GatedOne(u, s, p).gate == g
  {
    hide Evaluate;
  }

  /** The steps `ps` reach the gate one after the other, each in the state the ones before it left: `states`. */
  ghost predicate Pass(u: Setup, s: State, ps: seq<Proposed>, states: seq<State>) {
    && |states| == |ps| + 1 && states[0] == s
    && forall i :: 0 <= i < |ps| ==>
         var (d, g) := Evaluate(u.cfg, u.profile, ps[i].action, NameOf(states[i], ps[i]), states[i].gate, false, 0.0);
         ActsOn(states[i], ps[i], d, states[i + 1]) && states[i + 1].gate == g
  }

  lemma {:induction false} PassHappens(u: Setup, s: State, ps: seq<Proposed>) returns (states: seq<State>)
    ensures Pass(u, s, ps, states) && states[|ps|] == GatedAll(u, s, ps)
  {
    hide Evaluate;
    hide ActsOn;
    hide GatedOne;
    if ps == [] {
      states := [s];
    } else {
      var front, last := ps[..|ps| - 1], ps[|ps| - 1];
      var before := PassHappens(u, s, front);
      states := before + [GatedAll(u, s, ps)];
      StepActs(u, GatedAll(u, s, front), last);
      forall i | 0 <= i < |ps|
        ensures var name, gate := NameOf(states[i], ps[i]), states[i].gate;
                var (d, g) := Evaluate(u.cfg, u.profile, ps[i].action, name, gate, false, 0.0);
                ActsOn(states[i], ps[i], d, states[i + 1]) && states[i + 1].gate == g
      {
        if i < |front| {
          assert ps[i] == front[i] && states[i] == before[i] && states[i + 1] == before[i + 1];
        }
      }
    }
  }

  // ---------------------------------------------------------------- a whole turn

  /** A turn in which the model answers itself: what was heard is said again, and nothing else happens. */
  ghost predicate AnswersDirectly(s: State, t: Turn, r: State, status: Status) {
    && status == DirectReply
    && r == s.(outbound := s.outbound + [Later(Checkpoint), Later(Speech(t.transcript))],
               errors := s.errors + (if Supervised(t).1 then ["routing_failed"] else []))
  }

  /**
   * A turn in which the experts are consulted: `c` is the session as the gate gets to see it. It has put out a
   * checkpoint and what the rounds say; the opinion is that of the last good merge.
   */
  ghost predicate Consulting(u: Setup, s: State, t: Turn, xs: seq<Sitting>, c: State) {
    var n := RoundsRun(t.rounds, 0, s.crossExamRound);
    && c.roster == Supervised(t).0.smes
    && Recalls(c, xs + FirstRounds(c.roster, t.rounds, n))
    && c.outbound == s.outbound + [Later(Checkpoint)]
                     + RoundsSay(xs, c.roster, t.rounds, n, u.queueMax, s.crossExamRound == 0)
    && c.errors == s.errors + Failures(t.rounds, n)
  }

  lemma StartUnderway(u: Setup, s: State, t: Turn, xs: seq<Sitting>)
    requires OpinionOk(s) && Recalls(s, xs) && Supervised(t).0.needsGuild
    ensures var start := Opened(s, t).(roster := Supervised(t).0.smes);
            Underway(start, xs, t.rounds, 0, u.queueMax, s.crossExamRound == 0,
                     s.outbound + [Later(Checkpoint)], s.errors)
  {
    RoutingHonoursMentions(t);
    hide Subsequence;
    hide Supervised;
    var start := Opened(s, t).(roster := Supervised(t).0.smes);
    assert xs + FirstRounds(start.roster, t.rounds, 0) == xs;
    assert start.outbound + [] == start.outbound && start.errors + [] == start.errors;
    SameBooksRecall(s, start, xs);
    hide Recalls;
  }

  lemma SameBooksRecall(s: State, t: State, xs: seq<Sitting>)
    requires Recalls(s, xs) && t.responses == s.responses && t.merged == s.merged
    requires t.dissentReport == s.dissentReport && t.invokerOf == s.invokerOf
    ensures Recalls(t, xs)
  {
    hide OpinionIs;
    hide NamesProposers;
  }

  lemma ConsultingFrom(u: Setup, s: State, t: Turn, xs: seq<Sitting>, c: State)
    requires c.roster == Supervised(t).0.smes
    requires Underway(c, xs, t.rounds, RoundsRun(t.rounds, 0, s.crossExamRound), u.queueMax, s.crossExamRound == 0,
                      s.outbound + [Later(Checkpoint)], s.errors)
    ensures Consulting(u, s, t, xs, c)
  {
    hide Supervised;
    hide Recalls;
    hide OpinionOk;
    hide RoundsSay;
    hide FirstRounds;
  }

  lemma ConsultingHappens(u: Setup, s: State, t: Turn, xs: seq<Sitting>)
    requires OpinionOk(s) && Recalls(s, xs) && Supervised(t).0.needsGuild
    ensures Consulting(u, s, t, xs, Consulted(u, s, t))
  {
    hide Supervised;
    hide Deliberated;
    hide Recalls;
    hide OpinionOk;
    hide Underway;
    hide Consulting;
    var start := Opened(s, t).(roster := Supervised(t).0.smes);
    StartUnderway(u, s, t, xs);
    assert start.crossExamRound == s.crossExamRound;
    hide Opened;
    DeliberationUnderway(u, start, xs, t.rounds, 0, s.crossExamRound == 0, s.outbound + [Later(Checkpoint)], s.errors);
    ConsultingFrom(u, s, t, xs, Consulted(u, s, t));
  }

  /**
   * What a turn does to a session that has gone through the rounds `xs`. Either the model answers directly; or the
   * experts are consulted, every step of the opinion is put to the gate and acted upon, and the headline of the last
   * good merge is spoken exactly when no request stands open afterwards or the opinion holds no step.
   */
  ghost predicate TurnIs(u: Setup, s: State, t: Turn, xs: seq<Sitting>, r: State, status: Status) {
    if !Supervised(t).0.needsGuild then AnswersDirectly(s, t, r, status)
    else
      exists c: State, states: seq<State> ::
        Consulting(u, s, t, xs, c) && Pass(u, c, ActionsOf(c), states)
        && Ends(c, states[|states| - 1], HeadlineNext(s, t, xs), r, status)
  }

  /** The headline that the rounds of a turn after the rounds `xs` lead to. */
  function HeadlineNext(s: State, t: Turn, xs: seq<Sitting>): string {
    HeadlineAfter(xs + FirstRounds(Supervised(t).0.smes, t.rounds, RoundsRun(t.rounds, 0, s.crossExamRound)))
  }

  /** The turn pauses on an open request, if the opinion holds a step at all, and else ends with the headline. */
  predicate Ends(c: State, end: State, headline: string, r: State, status: Status) {
    if end.pending != [] && ActionsOf(c) != [] then status == Paused && r == end
    else status == Complete && r == end.(outbound := end.outbound + [Later(Speech(headline))])
  }

  lemma RanUnfolds(u: Setup, s: State, t: Turn)
    requires Supervised(t).0.needsGuild
    ensures var c := Consulted(u, s, t);
            Ends(c, GatedAll(u, c, ActionsOf(c)), Headline(c), Ran(u, s, t).0, Ran(u, s, t).1)
  {
    hide Supervised;
    hide Consulted;
    var c := Consulted(u, s, t);
    GatedNone(u, c);
    PassKeepsMemory(u, c, ActionsOf(c));
    hide GatedAll;
  }

  lemma DirectTurn(u: Setup, s: State, t: Turn)
    requires !Supervised(t).0.needsGuild
    ensures AnswersDirectly(s, t, Ran(u, s, t).0, Ran(u, s, t).1)
  {
    hide Supervised;
  }

  lemma TurnHappens(u: Setup, s: State, t: Turn, xs: seq<Sitting>)
    requires OpinionOk(s) && Recalls(s, xs)
    ensures TurnIs(u, s, t, xs, Ran(u, s, t).0, Ran(u, s, t).1)
  {
    hide Supervised;
    hide Consulting;
    hide Pass;
    hide Consulted;
    hide GatedAll;
    hide HeadlineNext;
    hide Headline;
    hide Ran;
    hide Recalls;
    hide OpinionOk;
    hide AnswersDirectly;
    hide ActionsOf;
    hide Ends;
    if Supervised(t).0.needsGuild {
      var c := Consulted(u, s, t);
      ConsultingHappens(u, s, t, xs);
      ConsultedHeadline(u, s, t, xs, c);
      var states := PassHappens(u, c, ActionsOf(c));
      PassLength(u, c, ActionsOf(c), states);
      RanUnfolds(u, s, t);
    } else {
      DirectTurn(u, s, t);
    }
  }

  lemma ConsultedHeadline(u: Setup, s: State, t: Turn, xs: seq<Sitting>, c: State)
    requires Consulting(u, s, t, xs, c)
    ensures Headline(c) == HeadlineNext(s, t, xs)
  {
    hide Supervised;
    hide Recalls;
    hide RoundsSay;
    hide HeadlineAfter;
    hide FirstRounds;
    RecallsHeadline(c, xs + FirstRounds(c.roster, t.rounds, RoundsRun(t.rounds, 0, s.crossExamRound)));
  }

  lemma PassLength(u: Setup, s: State, ps: seq<Proposed>, states: seq<State>)
    requires Pass(u, s, ps, states)
    ensures |states| == |ps| + 1
  {
  }

  lemma RecallsHeadline(s: State, xs: seq<Sitting>)
    requires Recalls(s, xs)
    ensures Headline(s) == HeadlineAfter(xs)
  {
    hide OpinionFrom;
  }

  // ---------------------------------------------------------------- whole sessions

  lemma GatingKeepsBooks(u: Setup, s: State, ps: seq<Proposed>)
    ensures var t := GatedAll(u, s, ps);
            && t.responses == s.responses && t.merged == s.merged
            && t.dissentReport == s.dissentReport && t.invokerOf == s.invokerOf
    decreases |ps|
  {
    hide GatedOne;
    if ps != [] {
      GatingKeepsBooks(u, s, ps[..|ps| - 1]);
      GatingOnlyGates(u, GatedAll(u, s, ps[..|ps| - 1]), ps[|ps| - 1]);
    }
  }

  lemma TurnRecalls(u: Setup, s: State, t: Turn, xs: seq<Sitting>)
    requires OpinionOk(s) && Recalls(s, xs)
    ensures var n := RoundsRun(t.rounds, 0, s.crossExamRound);
            Recalls(Ran(u, s, t).0,
                    if Supervised(t).0.needsGuild then xs + FirstRounds(Supervised(t).0.smes, t.rounds, n) else xs)
  {
    hide Supervised;
    hide Consulted;
    hide Ran;
    hide RoundsSay;
    hide FirstRounds;
    hide OpinionOk;
    hide Recalls;
    hide ActionsOf;
    hide Headline;
    var r := Ran(u, s, t).0;
    if Supervised(t).0.needsGuild {
      var c := Consulted(u, s, t);
      ConsultingHappens(u, s, t, xs);
      RanUnfolds(u, s, t);
      GatingKeepsBooks(u, c, ActionsOf(c));
      hide GatedAll;
      hide RoundsRun;
      SameBooksRecall(c, r, xs + FirstRounds(c.roster, t.rounds, RoundsRun(t.rounds, 0, s.crossExamRound)));
    } else {
      DirectTurn(u, s, t);
      SameBooksRecall(s, r, xs);
    }
  }

  lemma AnswerKeepsBooks(s: State, callId: nat, approved: bool)
    ensures var t := Resumed(s, callId, approved).0;
            && t.responses == s.responses && t.merged == s.merged
            && t.dissentReport == s.dissentReport && t.invokerOf == s.invokerOf
  {
  }

  lemma StepRecalls(u: Setup, s: State, ops: seq<Op>, op: Op)
    requires OpinionOk(s) && Recalls(s, Sittings(ops)) && s.crossExamRound == ExtraRounds(ops)
    ensures Recalls(Step(u, s, op), Sittings(ops + [op]))
  {
    hide Recalls;
    hide OpinionOk;
    hide Supervised;
    hide Ran;
    hide FirstRounds;
    assert (ops + [op])[..|ops|] == ops;
    assert Sittings(ops) + [] == Sittings(ops);
    match op
    case RunTurn(t) =>
      TurnRecalls(u, s, t, Sittings(ops));
      SittingsAfterTurn(ops, t);
      hide Sittings;
      hide RoundsRun;
      assert Step(u, s, op) == Ran(u, s, t).0;
    case Answer(c, approved) =>
      AnswerKeepsBooks(s, c, approved);
      SameBooksRecall(s, Step(u, s, op), Sittings(ops));
    case ReplayPending =>
      AskAgainOnlySpeaks(s, |s.pending|);
      SameBooksRecall(s, Step(u, s, op), Sittings(ops));
    case Drain => SameBooksRecall(s, Step(u, s, op), Sittings(ops));
  }

  lemma SittingsAfterTurn(ops: seq<Op>, t: Turn)
    ensures Sittings(ops + [RunTurn(t)]) ==
              if Supervised(t).0.needsGuild then
                Sittings(ops)
                + FirstRounds(Supervised(t).0.smes, t.rounds, RoundsRun(t.rounds, 0, ExtraRounds(ops)))
              else Sittings(ops)
  {
    hide Supervised;
    hide FirstRounds;
    assert (ops + [RunTurn(t)])[..|ops|] == ops;
    assert Sittings(ops) + [] == Sittings(ops);
    assert 1 + Extra(t, ExtraRounds(ops)) == RoundsRun(t.rounds, 0, ExtraRounds(ops));
  }

  lemma NothingRecalled()
    ensures Recalls(INITIAL, []) && OpinionOk(INITIAL)
  {
    assert forall uid: nat :: LastProposer([], uid) == None;
  }

  /**
   * What a session holds. Beside the reply table and the opinion's steps: the opinion's headline, supporters and
   * open questions, the last dissent found, and for each step the expert who proposed it last.
   */
  lemma {:induction false} SessionRecalls(u: Setup, ops: seq<Op>)
    ensures Recalls(Session(u, ops), Sittings(ops))
  {
    hide Step;
    hide Sittings;
    hide Recalls;
    if ops == [] {
      NothingRecalled();
      NothingRemembered();
    } else {
      var front, last := ops[..|ops| - 1], ops[|ops| - 1];
      SessionRecalls(u, front);
      OpinionsStayOk(u, front);
      SessionRemembers(u, front);
      hide OpinionOk;
      StepRecalls(u, Session(u, front), front, last);
      assert ops == front + [last];
    }
  }

  /** Every turn of every session does what TurnIs states. */
  lemma EveryTurnIs(u: Setup, ops: seq<Op>, t: Turn)
    ensures var s := Session(u, ops);
            TurnIs(u, s, t, Sittings(ops), Ran(u, s, t).0, Ran(u, s, t).1)
  {
    hide Ran;
    hide TurnIs;
    hide Recalls;
    hide OpinionOk;
    SessionRecalls(u, ops);
    OpinionsStayOk(u, ops);
    TurnHappens(u, Session(u, ops), t, Sittings(ops));
  }

  /**
   * What an answer says. It is of no effect unless it meets an open request; a skip, or an approval of a step that
   * is no longer there, is reported with the request's text; the headline is spoken when it was the last one open.
   */
  lemma AnswerSays(u: Setup, ops: seq<Op>, callId: nat, approved: bool)
    ensures var s := Session(u, ops);
            var (r, status) := Resumed(s, callId, approved);
            if forall i :: 0 <= i < |s.pending| ==> s.pending[i].callId != callId then r == s && status == Paused
            else
              exists i: nat ::
                && i < |s.pending| && s.pending[i].callId == callId && r.pending == s.pending[..i] + s.pending[i + 1..]
                && var gone := forall p :: p in ActionsOf(s) ==> Instructions(p.action) != s.pending[i].summary;
                   && r.outbound == s.outbound
                        + (if approved && !gone then [] else [Later(Skipped(s.pending[i].summary))])
                        + (if r.pending == [] then [Later(Speech(HeadlineAfter(Sittings(ops))))] else [])
                   && status == (if r.pending == [] then Complete else Paused)
  {
    hide Sittings;
    hide HeadlineAfter;
    var s := Session(u, ops);
    SessionRecalls(u, ops);
    RecallsHeadline(s, Sittings(ops));
    hide Recalls;
    hide Session;
    var i := FindPending(s.pending, callId);
    if i < |s.pending| {
      var found := FindBySummary(ActionsOf(s), s.pending[i].summary);
      NotFoundIff(ActionsOf(s), s.pending[i].summary);
      AnswerUnfolds(s, callId, approved, i, found);
      hide Resumed;
      hide Headline;
      hide FindBySummary;
      hide Instructions;
      hide ActionsOf;
    }
  }

  lemma AnswerUnfolds(s: State, callId: nat, approved: bool, i: nat, found: Option<Proposed>)
    requires i == FindPending(s.pending, callId) < |s.pending|
    requires found == FindBySummary(ActionsOf(s), s.pending[i].summary)
    ensures var (r, status) := Resumed(s, callId, approved);
            && r.pending == s.pending[..i] + s.pending[i + 1..]
            && r.outbound == s.outbound
                 + (if approved && found.Some? then [] else [Later(Skipped(s.pending[i].summary))])
                 + (if r.pending == [] then [Later(Speech(Headline(s)))] else [])
            && status == (if r.pending == [] then Complete else Paused)
  {
    hide FindBySummary;
  }

  lemma {:induction false} NotFoundIff(ps: seq<Proposed>, text: string)
    ensures FindBySummary(ps, text).None? <==> forall p :: p in ps ==> Instructions(p.action) != text
  {
    if ps != [] {
      NotFoundIff(ps[1..], text);
      assert ps == [ps[0]] + ps[1..];
    }
  }

  /** Asking again posts every open request once, in order. */
  lemma {:induction false} AskAgainSays(s: State, n: nat)
    requires n <= |s.pending|
    ensures AskAgain(s, n).outbound
            == s.outbound + seq(n, i requires 0 <= i < n => Later(Ask(s.pending[i])))
  {
    if n > 0 {
      AskAgainSays(s, n - 1);
      AskAgainOnlySpeaks(s, n - 1);
    }
  }
}
