/** What a session carries over from turn to turn: the experts' last replies, the opinion, the extra rounds used. */
module Memory {
  import opened Common
  import opened Fanout
  import opened Engine
  import opened Opinions
  import opened Confirmations

  // ---------------------------------------------------------------- the last reply of every expert

  /** Replies in the order in which the collector took them. */
  type Replies = seq<(string, SmeResponse)>

  function LastReply(rs: Replies, sme: string): Option<SmeResponse> {
    if rs == [] then None
    else if rs[|rs| - 1].0 == sme then Some(rs[|rs| - 1].1)
    else LastReply(rs[..|rs| - 1], sme)
  }

  /** Who has replied, in the order of the first replies. */
  function Names(rs: Replies): (names: seq<string>)
    ensures forall m :: m in names <==> LastReply(rs, m).Some?
  {
    if rs == [] then []
    else
      var front, last := Names(rs[..|rs| - 1]), rs[|rs| - 1].0;
      if last in front then front else front + [last]
  }

  /** Every expert who has ever replied, with the last reply. */
  function Latest(rs: Replies): (t: Responses)
    ensures |t| == |Names(rs)|
  {
    var names := Names(rs);
    seq(|names|, i requires 0 <= i < |names| => assert names[i] in names; (names[i], LastReply(rs, names[i]).value))
  }

  lemma {:induction false} NamesAreDistinct(rs: Replies)
    ensures NoDuplicates(Names(rs))
  {
    if rs != [] { NamesAreDistinct(rs[..|rs| - 1]); }
  }

  lemma {:induction false} UpsertWhere(t: Responses, sme: string, r: SmeResponse, i: nat)
    requires i <= |t| && (i < |t| ==> t[i].0 == sme) && forall j :: 0 <= j < i ==> t[j].0 != sme
    ensures Upsert(t, sme, r) == if i < |t| then t[i := (sme, r)] else t + [(sme, r)]
  {
    if t != [] && i > 0 { UpsertWhere(t[1..], sme, r, i - 1); }
  }

  lemma NamesSnoc(rs: Replies, sme: string, r: SmeResponse)
    ensures Names(rs + [(sme, r)]) == if sme in Names(rs) then Names(rs) else Names(rs) + [sme]
    ensures forall m :: LastReply(rs + [(sme, r)], m) == if m == sme then Some(r) else LastReply(rs, m)
  {
    assert (rs + [(sme, r)])[..|rs|] == rs;
  }

  /** Filing a reply in the table keeps it the table of last replies. */
  lemma LatestSnoc(rs: Replies, sme: string, r: SmeResponse)
    ensures Latest(rs + [(sme, r)]) == Upsert(Latest(rs), sme, r)
  {
    hide Upsert;
    hide LastReply;
    var t, names := Latest(rs), Names(rs);
    NamesAreDistinct(rs);
    NamesSnoc(rs, sme, r);
    hide Names;
    if sme in names {
      var i: nat :| i < |names| && names[i] == sme;
      UpsertWhere(t, sme, r, i);
    } else {
      UpsertWhere(t, sme, r, |t|);
    }
  }

  // ---------------------------------------------------------------- rounds

  /** One round as it was held: who was asked, and what the models answered. */
  datatype Sitting = Sitting(roster: seq<string>, round: Round)

  function JobFor(x: Sitting): (job: Job)
    ensures job.Valid() && job.roster == x.roster
  {
    Job(x.roster, Scripts(x.round, |x.roster|), x.round.late)
  }

  /** The replies of one round, in roster order. */
  function RoundReplies(x: Sitting): (rs: Replies)
    ensures |rs| == |x.roster|
  {
    seq(|x.roster|, i requires 0 <= i < |x.roster| => (x.roster[i], ResponseAt(JobFor(x), i)))
  }

  function AllReplies(xs: seq<Sitting>): Replies {
    if xs == [] then [] else AllReplies(xs[..|xs| - 1]) + RoundReplies(xs[|xs| - 1])
  }

  lemma {:induction false} TableIsLatest(rs: Replies, x: Sitting, n: nat)
    requires n <= |x.roster|
    ensures Table(JobFor(x), Latest(rs), n) == Latest(rs + RoundReplies(x)[..n])
  {
    hide Latest;
    hide Upsert;
    hide ResponseAt;
    if n == 0 {
      assert rs + RoundReplies(x)[..0] == rs;
    } else {
      TableIsLatest(rs, x, n - 1);
      var (sme, r) := RoundReplies(x)[n - 1];
      LatestSnoc(rs + RoundReplies(x)[..n - 1], sme, r);
      assert rs + RoundReplies(x)[..n] == (rs + RoundReplies(x)[..n - 1]) + [(sme, r)];
    }
  }

  /** The last round whose merge did not fail. */
  function LastGood(xs: seq<Sitting>): (k: Option<nat>)
    ensures k.Some? ==> k.value < |xs|
  {
    if xs == [] then None
    else if xs[|xs| - 1].round.merge.Some? then Some(|xs| - 1)
    else LastGood(xs[..|xs| - 1])
  }

  /** The first of each kind of step, in order. */
  function Firsts(ps: seq<Proposed>): seq<Proposed> {
    if ps == [] then []
    else
      var front, last := Firsts(ps[..|ps| - 1]), ps[|ps| - 1];
      if AlreadyIn(ps[..|ps| - 1], last) then front else front + [last]
  }

  /** The opinion that the rounds lead to: the confident last replies, as of the last round that was merged. */
  function OpinionFrom(xs: seq<Sitting>): seq<Proposed> {
    var k := LastGood(xs);
    if k.None? then [] else Firsts(AllProposed(Kept(Latest(AllReplies(xs[..k.value + 1])))))
  }

  // ---------------------------------------------------------------- the merge takes the first of each kind

  lemma {:induction false} SameStepsIn(ps: seq<Proposed>, p: Proposed)
    ensures AlreadyIn(Firsts(ps), p) <==> AlreadyIn(ps, p)
  {
    if ps != [] {
      var front, last := ps[..|ps| - 1], ps[|ps| - 1];
      SameStepsIn(front, p);
      SameStepsIn(front, last);
      assert ps == front + [last];
      InSnoc(front, last, p);
      InSnoc(Firsts(front), last, p);
      if AlreadyIn(front, last) && SameStep(last, p) {
        var q :| q in front && SameStep(q, last);
        assert SameStep(q, p);
      }
    }
  }

  lemma InSnoc(ps: seq<Proposed>, last: Proposed, p: Proposed)
    ensures AlreadyIn(ps + [last], p) <==> AlreadyIn(ps, p) || SameStep(last, p)
  {
    if AlreadyIn(ps, p) {
      var q :| q in ps && SameStep(q, p);
      assert q in ps + [last];
    }
    assert last in ps + [last];
  }

  lemma FirstsSnoc(ps: seq<Proposed>, p: Proposed)
    ensures Firsts(ps + [p]) == if AlreadyIn(ps, p) then Firsts(ps) else Firsts(ps) + [p]
  {
    assert (ps + [p])[..|ps|] == ps;
  }

  lemma {:induction false} TakingFirsts(acc: Taken, sme: string, from: seq<Proposed>, ps: seq<Proposed>)
    requires acc.actions == Firsts(from)
    ensures TakeAll(acc, sme, ps).actions == Firsts(from + ps)
  {
    hide Firsts;
    hide AlreadyIn;
    if ps == [] {
      assert from + ps == from;
    } else {
      var front, p := ps[..|ps| - 1], ps[|ps| - 1];
      TakingFirsts(acc, sme, from, front);
      SameStepsIn(from + front, p);
      FirstsSnoc(from + front, p);
      assert from + ps == (from + front) + [p];
    }
  }

  lemma {:induction false} MergeTakesFirsts(m: map<nat, string>, rs: seq<SmeResponse>)
    ensures TakenFrom(m, rs).actions == Firsts(AllProposed(rs))
  {
    hide TakeAll;
    if rs != [] {
      var front, r := rs[..|rs| - 1], rs[|rs| - 1];
      MergeTakesFirsts(m, front);
      TakingFirsts(TakenFrom(m, front), r.smeId, AllProposed(front), r.proposed);
    }
  }

  // ---------------------------------------------------------------- the state follows the rounds

  /** The reply table and the opinion are those that the rounds so far lead to. */
  ghost predicate Remembers(s: State, xs: seq<Sitting>) {
    s.responses == Latest(AllReplies(xs)) && ActionsOf(s) == OpinionFrom(xs)
  }

  lemma RepliesAfter(xs: seq<Sitting>, x: Sitting)
    ensures Table(JobFor(x), Latest(AllReplies(xs)), |x.roster|) == Latest(AllReplies(xs + [x]))
  {
    hide Latest;
    hide Table;
    TableIsLatest(AllReplies(xs), x, |x.roster|);
    assert RoundReplies(x)[..|x.roster|] == RoundReplies(x);
    hide RoundReplies;
    assert (xs + [x])[..|xs|] == xs;
  }

  lemma OpinionAfter(xs: seq<Sitting>, x: Sitting)
    ensures OpinionFrom(xs + [x])
            == if x.round.merge.Some? then Firsts(AllProposed(Kept(Latest(AllReplies(xs + [x]))))) else OpinionFrom(xs)
  {
    hide AllReplies;
    hide Latest;
    hide Firsts;
    hide AllProposed;
    hide Kept;
    var all := xs + [x];
    assert all[..|xs|] == xs && all[..|all|] == all;
    if x.round.merge.None? && LastGood(xs).Some? {
      assert all[..LastGood(xs).value + 1] == xs[..LastGood(xs).value + 1];
    }
  }

  lemma RoundRemembers(u: Setup, s: State, r: Round, xs: seq<Sitting>)
    requires Remembers(s, xs)
    ensures Remembers(RoundDone(u, s, r).0, xs + [Sitting(s.roster, r)])
  {
    hide AllReplies;
    hide Latest;
    hide OpinionFrom;
    hide Firsts;
    hide AllProposed;
    hide Kept;
    hide Table;
    hide RoundDone;
    hide TakenFrom;
    hide Aggregated;
    hide Summoned;
    var x, mid := Sitting(s.roster, r), Aggregated(Summoned(s, r), u.queueMax);
    assert JobOf(s, r) == JobFor(x);
    RoundLeaves(u, s, r);
    RepliesAfter(xs, x);
    OpinionAfter(xs, x);
    MergeTakesFirsts(mid.invokerOf, Kept(mid.responses));
  }

  lemma RoundLeaves(u: Setup, s: State, r: Round)
    ensures var mid, t := Aggregated(Summoned(s, r), u.queueMax), RoundDone(u, s, r).0;
            && t.roster == s.roster && t.responses == mid.responses
            && mid.responses == Table(JobOf(s, r), s.responses, |s.roster|)
            && ActionsOf(t)
               == if r.merge.Some? then TakenFrom(mid.invokerOf, Kept(mid.responses)).actions else ActionsOf(s)
  {
    hide Table;
    hide InvokersUpTo;
    hide TakenFrom;
    hide Kept;
    hide OpenQuestions;
  }

  /** The first `n` rounds of a turn. */
  function FirstRounds(roster: seq<string>, rounds: nat -> Round, n: nat): (xs: seq<Sitting>)
    ensures |xs| == n
  {
    seq(n, i requires 0 <= i < n => Sitting(roster, rounds(i)))
  }

  lemma RemembersReads(s: State, t: State, xs: seq<Sitting>)
    requires Remembers(s, xs) && t.responses == s.responses && t.merged == s.merged
    ensures Remembers(t, xs)
  {
  }

  /** `s` stands before round `k` of a turn that began after the rounds `xs`. */
  lemma {:induction false} DeliberationRemembers(
      u: Setup, s: State, rounds: nat -> Round, k: nat, xs: seq<Sitting>)
    requires Remembers(s, xs + FirstRounds(s.roster, rounds, k))
    ensures var n, t := RoundsRun(rounds, k, s.crossExamRound), Deliberated(u, s, rounds, k);
            && n > 0 && t.crossExamRound == s.crossExamRound + n - 1
            && Remembers(t, xs + FirstRounds(s.roster, rounds, k + n))
    decreases CROSS_EXAM_CAP - s.crossExamRound
  {
    hide RoundDone;
    hide Deliberated;
    hide Remembers;
    RoundRemembers(u, s, rounds(k), xs + FirstRounds(s.roster, rounds, k));
    RoundReads(u, s, rounds(k));
    DeliberatedUnfolds(u, s, rounds, k);
    var (r, more) := RoundDone(u, s, rounds(k));
    assert xs + FirstRounds(s.roster, rounds, k + 1)
        == (xs + FirstRounds(s.roster, rounds, k)) + [Sitting(s.roster, rounds(k))];
    if more && r.crossExamRound < CROSS_EXAM_CAP {
      var next := r.(crossExamRound := r.crossExamRound + 1);
      RemembersReads(r, next, xs + FirstRounds(s.roster, rounds, k + 1));
      DeliberationRemembers(u, next, rounds, k + 1, xs);
    }
  }

  // ---------------------------------------------------------------- whole sessions

  predicate Consults(t: Turn) { Supervised(t).0.needsGuild }

  /** How many extra rounds the turns have used, read off what the models answered. */
  function ExtraRounds(ops: seq<Op>): nat {
    if ops == [] then 0
    else
      var used, last := ExtraRounds(ops[..|ops| - 1]), ops[|ops| - 1];
      if last.RunTurn? && Consults(last.turn) then used + Extra(last.turn, used) else used
  }

  /** The extra rounds of one turn. */
  function Extra(t: Turn, used: nat): nat {
    if RoundsRun(t.rounds, 0, used) == 0 then 0 else RoundsRun(t.rounds, 0, used) - 1
  }

  /** All rounds held, turn after turn. */
  function Sittings(ops: seq<Op>): seq<Sitting> {
    if ops == [] then []
    else
      var front, last := ops[..|ops| - 1], ops[|ops| - 1];
      Sittings(front)
      + (if last.RunTurn? && Consults(last.turn)
         then FirstRounds(Supervised(last.turn).0.smes, last.turn.rounds, 1 + Extra(last.turn, ExtraRounds(front)))
         else [])
  }

  lemma GatingOnlyGates(u: Setup, s: State, p: Proposed)
    ensures var t := GatedOne(u, s, p);
            t == s.(pending := t.pending, approved := t.approved, audit := t.audit, outbound := t.outbound,
                    nextId := t.nextId, gate := t.gate)
  {
    hide Gates.Evaluate;
    hide RequestFor;
  }

  lemma {:induction false} PassKeepsMemory(u: Setup, s: State, ps: seq<Proposed>)
    ensures var t := GatedAll(u, s, ps);
            t.responses == s.responses && t.merged == s.merged && t.crossExamRound == s.crossExamRound
  {
    hide GatedOne;
    if ps != [] {
      PassKeepsMemory(u, s, ps[..|ps| - 1]);
      GatingOnlyGates(u, GatedAll(u, s, ps[..|ps| - 1]), ps[|ps| - 1]);
    }
  }

  lemma ConsultingRemembers(u: Setup, s: State, t: Turn, xs: seq<Sitting>)
    requires Remembers(s, xs)
    ensures var c, n := Consulted(u, s, t), 1 + Extra(t, s.crossExamRound);
            && c.crossExamRound == s.crossExamRound + n - 1
            && Remembers(c, xs + FirstRounds(Supervised(t).0.smes, t.rounds, n))
  {
    hide Supervised;
    hide Deliberated;
    hide Remembers;
    hide FirstRounds;
    StartRemembers(s, t, xs);
    hide Opened;
    DeliberationRemembers(u, Opened(s, t).(roster := Supervised(t).0.smes), t.rounds, 0, xs);
  }

  lemma StartRemembers(s: State, t: Turn, xs: seq<Sitting>)
    requires Remembers(s, xs)
    ensures var start := Opened(s, t).(roster := Supervised(t).0.smes);
            start.crossExamRound == s.crossExamRound && Remembers(start, xs + FirstRounds(start.roster, t.rounds, 0))
  {
    hide Supervised;
    var start := Opened(s, t).(roster := Supervised(t).0.smes);
    assert xs + FirstRounds(start.roster, t.rounds, 0) == xs;
    RemembersReads(s, start, xs);
  }

  lemma TurnRemembers(u: Setup, s: State, t: Turn, xs: seq<Sitting>)
    requires Remembers(s, xs)
    ensures var r, n := Ran(u, s, t).0, 1 + Extra(t, s.crossExamRound);
            if Consults(t) then r.crossExamRound == s.crossExamRound + n - 1
                                && Remembers(r, xs + FirstRounds(Supervised(t).0.smes, t.rounds, n))
            else r.crossExamRound == s.crossExamRound && Remembers(r, xs)
  {
    var r := Ran(u, s, t).0;
    hide Supervised;
    if Supervised(t).0.needsGuild {
      var mid := Consulted(u, s, t);
      ConsultingRemembers(u, s, t, xs);
      hide Consulted;
      PassKeepsMemory(u, mid, ActionsOf(mid));
      hide GatedAll;
      RemembersReads(mid, r, xs + FirstRounds(Supervised(t).0.smes, t.rounds, 1 + Extra(t, s.crossExamRound)));
    } else {
      RemembersReads(s, r, xs);
    }
    hide Remembers;
  }

  lemma OtherOpsKeepMemory(u: Setup, s: State, op: Op)
    requires !op.RunTurn?
    ensures var r := Step(u, s, op);
            r.responses == s.responses && r.merged == s.merged && r.crossExamRound == s.crossExamRound
  {
    match op
    case Answer(c, approved) =>
      ResumedSteps(s, c, approved);
      ResumedKeepsOpinion(s, c, approved);
      hide Resumed;
    case ReplayPending => AskAgainOnlySpeaks(s, |s.pending|);
    case Drain =>
  }

  /** One more operation, held against one more in the list. */
  lemma StepRemembers(u: Setup, s: State, ops: seq<Op>, op: Op)
    requires Remembers(s, Sittings(ops)) && s.crossExamRound == ExtraRounds(ops)
    ensures Remembers(Step(u, s, op), Sittings(ops + [op])) && Step(u, s, op).crossExamRound == ExtraRounds(ops + [op])
  {
    hide Remembers;
    hide Supervised;
    hide Ran;
    hide FirstRounds;
    hide Extra;
    assert (ops + [op])[..|ops|] == ops;
    match op
    case RunTurn(t) =>
      TurnRemembers(u, s, t, Sittings(ops));
      assert Sittings(ops) + [] == Sittings(ops);
    case _ =>
      OtherOpsKeepMemory(u, s, op);
      RemembersReads(s, Step(u, s, op), Sittings(ops));
      hide Step;
      assert Sittings(ops) + [] == Sittings(ops);
  }

  lemma {:induction false} SessionStep(u: Setup, ops: seq<Op>)
    ensures Remembers(Session(u, ops), Sittings(ops)) && Session(u, ops).crossExamRound == ExtraRounds(ops)
  {
    hide Step;
    hide Sittings;
    hide ExtraRounds;
    if ops != [] {
      hide Remembers;
      var front, last := ops[..|ops| - 1], ops[|ops| - 1];
      SessionStep(u, front);
      StepRemembers(u, Session(u, front), front, last);
      assert ops == front + [last];
    } else {
      NothingRemembered();
    }
  }

  /**
   * What a session remembers. The reply table holds the last reply of every expert ever consulted, whatever the
   * present turn's roster; the opinion is the first of each kind of step among the confident ones of these
   * replies, as of the last round that was merged; and the extra rounds of all turns count together.
   */
  lemma SessionRemembers(u: Setup, ops: seq<Op>)
    ensures var s := Session(u, ops);
            && s.responses == Latest(AllReplies(Sittings(ops)))
            && ActionsOf(s) == OpinionFrom(Sittings(ops))
            && s.crossExamRound == ExtraRounds(ops) <= CROSS_EXAM_CAP
  {
    SessionStep(u, ops);
    Reachable(u, ops);
    hide Session;
    hide OpinionFrom;
    hide Latest;
  }

  lemma NothingRemembered()
    ensures Sittings([]) == [] && ExtraRounds([]) == 0
    ensures Latest(AllReplies([])) == [] && OpinionFrom([]) == []
  {
  }

  // ---------------------------------------------------------------- the summon notice

  function Notices(es: seq<Outbound>): nat {
    if es == [] then 0 else Notices(es[..|es| - 1]) + (if es[|es| - 1].event.SummonNotice? then 1 else 0)
  }

  lemma NoticesSnoc(es: seq<Outbound>, e: Outbound)
    ensures Notices(es + [e]) == Notices(es) + (if e.event.SummonNotice? then 1 else 0)
  {
    assert (es + [e])[..|es|] == es;
  }

  lemma {:induction false} NoNotices(es: seq<Outbound>, more: seq<Outbound>)
    requires forall i :: 0 <= i < |more| ==> !more[i].event.SummonNotice?
    ensures Notices(es + more) == Notices(es)
  {
    if more == [] {
      assert es + more == es;
    } else {
      var front, last := more[..|more| - 1], more[|more| - 1];
      NoNotices(es, front);
      NoticesSnoc(es + front, last);
      assert es + more == (es + front) + [last];
    }
  }

  lemma SummonNotices(s: State, r: Round)
    ensures Notices(Summoned(s, r).outbound) == Notices(s.outbound) + (if s.crossExamRound == 0 then 1 else 0)
  {
    var noticed := if s.crossExamRound == 0 then Emit(s, SummonNotice(s.roster)) else s;
    NoticesSnoc(s.outbound, Outbound(SummonNotice(s.roster), true));
    NoNotices(noticed.outbound, Outs(Stream(JobOf(s, r), |s.roster|)));
    hide Notices;
    hide Stream;
    hide Table;
    hide InvokersUpTo;
  }

  lemma RoundNotices(u: Setup, s: State, r: Round)
    ensures var t := RoundDone(u, s, r).0;
            Notices(t.outbound) == Notices(s.outbound) + (if s.crossExamRound == 0 then 1 else 0)
  {
    var s1 := Summoned(s, r);
    var s2 := Aggregated(s1, u.queueMax);
    var s3 := MergedWith(s2, r.merge);
    SummonNotices(s, r);
    NoticesSnoc(s1.outbound, Outbound(Digest(Coalesced(Lines(s1.responses), u.queueMax)), false));
    NoticesSnoc(s2.outbound, Outbound(NodeFailed("MergeOpinion"), false));
    if r.dissent.Some? { NoticesSnoc(s3.outbound, Outbound(Dissent(r.dissent.value.pairs), false)); }
    hide Notices;
    hide Summoned;
    hide TakenFrom;
    hide Kept;
    hide OpenQuestions;
    hide Lines;
    hide Coalesced;
  }

  lemma {:induction false} DeliberationNotices(u: Setup, s: State, rounds: nat -> Round, k: nat)
    ensures var t := Deliberated(u, s, rounds, k);
            Notices(t.outbound) == Notices(s.outbound) + (if s.crossExamRound == 0 then 1 else 0)
    decreases CROSS_EXAM_CAP - s.crossExamRound
  {
    hide RoundDone;
    hide Deliberated;
    hide Notices;
    RoundNotices(u, s, rounds(k));
    DeliberatedUnfolds(u, s, rounds, k);
    var (r, more) := RoundDone(u, s, rounds(k));
    if more && r.crossExamRound < CROSS_EXAM_CAP {
      DeliberationNotices(u, r.(crossExamRound := r.crossExamRound + 1), rounds, k + 1);
    }
  }

  lemma GatingNotices(u: Setup, s: State, p: Proposed)
    ensures Notices(GatedOne(u, s, p).outbound) == Notices(s.outbound)
  {
    var invoker := InvokerFor(s, p);
    var d := Gates.Evaluate(u.cfg, u.profile, p.action, invoker, s.gate, false, 0.0).0;
    NoticesSnoc(s.outbound, Outbound(Denied(d.reason), false));
    NoticesSnoc(s.outbound, Outbound(Ask(RequestFor(s.nextId, p, invoker, d)), false));
    hide Notices;
    hide Gates.Evaluate;
    hide RequestFor;
    hide InvokerFor;
  }

  lemma {:induction false} PassNotices(u: Setup, s: State, ps: seq<Proposed>)
    ensures Notices(GatedAll(u, s, ps).outbound) == Notices(s.outbound)
  {
    hide GatedOne;
    hide Notices;
    if ps != [] {
      PassNotices(u, s, ps[..|ps| - 1]);
      GatingNotices(u, GatedAll(u, s, ps[..|ps| - 1]), ps[|ps| - 1]);
    }
  }

  lemma ConsultingNotices(u: Setup, s: State, t: Turn)
    ensures Notices(Opened(s, t).outbound) == Notices(s.outbound)
    ensures Notices(Consulted(u, s, t).outbound) == Notices(s.outbound) + (if s.crossExamRound == 0 then 1 else 0)
  {
    var start := Opened(s, t).(roster := Supervised(t).0.smes);
    hide Supervised;
    NoticesSnoc(s.outbound, Outbound(Checkpoint, false));
    hide Notices;
    DeliberationNotices(u, start, t.rounds, 0);
    hide Deliberated;
  }

  lemma TurnNotices(u: Setup, s: State, t: Turn)
    ensures Notices(Ran(u, s, t).0.outbound)
            == Notices(s.outbound) + (if Consults(t) && s.crossExamRound == 0 then 1 else 0)
  {
    ConsultingNotices(u, s, t);
    hide Supervised;
    hide Opened;
    hide Consulted;
    if Supervised(t).0.needsGuild {
      var mid := Consulted(u, s, t);
      var r := SafetyChecked(u, mid).0;
      PassNotices(u, mid, ActionsOf(mid));
      hide GatedAll;
      NoticesSnoc(r.outbound, Outbound(Speech(Headline(r)), false));
    } else {
      NoticesSnoc(Opened(s, t).outbound, Outbound(Speech(t.transcript), false));
    }
    hide Notices;
  }

  /** No earlier turn that consulted the experts went into a second round. */
  ghost predicate NoExtraRound(ops: seq<Op>) {
    forall k :: 0 <= k < |ops| && ops[k].RunTurn? && Consults(ops[k].turn) ==> !AsksForMore(ops[k].turn.rounds(0))
  }

  lemma {:induction false} NoExtraRoundIff(ops: seq<Op>)
    ensures ExtraRounds(ops) == 0 <==> NoExtraRound(ops)
  {
    hide Consults;
    if ops != [] {
      var front, last := ops[..|ops| - 1], ops[|ops| - 1];
      NoExtraRoundIff(front);
      assert forall k :: 0 <= k < |front| ==> front[k] == ops[k];
      if last.RunTurn? { ExtraIff(last.turn); }
      hide Extra;
    }
  }

  lemma ExtraIff(t: Turn)
    ensures Extra(t, 0) == 0 <==> !AsksForMore(t.rounds(0))
  {
    hide AsksForMore;
  }

  /**
   * A turn posts its summon notice, once, exactly when it consults the experts and no earlier turn of the session
   * went into a second round: after the first such turn the experts are summoned without notice for good.
   */
  lemma NoticeIff(u: Setup, ops: seq<Op>, t: Turn)
    ensures var s := Session(u, ops);
            Notices(Ran(u, s, t).0.outbound)
            == Notices(s.outbound) + (if Consults(t) && NoExtraRound(ops) then 1 else 0)
  {
    SessionRemembers(u, ops);
    NoExtraRoundIff(ops);
    TurnNotices(u, Session(u, ops), t);
  }
}
