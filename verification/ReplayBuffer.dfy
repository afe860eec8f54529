/** The bus's replay buffer: the chat messages of the last half hour, at most 200 of them. */
module ReplayBuffers {
  import opened Common
  import opened Events

  const REPLAY_MAX: nat := 200
  const REPLAY_WINDOW_NS: int := 30 * 60 * 1_000_000_000

  /** The messages no older than `cutoff`, in order. */
  function InWindow(ms: seq<ChatMessage>, cutoff: int): seq<ChatMessage> {
    if ms == [] then []
    else
      var front, last := ms[..|ms| - 1], ms[|ms| - 1];
      InWindow(front, cutoff) + (if last.ts >= cutoff then [last] else [])
  }

  function Evicted(buffer: seq<ChatMessage>, now: int): seq<ChatMessage> {
    LastN(InWindow(buffer, now - REPLAY_WINDOW_NS), REPLAY_MAX)
  }

  predicate HasId(buffer: seq<ChatMessage>, id: string) {
    exists m :: m in buffer && m.messageId == id
  }

  function Appended(buffer: seq<ChatMessage>, m: ChatMessage, now: int): seq<ChatMessage> {
    if HasId(buffer, m.messageId) then buffer else Evicted(buffer + [m], now)
  }

  datatype BufferOp = Put(msg: ChatMessage, now: int) | Trim(now: int)

  function StepBuffer(buffer: seq<ChatMessage>, op: BufferOp): seq<ChatMessage> {
    match op
    case Put(m, now) => Appended(buffer, m, now)
    case Trim(now) => Evicted(buffer, now)
  }

  function RunBuffer(ops: seq<BufferOp>): seq<ChatMessage> {
    if ops == [] then [] else StepBuffer(RunBuffer(ops[..|ops| - 1]), ops[|ops| - 1])
  }

  /** Every message ever put, in arrival order: the log the buffer is a view of. */
  function Log(ops: seq<BufferOp>): seq<ChatMessage> {
    if ops == [] then []
    else
      var last := ops[|ops| - 1];
      Log(ops[..|ops| - 1]) + (if last.Put? then [last.msg] else [])
  }

  // ---------------------------------------------------------------- windows, suffixes and LastN

  lemma InWindowSnoc(ms: seq<ChatMessage>, m: ChatMessage, cutoff: int)
    ensures InWindow(ms + [m], cutoff) == InWindow(ms, cutoff) + (if m.ts >= cutoff then [m] else [])
  {
    assert (ms + [m])[..|ms|] == ms;
  }

  lemma {:induction false} InWindowConcat(a: seq<ChatMessage>, b: seq<ChatMessage>, cutoff: int)
    ensures InWindow(a + b, cutoff) == InWindow(a, cutoff) + InWindow(b, cutoff)
  {
    if b == [] {
      assert a + b == a;
    } else {
      var front, last := b[..|b| - 1], b[|b| - 1];
      InWindowConcat(a, front, cutoff);
      assert a + b == (a + front) + [last];
      InWindowSnoc(a + front, last, cutoff);
    }
  }

  /** A later cutoff subsumes an earlier one. */
  lemma {:induction false} InWindowTwice(ms: seq<ChatMessage>, c1: int, c2: int)
    requires c1 <= c2
    ensures InWindow(InWindow(ms, c1), c2) == InWindow(ms, c2)
  {
    if ms != [] {
      var front, last := ms[..|ms| - 1], ms[|ms| - 1];
      InWindowTwice(front, c1, c2);
      InWindowSnoc(InWindow(front, c1), last, c2);
      if last.ts < c1 {
        assert InWindow(ms, c1) == InWindow(front, c1);
      } else {
        assert InWindow(ms, c1) == InWindow(front, c1) + [last];
      }
    }
  }

  lemma {:induction false} InWindowMembers(ms: seq<ChatMessage>, cutoff: int)
    ensures forall m :: m in InWindow(ms, cutoff) <==> m in ms && m.ts >= cutoff
  {
    if ms != [] {
      var front, last := ms[..|ms| - 1], ms[|ms| - 1];
      InWindowMembers(front, cutoff);
      assert ms == front + [last];
    }
  }

  lemma {:induction false} InWindowLength(ms: seq<ChatMessage>, cutoff: int)
    ensures |InWindow(ms, cutoff)| <= |ms|
    ensures |InWindow(ms, cutoff)| == |ms| ==> InWindow(ms, cutoff) == ms
  {
    if ms != [] {
      InWindowLength(ms[..|ms| - 1], cutoff);
      assert ms == ms[..|ms| - 1] + [ms[|ms| - 1]];
    }
  }

  lemma {:induction false} InWindowAll(ms: seq<ChatMessage>, cutoff: int)
    requires forall m :: m in ms ==> m.ts >= cutoff
    ensures InWindow(ms, cutoff) == ms
  {
    if ms != [] {
      var front, last := ms[..|ms| - 1], ms[|ms| - 1];
      InWindowAll(front, cutoff);
      assert ms == front + [last] && last in ms;
      InWindowSnoc(front, last, cutoff);
      hide InWindow;
    }
  }

  lemma {:induction false} InWindowNone(ms: seq<ChatMessage>, cutoff: int)
    requires forall i :: 0 <= i < |ms| ==> ms[i].ts < cutoff
    ensures InWindow(ms, cutoff) == []
  {
    if ms != [] { InWindowNone(ms[..|ms| - 1], cutoff); }
  }

  lemma InWindowSome(ms: seq<ChatMessage>, cutoff: int, x: ChatMessage)
    requires x in ms && x.ts < cutoff
    ensures |InWindow(ms, cutoff)| < |ms|
  {
    InWindowMembers(ms, cutoff);
    InWindowLength(ms, cutoff);
  }

  ghost predicate Suffix<T(!new)>(a: seq<T>, b: seq<T>) {
    |a| <= |b| && b[|b| - |a|..] == a
  }

  lemma LastNOfConcat<T>(a: seq<T>, b: seq<T>, n: nat)
    ensures LastN(LastN(a, n) + b, n) == LastN(a + b, n)
    ensures |b| >= n ==> LastN(a + b, n) == LastN(b, n)
  {
  }

  // ---------------------------------------------------------------- in general: a duplicate-free subsequence

  lemma {:induction false} InWindowSubsequence(ms: seq<ChatMessage>, cutoff: int)
    ensures Subsequence(InWindow(ms, cutoff), ms)
  {
    if ms == [] {
      SubsequenceReflexive(ms);
    } else {
      var front, last := ms[..|ms| - 1], ms[|ms| - 1];
      InWindowSubsequence(front, cutoff);
      assert ms == front + [last];
      if last.ts >= cutoff {
        SubsequenceAppend(InWindow(front, cutoff), front, last);
      } else {
        assert InWindow(front, cutoff) + [] == InWindow(front, cutoff);
        SubsequenceExtend(InWindow(front, cutoff), front, [last]);
      }
    }
  }

  lemma SubsequenceLastN<T(!new)>(a: seq<T>, b: seq<T>, n: nat)
    requires Subsequence(a, b)
    ensures Subsequence(LastN(a, n), b)
  {
    var at: seq<nat> :| Embeds(at, a, b);
    assert Embeds(LastN(at, n), LastN(a, n), b);
  }

  lemma SubsequenceTransitive<T(!new)>(a: seq<T>, b: seq<T>, c: seq<T>)
    requires Subsequence(a, b) && Subsequence(b, c)
    ensures Subsequence(a, c)
  {
    var f: seq<nat> :| Embeds(f, a, b);
    var g: seq<nat> :| Embeds(g, b, c);
    var h: seq<nat> := seq(|a|, i requires 0 <= i < |a| => g[f[i]]);
    assert Embeds(h, a, c);
  }

  ghost predicate DistinctIds(ms: seq<ChatMessage>) {
    forall i, j :: 0 <= i < j < |ms| ==> ms[i].messageId != ms[j].messageId
  }

  lemma SubsequenceDistinctIds(a: seq<ChatMessage>, b: seq<ChatMessage>)
    requires Subsequence(a, b) && DistinctIds(b)
    ensures DistinctIds(a)
  {
    var at: seq<nat> :| Embeds(at, a, b);
  }

  lemma EvictedSubsequence(buffer: seq<ChatMessage>, now: int)
    ensures Subsequence(Evicted(buffer, now), buffer)
  {
    InWindowSubsequence(buffer, now - REPLAY_WINDOW_NS);
    SubsequenceLastN(InWindow(buffer, now - REPLAY_WINDOW_NS), buffer, REPLAY_MAX);
  }

  lemma EvictedIdempotent(buffer: seq<ChatMessage>, now: int)
    ensures Evicted(Evicted(buffer, now), now) == Evicted(buffer, now)
  {
    var c := now - REPLAY_WINDOW_NS;
    var w := InWindow(buffer, c);
    InWindowTwice(buffer, c, c);
    InWindowMembers(buffer, c);
    InWindowAll(LastN(w, REPLAY_MAX), c);
  }

  /** Whatever the clock, the ids and the timestamps: at most 200 messages, no id twice, in arrival order. */
  lemma {:induction false} BufferIsDuplicateFreeSubsequence(ops: seq<BufferOp>)
    ensures |RunBuffer(ops)| <= 200
    ensures DistinctIds(RunBuffer(ops))
    ensures Subsequence(RunBuffer(ops), Log(ops))
  {
    if ops == [] {
      SubsequenceReflexive<ChatMessage>([]);
    } else {
      var front, last := ops[..|ops| - 1], ops[|ops| - 1];
      var b := RunBuffer(front);
      BufferIsDuplicateFreeSubsequence(front);
      assert Log(front) + [] == Log(front);
      match last
      case Put(m, now) =>
        if HasId(b, m.messageId) {
          SubsequenceExtend(b, Log(front), [m]);
        } else {
          SubsequenceAppend(b, Log(front), m);
          EvictedSubsequence(b + [m], now);
          SubsequenceTransitive(Evicted(b + [m], now), b + [m], Log(ops));
          SubsequenceDistinctIds(Evicted(b + [m], now), b + [m]);
        }
      case Trim(now) =>
        EvictedSubsequence(b, now);
        SubsequenceTransitive(Evicted(b, now), b, Log(front));
        SubsequenceDistinctIds(Evicted(b, now), b);
    }
  }

  // ---------------------------------------------------------------- exactness

  /** The messages the buffer is meant to hold at time `now`. */
  function Ideal(log: seq<ChatMessage>, now: int): seq<ChatMessage> {
    LastN(InWindow(log, now - 1_800_000_000_000), 200)
  }

  /** No message the cap has pushed out is newer than a message the buffer kept. */
  ghost predicate CapKeptNewest(log: seq<ChatMessage>, now: int) {
    var all := InWindow(log, now - 1_800_000_000_000);
    forall i, j :: 0 <= i < |all| - 200 <= j < |all| ==> all[i].ts <= all[j].ts
  }

  /**
   * An exact buffer stays exact under every later clock reading if and only if the cap has never
   * pushed out a message newer than one it kept.
   */
  lemma StaysExactIff(log: seq<ChatMessage>, now: int)
    ensures (forall later :: later >= now ==> Evicted(Ideal(log, now), later) == Ideal(log, later))
            <==> CapKeptNewest(log, now)
  {
    if CapKeptNewest(log, now) {
      forall later | later >= now ensures Evicted(Ideal(log, now), later) == Ideal(log, later) {
        StaysExact(log, now, later);
      }
    } else {
      var all := InWindow(log, now - REPLAY_WINDOW_NS);
      var i, j :| 0 <= i < |all| - REPLAY_MAX <= j < |all| && all[i].ts > all[j].ts;
      assert all[i] in all;
      InWindowMembers(log, now - REPLAY_WINDOW_NS);
      BecomesInexact(log, now, i, j);
    }
  }

  /** The window of a log is what the cap pushed out followed by what the buffer keeps. */
  lemma SplitAtCap(all: seq<ChatMessage>) returns (gone: seq<ChatMessage>)
    ensures all == gone + LastN(all, REPLAY_MAX) && |gone| == |all| - |LastN(all, REPLAY_MAX)|
    ensures |LastN(all, REPLAY_MAX)| <= REPLAY_MAX && (gone != [] ==> |LastN(all, REPLAY_MAX)| == REPLAY_MAX)
  {
    gone := all[..|all| - |LastN(all, REPLAY_MAX)|];
  }

  lemma GoneNotNewer(gone: seq<ChatMessage>, kept: seq<ChatMessage>)
    requires |kept| <= REPLAY_MAX && (gone != [] ==> |kept| == REPLAY_MAX)
    requires var all := gone + kept; forall i, j :: 0 <= i < |all| - REPLAY_MAX <= j < |all| ==> all[i].ts <= all[j].ts
    ensures forall x, y :: x in gone && y in kept ==> x.ts <= y.ts
  {
    var all := gone + kept;
    forall x, y | x in gone && y in kept ensures x.ts <= y.ts {
      var i :| 0 <= i < |gone| && gone[i] == x;
      var j :| 0 <= j < |kept| && kept[j] == y;
      assert all[i] == x && all[|gone| + j] == y;
    }
  }

  lemma StaysExact(log: seq<ChatMessage>, now: int, later: int)
    requires CapKeptNewest(log, now) && now <= later
    ensures InWindow(Ideal(log, now), later - REPLAY_WINDOW_NS) == Ideal(log, later)
    ensures Evicted(Ideal(log, now), later) == Ideal(log, later)
  {
    var c2 := later - REPLAY_WINDOW_NS;
    var gone := SplitAtCap(InWindow(log, now - REPLAY_WINDOW_NS));
    InWindowTwice(log, now - REPLAY_WINDOW_NS, c2);
    GoneNotNewer(gone, Ideal(log, now));
    WindowOfKept(gone, Ideal(log, now), c2);
    hide InWindow;
  }

  /** When nothing pushed out is newer than anything kept, a later window never misses what was pushed out. */
  lemma WindowOfKept(gone: seq<ChatMessage>, kept: seq<ChatMessage>, cutoff: int)
    requires forall x, y :: x in gone && y in kept ==> x.ts <= y.ts
    requires |kept| <= REPLAY_MAX && (gone != [] ==> |kept| == REPLAY_MAX)
    ensures InWindow(kept, cutoff) == LastN(InWindow(gone + kept, cutoff), REPLAY_MAX)
    ensures |InWindow(kept, cutoff)| <= REPLAY_MAX
  {
    InWindowConcat(gone, kept, cutoff);
    InWindowLength(kept, cutoff);
    var w := InWindow(gone, cutoff);
    if w == [] {
      assert w + InWindow(kept, cutoff) == InWindow(kept, cutoff);
    } else {
      InWindowMembers(gone, cutoff);
      assert w[0] in w;
      InWindowAll(kept, cutoff);
      InWindowLength(gone, cutoff);
      LastNOfConcat(w, kept, REPLAY_MAX);
    }
  }

  lemma BecomesInexact(log: seq<ChatMessage>, now: int, i: nat, j: nat)
    requires var all := InWindow(log, now - REPLAY_WINDOW_NS);
             i < |all| - REPLAY_MAX <= j < |all| && all[i].ts > all[j].ts && all[i].ts >= now - REPLAY_WINDOW_NS
    ensures var later := InWindow(log, now - REPLAY_WINDOW_NS)[i].ts + REPLAY_WINDOW_NS;
            later >= now && Evicted(Ideal(log, now), later) != Ideal(log, later)
  {
    hide InWindow;
    var all, kept := InWindow(log, now - REPLAY_WINDOW_NS), Ideal(log, now);
    var c2 := all[i].ts;
    var gone := SplitAtCap(all);
    assert |gone| == |all| - REPLAY_MAX && gone[i] == all[i] && kept[j - |gone|] == all[j];
    InWindowTwice(log, now - REPLAY_WINDOW_NS, c2);
    WindowMissesGone(gone, kept, c2, all[i], all[j]);
  }

  lemma WindowMissesGone(gone: seq<ChatMessage>, kept: seq<ChatMessage>, cutoff: int, x: ChatMessage, y: ChatMessage)
    requires x in gone && x.ts >= cutoff && y in kept && y.ts < cutoff && |kept| <= REPLAY_MAX
    ensures LastN(InWindow(kept, cutoff), REPLAY_MAX) != LastN(InWindow(gone + kept, cutoff), REPLAY_MAX)
  {
    InWindowConcat(gone, kept, cutoff);
    InWindowMembers(gone, cutoff);
    assert x in InWindow(gone, cutoff);
    InWindowSome(kept, cutoff, y);
  }

  ghost predicate NonDecreasingTs(ms: seq<ChatMessage>) {
    forall i, j :: 0 <= i < j < |ms| ==> ms[i].ts <= ms[j].ts
  }

  lemma SortedLogKeepsNewest(log: seq<ChatMessage>, now: int)
    requires NonDecreasingTs(log)
    ensures CapKeptNewest(log, now)
  {
    InWindowSubsequence(log, now - REPLAY_WINDOW_NS);
    var all := InWindow(log, now - REPLAY_WINDOW_NS);
    var at: seq<nat> :| Embeds(at, all, log);
  }

  /** Time of the last operation of the run. */
  function LastNow(ops: seq<BufferOp>): int
    requires ops != []
  {
    ops[|ops| - 1].now
  }

  ghost predicate ClockForward(ops: seq<BufferOp>) {
    forall i, j :: 0 <= i < j < |ops| ==> ops[i].now <= ops[j].now
  }

  /**
   * With a clock that does not go back, distinct ids and timestamps that do not decrease in arrival
   * order, the buffer is exactly the last 200 published messages inside the window.
   */
  lemma {:induction false} BufferRefinesLog(ops: seq<BufferOp>)
    requires ops != [] && ClockForward(ops) && DistinctIds(Log(ops)) && NonDecreasingTs(Log(ops))
    ensures RunBuffer(ops) == Ideal(Log(ops), LastNow(ops))
  {
    var front, last := ops[..|ops| - 1], ops[|ops| - 1];
    var log, now := Log(front), last.now;
    LogPrefix(ops);
    if front == [] {
      if last.Put? { assert [] + [last.msg] == [last.msg]; }
    } else {
      BufferRefinesLog(front);
      SortedLogKeepsNewest(log, LastNow(front));
      StaysExact(log, LastNow(front), now);
      if last.Put? {
        PutKeepsExact(RunBuffer(front), log, last.msg, now);
        LastPutIsNew(ops);
      } else {
        assert log + [] == log;
      }
    }
  }

  /** The assumptions about a run hold of the run without its last operation. */
  lemma LogPrefix(ops: seq<BufferOp>)
    requires ops != [] && ClockForward(ops)
    ensures var front := ops[..|ops| - 1];
            && ClockForward(front) && (front != [] ==> LastNow(front) <= LastNow(ops))
            && (DistinctIds(Log(ops)) ==> DistinctIds(Log(front)))
            && (NonDecreasingTs(Log(ops)) ==> NonDecreasingTs(Log(front)))
  {
    var log := Log(ops[..|ops| - 1]);
    assert log == Log(ops)[..|log|];
    forall i | 0 <= i < |log| ensures log[i] == Log(ops)[i] { }
  }

  lemma LastPutIsNew(ops: seq<BufferOp>)
    requires ops != [] && ops[|ops| - 1].Put? && DistinctIds(Log(ops))
    ensures !HasId(RunBuffer(ops[..|ops| - 1]), ops[|ops| - 1].msg.messageId)
  {
    var front, m := ops[..|ops| - 1], ops[|ops| - 1].msg;
    BufferIsDuplicateFreeSubsequence(front);
    var b, log := RunBuffer(front), Log(front);
    var at: seq<nat> :| Embeds(at, b, log);
    forall x | x in b ensures x.messageId != m.messageId {
      var i :| 0 <= i < |b| && b[i] == x;
      assert Log(ops)[at[i]] == x && Log(ops)[|log|] == m;
    }
  }

  lemma PutKeepsExact(b: seq<ChatMessage>, log: seq<ChatMessage>, m: ChatMessage, now: int)
    requires InWindow(b, now - REPLAY_WINDOW_NS) == Ideal(log, now)
    ensures Evicted(b + [m], now) == Ideal(log + [m], now)
  {
    var c := now - REPLAY_WINDOW_NS;
    InWindowSnoc(b, m, c);
    InWindowSnoc(log, m, c);
    LastNOfConcat(InWindow(log, c), if m.ts >= c then [m] else [], REPLAY_MAX);
  }

  /** After every prefix of the run, and under every later eviction, the buffer is what it is meant to be. */
  ghost predicate AlwaysExact(ops: seq<BufferOp>) {
    forall n, later :: 1 <= n <= |ops| && later >= LastNow(ops[..n]) ==>
      Evicted(RunBuffer(ops[..n]), later) == Ideal(Log(ops[..n]), later)
  }

  /** At no prefix of the run has the cap pushed out a message newer than one it kept. */
  ghost predicate CapAlwaysKeptNewest(ops: seq<BufferOp>) {
    forall n :: 1 <= n <= |ops| ==> CapKeptNewest(Log(ops[..n]), LastNow(ops[..n]))
  }

  /** A buffer that has just been trimmed, or has just taken a new message, is its own eviction. */
  lemma RunIsEvicted(ops: seq<BufferOp>)
    requires ops != [] && DistinctIds(Log(ops))
    ensures Evicted(RunBuffer(ops), LastNow(ops)) == RunBuffer(ops)
  {
    var front, last := ops[..|ops| - 1], ops[|ops| - 1];
    if last.Put? {
      LastPutIsNew(ops);
      EvictedIdempotent(RunBuffer(front) + [last.msg], last.now);
    } else {
      EvictedIdempotent(RunBuffer(front), last.now);
    }
    hide Evicted;
  }

  lemma LogIsPrefix(ops: seq<BufferOp>, n: nat)
    requires n <= |ops|
    ensures Log(ops[..n]) <= Log(ops)
    decreases |ops|
  {
    if n == |ops| {
      assert ops[..n] == ops;
    } else {
      LogIsPrefix(ops[..|ops| - 1], n);
      assert ops[..|ops| - 1][..n] == ops[..n];
    }
  }

  lemma PrefixKeepsIds(ops: seq<BufferOp>, n: nat)
    requires n <= |ops| && DistinctIds(Log(ops))
    ensures DistinctIds(Log(ops[..n]))
  {
    LogIsPrefix(ops, n);
    var a, b := Log(ops[..n]), Log(ops);
    assert forall i :: 0 <= i < |a| ==> a[i] == b[i];
  }

  /** One more operation keeps an exact buffer exact, if the cap has kept the newest so far. */
  lemma NextIsExact(ops: seq<BufferOp>)
    requires |ops| > 1 && ClockForward(ops) && DistinctIds(Log(ops))
    requires var front := ops[..|ops| - 1];
             RunBuffer(front) == Ideal(Log(front), LastNow(front)) && CapKeptNewest(Log(front), LastNow(front))
    ensures RunBuffer(ops) == Ideal(Log(ops), LastNow(ops))
  {
    hide CapKeptNewest;
    hide Ideal;
    hide DistinctIds;
    var front, last := ops[..|ops| - 1], ops[|ops| - 1];
    assert LastNow(front) <= last.now by { LogPrefix(ops); }
    StaysExact(Log(front), LastNow(front), last.now);
    if last.Put? {
      PutKeepsExact(RunBuffer(front), Log(front), last.msg, last.now);
      LastPutIsNew(ops);
    } else {
      assert Log(front) + [] == Log(front);
    }
  }

  lemma FirstIsExact(ops: seq<BufferOp>)
    requires |ops| == 1
    ensures RunBuffer(ops) == Ideal(Log(ops), LastNow(ops))
  {
    hide InWindow;
    hide LastN;
    var op, none: seq<ChatMessage> := ops[0], [];
    assert ops[..|ops| - 1] == [];
    assert RunBuffer(ops) == StepBuffer(none, op);
    if op.Put? {
      assert Log(ops) == none + [op.msg];
      assert !HasId(none, op.msg.messageId);
    } else {
      assert Log(ops) == none + [] == none;
    }
  }

  lemma {:induction false} ExactWhenCapKeepsNewest(ops: seq<BufferOp>, n: nat)
    requires ClockForward(ops) && DistinctIds(Log(ops)) && CapAlwaysKeptNewest(ops) && 1 <= n <= |ops|
    ensures RunBuffer(ops[..n]) == Ideal(Log(ops[..n]), LastNow(ops[..n]))
  {
    PrefixKeepsIds(ops, n);
    hide CapKeptNewest;
    hide Ideal;
    if n == 1 {
      FirstIsExact(ops[..n]);
    } else {
      ExactWhenCapKeepsNewest(ops, n - 1);
      assert ops[..n][..|ops[..n]| - 1] == ops[..n - 1];
      assert ClockForward(ops[..n]);
      NextIsExact(ops[..n]);
    }
  }

  /**
   * The exact condition for the documented buffer, over whole runs with a forward clock and distinct ids: it is
   * the last 200 messages of the window after every operation and at every later eviction, if and only if the
   * cap has at no point pushed out a message newer than one it kept.
   */
  lemma RunStaysExactIff(ops: seq<BufferOp>)
    requires ClockForward(ops) && DistinctIds(Log(ops))
    ensures AlwaysExact(ops) <==> CapAlwaysKeptNewest(ops)
  {
    hide CapKeptNewest;
    hide Ideal;
    hide Evicted;
    hide DistinctIds;
    if CapAlwaysKeptNewest(ops) {
      forall n, later | 1 <= n <= |ops| && later >= LastNow(ops[..n])
        ensures Evicted(RunBuffer(ops[..n]), later) == Ideal(Log(ops[..n]), later)
      {
        ExactWhenCapKeepsNewest(ops, n);
        StaysExactIff(Log(ops[..n]), LastNow(ops[..n]));
      }
    }
    if AlwaysExact(ops) {
      forall n | 1 <= n <= |ops| ensures CapKeptNewest(Log(ops[..n]), LastNow(ops[..n])) {
        var now := LastNow(ops[..n]);
        PrefixKeepsIds(ops, n);
        RunIsEvicted(ops[..n]);
        assert RunBuffer(ops[..n]) == Ideal(Log(ops[..n]), now);
        StaysExactIff(Log(ops[..n]), now);
      }
    }
  }

  /**
   * Without the assumption on timestamps the buffer may hold too little, never the wrong messages:
   * it is always a suffix of what it is meant to hold.
   */
  lemma {:induction false} BufferIsSuffixOfIdeal(ops: seq<BufferOp>)
    requires ops != [] && ClockForward(ops) && DistinctIds(Log(ops))
    ensures Suffix(RunBuffer(ops), Ideal(Log(ops), LastNow(ops)))
  {
    hide InWindow;
    hide LastN;
    hide Suffix;
    hide DistinctIds;
    hide ClockForward;
    var front, last := ops[..|ops| - 1], ops[|ops| - 1];
    var b, log := RunBuffer(front), Log(front);
    LogPrefix(ops);
    if front == [] {
      NothingIsSuffix(last.now);
    } else {
      BufferIsSuffixOfIdeal(front);
      SuffixOfIdeal(b, log, LastNow(front), last.now);
    }
    if last.Put? {
      LastPutIsNew(ops);
      SuffixAfterPut(b, log, last.msg, last.now);
    } else {
      SuffixAfterTrim(b, log, last.now);
      assert log + [] == log;
    }
  }

  lemma NothingIsSuffix(now: int)
    ensures Suffix(InWindow([], now - REPLAY_WINDOW_NS), InWindow([], now - REPLAY_WINDOW_NS))
  {
  }

  lemma SuffixAfterTrim(b: seq<ChatMessage>, log: seq<ChatMessage>, now: int)
    requires Suffix(InWindow(b, now - REPLAY_WINDOW_NS), InWindow(log, now - REPLAY_WINDOW_NS))
    ensures Suffix(Evicted(b, now), Ideal(log, now))
  {
    SuffixLastN(InWindow(b, now - REPLAY_WINDOW_NS), InWindow(log, now - REPLAY_WINDOW_NS), REPLAY_MAX);
  }

  lemma SuffixOfIdeal(b: seq<ChatMessage>, log: seq<ChatMessage>, now: int, later: int)
    requires now <= later && Suffix(b, Ideal(log, now))
    ensures Suffix(InWindow(b, later - REPLAY_WINDOW_NS), InWindow(log, later - REPLAY_WINDOW_NS))
  {
    var all := InWindow(log, now - REPLAY_WINDOW_NS);
    InWindowTwice(log, now - REPLAY_WINDOW_NS, later - REPLAY_WINDOW_NS);
    assert Suffix(b, all);
    SuffixInWindow(b, all, later - REPLAY_WINDOW_NS);
  }

  lemma SuffixLastN<T(!new)>(a: seq<T>, b: seq<T>, n: nat)
    requires Suffix(a, b)
    ensures Suffix(LastN(a, n), LastN(b, n))
  {
  }

  lemma SuffixSnoc<T(!new)>(a: seq<T>, b: seq<T>, x: T)
    requires Suffix(a, b)
    ensures Suffix(a + [x], b + [x])
  {
  }

  lemma SuffixAfterPut(b: seq<ChatMessage>, log: seq<ChatMessage>, m: ChatMessage, now: int)
    requires Suffix(InWindow(b, now - REPLAY_WINDOW_NS), InWindow(log, now - REPLAY_WINDOW_NS))
    ensures Suffix(Evicted(b + [m], now), Ideal(log + [m], now))
  {
    var c := now - REPLAY_WINDOW_NS;
    InWindowSnoc(b, m, c);
    InWindowSnoc(log, m, c);
    SuffixSnoc(InWindow(b, c), InWindow(log, c), m);
    SuffixLastN(InWindow(b + [m], c), InWindow(log + [m], c), REPLAY_MAX);
  }

  lemma SuffixInWindow(a: seq<ChatMessage>, b: seq<ChatMessage>, cutoff: int)
    requires Suffix(a, b)
    ensures Suffix(InWindow(a, cutoff), InWindow(b, cutoff))
  {
    var head := b[..|b| - |a|];
    assert b == head + a;
    InWindowConcat(head, a, cutoff);
  }

  /** One message, then stale ones, all put at time 0. */
  function StaleOps(newer: ChatMessage, stale: seq<ChatMessage>): (ops: seq<BufferOp>)
    ensures |ops| == 1 + |stale|
    ensures ops[0] == Put(newer, 0) && forall i :: 0 <= i < |stale| ==> ops[1 + i] == Put(stale[i], 0)
  {
    [Put(newer, 0)] + seq(|stale|, i requires 0 <= i < |stale| => Put(stale[i], 0))
  }

  /** The input that makes it hold too little: one message, then 200 stale ones that push it out. */
  lemma StaleTimestampsLoseAMessage(newer: ChatMessage, stale: seq<ChatMessage>, later: int)
    requires |stale| == REPLAY_MAX && DistinctIds([newer] + stale)
    requires newer.ts == 1 && forall i :: 0 <= i < |stale| ==> stale[i].ts == 0
    requires later == 1 + REPLAY_WINDOW_NS
    ensures var ops := StaleOps(newer, stale) + [Trim(later)];
            RunBuffer(ops) == [] && Ideal(Log(ops), later) == [newer]
  {
    hide StaleOps;
    var ops, all := StaleOps(newer, stale), [newer] + stale;
    StaleRun(newer, stale, |ops|);
    assert ops[..|ops|] == ops && all[..|ops|] == all;
    assert (ops + [Trim(later)])[..|ops|] == ops;
    StaleWindows(newer, stale);
    assert later - REPLAY_WINDOW_NS == 1 && RunBuffer(ops) == stale;
    hide InWindow;
    hide LastN;
    assert RunBuffer(ops + [Trim(later)]) == Evicted(stale, later);
    assert Log(ops + [Trim(later)]) == Log(ops) + [] == all;
  }

  lemma StaleWindows(newer: ChatMessage, stale: seq<ChatMessage>)
    requires |stale| == REPLAY_MAX && newer.ts == 1 && forall i :: 0 <= i < |stale| ==> stale[i].ts == 0
    ensures LastN([newer] + stale, REPLAY_MAX) == stale && LastN<ChatMessage>([newer], REPLAY_MAX) == [newer]
    ensures InWindow(stale, 1) == [] && InWindow([newer] + stale, 1) == [newer]
    ensures LastN<ChatMessage>([], REPLAY_MAX) == []
  {
    InWindowNone(stale, 1);
    InWindowAll([newer], 1);
    InWindowConcat([newer], stale, 1);
  }

  lemma EmptyLast()
    ensures LastN<ChatMessage>([], REPLAY_MAX) == []
  {
  }

  /** Putting a message with a new id at time 0, when nothing is older than the window. */
  lemma StalePut(b: seq<ChatMessage>, m: ChatMessage)
    requires DistinctIds(b + [m]) && |b| <= REPLAY_MAX && forall x :: x in b + [m] ==> x.ts >= 0
    ensures Appended(LastN(b, REPLAY_MAX), m, 0) == LastN(b + [m], REPLAY_MAX)
  {
    InWindowAll(b + [m], 0 - REPLAY_WINDOW_NS);
    assert LastN(b, REPLAY_MAX) == b;
    assert (b + [m])[|b|] == m;
    forall x | x in b ensures x.messageId != m.messageId {
      var i :| 0 <= i < |b| && b[i] == x;
      assert (b + [m])[i] == x;
    }
  }

  lemma {:induction false} StaleRun(newer: ChatMessage, stale: seq<ChatMessage>, n: nat)
    requires n <= 1 + |stale| && |stale| == REPLAY_MAX && DistinctIds([newer] + stale)
    requires newer.ts == 1 && forall i :: 0 <= i < |stale| ==> stale[i].ts == 0
    ensures Log(StaleOps(newer, stale)[..n]) == ([newer] + stale)[..n]
    ensures RunBuffer(StaleOps(newer, stale)[..n]) == LastN(([newer] + stale)[..n], REPLAY_MAX)
  {
    hide LastN;
    hide Appended;
    hide StaleOps;
    var all, ops := [newer] + stale, StaleOps(newer, stale);
    if n == 0 {
      EmptyLast();
      assert all[..0] == [] && ops[..0] == [];
    } else {
      var b, m := all[..n - 1], all[n - 1];
      StaleRun(newer, stale, n - 1);
      assert ops[..n][..n - 1] == ops[..n - 1] && ops[..n][n - 1] == Put(m, 0);
      assert all[..n] == b + [m];
      StalePut(b, m);
    }
  }

  // ---------------------------------------------------------------- sorting for replay

  function InsertByTs(sorted: seq<ChatMessage>, m: ChatMessage): seq<ChatMessage> {
    if sorted == [] then [m]
    else if sorted[|sorted| - 1].ts <= m.ts then sorted + [m]
    else InsertByTs(sorted[..|sorted| - 1], m) + [sorted[|sorted| - 1]]
  }

  /** Python's stable `sorted(buffer, key=ts)`. */
  function SortByTs(ms: seq<ChatMessage>): seq<ChatMessage> {
    if ms == [] then [] else InsertByTs(SortByTs(ms[..|ms| - 1]), ms[|ms| - 1])
  }

  function WithTs(ms: seq<ChatMessage>, ts: int): seq<ChatMessage> {
    if ms == [] then []
    else WithTs(ms[..|ms| - 1], ts) + (if ms[|ms| - 1].ts == ts then [ms[|ms| - 1]] else [])
  }

  lemma WithTsSnoc(ms: seq<ChatMessage>, m: ChatMessage, ts: int)
    ensures WithTs(ms + [m], ts) == WithTs(ms, ts) + (if m.ts == ts then [m] else [])
  {
    assert (ms + [m])[..|ms|] == ms;
  }

  lemma {:induction false} InsertByTsSorted(sorted: seq<ChatMessage>, m: ChatMessage)
    requires NonDecreasingTs(sorted)
    ensures NonDecreasingTs(InsertByTs(sorted, m))
  {
    if sorted != [] && sorted[|sorted| - 1].ts > m.ts {
      var front, last := sorted[..|sorted| - 1], sorted[|sorted| - 1];
      InsertByTsSorted(front, m);
      InsertByTsBelow(front, m, last.ts);
    }
  }

  lemma {:induction false} InsertByTsKeeps(sorted: seq<ChatMessage>, m: ChatMessage)
    ensures multiset(InsertByTs(sorted, m)) == multiset(sorted) + multiset{m}
  {
    if sorted != [] && sorted[|sorted| - 1].ts > m.ts {
      InsertByTsKeeps(sorted[..|sorted| - 1], m);
      assert sorted == sorted[..|sorted| - 1] + [sorted[|sorted| - 1]];
    }
  }

  lemma {:induction false} InsertByTsStable(sorted: seq<ChatMessage>, m: ChatMessage, ts: int)
    ensures WithTs(InsertByTs(sorted, m), ts) == WithTs(sorted, ts) + (if m.ts == ts then [m] else [])
  {
    if sorted == [] || sorted[|sorted| - 1].ts <= m.ts {
      WithTsSnoc(sorted, m, ts);
      if sorted == [] { assert [] + [m] == [m]; }
    } else {
      var front, last := sorted[..|sorted| - 1], sorted[|sorted| - 1];
      InsertByTsStable(front, m, ts);
      WithTsSnoc(InsertByTs(front, m), last, ts);
    }
  }

  lemma {:induction false} InsertByTsBelow(sorted: seq<ChatMessage>, m: ChatMessage, bound: int)
    requires m.ts <= bound && forall i :: 0 <= i < |sorted| ==> sorted[i].ts <= bound
    ensures forall i :: 0 <= i < |InsertByTs(sorted, m)| ==> InsertByTs(sorted, m)[i].ts <= bound
  {
    if sorted != [] { InsertByTsBelow(sorted[..|sorted| - 1], m, bound); }
  }

  /** The replay order is sorted by timestamp, keeps every message, and keeps arrival order among equals. */
  lemma {:induction false} SortByTsIsStableSort(ms: seq<ChatMessage>, ts: int)
    ensures NonDecreasingTs(SortByTs(ms))
    ensures multiset(SortByTs(ms)) == multiset(ms)
    ensures WithTs(SortByTs(ms), ts) == WithTs(ms, ts)
  {
    if ms != [] {
      var front, last := ms[..|ms| - 1], ms[|ms| - 1];
      assert ms == front + [last];
      SortByTsIsStableSort(front, ts);
      InsertByTsSorted(SortByTs(front), last);
      InsertByTsKeeps(SortByTs(front), last);
      InsertByTsStable(SortByTs(front), last, ts);
    }
  }

  /** A buffer whose timestamps already ascend is replayed as it is. */
  lemma {:induction false} SortOfSorted(ms: seq<ChatMessage>)
    requires NonDecreasingTs(ms)
    ensures SortByTs(ms) == ms
  {
    if ms != [] {
      var front := ms[..|ms| - 1];
      SortOfSorted(front);
      assert ms == front + [ms[|ms| - 1]];
    }
  }
}
