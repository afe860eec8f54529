/** Chaining contour segments into closed polylines, and the polygon extraction as a whole. */
module Chains {
  import opened Common
  import opened Contours

  /** A walk along segments: step k leads from point k to the next point, the last one to `end`. */
  datatype Trail = Trail(points: seq<Point>, steps: seq<nat>, end: Point)

  predicate Incident(s: Segment, p: Point) { s.a == p || s.b == p }

  predicate Joins(s: Segment, p: Point, q: Point) { (s.a == p && s.b == q) || (s.b == p && s.a == q) }

  function NextPoint(t: Trail, k: nat): Point
    requires k < |t.points|
  {
    if k + 1 < |t.points| then t.points[k + 1] else t.end
  }

  ghost predicate IsTrail(segs: seq<Segment>, t: Trail) {
    && |t.points| == |t.steps|
    && forall k :: 0 <= k < |t.steps| ==> t.steps[k] < |segs| && Joins(segs[t.steps[k]], t.points[k], NextPoint(t, k))
  }

  lemma TrailSnoc(segs: seq<Segment>, t: Trail, i: nat, next: Point)
    requires IsTrail(segs, t) && i < |segs| && Joins(segs[i], t.end, next)
    ensures IsTrail(segs, Trail(t.points + [t.end], t.steps + [i], next))
  {
    var r := Trail(t.points + [t.end], t.steps + [i], next);
    forall k | 0 <= k < |r.steps| ensures Joins(segs[r.steps[k]], r.points[k], NextPoint(r, k)) {
      if k < |t.steps| { assert NextPoint(r, k) == NextPoint(t, k); }
    }
  }

  // ---------------------------------------------------------------- vertex keys

  /** A lattice coordinate as a fraction of the mask's size, in 4096ths, rounded down. */
  function Scaled(x: int, w: nat): int
    requires w > 0
  {
    x * 2048 / w
  }

  /** The quantized key of a lattice point (coordinates taken as exact fractions). */
  function Key(w: nat, h: nat, p: Point): int
    requires w > 0 && h > 0
  {
    Scaled(p.y, h) * 0x10_0000 + Scaled(p.x, w) % 0x10_0000
  }

  lemma MultiplesIncrease(i: int, j: int, stride: int)
    requires i < j && stride > 0
    ensures i * stride < j * stride
  {
    assert (j - i) * stride > 0;
  }

  lemma MultiplesGrow(i: int, j: int, w: int)
    requires i <= j && w > 0
    ensures i * w <= j * w
  {
    if i < j { MultiplesIncrease(i, j, w); }
  }

  lemma DivBounds(a: int, w: int)
    requires w > 0
    ensures (a / w) * w <= a < (a / w + 1) * w
  {
    assert a == (a / w) * w + a % w;
  }

  lemma DivGap(a: int, b: int, w: int)
    requires 0 <= a && 0 < w && a + w <= b
    ensures 0 <= a / w < b / w
  {
    var i, j := a / w, b / w;
    DivBounds(a, w);
    DivBounds(b, w);
    assert (i + 1) * w == i * w + w;
    if j < i + 1 { MultiplesGrow(j + 1, i + 1, w); }
    if i < 0 { MultiplesGrow(i + 1, 0, w); }
  }

  /** Rounding keeps coordinates apart: neighbours up to 2048 pixels, next neighbours up to 4096. */
  lemma ScaledIncreases(x: int, y: int, w: nat)
    requires 0 < w && 0 <= x < y
    requires w <= 2048 || (w <= 4096 && x + 2 <= y)
    ensures 0 <= Scaled(x, w) < Scaled(y, w)
  {
    DivGap(x * 2048, y * 2048, w);
  }

  lemma ScaledRange(x: int, w: nat)
    requires 0 < w && 0 <= x <= 2 * w
    ensures 0 <= Scaled(x, w) <= 4096
  {
    if x * 2048 / w > 4096 { MultiplesIncrease(4096, x * 2048 / w, w); }
  }

  lemma ScaledVanishes(x: int, w: nat)
    requires 0 <= x * 2048 < w
    ensures Scaled(x, w) == 0
  {
    SmallQuotient(x * 2048, w);
  }

  lemma SmallQuotient(a: int, w: nat)
    requires 0 <= a < w
    ensures a / w == 0
  {
    AtLeastOnce(a / w, w);
  }

  lemma AtLeastOnce(q: int, w: int)
    requires w > 0
    ensures q >= 1 ==> q * w >= w
    ensures q <= -1 ==> q * w <= -w
  {
  }

  ghost predicate OnEdge(w: nat, h: nat, p: Point) {
    OnHorizontal(w, h, p) || OnVertical(w, h, p)
  }

  /** Comparing keys is comparing points. */
  ghost predicate KeysIdentify(w: nat, h: nat)
    requires w > 0 && h > 0
  {
    forall p, q :: OnEdge(w, h, p) && OnEdge(w, h, q) && Key(w, h, p) == Key(w, h, q) ==> p == q
  }

  lemma KeyDetermines(w: nat, h: nat, p: Point, q: Point)
    requires 0 < w && 0 < h && OnEdge(w, h, p) && OnEdge(w, h, q) && Key(w, h, p) == Key(w, h, q)
    requires (w <= 4096 && h <= 2048) || (w <= 2048 && h <= 4096)
    ensures p == q
  {
    hide Scaled;
    ScaledRange(p.x, w);
    ScaledRange(q.x, w);
    assert Scaled(p.x, w) == Scaled(q.x, w) && Scaled(p.y, h) == Scaled(q.y, h);
    if h <= 2048 {
      if p.y < q.y { ScaledIncreases(p.y, q.y, h); }
      if q.y < p.y { ScaledIncreases(q.y, p.y, h); }
      assert p.y == q.y;
      if p.x < q.x { ScaledIncreases(p.x, q.x, w); }
      if q.x < p.x { ScaledIncreases(q.x, p.x, w); }
    } else {
      if p.x < q.x { ScaledIncreases(p.x, q.x, w); }
      if q.x < p.x { ScaledIncreases(q.x, p.x, w); }
      assert p.x == q.x;
      if p.y < q.y { ScaledIncreases(p.y, q.y, h); }
      if q.y < p.y { ScaledIncreases(q.y, p.y, h); }
    }
  }

  /**
   * The quantized vertex keys tell the edge midpoints of a mask apart if and only if one side has at
   * most 2048 pixels and the other at most 4096.
   */
  lemma KeysIdentifyIff(w: nat, h: nat)
    requires w > 0 && h > 0
    ensures KeysIdentify(w, h) <==> (w <= 4096 && h <= 2048) || (w <= 2048 && h <= 4096)
  {
    if (w <= 4096 && h <= 2048) || (w <= 2048 && h <= 4096) {
      forall p, q | OnEdge(w, h, p) && OnEdge(w, h, q) && Key(w, h, p) == Key(w, h, q) ensures p == q {
        KeyDetermines(w, h, p, q);
      }
    } else if w > 4096 {
      ScaledVanishes(0, w);
      ScaledVanishes(2, w);
      assert OnEdge(w, h, Left(0, 0)) && OnEdge(w, h, Left(0, 1));
      assert Key(w, h, Left(0, 0)) == Key(w, h, Left(0, 1));
    } else if h > 4096 {
      ScaledVanishes(0, h);
      ScaledVanishes(2, h);
      assert OnEdge(w, h, Top(0, 0)) && OnEdge(w, h, Top(1, 0));
      assert Key(w, h, Top(0, 0)) == Key(w, h, Top(1, 0));
    } else {
      ScaledVanishes(0, w);
      ScaledVanishes(1, w);
      ScaledVanishes(0, h);
      ScaledVanishes(1, h);
      assert OnEdge(w, h, Left(0, 0)) && OnEdge(w, h, Top(0, 0));
      assert Key(w, h, Left(0, 0)) == Key(w, h, Top(0, 0));
    }
  }

  // ---------------------------------------------------------------- degrees among visited segments

  function VisitedDegree(segs: seq<Segment>, visited: seq<bool>, p: Point): nat
    requires |visited| == |segs|
  {
    if segs == [] then 0
    else
      var n := |segs| - 1;
      VisitedDegree(segs[..n], visited[..n], p) + (if visited[n] then Ends(segs[n], p) else 0)
  }

  lemma {:induction false} VisitOne(segs: seq<Segment>, visited: seq<bool>, i: nat, p: Point)
    requires |visited| == |segs| && i < |segs| && !visited[i]
    ensures VisitedDegree(segs, visited[i := true], p) == VisitedDegree(segs, visited, p) + Ends(segs[i], p)
  {
    var n := |segs| - 1;
    if i == n {
      assert visited[i := true][..n] == visited[..n];
    } else {
      assert visited[i := true][..n] == visited[..n][i := true];
      VisitOne(segs[..n], visited[..n], i, p);
    }
  }

  lemma {:induction false} VisitedVersusDegree(segs: seq<Segment>, visited: seq<bool>, p: Point)
    requires |visited| == |segs|
    ensures VisitedDegree(segs, visited, p) <= Degree(segs, p)
    ensures (forall i :: 0 <= i < |segs| && Incident(segs[i], p) ==> visited[i])
            <==> VisitedDegree(segs, visited, p) == Degree(segs, p)
    ensures (exists i :: 0 <= i < |segs| && Incident(segs[i], p) && visited[i]) <==> VisitedDegree(segs, visited, p) > 0
  {
    if segs != [] {
      var n := |segs| - 1;
      var front, seen := segs[..n], visited[..n];
      VisitedVersusDegree(front, seen, p);
      assert forall i :: 0 <= i < n ==> front[i] == segs[i] && seen[i] == visited[i];
      if VisitedDegree(front, seen, p) > 0 {
        var i :| 0 <= i < n && Incident(front[i], p) && seen[i];
        assert Incident(segs[i], p) && visited[i];
      }
      if VisitedDegree(front, seen, p) < Degree(front, p) {
        var i :| 0 <= i < n && Incident(front[i], p) && !seen[i];
        assert Incident(segs[i], p) && !visited[i];
      }
    }
  }

  lemma {:induction false} NothingVisited(segs: seq<Segment>, visited: seq<bool>, p: Point)
    requires |visited| == |segs| && forall i :: 0 <= i < |visited| ==> !visited[i]
    ensures VisitedDegree(segs, visited, p) == 0
  {
    VisitedVersusDegree(segs, visited, p);
  }

  ghost predicate EvenDegrees(segs: seq<Segment>, visited: seq<bool>)
    requires |visited| == |segs|
  {
    forall p :: VisitedDegree(segs, visited, p) % 2 == 0
  }

  /** Halfway along a walk from `start`, exactly its two ends have odd degree, unless they coincide. */
  ghost predicate OddAtEnds(segs: seq<Segment>, visited: seq<bool>, start: Point, current: Point)
    requires |visited| == |segs|
  {
    forall p :: VisitedDegree(segs, visited, p) % 2 == if start != current && (p == start || p == current) then 1 else 0
  }

  lemma StepKeepsOddAtEnds(segs: seq<Segment>, visited: seq<bool>, start: Point, current: Point, i: nat, next: Point)
    requires |visited| == |segs| && i < |segs| && !visited[i]
    requires OddAtEnds(segs, visited, start, current) && Joins(segs[i], current, next)
    ensures OddAtEnds(segs, visited[i := true], start, next)
  {
    var after := visited[i := true];
    forall p
      ensures VisitedDegree(segs, after, p) % 2 == if start != next && (p == start || p == next) then 1 else 0
    {
      VisitOne(segs, visited, i, p);
      assert VisitedDegree(segs, visited, p) % 2 == if start != current && (p == start || p == current) then 1 else 0;
    }
  }

  /** Where all degrees are two, a walk that is stuck has come back to its start. */
  lemma StuckMeansClosed(segs: seq<Segment>, visited: seq<bool>, start: Point, current: Point)
    requires |visited| == |segs| && DegreesZeroOrTwo(segs) && OddAtEnds(segs, visited, start, current)
    requires forall i :: 0 <= i < |segs| && Incident(segs[i], current) ==> visited[i]
    ensures current == start && EvenDegrees(segs, visited)
  {
    VisitedVersusDegree(segs, visited, current);
    assert VisitedDegree(segs, visited, current) % 2 == if start != current then 1 else 0;
    assert Degree(segs, current) % 2 == 0;
  }

  /** No segment outside the trail touches a point of a segment in it. */
  ghost predicate Whole(segs: seq<Segment>, t: Trail) {
    forall i, j, p ::
      0 <= i < |segs| && 0 <= j < |segs| && i in t.steps && Incident(segs[i], p) && Incident(segs[j], p) ==>
        j in t.steps
  }

  lemma AllOrNone(segs: seq<Segment>, visited: seq<bool>, i: nat, j: nat, p: Point)
    requires |visited| == |segs| && DegreesZeroOrTwo(segs) && EvenDegrees(segs, visited)
    requires i < |segs| && j < |segs| && Incident(segs[i], p) && Incident(segs[j], p)
    ensures visited[i] == visited[j]
  {
    VisitedVersusDegree(segs, visited, p);
    assert VisitedDegree(segs, visited, p) % 2 == 0;
    assert Degree(segs, p) == 0 || Degree(segs, p) == 2;
  }

  lemma ClosedTrailIsWhole(segs: seq<Segment>, before: seq<bool>, after: seq<bool>, t: Trail)
    requires |before| == |after| == |segs| && DegreesZeroOrTwo(segs)
    requires EvenDegrees(segs, before) && EvenDegrees(segs, after)
    requires forall i :: 0 <= i < |segs| ==> (after[i] <==> before[i] || i in t.steps) && !(before[i] && i in t.steps)
    ensures Whole(segs, t)
  {
    forall i, j, p | 0 <= i < |segs| && 0 <= j < |segs| && i in t.steps && Incident(segs[i], p) && Incident(segs[j], p)
      ensures j in t.steps
    {
      AllOrNone(segs, before, i, j, p);
      AllOrNone(segs, after, i, j, p);
    }
  }

  // ---------------------------------------------------------------- the walk

  /** Some end of the segment has the key. */
  predicate KeyAt(w: nat, h: nat, s: Segment, key: int)
    requires w > 0 && h > 0
  {
    Key(w, h, s.a) == key || Key(w, h, s.b) == key
  }

  /** Among the ends of the segments, equal keys mean equal points. */
  ghost predicate KeysExact(w: nat, h: nat, segs: seq<Segment>)
    requires w > 0 && h > 0
  {
    forall i, j, p, q ::
      (0 <= i < |segs| && 0 <= j < |segs| && Incident(segs[i], p) && Incident(segs[j], q)
       && Key(w, h, p) == Key(w, h, q)) ==> p == q
  }

  lemma KeyAtEnd(w: nat, h: nat, segs: seq<Segment>, i: nat, j: nat, p: Point)
    requires w > 0 && h > 0 && KeysExact(w, h, segs) && i < |segs| && j < |segs| && Incident(segs[j], p)
    ensures KeyAt(w, h, segs[i], Key(w, h, p)) <==> Incident(segs[i], p)
    ensures Key(w, h, segs[i].a) == Key(w, h, p) <==> segs[i].a == p
  {
    hide Key;
    assert Incident(segs[i], segs[i].a) && Incident(segs[i], segs[i].b);
  }

  /** `adjacency` lists, for each key, exactly the segments that end there. */
  ghost predicate ListsIncidence(adjacency: map<int, seq<nat>>, w: nat, h: nat, segs: seq<Segment>, n: nat)
    requires w > 0 && h > 0 && n <= |segs|
  {
    forall key: int, i: nat :: ListedAt(adjacency, key, i) <==> i < n && KeyAt(w, h, segs[i], key)
  }

  ghost predicate ListedAt(adjacency: map<int, seq<nat>>, key: int, i: nat) {
    key in adjacency && i in adjacency[key]
  }

  function AddTo(adjacency: map<int, seq<nat>>, key: int, i: nat): map<int, seq<nat>> {
    adjacency[key := (if key in adjacency then adjacency[key] else []) + [i]]
  }

  /** Every list is in ascending order. */
  ghost predicate Ascends(adjacency: map<int, seq<nat>>) {
    forall key :: key in adjacency ==> InOrder(adjacency[key])
  }

  ghost predicate InOrder(list: seq<nat>) {
    forall a, b :: 0 <= a < b < |list| ==> list[a] <= list[b]
  }

  lemma AddToAscends(adjacency: map<int, seq<nat>>, key: int, i: nat)
    requires Ascends(adjacency) && forall j: nat :: ListedAt(adjacency, key, j) ==> j <= i
    ensures Ascends(AddTo(adjacency, key, i))
  {
    if key in adjacency {
      assert InOrder(adjacency[key]);
      assert forall a :: 0 <= a < |adjacency[key]| ==> ListedAt(adjacency, key, adjacency[key][a]);
    }
  }

  lemma AddToLists(adjacency: map<int, seq<nat>>, key: int, i: nat, at: int, j: nat)
    ensures ListedAt(AddTo(adjacency, key, i), at, j) <==> ListedAt(adjacency, at, j) || (key == at && i == j)
  {
  }

  method BuildAdjacency(w: nat, h: nat, segs: seq<Segment>) returns (adjacency: map<int, seq<nat>>)
    requires w > 0 && h > 0
    ensures ListsIncidence(adjacency, w, h, segs, |segs|) && Ascends(adjacency)
  {
    hide Key;
    hide InOrder;
    adjacency := map[];
    assert forall key: int, i: nat :: !ListedAt(adjacency, key, i);
    for i := 0 to |segs|
      invariant ListsIncidence(adjacency, w, h, segs, i) && Ascends(adjacency)
    {
      var ka, kb := Key(w, h, segs[i].a), Key(w, h, segs[i].b);
      AddToAscends(adjacency, ka, i);
      var one := AddTo(adjacency, ka, i);
      forall j: nat ensures ListedAt(one, kb, j) ==> j <= i { AddToLists(adjacency, ka, i, kb, j); }
      AddToAscends(one, kb, i);
      var two := AddTo(one, kb, i);
      forall key, j: nat ensures ListedAt(two, key, j) <==> j < i + 1 && KeyAt(w, h, segs[j], key) {
        AddToLists(adjacency, ka, i, key, j);
        AddToLists(one, kb, i, key, j);
        assert ListedAt(adjacency, key, j) <==> j < i && KeyAt(w, h, segs[j], key);
      }
      adjacency := two;
    }
  }

  method FirstUnvisited(neighbours: seq<nat>, visited: array<bool>) returns (found: Option<nat>)
    requires forall k :: 0 <= k < |neighbours| ==> neighbours[k] < visited.Length
    ensures found.Some? ==> found.value in neighbours && found.value < visited.Length && !visited[found.value]
    ensures found.None? ==> forall i :: i in neighbours ==> visited[i]
    ensures found.Some? ==>
              exists k :: 0 <= k < |neighbours| && neighbours[k] == found.value && forall j :: 0 <= j < k ==>
                visited[neighbours[j]]
  {
    for k := 0 to |neighbours|
      invariant forall j :: 0 <= j < k ==> visited[neighbours[j]]
    {
      if !visited[neighbours[k]] {
        return Some(neighbours[k]);
      }
    }
    return None;
  }

  /** What a walk has marked: exactly the segments it stepped along, none of them marked before. */
  ghost predicate Marked(before: seq<bool>, after: seq<bool>, steps: seq<nat>) {
    && |before| == |after| && NoDuplicates(steps)
    && (forall k :: 0 <= k < |steps| ==> steps[k] < |before| && !before[steps[k]])
    && (forall i :: 0 <= i < |before| ==> (after[i] <==> before[i] || i in steps))
  }

  lemma MarkedSnoc(before: seq<bool>, after: seq<bool>, steps: seq<nat>, i: nat)
    requires Marked(before, after, steps) && i < |after| && !after[i]
    ensures Marked(before, after[i := true], steps + [i])
  {
    assert i !in steps;
    forall j | 0 <= j < |before| ensures after[i := true][j] <==> before[j] || j in steps + [i] { }
  }

  /** The segment leads from a vertex with the key of `p` to `q`. */
  predicate Leads(w: nat, h: nat, s: Segment, p: Point, q: Point)
    requires w > 0 && h > 0
  {
    if Key(w, h, s.a) == Key(w, h, p) then s.b == q else Key(w, h, s.b) == Key(w, h, p) && s.a == q
  }

  /** From its second step on, the walk goes along the first free segment with the key of the point it has come to. */
  ghost predicate TakesFirst(w: nat, h: nat, segs: seq<Segment>, before: seq<bool>, t: Trail)
    requires w > 0 && h > 0 && |before| == |segs|
  {
    && |t.points| == |t.steps|
    && forall k :: 0 < k < |t.steps| ==> TakesFirstAt(w, h, segs, before, t, k)
  }

  ghost predicate TakesFirstAt(w: nat, h: nat, segs: seq<Segment>, before: seq<bool>, t: Trail, k: nat)
    requires w > 0 && h > 0 && |before| == |segs| && |t.points| == |t.steps| && k < |t.steps|
  {
    t.steps[k] < |segs| && forall i :: 0 <= i < t.steps[k] && KeyAt(w, h, segs[i], Key(w, h, t.points[k])) ==>
      before[i] || i in t.steps[..k]
  }

  lemma TakesFirstSnoc(
      w: nat, h: nat, segs: seq<Segment>, before: seq<bool>, now: seq<bool>, t: Trail, i: nat, next: Point)
    requires w > 0 && h > 0 && |before| == |now| == |segs| && TakesFirst(w, h, segs, before, t)
    requires Marked(before, now, t.steps) && i < |segs|
    requires t.steps != [] ==> forall j :: 0 <= j < i && KeyAt(w, h, segs[j], Key(w, h, t.end)) ==> now[j]
    ensures TakesFirst(w, h, segs, before, Trail(t.points + [t.end], t.steps + [i], next))
  {
    hide Key;
    hide KeyAt;
    var r := Trail(t.points + [t.end], t.steps + [i], next);
    forall k | 0 < k < |r.steps| ensures TakesFirstAt(w, h, segs, before, r, k) {
      if k < |t.steps| {
        assert TakesFirstAt(w, h, segs, before, t, k) && r.steps[..k] == t.steps[..k];
      } else {
        assert r.steps[..k] == t.steps;
      }
    }
  }

  /** The walk goes from key to key along its segments; where keys are exact, from point to point. */
  ghost predicate Follows(w: nat, h: nat, segs: seq<Segment>, t: Trail)
    requires w > 0 && h > 0
  {
    && |t.points| == |t.steps|
    && (forall k :: 0 <= k < |t.steps| ==>
          t.steps[k] < |segs| && Leads(w, h, segs[t.steps[k]], t.points[k], NextPoint(t, k)))
    && (KeysExact(w, h, segs) ==> IsTrail(segs, t))
  }

  /** Halfway: the walk so far, what it has marked, and the parity of degrees where keys and degrees are good. */
  ghost predicate Walking(
      w: nat, h: nat, segs: seq<Segment>, before: seq<bool>, now: seq<bool>, start: Point, t: Trail)
    requires w > 0 && h > 0 && |before| == |now| == |segs|
  {
    && Follows(w, h, segs, t) && Marked(before, now, t.steps)
    && (KeysExact(w, h, segs) && DegreesZeroOrTwo(segs) && EvenDegrees(segs, before) ==>
        OddAtEnds(segs, now, start, t.end))
  }

  lemma WalkingSnoc(
      w: nat, h: nat, segs: seq<Segment>, before: seq<bool>, now: seq<bool>, start: Point, t: Trail, i: nat,
      next: Point)
    requires w > 0 && h > 0 && |before| == |now| == |segs| && Walking(w, h, segs, before, now, start, t)
    requires i < |segs| && !now[i] && KeyAt(w, h, segs[i], Key(w, h, t.end))
    requires KeysExact(w, h, segs) ==> Incident(segs[i], t.end)
    requires next == if Key(w, h, segs[i].a) == Key(w, h, t.end) then segs[i].b else segs[i].a
    ensures Walking(w, h, segs, before, now[i := true], start, Trail(t.points + [t.end], t.steps + [i], next))
  {
    hide DegreesZeroOrTwo;
    hide EvenDegrees;
    hide OddAtEnds;
    hide Marked;
    hide Follows;
    hide Key;
    hide KeyAt;
    hide KeysExact;
    MarkedSnoc(before, now, t.steps, i);
    FollowsSnoc(w, h, segs, t, i, next);
    if KeysExact(w, h, segs) && DegreesZeroOrTwo(segs) && EvenDegrees(segs, before) {
      KeyAtEnd(w, h, segs, i, i, t.end);
      StepKeepsOddAtEnds(segs, now, start, t.end, i, next);
    }
  }

  /**
   * One walk on keys: it terminates, marks fresh segments only, and stops only where no unmarked segment has
   * the key it stands at. Where keys are exact it is a walk on points: consecutive points are joined by its
   * segments, no unmarked segment is left at its end, and if all degrees are two it ends where it began.
   */
  method Walk(w: nat, h: nat, segs: seq<Segment>, adjacency: map<int, seq<nat>>, visited: array<bool>, startIdx: nat)
    returns (chain: seq<Point>, ghost t: Trail)
    requires w > 0 && h > 0 && visited.Length == |segs| && startIdx < |segs| && !visited[startIdx]
    requires ListsIncidence(adjacency, w, h, segs, |segs|) && Ascends(adjacency)
    modifies visited
    ensures chain == t.points && chain != [] && chain[0] == segs[startIdx].a
    ensures t.steps != [] && t.steps[0] == startIdx && TakesFirst(w, h, segs, old(visited[..]), t)
    ensures Follows(w, h, segs, t) && Marked(old(visited[..]), visited[..], t.steps)
    ensures forall i :: 0 <= i < |segs| && KeyAt(w, h, segs[i], Key(w, h, t.end)) ==> visited[i]
    ensures KeysExact(w, h, segs) ==> forall i :: 0 <= i < |segs| && Incident(segs[i], t.end) ==> visited[i]
    ensures KeysExact(w, h, segs) && DegreesZeroOrTwo(segs) && EvenDegrees(segs, old(visited[..])) ==>
              t.end == chain[0] && EvenDegrees(segs, visited[..]) && Whole(segs, t)
  {
    hide Whole;
    hide Walking;
    hide Key;
    hide KeyAt;
    hide KeysExact;
    hide TakesFirst;
    hide Marked;
    hide InOrder;
    ghost var before := visited[..];
    var current := segs[startIdx].a;
    var segIdx: nat := startIdx;
    var start := current;
    chain := [];
    t := Trail([], [], current);
    ghost var todo := set i | 0 <= i < |segs| && !visited[i];
    WalkBegins(w, h, segs, before, startIdx);
    ghost var last: nat := startIdx;
    while true
      invariant segIdx < |segs| && !visited[segIdx] && KeyAt(w, h, segs[segIdx], Key(w, h, current))
      invariant KeysExact(w, h, segs) ==> Incident(segs[segIdx], current)
      invariant chain == t.points && t.end == current
      invariant chain == [] ==> current == start && segIdx == startIdx
      invariant chain != [] ==> chain[0] == start && t.steps != [] && t.steps[0] == startIdx
      invariant t.steps != [] ==> FreeFrom(w, h, segs, visited[..], segIdx, current)
      invariant TakesFirst(w, h, segs, before, t) && (chain == [] <==> t.steps == [])
      invariant Walking(w, h, segs, before, visited[..], start, t)
      invariant todo == set i | 0 <= i < |segs| && !visited[i]
      decreases todo
    {
      ghost var was := visited[..];
      visited[segIdx] := true;
      assert visited[..] == was[segIdx := true];
      var seg := segs[segIdx];
      var next := if Key(w, h, seg.a) == Key(w, h, current) then seg.b else seg.a;
      WalkingSnoc(w, h, segs, before, was, start, t, segIdx, next);
      WalkingMarks(w, h, segs, before, was, start, t);
      TakesFirstSnoc(w, h, segs, before, was, t, segIdx, next);
      t := Trail(t.points + [current], t.steps + [segIdx], next);
      todo := todo - {segIdx};
      chain := chain + [current];
      current := next;
      last := segIdx;
      var key := Key(w, h, current);
      ListedAtEnd(adjacency, w, h, segs, last, current);
      if key !in adjacency {
        break;
      }
      ListedReads(adjacency, w, h, segs, key);
      var found := FirstUnvisited(adjacency[key], visited);
      if found.Some? {
        segIdx := found.value;
        FirstIsLowest(adjacency, w, h, segs, visited[..], current, segIdx);
        if KeysExact(w, h, segs) { KeyAtEnd(w, h, segs, segIdx, last, current); }
      } else {
        break;
      }
    }
    WalkEnds(w, h, segs, before, visited[..], start, t, last);
  }

  /** No segment before the `i`th with the key of `p` is free. */
  ghost predicate FreeFrom(w: nat, h: nat, segs: seq<Segment>, now: seq<bool>, i: nat, p: Point)
    requires w > 0 && h > 0 && |now| == |segs|
  {
    i < |segs| && forall j :: 0 <= j < i && KeyAt(w, h, segs[j], Key(w, h, p)) ==> now[j]
  }

  lemma WalkingMarks(
      w: nat, h: nat, segs: seq<Segment>, before: seq<bool>, now: seq<bool>, start: Point, t: Trail)
    requires w > 0 && h > 0 && |before| == |now| == |segs| && Walking(w, h, segs, before, now, start, t)
    ensures Marked(before, now, t.steps)
  {
  }

  /** The first free segment in an ascending list is the lowest free one that is listed. */
  lemma FirstIsLowest(
      adjacency: map<int, seq<nat>>, w: nat, h: nat, segs: seq<Segment>, now: seq<bool>, p: Point, i: nat)
    requires w > 0 && h > 0 && |now| == |segs| && i < |segs|
    requires ListsIncidence(adjacency, w, h, segs, |segs|) && Ascends(adjacency) && Key(w, h, p) in adjacency
    requires var list := adjacency[Key(w, h, p)];
             && (forall j :: 0 <= j < |list| ==> list[j] < |segs|)
             && exists k :: 0 <= k < |list| && list[k] == i && forall j :: 0 <= j < k ==> now[list[j]]
    ensures FreeFrom(w, h, segs, now, i, p)
  {
    hide Key;
    hide KeyAt;
    var list := adjacency[Key(w, h, p)];
    assert InOrder(list);
    var k :| 0 <= k < |list| && list[k] == i && forall j :: 0 <= j < k ==> now[list[j]];
    forall j | 0 <= j < i && KeyAt(w, h, segs[j], Key(w, h, p)) ensures now[j] {
      assert ListedAt(adjacency, Key(w, h, p), j);
      var a :| 0 <= a < |list| && list[a] == j;
      assert a < k;
    }
  }

  /** A walk that found no unmarked segment at the key where it stands has closed, where keys and degrees allow it. */
  lemma WalkEnds(
      w: nat, h: nat, segs: seq<Segment>, before: seq<bool>, after: seq<bool>, start: Point, t: Trail, last: nat)
    requires w > 0 && h > 0 && |before| == |after| == |segs| && Walking(w, h, segs, before, after, start, t)
    requires last < |segs| && Incident(segs[last], t.end)
    requires forall i :: 0 <= i < |segs| && KeyAt(w, h, segs[i], Key(w, h, t.end)) ==> after[i]
    ensures Follows(w, h, segs, t) && Marked(before, after, t.steps)
    ensures KeysExact(w, h, segs) ==> forall i :: 0 <= i < |segs| && Incident(segs[i], t.end) ==> after[i]
    ensures KeysExact(w, h, segs) && DegreesZeroOrTwo(segs) && EvenDegrees(segs, before) ==>
              t.end == start && EvenDegrees(segs, after) && Whole(segs, t)
  {
    hide DegreesZeroOrTwo;
    hide EvenDegrees;
    hide OddAtEnds;
    hide Whole;
    hide Marked;
    hide Follows;
    hide Key;
    hide KeyAt;
    hide KeysExact;
    if KeysExact(w, h, segs) {
      forall i | 0 <= i < |segs| && Incident(segs[i], t.end) ensures after[i] {
        KeyAtEnd(w, h, segs, i, last, t.end);
      }
      if DegreesZeroOrTwo(segs) && EvenDegrees(segs, before) {
        StuckMeansClosed(segs, after, start, t.end);
        MarkedSplits(before, after, t.steps);
        ClosedTrailIsWhole(segs, before, after, t);
      }
    }
  }

  lemma ListedReads(adjacency: map<int, seq<nat>>, w: nat, h: nat, segs: seq<Segment>, key: int)
    requires w > 0 && h > 0 && ListsIncidence(adjacency, w, h, segs, |segs|) && key in adjacency
    ensures forall i: nat :: i in adjacency[key] <==> i < |segs| && KeyAt(w, h, segs[i], key)
    ensures forall k :: 0 <= k < |adjacency[key]| ==>
        adjacency[key][k] < |segs| && KeyAt(w, h, segs[adjacency[key][k]], key)
  {
    hide KeyAt;
    forall i: nat ensures i in adjacency[key] <==> i < |segs| && KeyAt(w, h, segs[i], key) {
      assert ListedAt(adjacency, key, i) <==> i in adjacency[key];
    }
    forall k | 0 <= k < |adjacency[key]|
      ensures adjacency[key][k] < |segs| && KeyAt(w, h, segs[adjacency[key][k]], key)
    {
      assert adjacency[key][k] in adjacency[key];
    }
  }

  /** The segment just stepped along is listed at the key it leads to. */
  lemma ListedAtEnd(adjacency: map<int, seq<nat>>, w: nat, h: nat, segs: seq<Segment>, i: nat, p: Point)
    requires w > 0 && h > 0 && ListsIncidence(adjacency, w, h, segs, |segs|) && i < |segs| && Incident(segs[i], p)
    ensures ListedAt(adjacency, Key(w, h, p), i)
  {
    assert KeyAt(w, h, segs[i], Key(w, h, p));
  }

  lemma FollowsSnoc(w: nat, h: nat, segs: seq<Segment>, t: Trail, i: nat, next: Point)
    requires w > 0 && h > 0 && Follows(w, h, segs, t) && i < |segs| && KeyAt(w, h, segs[i], Key(w, h, t.end))
    requires KeysExact(w, h, segs) ==> Incident(segs[i], t.end)
    requires next == if Key(w, h, segs[i].a) == Key(w, h, t.end) then segs[i].b else segs[i].a
    ensures Follows(w, h, segs, Trail(t.points + [t.end], t.steps + [i], next))
  {
    hide Key;
    hide KeysExact;
    var r := Trail(t.points + [t.end], t.steps + [i], next);
    forall k | 0 <= k < |r.steps|
      ensures r.steps[k] < |segs| && Leads(w, h, segs[r.steps[k]], r.points[k], NextPoint(r, k))
    {
      if k < |t.steps| { assert NextPoint(r, k) == NextPoint(t, k); }
    }
    if KeysExact(w, h, segs) {
      KeyAtEnd(w, h, segs, i, i, t.end);
      TrailSnoc(segs, t, i, next);
    }
  }

  lemma WalkBegins(w: nat, h: nat, segs: seq<Segment>, visited: seq<bool>, i: nat)
    requires w > 0 && h > 0 && |visited| == |segs| && i < |segs|
    ensures KeyAt(w, h, segs[i], Key(w, h, segs[i].a))
    ensures Walking(w, h, segs, visited, visited, segs[i].a, Trail([], [], segs[i].a))
    ensures TakesFirst(w, h, segs, visited, Trail([], [], segs[i].a))
  {
  }

  lemma MarkedSplits(before: seq<bool>, after: seq<bool>, steps: seq<nat>)
    requires Marked(before, after, steps)
    ensures forall i :: 0 <= i < |before| ==> (after[i] <==> before[i] || i in steps) && !(before[i] && i in steps)
  {
  }

  // ---------------------------------------------------------------- all walks

  /** Segment `i` lies on some trail. */
  ghost predicate Covered(trails: seq<Trail>, i: nat) {
    exists k :: 0 <= k < |trails| && i in trails[k].steps
  }

  /** Walks that use no segment twice, in one walk or across walks. */
  ghost predicate SegmentDisjoint(w: nat, h: nat, segs: seq<Segment>, trails: seq<Trail>)
    requires w > 0 && h > 0
  {
    && (forall k :: 0 <= k < |trails| ==>
          Follows(w, h, segs, trails[k]) && trails[k].points != [] && NoDuplicates(trails[k].steps))
    && (forall k, l, i :: 0 <= k < l < |trails| && i in trails[k].steps ==> i !in trails[l].steps)
  }

  ghost predicate ClosedAndWhole(segs: seq<Segment>, t: Trail) {
    t.points != [] && t.end == t.points[0] && Whole(segs, t)
  }

  lemma CoveredSnoc(trails: seq<Trail>, t: Trail, i: nat)
    ensures Covered(trails + [t], i) <==> Covered(trails, i) || i in t.steps
  {
    var all := trails + [t];
    if Covered(trails, i) {
      var k :| 0 <= k < |trails| && i in trails[k].steps;
      assert i in all[k].steps;
    }
    if i in t.steps { assert i in all[|trails|].steps; }
  }

  lemma SegmentDisjointSnoc(w: nat, h: nat, segs: seq<Segment>, trails: seq<Trail>, t: Trail)
    requires w > 0 && h > 0 && SegmentDisjoint(w, h, segs, trails)
    requires Follows(w, h, segs, t) && t.points != [] && NoDuplicates(t.steps)
    requires forall i :: i in t.steps ==> !Covered(trails, i)
    ensures SegmentDisjoint(w, h, segs, trails + [t])
  {
    hide Follows;
    var all := trails + [t];
    forall k, l, i | 0 <= k < l < |all| && i in all[k].steps ensures i !in all[l].steps {
      if l == |trails| {
        assert Covered(trails, i);
      }
    }
  }

  /**
   * Every segment with the key of the end of walk `k`, so every segment at that end, lies on it or on an
   * earlier one: it could not have gone on.
   */
  ghost predicate StopsLate(w: nat, h: nat, segs: seq<Segment>, trails: seq<Trail>, k: nat)
    requires w > 0 && h > 0 && k < |trails|
  {
    forall i :: 0 <= i < |segs| && KeyAt(w, h, segs[i], Key(w, h, trails[k].end)) ==> Covered(trails[..k + 1], i)
  }

  /**
   * The walks use every segment exactly once and none stops early. Where keys are exact they are trails,
   * and where all degrees are two besides, each is a closed cycle that no other segment touches.
   */
  ghost predicate Decomposes(w: nat, h: nat, segs: seq<Segment>, trails: seq<Trail>)
    requires w > 0 && h > 0
  {
    && SegmentDisjoint(w, h, segs, trails)
    && (forall k :: 0 <= k < |trails| ==> StopsLate(w, h, segs, trails, k))
    && (forall i :: 0 <= i < |segs| ==> Covered(trails, i))
    && (forall k :: 0 <= k < |trails| ==> InTurn(w, h, segs, trails, k))
    && (KeysExact(w, h, segs) && DegreesZeroOrTwo(segs) ==>
          forall k :: 0 <= k < |trails| ==> ClosedAndWhole(segs, trails[k]))
  }

  /** Walk `k` is the first of the longest walks. */
  ghost predicate LongestAt(trails: seq<Trail>, k: nat, contour: seq<Point>) {
    && k < |trails| && contour == trails[k].points
    && (forall l :: 0 <= l < |trails| ==> |trails[l].points| <= |contour|)
    && (forall l :: 0 <= l < k ==> |trails[l].points| < |contour|)
  }

  lemma LongestSnoc(trails: seq<Trail>, k: nat, contour: seq<Point>, t: Trail)
    requires LongestAt(trails, k, contour)
    ensures if |t.points| > |contour| then LongestAt(trails + [t], |trails|, t.points)
            else LongestAt(trails + [t], k, contour)
  {
  }

  /**
   * Walk `k` begins at the start of the first segment that no earlier walk has used, and goes on along the first
   * segment with the key it has come to that neither an earlier walk nor it itself has used.
   */
  ghost predicate InTurn(w: nat, h: nat, segs: seq<Segment>, trails: seq<Trail>, k: nat)
    requires w > 0 && h > 0 && k < |trails|
  {
    var t, earlier := trails[k], trails[..k];
    && |t.points| == |t.steps| > 0 && t.steps[0] < |segs| && t.points[0] == segs[t.steps[0]].a
    && (forall i :: 0 <= i < t.steps[0] ==> Covered(earlier, i))
    && forall j :: 0 < j < |t.steps| ==> GoesOnAt(w, h, segs, earlier, t, j)
  }

  ghost predicate GoesOnAt(w: nat, h: nat, segs: seq<Segment>, earlier: seq<Trail>, t: Trail, j: nat)
    requires w > 0 && h > 0 && |t.points| == |t.steps| && j < |t.steps|
  {
    t.steps[j] < |segs| && forall i :: 0 <= i < t.steps[j] && KeyAt(w, h, segs[i], Key(w, h, t.points[j])) ==>
      Covered(earlier, i) || i in t.steps[..j]
  }

  lemma InTurnSnoc(w: nat, h: nat, segs: seq<Segment>, trails: seq<Trail>, before: seq<bool>, t: Trail)
    requires w > 0 && h > 0 && |before| == |segs|
    requires forall k :: 0 <= k < |trails| ==> InTurn(w, h, segs, trails, k)
    requires forall i :: 0 <= i < |segs| ==> (before[i] <==> Covered(trails, i))
    requires TakesFirst(w, h, segs, before, t) && t.steps != [] && t.steps[0] < |segs|
    requires t.points[0] == segs[t.steps[0]].a && forall i :: 0 <= i < t.steps[0] ==> before[i]
    ensures forall k :: 0 <= k < |trails + [t]| ==> InTurn(w, h, segs, trails + [t], k)
  {
    hide Key;
    hide KeyAt;
    hide Covered;
    var all := trails + [t];
    forall k | 0 <= k < |all| ensures InTurn(w, h, segs, all, k) {
      if k < |trails| {
        assert all[..k] == trails[..k] && InTurn(w, h, segs, trails, k);
      } else {
        assert all[..k] == trails;
        forall j | 0 < j < |t.steps| ensures GoesOnAt(w, h, segs, trails, t, j) {
          assert TakesFirstAt(w, h, segs, before, t, j);
        }
      }
    }
  }

  lemma StopsLateSnoc(w: nat, h: nat, segs: seq<Segment>, trails: seq<Trail>, t: Trail)
    requires w > 0 && h > 0 && forall k :: 0 <= k < |trails| ==> StopsLate(w, h, segs, trails, k)
    requires forall i :: 0 <= i < |segs| && KeyAt(w, h, segs[i], Key(w, h, t.end)) ==> Covered(trails + [t], i)
    ensures forall k :: 0 <= k < |trails + [t]| ==> StopsLate(w, h, segs, trails + [t], k)
  {
    hide Key;
    hide KeyAt;
    var all := trails + [t];
    forall k | 0 <= k < |all| ensures StopsLate(w, h, segs, all, k) {
      if k < |trails| {
        assert all[..k + 1] == trails[..k + 1] && StopsLate(w, h, segs, trails, k);
      } else {
        assert all[..k + 1] == all;
      }
    }
  }

  /** `contour` is a longest walk of a decomposition of the segments. */
  ghost predicate IsLargestContour(w: nat, h: nat, segs: seq<Segment>, contour: seq<Point>)
    requires w > 0 && h > 0
  {
    exists trails: seq<Trail>, k: nat :: Decomposes(w, h, segs, trails) && LongestAt(trails, k, contour)
  }

  /** The chaining as a whole. */
  method ChainLargestContour(w: nat, h: nat, segs: seq<Segment>) returns (best: seq<Point>)
    requires w > 0 && h > 0
    ensures if segs == [] then best == [] else best != [] && IsLargestContour(w, h, segs, best)
  {
    hide DegreesZeroOrTwo;
    hide EvenDegrees;
    hide Whole;
    hide Follows;
    hide Covered;
    hide SegmentDisjoint;
    hide StopsLate;
    hide Key;
    hide KeyAt;
    hide KeysExact;
    hide InTurn;
    hide TakesFirst;
    hide LongestAt;
    hide Ascends;
    var adjacency := BuildAdjacency(w, h, segs);
    var visited := new bool[|segs|](i => false);
    best := [];
    ghost var trails: seq<Trail> := [];
    ghost var cycles := KeysExact(w, h, segs) && DegreesZeroOrTwo(segs);
    AllBegins(w, h, segs, visited[..]);
    for startIdx := 0 to |segs|
      invariant SegmentDisjoint(w, h, segs, trails)
      invariant forall k :: 0 <= k < |trails| ==> StopsLate(w, h, segs, trails, k)
      invariant forall i :: 0 <= i < |segs| ==> (visited[i] <==> Covered(trails, i))
      invariant forall i :: 0 <= i < startIdx ==> visited[i]
      invariant forall k :: 0 <= k < |trails| ==> InTurn(w, h, segs, trails, k)
      invariant trails == [] <==> startIdx == 0
      invariant if trails == [] then best == [] else exists k: nat :: LongestAt(trails, k, best)
      invariant cycles ==> EvenDegrees(segs, visited[..])
      invariant cycles ==> forall k :: 0 <= k < |trails| ==> ClosedAndWhole(segs, trails[k])
    {
      if trails == [] { NothingCovered(startIdx); }
      if !visited[startIdx] {
        ghost var before := visited[..];
        var chain, t := Walk(w, h, segs, adjacency, visited, startIdx);
        MarkedSplits(before, visited[..], t.steps);
        forall i | i in t.steps ensures !Covered(trails, i) {
          assert i < |segs| && !before[i];
        }
        forall i | 0 <= i < |segs| ensures visited[i] <==> Covered(trails + [t], i) {
          CoveredSnoc(trails, t, i);
        }
        SegmentDisjointSnoc(w, h, segs, trails, t);
        ghost var was := trails;
        trails := trails + [t];
        StopsLateSnoc(w, h, segs, was, t);
        InTurnSnoc(w, h, segs, was, before, t);
        if was == [] {
          OnlyIsLongest(t);
          assert trails == [t];
        } else {
          ghost var k: nat :| LongestAt(was, k, best);
          LongestSnoc(was, k, best, t);
        }
        if |chain| > |best| {
          best := chain;
        }
      }
    }
    if segs != [] {
      ghost var k: nat :| LongestAt(trails, k, best);
      LongestReads(trails, k, best);
      TrailsNotEmpty(w, h, segs, trails, k);
      assert Decomposes(w, h, segs, trails) && LongestAt(trails, k, best);
    }
  }

  lemma OnlyIsLongest(t: Trail)
    ensures LongestAt([t], 0, t.points)
  {
  }

  lemma LongestReads(trails: seq<Trail>, k: nat, contour: seq<Point>)
    requires LongestAt(trails, k, contour)
    ensures k < |trails| && contour == trails[k].points
  {
  }

  lemma NothingCovered(i: nat)
    ensures !Covered([], i)
  {
  }

  lemma AllBegins(w: nat, h: nat, segs: seq<Segment>, visited: seq<bool>)
    requires w > 0 && h > 0 && |visited| == |segs| && forall i :: 0 <= i < |visited| ==> !visited[i]
    ensures SegmentDisjoint(w, h, segs, []) && EvenDegrees(segs, visited)
    ensures forall i :: !Covered([], i)
  {
    forall p ensures VisitedDegree(segs, visited, p) % 2 == 0 {
      NothingVisited(segs, visited, p);
    }
  }

  // ---------------------------------------------------------------- downsampling and the whole extraction

  /** Every `|contour| / maxVertices`-th point. */
  function Downsampled(contour: seq<Point>, maxVertices: int): (r: seq<Point>)
    requires contour != []
    ensures |r| <= if maxVertices > 0 then maxVertices else 0
    ensures Subsequence(r, contour)
    ensures maxVertices > 0 ==> r != [] && r[0] == contour[0]
    ensures maxVertices >= |contour| ==> r == contour
  {
    if maxVertices <= 0 then
      assert Embeds([], [], contour);
      []
    else if |contour| <= maxVertices then
      SubsequenceReflexive(contour);
      contour
    else
      var stride := |contour| / maxVertices;
      StrideInRange(|contour|, maxVertices, stride);
      var at: seq<nat> := seq(maxVertices, i requires 0 <= i < maxVertices => i * stride);
      var r := seq(maxVertices, i requires 0 <= i < maxVertices => contour[i * stride]);
      assert Embeds(at, r, contour);
      r
  }

  lemma StrideInRange(n: nat, m: nat, stride: nat)
    requires 0 < m < n && stride == n / m
    ensures stride > 0
    ensures forall i :: 0 <= i < m ==> 0 <= i * stride < n
    ensures forall i, j :: 0 <= i < j < m ==> i * stride < j * stride
  {
    assert stride > 0;
    forall i | 0 <= i < m ensures 0 <= i * stride < n {
      MultiplesIncrease(i, m, stride);
      assert m * stride <= n;
      if i > 0 { MultiplesIncrease(0, i, stride); }
    }
    forall i, j | 0 <= i < j < m ensures i * stride < j * stride {
      MultiplesIncrease(i, j, stride);
    }
  }

  /** A contour that does not fit is cut to exactly `maxVertices` points, at multiples of the stride. */
  lemma SampleAt(contour: seq<Point>, maxVertices: nat, k: nat)
    requires k < maxVertices < |contour|
    ensures var r, at := Downsampled(contour, maxVertices), k * (|contour| / maxVertices);
            |r| == maxVertices && 0 <= at < |contour| && r[k] == contour[at]
  {
    StrideInRange(|contour|, maxVertices, |contour| / maxVertices);
  }

  lemma TailLength(n: nat, m: nat, q: int, rest: nat)
    requires n == q * m + rest && rest < m < n
    ensures n - 1 - (m - 1) * q == q - 1 + rest
    ensures m > 1 ==> 2 * (q - 1 + rest) <= n - 1
  {
    assert (m - 1) * q == q * m - q;
    if q < 1 { MultiplesGrow(q, 0, m); }
    if m > 1 {
      assert q * m == q * (m - 2) + 2 * q;
      if m > 2 { MultiplesGrow(1, q, m - 2); }
    }
  }

  /**
   * What lies behind the last sample is not sampled: one point less than the stride, and the remainder of the
   * division. With two vertices or more that can be half of the other points, and never more.
   */
  lemma SamplesStopShort(contour: seq<Point>, maxVertices: nat)
    requires 0 < maxVertices < |contour|
    ensures var r, last := Downsampled(contour, maxVertices), (maxVertices - 1) * (|contour| / maxVertices);
            && |r| == maxVertices && 0 <= last < |contour| && r[maxVertices - 1] == contour[last]
            && |contour| - 1 - last == |contour| / maxVertices - 1 + |contour| % maxVertices
            && (maxVertices > 1 ==> 2 * (|contour| - 1 - last) <= |contour| - 1)
  {
    hide Downsampled;
    SampleAt(contour, maxVertices, maxVertices - 1);
    var n, m := |contour|, maxVertices;
    assert n == (n / m) * m + n % m;
    TailLength(n, m, n / m, n % m);
  }

  /** One point short of twice the allowed number: the samples are the first half, and the second is not sampled. */
  lemma HalfIsUnsampled(contour: seq<Point>, maxVertices: nat)
    requires maxVertices > 1 && |contour| == 2 * maxVertices - 1
    ensures Downsampled(contour, maxVertices) == contour[..maxVertices]
  {
    hide Downsampled;
    StrideIsOne(maxVertices);
    SampleAt(contour, maxVertices, 0);
    forall k | 0 <= k < maxVertices ensures Downsampled(contour, maxVertices)[k] == contour[k] {
      SampleAt(contour, maxVertices, k);
    }
  }

  lemma StrideIsOne(m: nat)
    requires m > 1
    ensures (2 * m - 1) / m == 1
  {
    DivBounds(2 * m - 1, m);
    var q := (2 * m - 1) / m;
    if q < 1 { MultiplesGrow(q + 1, 1, m); }
    if q > 1 { MultiplesGrow(2, q, m); }
  }

  /** The pixel grid with its padding, filled in place. */
  method FillGrid(mask: seq<seq<int>>, w: nat, h: nat) returns (grid: array2<bool>)
    requires IsMask(mask, w, h)
    ensures fresh(grid) && grid.Length0 == h + 1 && grid.Length1 == w + 1
    ensures forall r, c :: 0 <= r <= h && 0 <= c <= w ==> grid[r, c] == Corner(mask, w, h, r, c)
  {
    grid := new bool[h + 1, w + 1]((r, c) => false);
    for row := 0 to h
      invariant forall r, c :: 0 <= r <= h && 0 <= c <= w ==> grid[r, c] == (r <= row && Corner(mask, w, h, r, c))
    {
      for col := 0 to w
        invariant forall r, c :: 0 <= r <= h && 0 <= c <= w ==>
          grid[r, c] == ((r <= row || (r == row + 1 && c <= col)) && Corner(mask, w, h, r, c))
      {
        grid[row + 1, col + 1] := mask[row][col] >= 128;
      }
    }
  }

  method CollectSegments(mask: seq<seq<int>>, w: nat, h: nat, grid: array2<bool>) returns (segs: seq<Segment>)
    requires IsMask(mask, w, h) && grid.Length0 == h + 1 && grid.Length1 == w + 1
    requires forall r, c :: 0 <= r <= h && 0 <= c <= w ==> grid[r, c] == Corner(mask, w, h, r, c)
    ensures segs == Segments(mask, w, h)
  {
    segs := [];
    for row := 0 to h
      invariant segs == SegmentsUpTo(mask, w, h, row, 0)
    {
      for col := 0 to w
        invariant segs == SegmentsUpTo(mask, w, h, row, col)
      {
        var tl, tr := grid[row, col], grid[row, col + 1];
        var bl, br := grid[row + 1, col], grid[row + 1, col + 1];
        segs := segs + CellSegments(CellIndex(tl, tr, br, bl), row, col);
      }
    }
  }

  /**
   * What the contour of a mask is: a longest walk of its boundary segments. When the keys tell its edge
   * midpoints apart, all walks are trails, and whole closed cycles if the border allows.
   */
  ghost predicate IsMaskContour(mask: seq<seq<int>>, w: nat, h: nat, contour: seq<Point>)
    requires IsMask(mask, w, h) && w > 0 && h > 0
  {
    exists trails: seq<Trail>, k: nat ::
      && LongestAt(trails, k, contour)
      && Decomposes(w, h, Segments(mask, w, h), trails)
      && (KeysIdentify(w, h) ==> AllTrails(mask, w, h, trails))
  }

  ghost predicate AllTrails(mask: seq<seq<int>>, w: nat, h: nat, trails: seq<Trail>)
    requires IsMask(mask, w, h) && w > 0 && h > 0
  {
    var segs := Segments(mask, w, h);
    forall k :: 0 <= k < |trails| ==>
      IsTrail(segs, trails[k]) && (BorderIsBackground(mask, w, h) ==> ClosedAndWhole(segs, trails[k]))
  }

  lemma EndsAreOnEdges(mask: seq<seq<int>>, w: nat, h: nat, i: nat, p: Point)
    requires IsMask(mask, w, h) && w > 0 && h > 0
    requires i < |Segments(mask, w, h)| && Incident(Segments(mask, w, h)[i], p)
    ensures OnEdge(w, h, p)
  {
    hide Segments;
    assert Segments(mask, w, h)[i] in Segments(mask, w, h);
    EndpointIff(mask, w, h, p);
  }

  /** Keys that tell the edge midpoints apart are exact on the segments of any mask of that size. */
  lemma KeysOfMask(mask: seq<seq<int>>, w: nat, h: nat)
    requires IsMask(mask, w, h) && w > 0 && h > 0 && KeysIdentify(w, h)
    ensures KeysExact(w, h, Segments(mask, w, h))
  {
    hide Segments;
    hide Key;
    hide OnEdge;
    var segs := Segments(mask, w, h);
    forall i, j, p, q | 0 <= i < |segs| && 0 <= j < |segs| && Incident(segs[i], p) && Incident(segs[j], q)
                        && Key(w, h, p) == Key(w, h, q)
      ensures p == q
    {
      EndsAreOnEdges(mask, w, h, i, p);
      EndsAreOnEdges(mask, w, h, j, q);
    }
  }

  lemma MaskContour(mask: seq<seq<int>>, w: nat, h: nat, contour: seq<Point>)
    requires IsMask(mask, w, h) && w > 0 && h > 0 && IsLargestContour(w, h, Segments(mask, w, h), contour)
    ensures IsMaskContour(mask, w, h, contour)
  {
    hide Segments;
    hide IsTrail;
    hide ClosedAndWhole;
    hide KeysIdentify;
    hide KeysExact;
    hide StopsLate;
    var segs := Segments(mask, w, h);
    var trails: seq<Trail>, k: nat :| Decomposes(w, h, segs, trails) && LongestAt(trails, k, contour);
    if KeysIdentify(w, h) {
      KeysOfMask(mask, w, h);
      CyclesIffBorderIsBackground(mask, w, h);
      assert forall l :: 0 <= l < |trails| ==> Follows(w, h, segs, trails[l]);
    }
  }

  /**
   * Polygon extraction: samples of a longest walk of the boundary edges, which is a trail when the keys tell
   * vertices apart, and then a whole closed cycle when the last row and column are background. Something is
   * returned exactly when the mask is at least 2 by 2, some pixel is foreground and at least one vertex is allowed.
   */
  method Polygon(mask: seq<seq<int>>, w: nat, h: nat, maxVertices: int) returns (polygon: seq<Point>)
    requires IsMask(mask, w, h)
    ensures |polygon| <= if maxVertices > 0 then maxVertices else 0
    ensures polygon != [] <==>
              w > 1 && h > 1 && maxVertices > 0 && exists r, c :: 0 <= r < h && 0 <= c < w && mask[r][c] >= 128
    ensures polygon != [] ==>
              exists contour ::
                contour != [] && IsMaskContour(mask, w, h, contour) && polygon == Downsampled(contour, maxVertices)
  {
    hide IsMaskContour;
    hide IsLargestContour;
    hide Segments;
    if w <= 1 || h <= 1 {
      return [];
    }
    var grid := FillGrid(mask, w, h);
    var segs := CollectSegments(mask, w, h, grid);
    SegmentsIffForeground(mask, w, h);
    if segs == [] {
      return [];
    }
    var contour := ChainLargestContour(w, h, segs);
    MaskContour(mask, w, h, contour);
    polygon := Downsampled(contour, maxVertices);
  }

  lemma TrailsNotEmpty(w: nat, h: nat, segs: seq<Segment>, trails: seq<Trail>, k: nat)
    requires w > 0 && h > 0 && SegmentDisjoint(w, h, segs, trails) && k < |trails|
    ensures trails[k].points != []
  {
  }
}
