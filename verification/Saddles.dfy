/** Which edge midpoints a cell joins, and what that means for pixels that touch at a corner only. */
module Saddles {
  import opened Contours
  import opened Chains

  // ---------------------------------------------------------------- the border of a cell

  /** Edge `k` of the cell, clockwise from the top; it lies between corner `k` and corner `k + 1`. */
  function EdgePoint(r: nat, c: nat, k: nat): Point
    requires k < 4
  {
    if k == 0 then Top(r, c) else if k == 1 then Right(r, c) else if k == 2 then Bottom(r, c) else Left(r, c)
  }

  /** The corners of the cell, clockwise from the top left. */
  predicate CornerOf(tl: bool, tr: bool, br: bool, bl: bool, k: nat)
    requires k < 4
  {
    if k == 0 then tl else if k == 1 then tr else if k == 2 then br else bl
  }

  /** All corners on the way from edge `a` clockwise to edge `b` are background. */
  predicate ClearArc(tl: bool, tr: bool, br: bool, bl: bool, a: nat, b: nat)
    requires a < 4 && b < 4
  {
    forall k: nat :: k < 4 && (k - a - 1) % 4 < (b - a) % 4 ==> !CornerOf(tl, tr, br, bl, k)
  }

  /** The number of an edge midpoint of the cell. */
  function EdgeOf(r: nat, c: nat, p: Point): (k: nat)
    ensures k < 4
  {
    if p == Top(r, c) then 0 else if p == Right(r, c) then 1 else if p == Bottom(r, c) then 2 else 3
  }

  lemma EdgesApart(r: nat, c: nat)
    ensures EdgeOf(r, c, Top(r, c)) == 0 && EdgeOf(r, c, Right(r, c)) == 1
    ensures EdgeOf(r, c, Bottom(r, c)) == 2 && EdgeOf(r, c, Left(r, c)) == 3
  {
  }

  /**
   * In each of the 16 cells every segment cuts off background only: the corners on one of the two ways between its
   * ends are all background. It is the way clockwise from the end to the start, except for the second segment of a
   * saddle, where it is the other; the first segment of a saddle is the one at the left edge.
   */
  lemma SegmentsCutOffBackground(tl: bool, tr: bool, br: bool, bl: bool, r: nat, c: nat, i: nat)
    requires i < |CellSegments(CellIndex(tl, tr, br, bl), r, c)|
    ensures var segs := CellSegments(CellIndex(tl, tr, br, bl), r, c);
            var a, b := EdgeOf(r, c, segs[i].a), EdgeOf(r, c, segs[i].b);
            && a != b && segs[i] == Segment(EdgePoint(r, c, a), EdgePoint(r, c, b))
            && (if i == 0 then ClearArc(tl, tr, br, bl, b, a) else ClearArc(tl, tr, br, bl, a, b))
            && (|segs| == 2 ==> (i == 0 <==> a == 3 || b == 3))
  {
    hide Top;
    hide Right;
    hide Bottom;
    hide Left;
    hide EdgeOf;
    EdgesApart(r, c);
  }

  // ---------------------------------------------------------------- from a cell to the mask

  lemma {:induction false} CellIsCollected(
      mask: seq<seq<int>>, w: nat, h: nat, row: nat, col: nat, r: nat, c: nat, s: Segment)
    requires IsMask(mask, w, h) && row <= h && col <= w && (row == h ==> col == 0)
    requires r < h && c < w && Before(r, c, row, col) && s in CellAt(mask, w, h, r, c)
    ensures s in SegmentsUpTo(mask, w, h, row, col)
    decreases row, col
  {
    hide CellAt;
    if col > 0 {
      if !(r == row && c == col - 1) { CellIsCollected(mask, w, h, row, col - 1, r, c, s); }
    } else {
      CellIsCollected(mask, w, h, row - 1, w, r, c, s);
    }
  }

  /** The row and the column of the cell that a segment crosses. */
  function RowOf(s: Segment): int {
    (if s.a.y < s.b.y then s.a.y else s.b.y) / 2
  }

  function ColumnOf(s: Segment): int {
    (if s.a.x < s.b.x then s.a.x else s.b.x) / 2
  }

  /** In reading order, `s` comes from a cell no later than that of `t`. */
  predicate NoLater(s: Segment, t: Segment) {
    RowOf(s) < RowOf(t) || (RowOf(s) == RowOf(t) && ColumnOf(s) <= ColumnOf(t))
  }

  /** The segments come from cells before (row, col) in a grid of width `w`, in reading order. */
  ghost predicate ReadInOrder(segs: seq<Segment>, w: nat, row: nat, col: nat) {
    && (forall i :: 0 <= i < |segs| ==> Before(RowOf(segs[i]), ColumnOf(segs[i]), row, col) && ColumnOf(segs[i]) < w)
    && (forall i, j :: 0 <= i < j < |segs| ==> NoLater(segs[i], segs[j]))
  }

  lemma CellOfSegment(mask: seq<seq<int>>, w: nat, h: nat, r: nat, c: nat)
    requires IsMask(mask, w, h) && r < h && c < w
    ensures forall s :: s in CellAt(mask, w, h, r, c) ==> RowOf(s) == r && ColumnOf(s) == c
  {
  }

  lemma CellReadNext(segs: seq<Segment>, cell: seq<Segment>, w: nat, row: nat, col: nat)
    requires ReadInOrder(segs, w, row, col) && col < w
    requires forall s :: s in cell ==> RowOf(s) == row && ColumnOf(s) == col
    ensures ReadInOrder(segs + cell, w, row, col + 1)
  {
    hide RowOf;
    hide ColumnOf;
    var all := segs + cell;
    forall i | |segs| <= i < |all| ensures RowOf(all[i]) == row && ColumnOf(all[i]) == col {
      assert all[i] in cell;
    }
  }

  lemma RowReadNext(segs: seq<Segment>, w: nat, row: nat)
    requires ReadInOrder(segs, w, row, w)
    ensures ReadInOrder(segs, w, row + 1, 0)
  {
    hide RowOf;
    hide ColumnOf;
  }

  lemma {:induction false} ReadingOrder(mask: seq<seq<int>>, w: nat, h: nat, row: nat, col: nat)
    requires IsMask(mask, w, h) && row <= h && col <= w && (row == h ==> col == 0)
    ensures ReadInOrder(SegmentsUpTo(mask, w, h, row, col), w, row, col)
    decreases row, col
  {
    hide CellAt;
    if col > 0 {
      ReadingOrder(mask, w, h, row, col - 1);
      CellOfSegment(mask, w, h, row, col - 1);
      hide ReadInOrder;
      CellReadNext(SegmentsUpTo(mask, w, h, row, col - 1), CellAt(mask, w, h, row, col - 1), w, row, col - 1);
    } else if row > 0 {
      ReadingOrder(mask, w, h, row - 1, w);
      hide ReadInOrder;
      RowReadNext(SegmentsUpTo(mask, w, h, row - 1, w), w, row - 1);
    }
  }

  /** The segments stand in reading order of their cells, so the walks begin at the top, and from the left. */
  lemma SegmentsInReadingOrder(mask: seq<seq<int>>, w: nat, h: nat, i: nat, j: nat)
    requires IsMask(mask, w, h) && i < j < |Segments(mask, w, h)|
    ensures NoLater(Segments(mask, w, h)[i], Segments(mask, w, h)[j])
  {
    ReadingOrder(mask, w, h, h, 0);
    hide NoLater;
  }

  /** Some segment of the mask joins the two points. */
  ghost predicate Linked(mask: seq<seq<int>>, w: nat, h: nat, p: Point, q: Point)
    requires IsMask(mask, w, h)
  {
    exists i :: 0 <= i < |Segments(mask, w, h)| && Joins(Segments(mask, w, h)[i], p, q)
  }

  lemma LinkedByCell(mask: seq<seq<int>>, w: nat, h: nat, r: nat, c: nat, s: Segment)
    requires IsMask(mask, w, h) && r < h && c < w && s in CellAt(mask, w, h, r, c)
    ensures Linked(mask, w, h, s.a, s.b) && Linked(mask, w, h, s.b, s.a)
  {
    CellIsCollected(mask, w, h, h, 0, r, c, s);
    hide CellAt;
    hide SegmentsUpTo;
    var i :| 0 <= i < |Segments(mask, w, h)| && Segments(mask, w, h)[i] == s;
    assert Joins(Segments(mask, w, h)[i], s.a, s.b) && Joins(Segments(mask, w, h)[i], s.b, s.a);
  }

  /** The four corners of cell (r, c). */
  ghost predicate Corners(
      mask: seq<seq<int>>, w: nat, h: nat, r: nat, c: nat, tl: bool, tr: bool, br: bool, bl: bool)
    requires IsMask(mask, w, h) && r < h && c < w
  {
    && Corner(mask, w, h, r, c) == tl && Corner(mask, w, h, r, c + 1) == tr
    && Corner(mask, w, h, r + 1, c + 1) == br && Corner(mask, w, h, r + 1, c) == bl
  }

  /** At a corner where a single pixel is foreground, its two edges are joined. */
  lemma LonePixelJoins(mask: seq<seq<int>>, w: nat, h: nat, r: nat, c: nat)
    requires IsMask(mask, w, h) && r < h && c < w
    ensures Corners(mask, w, h, r, c, true, false, false, false) ==> Linked(mask, w, h, Left(r, c), Top(r, c))
    ensures Corners(mask, w, h, r, c, false, true, false, false) ==> Linked(mask, w, h, Top(r, c), Right(r, c))
    ensures Corners(mask, w, h, r, c, false, false, true, false) ==> Linked(mask, w, h, Right(r, c), Bottom(r, c))
    ensures Corners(mask, w, h, r, c, false, false, false, true) ==> Linked(mask, w, h, Bottom(r, c), Left(r, c))
  {
    var cell := CellAt(mask, w, h, r, c);
    if Corners(mask, w, h, r, c, true, false, false, false) { LinkedByCell(mask, w, h, r, c, cell[0]); }
    if Corners(mask, w, h, r, c, false, true, false, false) { LinkedByCell(mask, w, h, r, c, cell[0]); }
    if Corners(mask, w, h, r, c, false, false, true, false) { LinkedByCell(mask, w, h, r, c, cell[0]); }
    if Corners(mask, w, h, r, c, false, false, false, true) { LinkedByCell(mask, w, h, r, c, cell[0]); }
    hide Linked;
  }

  /**
   * At a corner where two diagonal pixels are foreground, the edges on either side of each background pixel are
   * joined: the outline of one foreground pixel goes on along the other.
   */
  lemma DiagonalPixelsJoin(mask: seq<seq<int>>, w: nat, h: nat, r: nat, c: nat)
    requires IsMask(mask, w, h) && r < h && c < w
    ensures Corners(mask, w, h, r, c, true, false, true, false) ==>
              Linked(mask, w, h, Left(r, c), Bottom(r, c)) && Linked(mask, w, h, Top(r, c), Right(r, c))
    ensures Corners(mask, w, h, r, c, false, true, false, true) ==>
              Linked(mask, w, h, Top(r, c), Left(r, c)) && Linked(mask, w, h, Right(r, c), Bottom(r, c))
  {
    var cell := CellAt(mask, w, h, r, c);
    if Corners(mask, w, h, r, c, true, false, true, false) || Corners(mask, w, h, r, c, false, true, false, true) {
      LinkedByCell(mask, w, h, r, c, cell[0]);
      LinkedByCell(mask, w, h, r, c, cell[1]);
    }
    hide Linked;
  }

  // ---------------------------------------------------------------- what lies on one contour

  lemma LinkedOnTrail(mask: seq<seq<int>>, w: nat, h: nat, t: Trail, p: Point, q: Point)
    requires IsMask(mask, w, h) && Linked(mask, w, h, p, q)
    requires IsTrail(Segments(mask, w, h), t) && ClosedAndWhole(Segments(mask, w, h), t) && p in t.points
    ensures q in t.points
  {
    hide Segments;
    var segs := Segments(mask, w, h);
    var j :| 0 <= j < |segs| && Joins(segs[j], p, q);
    var k :| 0 <= k < |t.points| && t.points[k] == p;
    assert Joins(segs[t.steps[k]], t.points[k], NextPoint(t, k));
    assert Incident(segs[t.steps[k]], p) && Incident(segs[j], p) && t.steps[k] in t.steps;
    assert j in t.steps;
    var m :| 0 <= m < |t.steps| && t.steps[m] == j;
    assert Joins(segs[t.steps[m]], t.points[m], NextPoint(t, m));
    assert q == t.points[m] || q == NextPoint(t, m);
  }

  // The four boundary edges of pixel (r, c), by their midpoints.
  function Above(r: nat, c: nat): Point { Left(r, c + 1) }
  function Below(r: nat, c: nat): Point { Left(r + 1, c + 1) }
  function LeftOf(r: nat, c: nat): Point { Top(r + 1, c) }
  function RightOf(r: nat, c: nat): Point { Top(r + 1, c + 1) }

  /** Once around the pixels (r, c) and (r + 1, c + 1). */
  function Outline(r: nat, c: nat): (o: seq<Point>)
    ensures |o| == 8
  {
    [Above(r, c), LeftOf(r, c), Below(r, c), LeftOf(r + 1, c + 1), Below(r + 1, c + 1), RightOf(r + 1, c + 1),
     Above(r + 1, c + 1), RightOf(r, c)]
  }

  /** The pixels (r, c) and (r + 1, c + 1) are foreground, and all their other neighbours background. */
  ghost predicate DiagonalPair(mask: seq<seq<int>>, w: nat, h: nat, r: nat, c: nat)
    requires IsMask(mask, w, h) && r + 2 < h && c + 2 < w
  {
    forall i: nat, j: nat :: r <= i <= r + 3 && c <= j <= c + 3 && -2 <= (i - r) - (j - c) <= 2 ==>
      (Corner(mask, w, h, i, j) <==> (i == r + 1 && j == c + 1) || (i == r + 2 && j == c + 2))
  }

  /** Each point of the outline is joined to the next. */
  lemma OutlineIsLinked(mask: seq<seq<int>>, w: nat, h: nat, r: nat, c: nat, k: nat)
    requires IsMask(mask, w, h) && r + 2 < h && c + 2 < w && DiagonalPair(mask, w, h, r, c) && k < 7
    ensures Linked(mask, w, h, Outline(r, c)[k], Outline(r, c)[k + 1])
    ensures Linked(mask, w, h, Outline(r, c)[k + 1], Outline(r, c)[k])
  {
    hide Linked;
    hide Corners;
    hide DiagonalPair;
    PairCorners(mask, w, h, r, c);
    LinksTurn(mask, w, h, Outline(r, c)[k], Outline(r, c)[k + 1]);
    if k == 0 {
      LonePixelJoins(mask, w, h, r, c);
    } else if k == 1 {
      LonePixelJoins(mask, w, h, r + 1, c);
    } else if k == 2 || k == 6 {
      DiagonalPixelsJoin(mask, w, h, r + 1, c + 1);
    } else if k == 3 {
      LonePixelJoins(mask, w, h, r + 2, c + 1);
    } else if k == 4 {
      LonePixelJoins(mask, w, h, r + 2, c + 2);
    } else {
      LonePixelJoins(mask, w, h, r + 1, c + 2);
    }
  }

  lemma LinksTurn(mask: seq<seq<int>>, w: nat, h: nat, p: Point, q: Point)
    requires IsMask(mask, w, h)
    ensures Linked(mask, w, h, p, q) <==> Linked(mask, w, h, q, p)
  {
    hide Segments;
    if Linked(mask, w, h, p, q) {
      var i :| 0 <= i < |Segments(mask, w, h)| && Joins(Segments(mask, w, h)[i], p, q);
      assert Joins(Segments(mask, w, h)[i], q, p);
    }
    if Linked(mask, w, h, q, p) {
      var i :| 0 <= i < |Segments(mask, w, h)| && Joins(Segments(mask, w, h)[i], q, p);
      assert Joins(Segments(mask, w, h)[i], p, q);
    }
  }

  lemma PairCorners(mask: seq<seq<int>>, w: nat, h: nat, r: nat, c: nat)
    requires IsMask(mask, w, h) && r + 2 < h && c + 2 < w && DiagonalPair(mask, w, h, r, c)
    ensures Corners(mask, w, h, r, c, false, false, true, false)
    ensures Corners(mask, w, h, r, c + 1, false, false, false, true)
    ensures Corners(mask, w, h, r + 1, c, false, true, false, false)
    ensures Corners(mask, w, h, r + 1, c + 1, true, false, true, false)
    ensures Corners(mask, w, h, r + 1, c + 2, false, false, false, true)
    ensures Corners(mask, w, h, r + 2, c + 1, false, true, false, false)
    ensures Corners(mask, w, h, r + 2, c + 2, true, false, false, false)
  {
    hide Corner;
  }

  /** A closed whole trail has the first point of the outline exactly when it has any other. */
  lemma {:induction false} AlongTheOutline(
      mask: seq<seq<int>>, w: nat, h: nat, r: nat, c: nat, t: Trail, k: nat)
    requires IsMask(mask, w, h) && r + 2 < h && c + 2 < w && DiagonalPair(mask, w, h, r, c)
    requires IsTrail(Segments(mask, w, h), t) && ClosedAndWhole(Segments(mask, w, h), t) && k < 8
    ensures Outline(r, c)[k] in t.points <==> Outline(r, c)[0] in t.points
  {
    hide Segments;
    hide IsTrail;
    hide ClosedAndWhole;
    hide DiagonalPair;
    hide Outline;
    hide Linked;
    if k > 0 {
      var p, q := Outline(r, c)[k - 1], Outline(r, c)[k];
      AlongTheOutline(mask, w, h, r, c, t, k - 1);
      OutlineIsLinked(mask, w, h, r, c, k - 1);
      if p in t.points { LinkedOnTrail(mask, w, h, t, p, q); }
      if q in t.points { LinkedOnTrail(mask, w, h, t, q, p); }
    }
  }

  /**
   * Pixels that touch at a corner only have one contour: whatever else is in the mask, a closed whole walk that has
   * one of the eight edge midpoints around the pair has all eight.
   */
  lemma DiagonalPairSharesContour(
      mask: seq<seq<int>>, w: nat, h: nat, r: nat, c: nat, t: Trail, p: Point, q: Point)
    requires IsMask(mask, w, h) && r + 2 < h && c + 2 < w && DiagonalPair(mask, w, h, r, c)
    requires IsTrail(Segments(mask, w, h), t) && ClosedAndWhole(Segments(mask, w, h), t)
    requires p in Outline(r, c) && q in Outline(r, c) && p in t.points
    ensures q in t.points
  {
    hide Segments;
    hide IsTrail;
    hide ClosedAndWhole;
    hide DiagonalPair;
    hide Outline;
    var o := Outline(r, c);
    var i :| 0 <= i < |o| && o[i] == p;
    var j :| 0 <= j < |o| && o[j] == q;
    AlongTheOutline(mask, w, h, r, c, t, i);
    AlongTheOutline(mask, w, h, r, c, t, j);
  }

  /** Foreground are the pixels (r, c) and (r + 1, c + 1), and no others. */
  ghost predicate OnlyPair(mask: seq<seq<int>>, w: nat, h: nat, r: nat, c: nat)
    requires IsMask(mask, w, h)
  {
    forall i, j :: 0 <= i < h && 0 <= j < w ==>
      (mask[i][j] >= 128 <==> (i == r && j == c) || (i == r + 1 && j == c + 1))
  }

  lemma OnlyPairIsPair(mask: seq<seq<int>>, w: nat, h: nat, r: nat, c: nat)
    requires IsMask(mask, w, h) && r + 2 < h && c + 2 < w && OnlyPair(mask, w, h, r, c)
    ensures DiagonalPair(mask, w, h, r, c) && BorderIsBackground(mask, w, h)
    ensures forall p :: EdgeDiffers(mask, w, h, p) ==> p in Outline(r, c)
  {
    assert forall i: nat, j: nat :: i <= h && j <= w ==>
      (Corner(mask, w, h, i, j) <==> (i == r + 1 && j == c + 1) || (i == r + 2 && j == c + 2));
    hide Corner;
    forall p | EdgeDiffers(mask, w, h, p) ensures p in Outline(r, c) {
      var o := Outline(r, c);
      var i, j := p.y / 2, p.x / 2;
      if OnHorizontal(w, h, p) {
        assert p == Top(i, j);
        assert p == o[1] || p == o[7] || p == o[3] || p == o[5];
      } else {
        assert p == Left(i, j);
        assert p == o[0] || p == o[2] || p == o[6] || p == o[4];
      }
    }
  }

  /** A mask with nothing but two diagonally touching pixels: its contour runs around both of them. */
  lemma ContourOfDiagonalPair(mask: seq<seq<int>>, w: nat, h: nat, r: nat, c: nat, contour: seq<Point>)
    requires IsMask(mask, w, h) && w > 0 && h > 0 && KeysIdentify(w, h)
    requires r + 2 < h && c + 2 < w && OnlyPair(mask, w, h, r, c) && IsMaskContour(mask, w, h, contour)
    ensures forall q :: q in Outline(r, c) ==> q in contour
  {
    hide Segments;
    hide KeysIdentify;
    hide IsTrail;
    hide ClosedAndWhole;
    hide Outline;
    hide Whole;
    hide KeysExact;
    var segs := Segments(mask, w, h);
    var trails: seq<Trail>, k: nat :| LongestAt(trails, k, contour) && Decomposes(w, h, segs, trails)
                                      && (KeysIdentify(w, h) ==> AllTrails(mask, w, h, trails));
    OnlyPairIsPair(mask, w, h, r, c);
    var t := trails[k];
    TrailsNotEmpty(w, h, segs, trails, k);
    FirstPointIsUsed(mask, w, h, t);
    var p := t.points[0];
    forall q | q in Outline(r, c) ensures q in contour {
      DiagonalPairSharesContour(mask, w, h, r, c, t, p, q);
    }
  }

  lemma FirstPointIsUsed(mask: seq<seq<int>>, w: nat, h: nat, t: Trail)
    requires IsMask(mask, w, h) && w > 0 && h > 0 && IsTrail(Segments(mask, w, h), t) && t.points != []
    ensures EdgeDiffers(mask, w, h, t.points[0])
  {
    hide Segments;
    hide EdgeDiffers;
    var segs := Segments(mask, w, h);
    assert Joins(segs[t.steps[0]], t.points[0], NextPoint(t, 0)) && segs[t.steps[0]] in segs;
    EndpointIff(mask, w, h, t.points[0]);
  }
}
