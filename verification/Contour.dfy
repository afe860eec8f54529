/** Largest contour of a mask: marching squares, chaining of the segments, downsampling. */
module Contours {
  /** A lattice point in half-pixel units: cell corners have even coordinates, edge midpoints one odd one. */
  datatype Point = Point(x: int, y: int)
  datatype Segment = Segment(a: Point, b: Point)

  // ---------------------------------------------------------------- the mask and its corners

  /** `h` rows of `w` pixel values. */
  ghost predicate IsMask(mask: seq<seq<int>>, w: nat, h: nat) {
    |mask| == h && forall r :: 0 <= r < h ==> |mask[r]| == w
  }

  predicate Foreground(v: int) { v >= 128 }

  /** Corner (r, c) of the grid that pads the mask with a background row on top and column on the left. */
  predicate Corner(mask: seq<seq<int>>, w: nat, h: nat, r: nat, c: nat)
    requires IsMask(mask, w, h) && r <= h && c <= w
  {
    r > 0 && c > 0 && Foreground(mask[r - 1][c - 1])
  }

  // ---------------------------------------------------------------- one cell

  function Top(r: nat, c: nat): Point { Point(2 * c + 1, 2 * r) }
  function Bottom(r: nat, c: nat): Point { Point(2 * c + 1, 2 * r + 2) }
  function Left(r: nat, c: nat): Point { Point(2 * c, 2 * r + 1) }
  function Right(r: nat, c: nat): Point { Point(2 * c + 2, 2 * r + 1) }

  function CellIndex(tl: bool, tr: bool, br: bool, bl: bool): nat {
    (if tl then 8 else 0) + (if tr then 4 else 0) + (if br then 2 else 0) + (if bl then 1 else 0)
  }

  function CellSegments(index: nat, r: nat, c: nat): seq<Segment> {
    var top, right, bottom, left := Top(r, c), Right(r, c), Bottom(r, c), Left(r, c);
    match index
    case 1 => [Segment(bottom, left)]
    case 2 => [Segment(right, bottom)]
    case 3 => [Segment(right, left)]
    case 4 => [Segment(top, right)]
    case 5 => [Segment(top, left), Segment(right, bottom)]
    case 6 => [Segment(top, bottom)]
    case 7 => [Segment(top, left)]
    case 8 => [Segment(left, top)]
    case 9 => [Segment(bottom, top)]
    case 10 => [Segment(left, bottom), Segment(top, right)]
    case 11 => [Segment(right, top)]
    case 12 => [Segment(left, right)]
    case 13 => [Segment(bottom, right)]
    case 14 => [Segment(left, bottom)]
    case _ => []
  }

  function CellAt(mask: seq<seq<int>>, w: nat, h: nat, r: nat, c: nat): seq<Segment>
    requires IsMask(mask, w, h) && r < h && c < w
  {
    CellSegments(CellIndex(Corner(mask, w, h, r, c), Corner(mask, w, h, r, c + 1),
                           Corner(mask, w, h, r + 1, c + 1), Corner(mask, w, h, r + 1, c)), r, c)
  }

  /** The segments of all cells before (row, col) in row-major order. */
  function SegmentsUpTo(mask: seq<seq<int>>, w: nat, h: nat, row: nat, col: nat): seq<Segment>
    requires IsMask(mask, w, h) && row <= h && col <= w && (row == h ==> col == 0)
    decreases row, col
  {
    if col > 0 then SegmentsUpTo(mask, w, h, row, col - 1) + CellAt(mask, w, h, row, col - 1)
    else if row > 0 then SegmentsUpTo(mask, w, h, row - 1, w)
    else []
  }

  function Segments(mask: seq<seq<int>>, w: nat, h: nat): seq<Segment>
    requires IsMask(mask, w, h)
  {
    SegmentsUpTo(mask, w, h, h, 0)
  }

  // ---------------------------------------------------------------- degrees

  /** How many ends of `s` are at `p`. */
  function Ends(s: Segment, p: Point): nat {
    (if s.a == p then 1 else 0) + (if s.b == p then 1 else 0)
  }

  function Degree(segs: seq<Segment>, p: Point): nat {
    if segs == [] then 0 else Degree(segs[..|segs| - 1], p) + Ends(segs[|segs| - 1], p)
  }

  lemma {:induction false} DegreeConcat(a: seq<Segment>, b: seq<Segment>, p: Point)
    ensures Degree(a + b, p) == Degree(a, p) + Degree(b, p)
  {
    if b == [] {
      assert a + b == a;
    } else {
      assert (a + b)[..|a + b| - 1] == a + b[..|b| - 1];
      DegreeConcat(a, b[..|b| - 1], p);
    }
  }

  lemma DegreeSmall(s: Segment, t: Segment, p: Point)
    ensures Degree([s], p) == Ends(s, p)
    ensures Degree([s, t], p) == Ends(s, p) + Ends(t, p)
  {
    assert [s][..0] == [] && [s, t][..1] == [s];
  }

  /** Within a cell, an edge midpoint is the end of exactly one segment when its corners differ, else of none. */
  lemma CellDegree(tl: bool, tr: bool, br: bool, bl: bool, r: nat, c: nat, p: Point)
    ensures Degree(CellSegments(CellIndex(tl, tr, br, bl), r, c), p)
            == if (p == Top(r, c) && tl != tr) || (p == Right(r, c) && tr != br)
                  || (p == Bottom(r, c) && bl != br) || (p == Left(r, c) && tl != bl) then 1 else 0
  {
    var segs := CellSegments(CellIndex(tl, tr, br, bl), r, c);
    if |segs| == 1 { DegreeSmall(segs[0], segs[0], p); assert segs == [segs[0]]; }
    if |segs| == 2 { DegreeSmall(segs[0], segs[1], p); assert segs == [segs[0], segs[1]]; }
  }

  /** `p` is the midpoint of a horizontal edge of the grid, the one from corner (y/2, x/2) to (y/2, x/2 + 1). */
  predicate OnHorizontal(w: nat, h: nat, p: Point) {
    0 <= p.x && 0 <= p.y && p.x % 2 == 1 && p.y % 2 == 0 && p.x / 2 < w && p.y / 2 <= h
  }

  /** `p` is the midpoint of a vertical edge of the grid, the one from corner (y/2, x/2) to (y/2 + 1, x/2). */
  predicate OnVertical(w: nat, h: nat, p: Point) {
    0 <= p.x && 0 <= p.y && p.x % 2 == 0 && p.y % 2 == 1 && p.x / 2 <= w && p.y / 2 < h
  }

  /** The two corners of the edge through `p` differ. */
  predicate EdgeDiffers(mask: seq<seq<int>>, w: nat, h: nat, p: Point)
    requires IsMask(mask, w, h)
  {
    if OnHorizontal(w, h, p) then Corner(mask, w, h, p.y / 2, p.x / 2) != Corner(mask, w, h, p.y / 2, p.x / 2 + 1)
    else OnVertical(w, h, p) && Corner(mask, w, h, p.y / 2, p.x / 2) != Corner(mask, w, h, p.y / 2 + 1, p.x / 2)
  }

  predicate OnCell(r: nat, c: nat, p: Point) {
    p == Top(r, c) || p == Right(r, c) || p == Bottom(r, c) || p == Left(r, c)
  }

  /** The four edge midpoints of a cell, read as lattice edges. */
  lemma CellEdges(w: nat, h: nat, r: nat, c: nat)
    requires r < h && c < w
    ensures OnHorizontal(w, h, Top(r, c)) && OnHorizontal(w, h, Bottom(r, c))
    ensures OnVertical(w, h, Left(r, c)) && OnVertical(w, h, Right(r, c))
    ensures !OnHorizontal(w, h, Left(r, c)) && !OnHorizontal(w, h, Right(r, c))
    ensures Top(r, c).y / 2 == r && Top(r, c).x / 2 == c && Bottom(r, c).y / 2 == r + 1 && Bottom(r, c).x / 2 == c
    ensures Left(r, c).y / 2 == r && Left(r, c).x / 2 == c && Right(r, c).y / 2 == r && Right(r, c).x / 2 == c + 1
  {
  }

  lemma CellAtDegree(mask: seq<seq<int>>, w: nat, h: nat, r: nat, c: nat, p: Point)
    requires IsMask(mask, w, h) && r < h && c < w
    ensures Degree(CellAt(mask, w, h, r, c), p) == if OnCell(r, c, p) && EdgeDiffers(mask, w, h, p) then 1 else 0
    ensures OnCell(r, c, p) ==> OnHorizontal(w, h, p) || OnVertical(w, h, p)
  {
    CellDegree(Corner(mask, w, h, r, c), Corner(mask, w, h, r, c + 1),
               Corner(mask, w, h, r + 1, c + 1), Corner(mask, w, h, r + 1, c), r, c, p);
    CellEdges(w, h, r, c);
    hide Degree;
    hide CellSegments;
    hide CellIndex;
    hide OnHorizontal;
    hide OnVertical;
    hide Corner;
  }

  /** The cell (r, c) comes before (row, col) in row-major order. */
  predicate Before(r: int, c: int, row: nat, col: nat) {
    r < row || (r == row && c < col)
  }

  /** How many of the cells on whose border `p` lies come before (row, col). */
  function CellsBefore(w: nat, h: nat, row: nat, col: nat, p: Point): nat {
    var r, c := p.y / 2, p.x / 2;
    if OnHorizontal(w, h, p) then
      (if r < h && Before(r, c, row, col) then 1 else 0) + (if r > 0 && Before(r - 1, c, row, col) then 1 else 0)
    else if OnVertical(w, h, p) then
      (if c < w && Before(r, c, row, col) then 1 else 0) + (if c > 0 && Before(r, c - 1, row, col) then 1 else 0)
    else 0
  }

  lemma CellsBeforeStep(w: nat, h: nat, row: nat, col: nat, p: Point)
    requires row < h && col < w
    ensures CellsBefore(w, h, row, col + 1, p) == CellsBefore(w, h, row, col, p)
            + (if OnCell(row, col, p) then 1 else 0)
  {
  }

  lemma CellsBeforeRow(w: nat, h: nat, row: nat, p: Point)
    requires row < h
    ensures CellsBefore(w, h, row, w, p) == CellsBefore(w, h, row + 1, 0, p)
    ensures CellsBefore(w, h, 0, 0, p) == 0
  {
  }

  lemma {:induction false} DegreeUpTo(mask: seq<seq<int>>, w: nat, h: nat, row: nat, col: nat, p: Point)
    requires IsMask(mask, w, h) && row <= h && col <= w && (row == h ==> col == 0)
    ensures Degree(SegmentsUpTo(mask, w, h, row, col), p)
            == if EdgeDiffers(mask, w, h, p) then CellsBefore(w, h, row, col, p) else 0
    decreases row, col
  {
    hide CellsBefore;
    hide EdgeDiffers;
    hide OnCell;
    hide CellAt;
    if col > 0 {
      DegreeUpTo(mask, w, h, row, col - 1, p);
      DegreeConcat(SegmentsUpTo(mask, w, h, row, col - 1), CellAt(mask, w, h, row, col - 1), p);
      CellAtDegree(mask, w, h, row, col - 1, p);
      CellsBeforeStep(w, h, row, col - 1, p);
    } else if row > 0 {
      DegreeUpTo(mask, w, h, row - 1, w, p);
      CellsBeforeRow(w, h, row - 1, p);
    } else {
      if h > 0 { CellsBeforeRow(w, h, 0, p); } else { NoCells(w, p); }
    }
  }

  lemma NoCells(w: nat, p: Point)
    ensures CellsBefore(w, 0, 0, 0, p) == 0
  {
  }

  /** The degree of every point, from its own edge alone: one for each cell on the edge, if its corners differ. */
  lemma DegreeOfPoint(mask: seq<seq<int>>, w: nat, h: nat, p: Point)
    requires IsMask(mask, w, h)
    ensures Degree(Segments(mask, w, h), p) == if EdgeDiffers(mask, w, h, p) then CellsBefore(w, h, h, 0, p) else 0
  {
    DegreeUpTo(mask, w, h, h, 0, p);
  }

  /** An edge midpoint is an endpoint of some segment if and only if the two corners of its edge differ. */
  lemma EndpointIff(mask: seq<seq<int>>, w: nat, h: nat, p: Point)
    requires IsMask(mask, w, h) && w > 0 && h > 0
    ensures (exists s :: s in Segments(mask, w, h) && (s.a == p || s.b == p)) <==> EdgeDiffers(mask, w, h, p)
  {
    DegreeOfPoint(mask, w, h, p);
    DegreePositive(Segments(mask, w, h), p);
  }

  lemma {:induction false} DegreePositive(segs: seq<Segment>, p: Point)
    ensures Degree(segs, p) > 0 <==> exists s :: s in segs && (s.a == p || s.b == p)
  {
    if segs != [] {
      var front, last := segs[..|segs| - 1], segs[|segs| - 1];
      assert segs == front + [last];
      DegreePositive(front, p);
      if Degree(front, p) > 0 {
        var s :| s in front && (s.a == p || s.b == p);
        assert s in segs;
      }
      if exists s :: s in segs && (s.a == p || s.b == p) {
        var s :| s in segs && (s.a == p || s.b == p);
        assert s in front || s == last;
      }
      assert last in segs;
    }
  }

  /** The corners along the last row and the last column are background: the mask does not touch them. */
  ghost predicate BorderIsBackground(mask: seq<seq<int>>, w: nat, h: nat)
    requires IsMask(mask, w, h)
  {
    && (forall c :: 0 <= c <= w ==> !Corner(mask, w, h, h, c))
    && (forall r :: 0 <= r <= h ==> !Corner(mask, w, h, r, w))
  }

  ghost predicate DegreesZeroOrTwo(segs: seq<Segment>) {
    forall p :: Degree(segs, p) == 0 || Degree(segs, p) == 2
  }

  /**
   * Every used vertex has degree exactly two, so that the segments form closed cycles, if and only
   * if the mask leaves its last row and last column background (only the other two borders are padded).
   */
  lemma CyclesIffBorderIsBackground(mask: seq<seq<int>>, w: nat, h: nat)
    requires IsMask(mask, w, h) && w > 0 && h > 0
    ensures DegreesZeroOrTwo(Segments(mask, w, h)) <==> BorderIsBackground(mask, w, h)
  {
    if BorderIsBackground(mask, w, h) {
      forall p ensures var d := Degree(Segments(mask, w, h), p); d == 0 || d == 2 {
        DegreeOfPoint(mask, w, h, p);
      }
    } else if exists c :: 0 <= c <= w && Corner(mask, w, h, h, c) {
      var c :| 0 <= c <= w && Corner(mask, w, h, h, c);
      var k := ChangeInRow(mask, w, h, h, c);
      DegreeOfPoint(mask, w, h, Top(h, k));
      assert Degree(Segments(mask, w, h), Top(h, k)) == 1;
    } else {
      var r :| 0 <= r <= h && Corner(mask, w, h, r, w);
      var k := ChangeInColumn(mask, w, h, r, w);
      DegreeOfPoint(mask, w, h, Left(k, w));
      assert Degree(Segments(mask, w, h), Left(k, w)) == 1;
    }
  }

  lemma ChangeInRow(mask: seq<seq<int>>, w: nat, h: nat, r: nat, c: nat) returns (k: nat)
    requires IsMask(mask, w, h) && r <= h && c <= w && Corner(mask, w, h, r, c)
    ensures k < c && Corner(mask, w, h, r, k) != Corner(mask, w, h, r, k + 1)
  {
    k := c - 1;
    while Corner(mask, w, h, r, k)
      invariant k < c && Corner(mask, w, h, r, k + 1)
      decreases k
    {
      k := k - 1;
    }
  }

  lemma ChangeInColumn(mask: seq<seq<int>>, w: nat, h: nat, r: nat, c: nat) returns (k: nat)
    requires IsMask(mask, w, h) && r <= h && c <= w && Corner(mask, w, h, r, c)
    ensures k < r && Corner(mask, w, h, k, c) != Corner(mask, w, h, k + 1, c)
  {
    k := r - 1;
    while Corner(mask, w, h, k, c)
      invariant k < r && Corner(mask, w, h, k + 1, c)
      decreases k
    {
      k := k - 1;
    }
  }

  /** There is something to trace exactly when some pixel is foreground. */
  lemma SegmentsIffForeground(mask: seq<seq<int>>, w: nat, h: nat)
    requires IsMask(mask, w, h)
    ensures Segments(mask, w, h) != [] <==> exists r, c :: 0 <= r < h && 0 <= c < w && mask[r][c] >= 128
  {
    var segs := Segments(mask, w, h);
    if segs != [] {
      var p := segs[0].a;
      assert segs[0] in segs;
      DegreePositive(segs, p);
      DegreeOfPoint(mask, w, h, p);
      var r, c := p.y / 2, p.x / 2;
      if Corner(mask, w, h, r, c) {
        assert Foreground(mask[r - 1][c - 1]);
      } else if OnHorizontal(w, h, p) {
        assert Foreground(mask[r - 1][c]);
      } else {
        assert Foreground(mask[r][c - 1]);
      }
    }
    if r, c :| 0 <= r < h && 0 <= c < w && mask[r][c] >= 128 {
      var k := ChangeInColumn(mask, w, h, r + 1, c + 1);
      DegreeOfPoint(mask, w, h, Left(k, c + 1));
      assert Degree(segs, Left(k, c + 1)) > 0;
    }
  }

  /** No segment has both ends at one point. */
  lemma {:induction false} NoLoops(mask: seq<seq<int>>, w: nat, h: nat, row: nat, col: nat)
    requires IsMask(mask, w, h) && row <= h && col <= w && (row == h ==> col == 0)
    ensures forall s :: s in SegmentsUpTo(mask, w, h, row, col) ==> s.a != s.b
    decreases row, col
  {
    if col > 0 {
      NoLoops(mask, w, h, row, col - 1);
    } else if row > 0 {
      NoLoops(mask, w, h, row - 1, w);
    }
  }
}
