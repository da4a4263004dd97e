/** Rasterizer::Triangle as specification functions: the choice of the long
    edge, the three edge walks into the two fill caches, and the spans handed
    to Process row by row. The method that does this on the class's cache
    arrays is Raster.Rasterizer.Triangle. */
module Filling {
  import opened Geometry
  import opened Clipping
  import opened EdgeWalk

  /** One call of the Process callback: the triangle's index, the span's two
      ends (first x <= second x, unclipped) on row y, and their attributes. */
  datatype Span = Span(index: nat, x1: int, x2: int, y: int, z1: Vec3, z2: Vec3)

  /** What the rasterizer's Triangle reads and writes: both fill caches, and
      the spans reported so far. */
  datatype Frame = Frame(cache1: seq<Entry>, cache2: seq<Entry>, spans: seq<Span>)

  /** The three edges of a triangle a, b, c. */
  datatype Edge = AB | AC | BC

  /** The truncated vertical extent `(int) |p.y - q.y|` of an edge. */
  function Height(p: Vec3, q: Vec3): (n: int)
    // the whole rows of |p.y - q.y|, rounded down
    ensures 0 <= n && n as real <= Abs(p.y - q.y) < n as real + 1.0
  {
    Trunc(Abs(p.y - q.y))
  }

  function EdgeHeight(a: Vec3, b: Vec3, c: Vec3, e: Edge): int {
    match e
    case AB => Height(a, b)
    case AC => Height(a, c)
    case BC => Height(b, c)
  }

  /** The long edge: the one of largest truncated height, ties going to the
      first of ab, ac, bc. */
  function LongEdge(a: Vec3, b: Vec3, c: Vec3): (e: Edge)
    // no edge is taller
    ensures EdgeHeight(a, b, c, e) >= Height(a, b)
    ensures EdgeHeight(a, b, c, e) >= Height(a, c)
    ensures EdgeHeight(a, b, c, e) >= Height(b, c)
    // an edge earlier in the order ab, ac, bc is strictly shorter
    ensures e != AB ==> Height(a, b) < EdgeHeight(a, b, c, e)
    ensures e == BC ==> Height(a, c) < EdgeHeight(a, b, c, e)
  {
    var ab, ac, bc := Height(a, b), Height(a, c), Height(b, c);
    if ab >= ac && ab >= bc then AB
    else if ac >= ab && ac >= bc then AC
    else BC
  }

  /** `(int) (v + 0.5f)`: the rounding of a vertex coordinate to a pixel. */
  function Round(v: real): (n: int)
    // from -0.5 up, the nearest integer, halves going up
    ensures -0.5 <= v ==> n as real - 0.5 <= v < n as real + 0.5
    // below -0.5 the truncation toward zero rounds v + 0.5 up instead
    ensures v < -0.5 ==> n as real - 1.5 < v <= n as real - 0.5
  {
    Trunc(v + 0.5)
  }

  /** `glm::dvec3(t, p.z)`: the attribute carried by a vertex. */
  function Attr(p: Vec3, t: Vec2): Vec3 { Vec3(t.x, t.y, p.z) }

  /** A vertex as Line sees it: its rounded pixel and its attribute. */
  datatype Corner = Corner(x: int, y: int, attr: Vec3)

  function CornerOf(p: Vec3, t: Vec2): Corner { Corner(Round(p.x), Round(p.y), Attr(p, t)) }

  /** The segment Line is given for the edge from p to q. */
  function Join(p: Corner, q: Corner): Seg { Seg(p.x, p.y, q.x, q.y, p.attr, q.attr) }

  /** A triangle as Triangle receives it: three vertices and their texture
      coordinates. */
  datatype Tri = Tri(a: Vec3, b: Vec3, c: Vec3, ta: Vec2, tb: Vec2, tc: Vec2)

  /** The three walks Triangle runs: the long edge into cache 1, then the
      other two edges, in this order, into cache 2. */
  datatype Plan = Plan(long: Seg, first: Seg, second: Seg)

  /** The walks for a given long edge, over the rounded corners. */
  function Arrange(e: Edge, ia: Corner, ib: Corner, ic: Corner): (p: Plan)
    // each edge is walked exactly once, oriented a to b, a to c, b to c
    ensures multiset{p.long, p.first, p.second} == multiset{Join(ia, ib), Join(ia, ic), Join(ib, ic)}
    // the long edge goes to cache 1
    ensures p.long == match e case AB => Join(ia, ib) case AC => Join(ia, ic) case BC => Join(ib, ic)
  {
    match e
    case AB => Plan(Join(ia, ib), Join(ia, ic), Join(ib, ic))
    case AC => Plan(Join(ia, ic), Join(ia, ib), Join(ib, ic))
    case BC => Plan(Join(ib, ic), Join(ia, ib), Join(ia, ic))
  }

  function PlanOf(t: Tri): Plan {
    Arrange(LongEdge(t.a, t.b, t.c), CornerOf(t.a, t.ta), CornerOf(t.b, t.tb), CornerOf(t.c, t.tc))
  }

  /** The short edges of a plan reach every row its long edge spans. */
  ghost predicate Chained(p: Plan) {
    forall r :: Between(r, p.long.y1, p.long.y2) ==> Between(r, p.first.y1, p.first.y2) || Between(r, p.second.y1, p.second.y2)
  }

  /** A row between a and b is between a and c or between c and b. */
  lemma RowSplits(a: int, b: int, c: int)
    ensures forall r :: Between(r, a, b) ==> Between(r, a, c) || Between(r, c, b)
  {}

  /** The two short edges run from the long edge's two ends to the third
      vertex, so together they reach every row the long edge spans. */
  lemma ArrangeChained(e: Edge, ia: Corner, ib: Corner, ic: Corner)
    ensures Chained(Arrange(e, ia, ib, ic))
  {
    match e
    case AB => RowSplits(ia.y, ib.y, ic.y);
    case AC => RowSplits(ia.y, ic.y, ib.y);
    case BC => RowSplits(ib.y, ic.y, ia.y);
  }

  /** The rows Triangle fills: the long edge's rows, cut to the screen. */
  function Lo(p: Plan): int { Max(0, Min(p.long.y1, p.long.y2)) }
  function Hi(p: Plan, height: int): int { Min(Max(p.long.y1, p.long.y2), height - 1) }

  /** The long edge is chosen by the truncated heights of the unrounded
      vertices, but the rows filled are those of its rounded corners. So the
      rows filled can miss a vertex's row: here ab and ac both have height 1,
      ab wins the tie and rows 0 to 1 are filled, while c rounds onto row 2. */
  lemma LongEdgeMissesRow()
    ensures var t := Tri(Vec3(0.0, 0.45, 0.0), Vec3(0.0, 1.45, 0.0), Vec3(0.0, 1.55, 0.0), Origin2, Origin2, Origin2);
      LongEdge(t.a, t.b, t.c) == AB && Lo(PlanOf(t)) == 0 && Hi(PlanOf(t), 3) == 1 && CornerOf(t.c, t.tc).y == 2
  {
  }

  /** The columns [min, max] of a span meet the screen columns [0, width - 1]. */
  predicate MeetsColumns(x1: int, x2: int, width: int) {
    Min(x1, x2) <= width - 1 && Max(x1, x2) >= 0 && 1 <= width
  }

  /** The pair of tests Triangle runs on a row's columns, from x1 to x2 on
      the parameter interval [0, 1], accepts exactly when the span overlaps
      the screen columns. */
  lemma ColumnsAccepted(x1: int, x2: int, width: int)
    ensures ClipRange(x1 as real, (x2 - x1) as real, (width - 1) as real).ok <==> MeetsColumns(x1, x2, width)
  {
    ClipRangeAccepts(x1 as real, (x2 - x1) as real, (width - 1) as real);
  }

  /** The span Triangle reports on row y from the two cache entries there,
      if the pair of tests on the columns accepts it (ColumnsAccepted). */
  function SpanAt(index: nat, width: int, y: int, e1: Entry, e2: Entry): (r: Option<Span>)
    // reported exactly when the span overlaps the screen columns
    ensures r.Some? <==> MeetsColumns(e1.x, e2.x, width)
    ensures r.Some? ==> r.value.index == index && r.value.y == y
    // its ends are the two entries, unclipped, in increasing x; a tie puts
    // the cache 2 entry first
    ensures r.Some? ==> r.value.x1 <= r.value.x2
    ensures r.Some? ==> (Entry(r.value.x1, r.value.z1), Entry(r.value.x2, r.value.z2)) in {(e1, e2), (e2, e1)}
    ensures r.Some? && e1.x == e2.x ==> Entry(r.value.x1, r.value.z1) == e2
  {
    if !MeetsColumns(e1.x, e2.x, width) then None
    else if e2.x > e1.x then Some(Span(index, e1.x, e2.x, y, e1.attr, e2.attr))
    else Some(Span(index, e2.x, e1.x, y, e2.attr, e1.attr))
  }

  function Spans(r: Option<Span>): seq<Span> {
    match r
    case None => []
    case Some(s) => [s]
  }

  /** The spans of rows lo..hi, in the order the fill loop reports them. */
  function RowSpans(index: nat, width: int, c1: seq<Entry>, c2: seq<Entry>, lo: int, hi: int): seq<Span>
    requires 0 <= lo && (lo <= hi ==> hi < |c1| && hi < |c2|)
    decreases hi - lo
  {
    if hi < lo then []
    else RowSpans(index, width, c1, c2, lo, hi - 1) + Spans(SpanAt(index, width, hi, c1[hi], c2[hi]))
  }

  /** Every reported span is the span of its own row, and that row is in range. */
  lemma {:induction false} RowSpansSound(index: nat, width: int, c1: seq<Entry>, c2: seq<Entry>, lo: int, hi: int)
    requires 0 <= lo && hi < |c1| && hi < |c2|
    ensures forall s :: s in RowSpans(index, width, c1, c2, lo, hi) ==>
      lo <= s.y <= hi && SpanAt(index, width, s.y, c1[s.y], c2[s.y]) == Some(s)
    decreases hi - lo
  {
    if lo <= hi {
      RowSpansSound(index, width, c1, c2, lo, hi - 1);
    }
  }

  /** The rows of a sequence of spans strictly increase. */
  predicate Increasing(rs: seq<Span>) {
    forall i, j :: 0 <= i < j < |rs| ==> rs[i].y < rs[j].y
  }

  /** The rows of the reported spans strictly increase. */
  lemma {:induction false} RowSpansIncreasing(index: nat, width: int, c1: seq<Entry>, c2: seq<Entry>, lo: int, hi: int)
    requires 0 <= lo && hi < |c1| && hi < |c2|
    ensures Increasing(RowSpans(index, width, c1, c2, lo, hi))
    decreases hi - lo
  {
    if lo <= hi {
      RowSpansIncreasing(index, width, c1, c2, lo, hi - 1);
      RowSpansSound(index, width, c1, c2, lo, hi - 1);
      var rs := RowSpans(index, width, c1, c2, lo, hi - 1);
      var last := Spans(SpanAt(index, width, hi, c1[hi], c2[hi]));
      var all := RowSpans(index, width, c1, c2, lo, hi);
      assert all == rs + last;
      forall i, j | 0 <= i < j < |all|
        ensures all[i].y < all[j].y
      {
        if j < |rs| {
          assert all[i] == rs[i] && all[j] == rs[j];
        } else {
          assert |last| == 1 && j == |rs|;
          assert all[j] == last[0] == SpanAt(index, width, hi, c1[hi], c2[hi]).value;
          assert all[i] == rs[i] && rs[i] in rs;
        }
      }
    }
  }

  /** Every row in range whose span overlaps the screen is reported. */
  lemma {:induction false} RowSpansComplete(index: nat, width: int, c1: seq<Entry>, c2: seq<Entry>, lo: int, hi: int, y: int)
    requires 0 <= lo && hi < |c1| && hi < |c2|
    requires lo <= y <= hi && MeetsColumns(c1[y].x, c2[y].x, width)
    ensures SpanAt(index, width, y, c1[y], c2[y]).value in RowSpans(index, width, c1, c2, lo, hi)
    decreases hi - lo
  {
    if y < hi {
      RowSpansComplete(index, width, c1, c2, lo, hi - 1, y);
    }
  }

  /** The three walks of a plan, then one span per filled row that overlaps
      the screen. */
  function Fill(f: Frame, width: int, height: int, index: nat, p: Plan): (r: Frame)
    requires |f.cache1| == height + 1 && |f.cache2| == height + 1
    ensures |r.cache1| == height + 1 && |r.cache2| == height + 1
  {
    var c1 := LineEffect(f.cache1, p.long, height);
    var c2 := LineEffect(LineEffect(f.cache2, p.first, height), p.second, height);
    Frame(c1, c2, f.spans + RowSpans(index, width, c1, c2, Lo(p), Hi(p, height)))
  }

  /** Fill in terms of the caches the three walks leave behind. */
  lemma FillFrom(f: Frame, width: int, height: int, index: nat, p: Plan, c1: seq<Entry>, c2: seq<Entry>)
    requires |f.cache1| == height + 1 && |f.cache2| == height + 1
    requires c1 == LineEffect(f.cache1, p.long, height)
    requires c2 == LineEffect(LineEffect(f.cache2, p.first, height), p.second, height)
    ensures Fill(f, width, height, index, p) == Frame(c1, c2, f.spans + RowSpans(index, width, c1, c2, Lo(p), Hi(p, height)))
  {}

  /** Rasterizer::Triangle's effect on the caches and the reported spans. */
  function TriangleEffect(f: Frame, width: int, height: int, index: nat, t: Tri): (r: Frame)
    requires |f.cache1| == height + 1 && |f.cache2| == height + 1
    ensures |r.cache1| == height + 1 && |r.cache2| == height + 1
  {
    Fill(f, width, height, index, PlanOf(t))
  }

  /** The spans a call appended. */
  function Added(f: Frame, r: Frame): seq<Span> requires |f.spans| <= |r.spans| { r.spans[|f.spans|..] }

  /** Triangle only appends to the spans, and what it appends carries its
      index, a row from the filled range and ends in increasing x. */
  lemma FillAppends(f: Frame, width: int, height: int, index: nat, p: Plan)
    requires |f.cache1| == height + 1 && |f.cache2| == height + 1
    ensures var r := Fill(f, width, height, index, p);
      |f.spans| <= |r.spans| && r.spans[..|f.spans|] == f.spans &&
      forall s :: s in Added(f, r) ==> s.index == index && Lo(p) <= s.y <= Hi(p, height) && s.x1 <= s.x2
  {
    var r := Fill(f, width, height, index, p);
    var rs := RowSpans(index, width, r.cache1, r.cache2, Lo(p), Hi(p, height));
    RowSpansSound(index, width, r.cache1, r.cache2, Lo(p), Hi(p, height));
    assert r.spans == f.spans + rs;
    assert Added(f, r) == rs;
  }

  /** New spans come in strictly increasing rows. */
  lemma FillOrdered(f: Frame, width: int, height: int, index: nat, p: Plan)
    requires |f.cache1| == height + 1 && |f.cache2| == height + 1
    ensures var r := Fill(f, width, height, index, p);
      |f.spans| <= |r.spans| && Increasing(Added(f, r))
  {
    var r := Fill(f, width, height, index, p);
    var rs := RowSpans(index, width, r.cache1, r.cache2, Lo(p), Hi(p, height));
    RowSpansIncreasing(index, width, r.cache1, r.cache2, Lo(p), Hi(p, height));
    assert r.spans == f.spans + rs;
    assert Added(f, r) == rs;
  }

  /** A filled row gets a span exactly when its two cache entries overlap the
      screen columns, and that span is the one SpanAt builds from them. */
  lemma FillReports(f: Frame, width: int, height: int, index: nat, p: Plan, y: int)
    requires |f.cache1| == height + 1 && |f.cache2| == height + 1
    requires Lo(p) <= y <= Hi(p, height)
    ensures var r := Fill(f, width, height, index, p);
      |f.spans| <= |r.spans| &&
      (MeetsColumns(r.cache1[y].x, r.cache2[y].x, width) <==> exists s :: s in Added(f, r) && s.y == y) &&
      forall s :: s in Added(f, r) && s.y == y ==> Some(s) == SpanAt(index, width, y, r.cache1[y], r.cache2[y])
  {
    var r := Fill(f, width, height, index, p);
    var rs := RowSpans(index, width, r.cache1, r.cache2, Lo(p), Hi(p, height));
    RowSpansSound(index, width, r.cache1, r.cache2, Lo(p), Hi(p, height));
    assert r.spans == f.spans + rs;
    assert Added(f, r) == rs;
    if MeetsColumns(r.cache1[y].x, r.cache2[y].x, width) {
      RowSpansComplete(index, width, r.cache1, r.cache2, Lo(p), Hi(p, height), y);
    }
  }

  /** A row between the clamped ends of a segment it lies on. */
  lemma ClampedBetween(r: int, y1: int, y2: int, height: int)
    requires 0 <= r <= height - 1 && Between(r, y1, y2)
    ensures MeetsRows(y1, y2, height)
    ensures Between(r, ClampRow(y1, height - 1), ClampRow(y2, height - 1))
  {}

  /** Every filled row of cache 1 holds a point of the walk of the long edge. */
  lemma FillLongCovers(f: Frame, width: int, height: int, index: nat, p: Plan, y: int)
    requires |f.cache1| == height + 1 && |f.cache2| == height + 1
    requires Lo(p) <= y <= Hi(p, height)
    ensures Holds(ClipLine(p.long, height).value, Fill(f, width, height, index, p).cache1, y)
  {
    ClampedBetween(y, p.long.y1, p.long.y2, height);
    LineCovers(f.cache1, p.long, height);
  }

  /** Every filled row of cache 2 holds a point of the walk of the second
      short edge if that edge reaches the row, and of the first otherwise: the
      row was written by this call, whatever the cache held before. */
  lemma FillShortCovers(f: Frame, width: int, height: int, index: nat, p: Plan, y: int)
    requires |f.cache1| == height + 1 && |f.cache2| == height + 1
    requires Chained(p) && Lo(p) <= y <= Hi(p, height)
    ensures var c2 := Fill(f, width, height, index, p).cache2;
      if Between(y, p.second.y1, p.second.y2) then Holds(ClipLine(p.second, height).value, c2, y)
      else Holds(ClipLine(p.first, height).value, c2, y)
  {
    var mid := LineEffect(f.cache2, p.first, height);
    assert Between(y, p.long.y1, p.long.y2);
    if Between(y, p.second.y1, p.second.y2) {
      ClampedBetween(y, p.second.y1, p.second.y2, height);
      LineCovers(mid, p.second, height);
    } else {
      ClampedBetween(y, p.first.y1, p.first.y2, height);
      LineCovers(f.cache2, p.first, height);
      RowUntouched(mid, p.second, height, y);
    }
  }

  /** A row of the screen that a segment does not span keeps its entry. */
  lemma RowUntouched(pre: seq<Entry>, e: Seg, height: int, y: int)
    requires |pre| == height + 1 && 0 <= y <= height - 1 && !Between(y, e.y1, e.y2)
    ensures LineEffect(pre, e, height)[y] == pre[y]
  {
    LineElsewhere(pre, e, height);
    if MeetsRows(e.y1, e.y2, height) {
      assert !Between(y, ClampRow(e.y1, height - 1), ClampRow(e.y2, height - 1));
    }
  }

  /** A plan whose long edge lies wholly above or below the screen (or a
      screen with no rows) reports nothing. */
  lemma FillOffscreen(f: Frame, width: int, height: int, index: nat, p: Plan)
    requires |f.cache1| == height + 1 && |f.cache2| == height + 1
    requires !MeetsRows(p.long.y1, p.long.y2, height)
    ensures Fill(f, width, height, index, p).spans == f.spans
  {
    var r := Fill(f, width, height, index, p);
    assert Hi(p, height) < Lo(p);
    assert r.spans == f.spans + [];
  }

  /** Every triangle's plan is chained, so FillShortCovers applies to it. */
  lemma PlanChained(t: Tri)
    ensures Chained(PlanOf(t))
  {
    ArrangeChained(LongEdge(t.a, t.b, t.c), CornerOf(t.a, t.ta), CornerOf(t.b, t.tb), CornerOf(t.c, t.tc));
  }

  /** Every span in `rs` carries the index `index`. */
  ghost predicate AllIndexed(rs: seq<Span>, index: nat) {
    forall s :: s in rs ==> s.index == index
  }

  /** Triangle only appends spans, all carrying its index. */
  lemma TriangleIndexed(f: Frame, width: int, height: int, index: nat, t: Tri)
    requires |f.cache1| == height + 1 && |f.cache2| == height + 1
    ensures var r := TriangleEffect(f, width, height, index, t);
      |f.spans| <= |r.spans| && r.spans[..|f.spans|] == f.spans && AllIndexed(Added(f, r), index)
  {
    FillAppends(f, width, height, index, PlanOf(t));
  }
}
