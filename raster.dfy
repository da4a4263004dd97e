/** class Rasterizer: the viewport size, the two fill caches of
    viewportHeight + 1 rows, and the methods that clip and walk edges into
    them and report the spans of triangles to Process. Each method is proved
    against the specification function of its module: Line against
    EdgeWalk.LineEffect, Triangle against Filling.TriangleEffect, the drivers
    against Drivers.Draw. */
module Raster {
  import opened Geometry
  import opened Clipping
  import opened EdgeWalk
  import opened Filling
  import opened Drivers

  /** A cache after `std::vector::resize(n)`: the first entries are kept, the
      cache is cut to n, and rows added at the end are value-initialized. */
  function Resized(c: seq<Entry>, n: nat): (r: seq<Entry>)
    ensures |r| == n
    ensures forall i :: 0 <= i < |c| && i < n ==> r[i] == c[i]
    ensures forall i :: |c| <= i < n ==> r[i] == Blank
  {
    if n <= |c| then c[..n] else c + seq(n - |c|, _ => Blank)
  }

  /** Resizing to the size a cache already has changes nothing. */
  lemma ResizedSameSize(c: seq<Entry>)
    ensures Resized(c, |c|) == c
  {}

  /** Resizing twice to the same size is resizing once. */
  lemma ResizedIdempotent(c: seq<Entry>, n: nat)
    ensures Resized(Resized(c, n), n) == Resized(c, n)
  {
    ResizedSameSize(Resized(c, n));
  }

  /** The new storage `resize` gives a cache whose size changes. */
  method Resize(a: array<Entry>, n: nat) returns (b: array<Entry>)
    ensures fresh(b) && b[..] == Resized(a[..], n)
  {
    b := new Entry[n](_ => Blank);
    var keep := if a.Length < n then a.Length else n;
    var i := 0;
    while i < keep
      invariant 0 <= i <= keep
      invariant forall j :: 0 <= j < i ==> b[j] == a[j]
      invariant forall j :: keep <= j < n ==> b[j] == Blank
    {
      b[i] := a[i];
      i := i + 1;
    }
    assert forall j :: 0 <= j < n ==> b[j] == Resized(a[..], n)[j];
  }

  /** The Bresenham walk of Line over an already clipped segment whose rows
      are rows of the cache: the start point is written, then every iteration
      steps once along the major axis and, when the error term is not
      negative, once along the minor axis. */
  method Walk(s: Seg, cache: array<Entry>)
    requires 0 <= Min(s.y1, s.y2) && Max(s.y1, s.y2) < cache.Length
    modifies cache
    ensures cache[..] == Cache(old(cache[..]), s, Major(s))
  {
    var x1, y1, x2, y2, z1, z2 := s.x1, s.y1, s.x2, s.y2, s.z1, s.z2;
    // the dimensions of the segment
    var wp := x2 >= x1;
    var w := if wp then x2 - x1 else x1 - x2;
    var hp := y2 >= y1;
    var h := if hp then y2 - y1 else y1 - y2;
    var xp0, yp0, xp1, yp1;
    if w > h {
      xp0, yp0 := if wp then 1 else -1, 0;
      xp1, yp1 := if wp then 1 else -1, if hp then 1 else -1;
    } else {
      xp0, yp0 := 0, if hp then 1 else -1;
      xp1, yp1 := if wp then 1 else -1, if hp then 1 else -1;
      w, h := h, w;
    }
    assert w == Major(s) && h == Minor(s);
    // the attribute step; unused when the segment is a single point
    var z := if w == 0 then Origin3 else z2.Minus(z1).Times(1.0 / w as real);
    assert z == Step(s);
    Bresenham(s, cache, w, h, xp0, yp0, xp1, yp1, z);
  }

  /** The loop of Line's walk, given the major and minor lengths, the unit
      moves of a straight and a diagonal iteration, and the attribute step. */
  method Bresenham(s: Seg, cache: array<Entry>, w: nat, h: nat, xp0: int, yp0: int, xp1: int, yp1: int, z: Vec3)
    requires 0 <= Min(s.y1, s.y2) && Max(s.y1, s.y2) < cache.Length
    requires w == Major(s) && h == Minor(s) && z == Step(s)
    requires xp0 == (if XMajor(s) then Dir(s.x2 >= s.x1) else 0) && yp0 == (if XMajor(s) then 0 else Dir(s.y2 >= s.y1))
    requires xp1 == Dir(s.x2 >= s.x1) && yp1 == Dir(s.y2 >= s.y1)
    modifies cache
    ensures cache[..] == Cache(old(cache[..]), s, Major(s))
  {
    var x1, y1, z1 := s.x1, s.y1, s.z1;
    var wp := s.x2 >= s.x1;
    var c0 := h + h;
    var p := c0 - w;
    var c1 := p - w;
    var y := y1;
    ghost var pre := cache[..];
    cache[y] := Entry(x1, z1);
    var left := w - 1;
    ghost var k: nat := 0;
    while left >= 0
      invariant -1 <= left <= w - 1 && k == w - 1 - left
      invariant p == Run(w, h, k).p
      invariant x1 == ColAt(s, k) && y1 == RowAt(s, k) && z1 == AttrAt(s, k)
      invariant y == y1
      invariant cache[..] == Cache(pre, s, k)
      decreases left
    {
      p, x1, y1, z1, y := Next(s, cache, pre, k, w, h, c0, c1, xp0, yp0, xp1, yp1, z, wp, p, x1, y1, z1, y);
      left := left - 1;
      k := k + 1;
    }
  }

  /** One pass of the loop of lines 219-238: one Bresenham step, the
      attribute accumulation, and the cache write. The parameters are the
      source's locals of the same name: w and h the major and minor lengths
      after the swap of lines 204-206, c0 and c1 the error increments of
      lines 213-215, (xp0, yp0) and (xp1, yp1) the straight and diagonal moves
      of lines 184-201, z the attribute step of line 210, wp the direction flag
      of line 178, p the error term, (x1, y1) the current point, z1 its
      attribute and y the row last written. The primed results are their
      values after the pass. */
  method Next(s: Seg, cache: array<Entry>, ghost pre: seq<Entry>, ghost k: nat, w: nat, h: nat, c0: int, c1: int,
              xp0: int, yp0: int, xp1: int, yp1: int, z: Vec3, wp: bool, p: int, x1: int, y1: int, z1: Vec3, y: int)
    returns (p': int, x1': int, y1': int, z1': Vec3, y': int)
    requires 0 <= Min(s.y1, s.y2) && Max(s.y1, s.y2) < cache.Length && |pre| == cache.Length
    requires w == Major(s) && h == Minor(s) && z == Step(s) && k < w && c0 == 2 * h && c1 == 2 * h - 2 * w
    requires xp0 == (if XMajor(s) then Dir(s.x2 >= s.x1) else 0) && yp0 == (if XMajor(s) then 0 else Dir(s.y2 >= s.y1))
    requires xp1 == Dir(s.x2 >= s.x1) && yp1 == Dir(s.y2 >= s.y1) && wp == (s.x2 >= s.x1)
    requires p == Run(w, h, k).p && x1 == ColAt(s, k) && y1 == RowAt(s, k) && z1 == AttrAt(s, k) && y == y1
    requires cache[..] == Cache(pre, s, k)
    modifies cache
    ensures p' == Run(w, h, k + 1).p && x1' == ColAt(s, k + 1) && y1' == RowAt(s, k + 1) && z1' == AttrAt(s, k + 1)
    ensures y' == y1' && cache[..] == Cache(pre, s, k + 1)
  {
    p', x1', y1' := Advance(s, w, h, c0, c1, xp0, yp0, xp1, yp1, p, x1, y1, k);
    z1' := z1.Plus(z);
    y' := Plot(s, cache, pre, k, wp, y, x1', y1', z1');
  }

  /** Lines 159-167 of Line: when the first surviving parameter is past the
      start, the start moves there along the unclipped deltas; otherwise the
      parameter becomes 0. */
  method MoveStart(e: Seg, t1: real) returns (sx: int, sy: int, sz: Vec3, t: real)
    ensures sx == StartCol(e, t1) && sy == StartRow(e, t1) && sz == StartAttr(e, t1)
    ensures t == Kept(t1)
  {
    sx, sy, sz, t := e.x1, e.y1, e.z1, t1;
    if t > 0.0 {
      var w := e.x2 - sx;
      var h := e.y2 - e.y1;
      var z := e.z2.Minus(sz);
      sx := Trunc(sx as real + t * w as real);
      assert sx == Lerp(e.x1, e.x2, t);
      sy := Trunc(sy as real + t * h as real);
      assert sy == Lerp(e.y1, e.y2, t);
      sz := sz.Plus(z.Times(t));
      assert sz == LerpAttr(e.z1, e.z2, t);
    } else {
      t := 0.0;
    }
  }

  /** Lines 168-175 of Line: when the last surviving parameter is before the
      end, the end is re-derived from the moved start (sx, sy, sz) at t2 - t1,
      with the column and attribute deltas taken from the moved start and the
      unclipped row delta. */
  method MoveEnd(e: Seg, sx: int, sy: int, sz: Vec3, t1: real, t2: real) returns (ex: int, ey: int, ez: Vec3)
    ensures ex == EndColFrom(e, sx, t1, t2) && ey == EndRowFrom(e, sy, t1, t2) && ez == EndAttrFrom(e, sz, t1, t2)
  {
    ex, ey, ez := e.x2, e.y2, e.z2;
    if t2 < 1.0 {
      var w := ex - sx;
      var h := e.y2 - e.y1;
      var z := ez.Minus(sz);
      var t := t2 - t1;
      ex := Trunc(sx as real + t * w as real);
      assert ex == Lerp(sx, e.x2, t);
      ey := Trunc(sy as real + t * h as real);
      ez := sz.Plus(z.Times(t));
      assert ez == LerpAttr(sz, e.z2, t);
    }
  }

  /** The write at the end of an iteration: the new point's entry goes into
      its row when x2 >= x1 or when the row changed; the last row written is
      then the new row. */
  method Plot(s: Seg, cache: array<Entry>, ghost pre: seq<Entry>, ghost k: nat, wp: bool, y: int, x1: int, y1: int, z1: Vec3)
      returns (y': int)
    requires 0 <= Min(s.y1, s.y2) && Max(s.y1, s.y2) < |pre| == cache.Length && k < Major(s)
    requires cache[..] == Cache(pre, s, k) && wp == (s.x2 >= s.x1) && y == RowAt(s, k)
    requires x1 == ColAt(s, k + 1) && y1 == RowAt(s, k + 1) && z1 == AttrAt(s, k + 1)
    modifies cache
    ensures cache[..] == Cache(pre, s, k + 1) && y' == y1
  {
    CacheNext(pre, s, k);
    y' := y;
    if wp || y != y1 {
      y' := y1;
      cache[y'] := Entry(x1, z1);
      assert cache[..] == old(cache[..])[y' := EntryAt(s, k + 1)];
    }
  }

  /** One iteration of the walk's position: with a negative error term a
      straight move and c0 = 2h added, otherwise a diagonal move and
      c1 = 2h - 2w added. */
  method Advance(s: Seg, w: nat, h: nat, c0: int, c1: int, xp0: int, yp0: int, xp1: int, yp1: int,
                 p: int, x1: int, y1: int, ghost k: nat) returns (p': int, x1': int, y1': int)
    requires w == Major(s) && h == Minor(s) && k < w && c0 == 2 * h && c1 == 2 * h - 2 * w
    requires xp0 == (if XMajor(s) then Dir(s.x2 >= s.x1) else 0) && yp0 == (if XMajor(s) then 0 else Dir(s.y2 >= s.y1))
    requires xp1 == Dir(s.x2 >= s.x1) && yp1 == Dir(s.y2 >= s.y1)
    requires p == Run(w, h, k).p && x1 == ColAt(s, k) && y1 == RowAt(s, k)
    ensures p' == Run(w, h, k + 1).p && x1' == ColAt(s, k + 1) && y1' == RowAt(s, k + 1)
  {
    RunNext(w, h, k);
    if p < 0 {
      WalkNextStraight(s, k);
      p' := p + c0;
      x1', y1' := x1 + xp0, y1 + yp0;
    } else {
      WalkNextDiagonal(s, k);
      p' := p + c1;
      x1', y1' := x1 + xp1, y1 + yp1;
    }
  }

  class Rasterizer {
    var viewportWidth: int
    var viewportHeight: int
    var fillCache1: array<Entry>
    var fillCache2: array<Entry>
    /** The spans reported to Process so far. */
    var spans: seq<Span>

    /** Both caches hold one entry per row plus one, in separate storage. */
    ghost predicate Valid()
      reads this
    {
      fillCache1.Length == viewportHeight + 1 && fillCache2.Length == viewportHeight + 1 && fillCache1 != fillCache2
    }

    function State(): Frame
      reads this, fillCache1, fillCache2
    {
      Frame(fillCache1[..], fillCache2[..], spans)
    }

    /** A rasterizer set up for a w x h viewport, with no spans reported. */
    constructor(w: int, h: int)
      requires h >= -1
      ensures Valid() && viewportWidth == w && viewportHeight == h && spans == []
      ensures fillCache1[..] == Resized([], h + 1) && fillCache2[..] == Resized([], h + 1)
    {
      viewportWidth, viewportHeight := w, h;
      fillCache1 := new Entry[h + 1](_ => Blank);
      fillCache2 := new Entry[h + 1](_ => Blank);
      spans := [];
      new;
      assert forall j :: 0 <= j < h + 1 ==> fillCache1[j] == Resized([], h + 1)[j];
      assert forall j :: 0 <= j < h + 1 ==> fillCache2[j] == Resized([], h + 1)[j];
    }

    /** Rasterizer::SetResolution: stores the size and resizes both caches to
      h + 1 rows. A cache that already has that size is left as it is. */
    method SetResolution(w: int, h: int)
      requires h >= -1 && fillCache1 != fillCache2
      modifies this
      ensures Valid() && viewportWidth == w && viewportHeight == h && spans == old(spans)
      ensures fillCache1[..] == Resized(old(fillCache1[..]), h + 1)
      ensures fillCache2[..] == Resized(old(fillCache2[..]), h + 1)
      ensures old(fillCache1.Length) == h + 1 ==> fillCache1 == old(fillCache1)
      ensures old(fillCache2.Length) == h + 1 ==> fillCache2 == old(fillCache2)
    {
      viewportWidth := w;
      viewportHeight := h;
      if fillCache1.Length != h + 1 {
        fillCache1 := Resize(fillCache1, h + 1);
      } else {
        ResizedSameSize(fillCache1[..]);
      }
      if fillCache2.Length != h + 1 {
        fillCache2 := Resize(fillCache2, h + 1);
      } else {
        ResizedSameSize(fillCache2[..]);
      }
    }

    /** Rasterizer::Line: clips the segment to the rows [0, viewportHeight - 1]
        with the pair of tests, and walks what is left into `cache`. */
    method Line(x1: int, y1: int, x2: int, y2: int, z1: Vec3, z2: Vec3, cache: array<Entry>) returns (ok: bool)
      requires cache.Length == viewportHeight + 1
      modifies cache
      ensures ok <==> MeetsRows(y1, y2, viewportHeight)
      ensures cache[..] == LineEffect(old(cache[..]), Seg(x1, y1, x2, y2, z1, z2), viewportHeight)
    {
      var e := Seg(x1, y1, x2, y2, z1, z2);
      var h := y2 - y1;
      var c := Test(-(h as real), y1 as real, 0.0, 1.0);
      if c.ok {
        c := Test(h as real, (viewportHeight - 1 - y1) as real, c.t1, c.t2);
      }
      assert c == ClipRange(y1 as real, (y2 - y1) as real, (viewportHeight - 1) as real);
      if !c.ok {
        assert ClipLine(e, viewportHeight) == None;
        return false;
      }
      var sx, sy, sz, t1 := MoveStart(e, c.t1);
      var ex, ey, ez := MoveEnd(e, sx, sy, sz, t1, c.t2);
      assert ex == EndCol(e, c.t1, c.t2) && ey == EndRow(e, c.t1, c.t2) && ez == EndAttr(e, c.t1, c.t2);
      var s := Seg(sx, sy, ex, ey, sz, ez);
      assert s == Cut(e, c.t1, c.t2);
      assert ClipLine(e, viewportHeight) == Some(s);
      ClipLineRows(e, viewportHeight);
      Walk(s, cache);
      return true;
    }

    /** The Process callback: records the span. */
    method Process(index: nat, x1: int, x2: int, y: int, z1: Vec3, z2: Vec3)
      modifies this`spans
      ensures spans == old(spans) + [Span(index, x1, x2, y, z1, z2)]
    {
      spans := spans + [Span(index, x1, x2, y, z1, z2)];
    }

    /** Rasterizer::Triangle: walks the long edge into cache 1 and the other
        two into cache 2, then reports the span of every filled row that
        overlaps the screen columns. */
    method Triangle(index: nat, a: Vec3, b: Vec3, c: Vec3, ta: Vec2, tb: Vec2, tc: Vec2)
      requires Valid()
      modifies fillCache1, fillCache2, this`spans
      ensures Valid()
      ensures State() == TriangleEffect(old(State()), viewportWidth, viewportHeight, index, Tri(a, b, c, ta, tb, tc))
    {
      ghost var p := PlanOf(Tri(a, b, c, ta, tb, tc));
      var ia, ib, ic := CornerOf(a, ta), CornerOf(b, tb), CornerOf(c, tc);
      var min, max := Edges(a, b, c, ia, ib, ic);
      FillRows(index, min, max);
      FillFrom(old(State()), viewportWidth, viewportHeight, index, p, fillCache1[..], fillCache2[..]);
    }

    /** The first half of Triangle: picks the edge with the most rows (ab,
        then ac, then bc on ties), walks it into cache 1 and the other two,
        in order, into cache 2, and returns the long edge's rows clamped to
        the screen. */
    method Edges(a: Vec3, b: Vec3, c: Vec3, ia: Corner, ib: Corner, ic: Corner) returns (min: int, max: int)
      requires Valid()
      modifies fillCache1, fillCache2
      ensures Valid()
      ensures var p := Arrange(LongEdge(a, b, c), ia, ib, ic);
        && fillCache1[..] == LineEffect(old(fillCache1[..]), p.long, viewportHeight)
        && fillCache2[..] == LineEffect(LineEffect(old(fillCache2[..]), p.first, viewportHeight), p.second, viewportHeight)
        && min == Lo(p) && max == Hi(p, viewportHeight)
    {
      var ab, ac, bc := Trunc(Abs(a.y - b.y)), Trunc(Abs(a.y - c.y)), Trunc(Abs(b.y - c.y));
      if ab >= ac && ab >= bc {
        assert LongEdge(a, b, c) == AB;
        Walks(Join(ia, ib), Join(ia, ic), Join(ib, ic));
        min := Max(0, Min(ia.y, ib.y));
        max := Min(Max(ia.y, ib.y), viewportHeight - 1);
      } else if ac >= ab && ac >= bc {
        assert LongEdge(a, b, c) == AC;
        Walks(Join(ia, ic), Join(ia, ib), Join(ib, ic));
        min := Max(0, Min(ia.y, ic.y));
        max := Min(Max(ia.y, ic.y), viewportHeight - 1);
      } else {
        assert LongEdge(a, b, c) == BC;
        Walks(Join(ib, ic), Join(ia, ib), Join(ia, ic));
        min := Max(0, Min(ib.y, ic.y));
        max := Min(Max(ib.y, ic.y), viewportHeight - 1);
      }
    }

    /** The three Line calls of one branch: the long edge l into cache 1,
        then f and g, in this order, into cache 2. */
    method Walks(l: Seg, f: Seg, g: Seg)
      requires Valid()
      modifies fillCache1, fillCache2
      ensures Valid()
      ensures fillCache1[..] == LineEffect(old(fillCache1[..]), l, viewportHeight)
      ensures fillCache2[..] == LineEffect(LineEffect(old(fillCache2[..]), f, viewportHeight), g, viewportHeight)
    {
      var _ := Line(l.x1, l.y1, l.x2, l.y2, l.z1, l.z2, fillCache1);
      var _ := Line(f.x1, f.y1, f.x2, f.y2, f.z1, f.z2, fillCache2);
      var _ := Line(g.x1, g.y1, g.x2, g.y2, g.z1, g.z2, fillCache2);
    }

    /** The fill loop of Triangle: reports, for every row from min to max,
        the span between the two caches' entries when it overlaps the screen
        columns, leftmost entry first. */
    method FillRows(index: nat, min: int, max: int)
      requires Valid() && 0 <= min && max < viewportHeight
      modifies this`spans
      ensures spans == old(spans) + RowSpans(index, viewportWidth, fillCache1[..], fillCache2[..], min, max)
    {
      var y := min;
      while y <= max
        invariant min <= y <= Max(min, max + 1) && Valid()
        invariant spans == old(spans) + RowSpans(index, viewportWidth, fillCache1[..], fillCache2[..], min, y - 1)
      {
        FillRow(index, y);
        y := y + 1;
      }
    }

    /** One pass of the fill loop: the pair of tests on row y's columns,
        then the span in increasing x when they accept. */
    method FillRow(index: nat, y: int)
      requires Valid() && 0 <= y < viewportHeight
      modifies this`spans
      ensures spans == old(spans) + Spans(SpanAt(index, viewportWidth, y, fillCache1[y], fillCache2[y]))
    {
      var x1, x2 := fillCache1[y].x, fillCache2[y].x;
      var z1, z2 := fillCache1[y].attr, fillCache2[y].attr;
      var x := x2 - x1;
      var r := Test(-(x as real), x1 as real, 0.0, 1.0);
      if r.ok {
        r := Test(x as real, (viewportWidth - 1 - x1) as real, r.t1, r.t2);
      }
      assert r == ClipRange(x1 as real, (x2 - x1) as real, (viewportWidth - 1) as real);
      ColumnsAccepted(x1, x2, viewportWidth);
      if r.ok {
        if x2 > x1 {
          Process(index, x1, x2, y, z1, z2);
        } else {
          Process(index, x2, x1, y, z2, z1);
        }
      }
    }

    /** The drawing branch of the three loops: triangle t, slot k of ts,
        is rasterized with index i = 3k. */
    method Emit(ghost f: Frame, ghost ts: seq<Option<Tri>>, ghost k: nat, i: nat, t: Tri)
      requires Valid() && |f.cache1| == viewportHeight + 1 && |f.cache2| == viewportHeight + 1
      requires k < |ts| && ts[k] == Some(t) && i == 3 * k
      requires State() == Draw(f, viewportWidth, viewportHeight, ts[..k])
      modifies fillCache1, fillCache2, this`spans
      ensures Valid() && State() == Draw(f, viewportWidth, viewportHeight, ts[..k + 1])
    {
      DrawStep(f, viewportWidth, viewportHeight, ts, k, t);
      Triangle(i, t.a, t.b, t.c, t.ta, t.tb, t.tc);
    }

    /** Rasterizer::AddUVS: the triangles of the texture coordinates, in
        triples, with the selected ones skipped. */
    method AddUVS(uvs: seq<Vec2>, selected: seq<nat>)
      requires Valid() && |uvs| % 3 == 0 && (selected == [] || |selected| >= |uvs|)
      modifies fillCache1, fillCache2, this`spans
      ensures Valid()
      ensures State() == Draw(old(State()), viewportWidth, viewportHeight, UVSteps(uvs, selected, viewportWidth, viewportHeight))
    {
      ghost var ts := UVSteps(uvs, selected, viewportWidth, viewportHeight);
      var i := 0;
      ghost var k := 0;
      while i < |uvs|
        invariant 0 <= i <= |uvs| && i == 3 * k && k <= |ts| && Valid()
        invariant State() == Draw(old(State()), viewportWidth, viewportHeight, ts[..k])
      {
        Slot(|uvs|, k);
        UVSlot(uvs, selected, viewportWidth, viewportHeight, i, k);
        if !Skipped(selected, i) {
          var a := UVPoint(uvs[i], viewportWidth, viewportHeight);
          var b := UVPoint(uvs[i + 1], viewportWidth, viewportHeight);
          var c := UVPoint(uvs[i + 2], viewportWidth, viewportHeight);
          Emit(old(State()), ts, k, i, Tri(a, b, c, Origin2, Origin2, Origin2));
        } else {
          DrawSkip(old(State()), viewportWidth, viewportHeight, ts, k);
        }
        i, k := i + 3, k + 1;
      }
      Slot(|uvs|, k);
      assert ts[..k] == ts;
    }

    /** One pass of AddVertices' loop: the triple at i projected, and drawn
        unless culling finds it back-facing. */
    method AddVertex(ghost f: Frame, ghost ts: seq<Option<Tri>>, ghost k: nat, i: nat,
                     vertices: seq<Vec3>, world2screen: Mat4, culling: bool)
      requires Valid() && |f.cache1| == viewportHeight + 1 && |f.cache2| == viewportHeight + 1
      requires |vertices| % 3 == 0 && Projectable(world2screen, vertices) && i == 3 * k && i + 2 < |vertices|
      requires ts == VertexSteps(world2screen, vertices, culling, viewportWidth, viewportHeight)
      requires State() == Draw(f, viewportWidth, viewportHeight, ts[..k])
      modifies fillCache1, fillCache2, this`spans
      ensures Valid() && k < |ts| && State() == Draw(f, viewportWidth, viewportHeight, ts[..k + 1])
    {
      var a := ScreenPoint(world2screen, vertices[i], viewportWidth, viewportHeight);
      var b := ScreenPoint(world2screen, vertices[i + 1], viewportWidth, viewportHeight);
      var c := ScreenPoint(world2screen, vertices[i + 2], viewportWidth, viewportHeight);
      var back := culling && CrossZ(a, b, c) < 0.0;
      VertexSlot(world2screen, vertices, culling, viewportWidth, viewportHeight, i, k, a, b, c, back);
      if !back {
        Emit(f, ts, k, i, Tri(a, b, c, Origin2, Origin2, Origin2));
      } else {
        DrawSkip(f, viewportWidth, viewportHeight, ts, k);
      }
    }

    /** Rasterizer::AddVertices: the triangles of the vertices, in triples,
        through `world2screen`; with culling, back-facing ones are skipped. */
    method AddVertices(vertices: seq<Vec3>, world2screen: Mat4, culling: bool)
      requires Valid() && |vertices| % 3 == 0 && Projectable(world2screen, vertices)
      modifies fillCache1, fillCache2, this`spans
      ensures Valid()
      ensures State() == Draw(old(State()), viewportWidth, viewportHeight,
                              VertexSteps(world2screen, vertices, culling, viewportWidth, viewportHeight))
    {
      ghost var ts := VertexSteps(world2screen, vertices, culling, viewportWidth, viewportHeight);
      var i := 0;
      ghost var k := 0;
      while i < |vertices|
        invariant 0 <= i <= |vertices| && i == 3 * k && k <= |ts| && Valid()
        invariant State() == Draw(old(State()), viewportWidth, viewportHeight, ts[..k])
      {
        Slot(|vertices|, k);
        AddVertex(old(State()), ts, k, i, vertices, world2screen, culling);
        i, k := i + 3, k + 1;
      }
      Slot(|vertices|, k);
      assert ts[..k] == ts;
    }

    /** Rasterizer::AddUVVertices: the triangles of the vertices, in triples,
        through `world2screen` and the calibration, each with its texture
        coordinates. */
    method AddUVVertices(vertices: seq<Vec3>, uvs: seq<Vec2>, world2screen: Mat4, cx: real, cy: real, fx: real, fy: real)
      requires Valid() && |vertices| % 3 == 0 && |uvs| >= |vertices| && Calibratable(world2screen, vertices)
      modifies fillCache1, fillCache2, this`spans
      ensures Valid()
      ensures State() == Draw(old(State()), viewportWidth, viewportHeight,
                              UVVertexSteps(world2screen, vertices, uvs, Lens(cx, cy, fx, fy), viewportWidth, viewportHeight))
    {
      var lens := Lens(cx, cy, fx, fy);
      ghost var ts := UVVertexSteps(world2screen, vertices, uvs, lens, viewportWidth, viewportHeight);
      var i := 0;
      ghost var k := 0;
      while i < |vertices|
        invariant 0 <= i <= |vertices| && i == 3 * k && k <= |ts| && Valid()
        invariant State() == Draw(old(State()), viewportWidth, viewportHeight, ts[..k])
      {
        Slot(|vertices|, k);
        UVVertexSlot(world2screen, vertices, uvs, lens, viewportWidth, viewportHeight, i, k);
        var a := CalibratedPoint(world2screen, vertices[i], lens, viewportWidth, viewportHeight);
        var b := CalibratedPoint(world2screen, vertices[i + 1], lens, viewportWidth, viewportHeight);
        var c := CalibratedPoint(world2screen, vertices[i + 2], lens, viewportWidth, viewportHeight);
        Emit(old(State()), ts, k, i, Tri(a, b, c, uvs[i], uvs[i + 1], uvs[i + 2]));
        i, k := i + 3, k + 1;
      }
      Slot(|vertices|, k);
      assert ts[..k] == ts;
    }
  }
}
