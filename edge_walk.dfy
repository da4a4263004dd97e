/** The edge walker of Rasterizer::Line as specification functions: the
    top/bottom clipping of a segment, the Bresenham walk over the clipped
    segment, and the fill cache it leaves behind. The method that runs the walk
    in place on a cache array is Raster.Rasterizer.Line. */
module EdgeWalk {
  import opened Geometry
  import opened Clipping

  /** A segment between two integer pixels with an attribute at each end: the
      arguments of Line, and also what is left of them after clipping. */
  datatype Seg = Seg(x1: int, y1: int, x2: int, y2: int, z1: Vec3, z2: Vec3)

  /** The rows [min, max] of a segment meet the screen rows [0, height - 1]. */
  predicate MeetsRows(y1: int, y2: int, height: int) {
    Min(y1, y2) <= height - 1 && Max(y1, y2) >= 0 && 1 <= height
  }

  /** Line's clipping against the top and bottom rows: the pair of tests on
      the rows, and the segment cut to the surviving parameters. */
  function ClipLine(e: Seg, height: int): (r: Option<Seg>)
    // nothing survives exactly when the segment's rows miss the screen
    ensures r.Some? <==> MeetsRows(e.y1, e.y2, height)
  {
    var c := ClipRange(e.y1 as real, (e.y2 - e.y1) as real, (height - 1) as real);
    ClipRangeAccepts(e.y1 as real, (e.y2 - e.y1) as real, (height - 1) as real);
    if c.ok then Some(Cut(e, c.t1, c.t2)) else None
  }

  /** `a + t*(b - a)` stored into an `int`, as `x1 += t1 * w` and
      `x2 = (int) (x1 + t2 * w)` do. */
  function Lerp(a: int, b: int, t: real): int { Trunc(a as real + t * (b - a) as real) }

  /** `z1 + t*(z2 - z1)` on an attribute. */
  function LerpAttr(z1: Vec3, z2: Vec3, t: real): Vec3 { z1.Plus(z2.Minus(z1).Times(t)) }

  /** Lines 159-175, one field of the cut segment at a time. When t1 > 0 the
      start moves to t1 along the unclipped deltas; otherwise t1 becomes 0.
      When t2 < 1 the end is re-derived from the already moved start at
      t2 - t1: the column and attribute deltas are taken afresh from the moved
      start, the row delta is the unclipped one. */
  function Cut(e: Seg, t1: real, t2: real): Seg {
    Seg(StartCol(e, t1), StartRow(e, t1), EndCol(e, t1, t2), EndRow(e, t1, t2), StartAttr(e, t1), EndAttr(e, t1, t2))
  }

  /** The start parameter after line 167's `t1 = 0`. */
  function Kept(t1: real): real { if t1 > 0.0 then t1 else 0.0 }

  function StartCol(e: Seg, t1: real): int { if t1 > 0.0 then Lerp(e.x1, e.x2, t1) else e.x1 }
  function StartRow(e: Seg, t1: real): int { if t1 > 0.0 then Lerp(e.y1, e.y2, t1) else e.y1 }
  function StartAttr(e: Seg, t1: real): Vec3 { if t1 > 0.0 then LerpAttr(e.z1, e.z2, t1) else e.z1 }

  function EndCol(e: Seg, t1: real, t2: real): int { EndColFrom(e, StartCol(e, t1), Kept(t1), t2) }
  function EndRow(e: Seg, t1: real, t2: real): int { EndRowFrom(e, StartRow(e, t1), Kept(t1), t2) }
  function EndAttr(e: Seg, t1: real, t2: real): Vec3 { EndAttrFrom(e, StartAttr(e, t1), Kept(t1), t2) }

  /** The end fields re-derived from a moved start (sx, sy, sz) at t2 - t1. */
  function EndColFrom(e: Seg, sx: int, t1: real, t2: real): int {
    if t2 < 1.0 then Lerp(sx, e.x2, t2 - t1) else e.x2
  }
  function EndRowFrom(e: Seg, sy: int, t1: real, t2: real): int {
    if t2 < 1.0 then Trunc(sy as real + (t2 - t1) * (e.y2 - e.y1) as real) else e.y2
  }
  function EndAttrFrom(e: Seg, sz: Vec3, t1: real, t2: real): Vec3 {
    if t2 < 1.0 then LerpAttr(sz, e.z2, t2 - t1) else e.z2
  }

  /** The clipped rows are the original rows clamped onto the screen: exactly,
      because the cut parameters land on the screen's edge rows and the end is
      re-derived with the unclipped row delta. */
  lemma ClipLineRows(e: Seg, height: int)
    requires MeetsRows(e.y1, e.y2, height)
    ensures ClipLine(e, height).value.y1 == ClampRow(e.y1, height - 1)
    ensures ClipLine(e, height).value.y2 == ClampRow(e.y2, height - 1)
  {
    var a, d, top := e.y1 as real, (e.y2 - e.y1) as real, (height - 1) as real;
    ClipRangeAccepts(a, d, top);
    ClipRangeClamps(a, d, top);
    CutRows(e, height - 1, ClipRange(a, d, top));
  }

  /** Rows cut at parameters that land on the clamped ends are the clamped rows. */
  lemma CutRows(e: Seg, top: int, c: Clip)
    requires Lands(e.y1 as real, (e.y2 - e.y1) as real, top as real, c)
    ensures StartRow(e, c.t1) == ClampRow(e.y1, top)
    ensures EndRow(e, c.t1, c.t2) == ClampRow(e.y2, top)
  {
    CutStartRow(e, top, c);
    if c.t2 < 1.0 {
      CutEndRow(e, top, c);
    }
  }

  lemma CutStartRow(e: Seg, top: int, c: Clip)
    requires Lands(e.y1 as real, (e.y2 - e.y1) as real, top as real, c)
    ensures StartRow(e, c.t1) == ClampRow(e.y1, top)
  {
    ClampRowReal(e.y1, top);
    StartRowExact(e, c.t1, ClampRow(e.y1, top));
  }

  lemma CutEndRow(e: Seg, top: int, c: Clip)
    requires Lands(e.y1 as real, (e.y2 - e.y1) as real, top as real, c)
    requires StartRow(e, c.t1) == ClampRow(e.y1, top) && c.t2 < 1.0
    ensures EndRow(e, c.t1, c.t2) == ClampRow(e.y2, top)
  {
    ClampRowReal(e.y1, top);
    ClampEndReal(e.y1, e.y2, top);
    EndRowExact(e, c.t1, c.t2, ClampRow(e.y2, top));
  }

  lemma StartRowExact(e: Seg, t1: real, n: int)
    requires 0.0 <= t1 && e.y1 as real + t1 * (e.y2 - e.y1) as real == n as real
    ensures StartRow(e, t1) == n
  {}

  lemma EndRowExact(e: Seg, t1: real, t2: real, n: int)
    requires 0.0 <= t1 && t2 < 1.0
    requires StartRow(e, t1) as real == e.y1 as real + t1 * (e.y2 - e.y1) as real
    requires e.y1 as real + t2 * (e.y2 - e.y1) as real == n as real
    ensures EndRow(e, t1, t2) == n
  {
    Distribute(t2, t1, (e.y2 - e.y1) as real);
  }

  lemma ClampRowReal(y: int, top: int)
    ensures ClampRow(y, top) as real == ClampReal(y as real, top as real)
  {}

  /** Row y clamped, as a real, with y written as base + (y - base). */
  lemma ClampEndReal(base: int, y: int, top: int)
    ensures ClampRow(y, top) as real == ClampReal(base as real + (y - base) as real, top as real)
  {}

  lemma Distribute(t2: real, t1: real, d: real)
    ensures (t2 - t1) * d == t2 * d - t1 * d
  {}

  /** An end already on the screen keeps its column and attribute. */
  lemma ClipLineKeepsEnds(e: Seg, height: int)
    requires MeetsRows(e.y1, e.y2, height)
    ensures 0 <= e.y1 < height ==> ClipLine(e, height).value.x1 == e.x1 && ClipLine(e, height).value.z1 == e.z1
    ensures 0 <= e.y2 < height ==> ClipLine(e, height).value.x2 == e.x2 && ClipLine(e, height).value.z2 == e.z2
  {
    var a, d, top := e.y1 as real, (e.y2 - e.y1) as real, (height - 1) as real;
    ClipRangeAccepts(a, d, top);
    ClipRangeClamps(a, d, top);
    var c := ClipRange(a, d, top);
    if d == 0.0 {
      ClipRangeInside(a, d, top);
    } else {
      if 0 <= e.y1 < height {
        LandsKeepsStart(a, d, top, c);
      }
      if 0 <= e.y2 < height {
        LandsKeepsEnd(a, d, top, c);
      }
    }
  }

  // The dimensions Line computes for the clipped segment.

  function Dx(s: Seg): nat { if s.x2 >= s.x1 then s.x2 - s.x1 else s.x1 - s.x2 }
  function Dy(s: Seg): nat { if s.y2 >= s.y1 then s.y2 - s.y1 else s.y1 - s.y2 }

  /** The walk steps along x; a segment with |dx| == |dy| walks along y. */
  predicate XMajor(s: Seg) { Dx(s) > Dy(s) }
  function Major(s: Seg): nat { if XMajor(s) then Dx(s) else Dy(s) }
  function Minor(s: Seg): nat { if XMajor(s) then Dy(s) else Dx(s) }

  /** The Bresenham state after some iterations: the error term p and the
      number of iterations that also stepped along the minor axis. */
  datatype Progress = Progress(p: int, m: nat)

  /** Line's integer error accumulation for a major length w and a minor
      length h: p starts at 2h - w; an iteration with p < 0 adds 2h and stays
      on the minor axis, any other adds 2h - 2w and steps along it. */
  function Run(w: nat, h: nat, k: nat): (r: Progress)
    ensures r.m <= k
    decreases k
  {
    if k == 0 then Progress(2 * h - w, 0)
    else
      var pr := Run(w, h, k - 1);
      if pr.p < 0 then Progress(pr.p + 2 * h, pr.m)
      else Progress(pr.p + 2 * h - 2 * w, pr.m + 1)
  }

  /** One more iteration of the accumulation. */
  lemma RunNext(w: nat, h: nat, k: nat)
    ensures Run(w, h, k + 1).p == Run(w, h, k).p + (if Run(w, h, k).p < 0 then 2 * h else 2 * h - 2 * w)
  {}

  /** The closed form of the error term after k iterations with m minor
      steps. */
  function ErrorAt(w: int, h: int, k: int, m: int): int { 2 * (k + 1) * h - (2 * m + 1) * w }

  /** How one iteration changes the closed form. */
  lemma ErrorStep(w: int, h: int, k: int, m: int)
    ensures ErrorAt(w, h, k + 1, m) == ErrorAt(w, h, k, m) + 2 * h
    ensures ErrorAt(w, h, k + 1, m + 1) == ErrorAt(w, h, k, m) + 2 * h - 2 * w
  {}

  /** With all h minor steps made before the last iteration, the error term is
      negative, so the walk never makes one minor step too many. */
  lemma ErrorNoOvershoot(w: int, h: int, k: int)
    requires 0 < w && 0 <= h && k + 1 <= w
    ensures ErrorAt(w, h, k, h) < 0
  {
    MulLe(k + 1, w, h);
  }

  /** After w iterations, an error term below 2h means at least h minor
      steps. */
  lemma ErrorReachesEnd(w: int, h: int, m: int)
    requires 0 < w && 0 <= m && ErrorAt(w, h, w, m) < 2 * h
    ensures h <= m
  {
    if m < h {
      MulLe(2 * m + 1, 2 * h - 1, w);
    }
  }

  lemma MulLe(a: int, b: int, c: int)
    requires a <= b && 0 <= c
    ensures a * c <= b * c
  {}

  /** While the walk lasts, the error term has the closed form
      2(k+1)h - (2m+1)w, stays in [2h - 2w, 2h), and the minor steps never
      exceed h. */
  lemma {:induction false} RunBounds(w: nat, h: nat, k: nat)
    requires 0 < w && h <= w && k <= w
    ensures Run(w, h, k).p == ErrorAt(w, h, k, Run(w, h, k).m)
    ensures 2 * h - 2 * w <= Run(w, h, k).p < 2 * h
    ensures Run(w, h, k).m <= h
    decreases k
  {
    if k > 0 {
      RunBounds(w, h, k - 1);
      var pr := Run(w, h, k - 1);
      ErrorStep(w, h, k - 1, pr.m);
      if pr.m == h {
        ErrorNoOvershoot(w, h, k - 1);
      }
    }
  }

  /** After w iterations the walk has made exactly h minor steps. */
  lemma {:induction false} RunEnds(w: nat, h: nat)
    requires 0 < w && h <= w
    ensures Run(w, h, w).m == h
  {
    RunBounds(w, h, w);
    ErrorReachesEnd(w, h, Run(w, h, w).m);
  }

  /** The number of minor steps never decreases. */
  lemma {:induction false} RunMonotone(w: nat, h: nat, j: nat, k: nat)
    requires j <= k
    ensures Run(w, h, j).m <= Run(w, h, k).m
    decreases k
  {
    if j < k {
      RunMonotone(w, h, j, k - 1);
    }
  }

  // The walk: where Line stands after k iterations and the attribute there.

  function Advances(s: Seg, k: nat): nat { Run(Major(s), Minor(s), k).m }
  function RowOffset(s: Seg, k: nat): nat { if XMajor(s) then Advances(s, k) else k }
  function ColOffset(s: Seg, k: nat): nat { if XMajor(s) then k else Advances(s, k) }

  /** The row after k iterations: never outside the segment's rows. */
  function RowAt(s: Seg, k: nat): (y: int)
    requires k <= Major(s)
    ensures Between(y, s.y1, s.y2)
  {
    if Major(s) == 0 then Move(s.y1, s.y2 >= s.y1, RowOffset(s, k))
    else RunBounds(Major(s), Minor(s), k); Move(s.y1, s.y2 >= s.y1, RowOffset(s, k))
  }

  /** The column after k iterations: never outside the segment's columns. */
  function ColAt(s: Seg, k: nat): (x: int)
    requires k <= Major(s)
    ensures Between(x, s.x1, s.x2)
  {
    if Major(s) == 0 then Move(s.x1, s.x2 >= s.x1, ColOffset(s, k))
    else RunBounds(Major(s), Minor(s), k); Move(s.x1, s.x2 >= s.x1, ColOffset(s, k))
  }

  /** The attribute added per iteration, (z2 - z1) / major. Line divides by
      zero for a zero-length segment and never uses the quotient; the model
      takes zero there. */
  function Step(s: Seg): Vec3 {
    if Major(s) == 0 then Origin3 else s.z2.Minus(s.z1).Times(1.0 / Major(s) as real)
  }
  /** The attribute after k iterations, accumulated one step at a time as
      `z1 += z` does. */
  function AttrAt(s: Seg, k: nat): Vec3 {
    if k == 0 then s.z1 else AttrAt(s, k - 1).Plus(Step(s))
  }
  function EntryAt(s: Seg, k: nat): Entry requires k <= Major(s) { Entry(ColAt(s, k), AttrAt(s, k)) }

  /** Every iteration moves one unit along the major axis and zero or one unit
      along the minor axis, always toward the end. */
  lemma WalkStep(s: Seg, k: nat)
    requires k < Major(s)
    ensures XMajor(s) ==> ColOffset(s, k + 1) == ColOffset(s, k) + 1
    ensures !XMajor(s) ==> RowOffset(s, k + 1) == RowOffset(s, k) + 1
    ensures RowOffset(s, k + 1) - RowOffset(s, k) in {0, 1}
    ensures ColOffset(s, k + 1) - ColOffset(s, k) in {0, 1}
  {}

  /** One unit toward the end: +1 forward, -1 backward. */
  function Dir(forward: bool): int { if forward then 1 else -1 }

  /** An iteration with a negative error term steps along the major axis
      only. */
  lemma WalkNextStraight(s: Seg, k: nat)
    requires k < Major(s) && Run(Major(s), Minor(s), k).p < 0
    ensures RowAt(s, k + 1) == RowAt(s, k) + (if XMajor(s) then 0 else Dir(s.y2 >= s.y1))
    ensures ColAt(s, k + 1) == ColAt(s, k) + (if XMajor(s) then Dir(s.x2 >= s.x1) else 0)
  {}

  /** Any other iteration steps along both axes. */
  lemma WalkNextDiagonal(s: Seg, k: nat)
    requires k < Major(s) && Run(Major(s), Minor(s), k).p >= 0
    ensures RowAt(s, k + 1) == RowAt(s, k) + Dir(s.y2 >= s.y1)
    ensures ColAt(s, k + 1) == ColAt(s, k) + Dir(s.x2 >= s.x1)
  {}

  /** The accumulated attribute is the start attribute plus k steps. */
  lemma {:induction false} AttrClosed(s: Seg, k: nat)
    ensures AttrAt(s, k) == s.z1.Plus(Step(s).Times(k as real))
  {
    if k > 0 {
      AttrClosed(s, k - 1);
      var st, n := Step(s), (k - 1) as real;
      assert k as real == n + 1.0;
      Distributes(n, st.x);
      Distributes(n, st.y);
      Distributes(n, st.z);
    }
  }

  lemma Distributes(n: real, v: real)
    ensures (n + 1.0) * v == n * v + v
  {}

  /** The walk starts at the start point. */
  lemma WalkStarts(s: Seg)
    ensures EntryAt(s, 0) == Entry(s.x1, s.z1)
    ensures RowAt(s, 0) == s.y1
  {}

  /** After `Major` iterations the walk stands exactly on the end point. */
  lemma WalkEnds(s: Seg)
    ensures RowAt(s, Major(s)) == s.y2 && ColAt(s, Major(s)) == s.x2
  {
    if Major(s) > 0 {
      RunEnds(Major(s), Minor(s));
    }
  }

  /** ... carrying the end attribute. */
  lemma WalkEndsAttr(s: Seg)
    requires Major(s) > 0
    ensures AttrAt(s, Major(s)) == s.z2
  {
    var n := Major(s) as real;
    ScaleBack(n, s.z2.x - s.z1.x);
    ScaleBack(n, s.z2.y - s.z1.y);
    ScaleBack(n, s.z2.z - s.z1.z);
    AttrClosed(s, Major(s));
    var a := AttrAt(s, Major(s));
    assert a.x == s.z2.x && a.y == s.z2.y && a.z == s.z2.z;
  }

  lemma ScaleBack(n: real, v: real)
    requires n != 0.0
    ensures n * ((1.0 / n) * v) == v
  {}

  /** The row offset never decreases along the walk. */
  lemma RowMonotone(s: Seg, j: nat, k: nat)
    requires j <= k
    ensures RowOffset(s, j) <= RowOffset(s, k)
  {
    RunMonotone(Major(s), Minor(s), j, k);
  }

  /** The fill cache after the walk's first k iterations, starting from `pre`:
      the start entry is always written; afterwards an iteration writes its row
      when x2 >= x1, and otherwise only when it moved to a new row. */
  function Cache(pre: seq<Entry>, s: Seg, k: nat): (c: seq<Entry>)
    requires 0 <= Min(s.y1, s.y2) && Max(s.y1, s.y2) < |pre|
    requires k <= Major(s)
    ensures |c| == |pre|
    decreases k
  {
    if k == 0 then pre[s.y1 := EntryAt(s, 0)]
    else
      var c := Cache(pre, s, k - 1);
      if s.x2 >= s.x1 || RowAt(s, k) != RowAt(s, k - 1) then c[RowAt(s, k) := EntryAt(s, k)] else c
  }

  /** Only rows the segment spans are touched. */
  lemma {:induction false} CacheElsewhere(pre: seq<Entry>, s: Seg, k: nat)
    requires 0 <= Min(s.y1, s.y2) && Max(s.y1, s.y2) < |pre|
    requires k <= Major(s)
    ensures forall r :: 0 <= r < |pre| && !Between(r, s.y1, s.y2) ==> Cache(pre, s, k)[r] == pre[r]
    decreases k
  {
    if k > 0 {
      CacheElsewhere(pre, s, k - 1);
    }
  }

  /** One more iteration writes its entry exactly when Cache says so. */
  lemma CacheNext(pre: seq<Entry>, s: Seg, k: nat)
    requires 0 <= Min(s.y1, s.y2) && Max(s.y1, s.y2) < |pre|
    requires k < Major(s)
    ensures Cache(pre, s, k + 1) == if s.x2 >= s.x1 || RowAt(s, k + 1) != RowAt(s, k)
      then Cache(pre, s, k)[RowAt(s, k + 1) := EntryAt(s, k + 1)] else Cache(pre, s, k)
  {}

  /** A row holds an entry of the walk: one of the points it visited, with the
      attribute it had there. */
  ghost predicate Holds(s: Seg, c: seq<Entry>, r: int) {
    0 <= r < |c| && exists j :: 0 <= j <= Major(s) && RowAt(s, j) == r && c[r] == EntryAt(s, j)
  }

  /** Every row from the start row to the current row holds an entry of the
      walk so far. */
  lemma {:induction false} CacheCovers(pre: seq<Entry>, s: Seg, k: nat)
    requires 0 <= Min(s.y1, s.y2) && Max(s.y1, s.y2) < |pre|
    requires k <= Major(s)
    ensures forall r :: Between(r, s.y1, RowAt(s, k)) ==>
      exists j :: 0 <= j <= k && RowAt(s, j) == r && Cache(pre, s, k)[r] == EntryAt(s, j)
    decreases k
  {
    if k == 0 {
      forall r | Between(r, s.y1, RowAt(s, 0))
        ensures exists j :: 0 <= j <= 0 && RowAt(s, j) == r && Cache(pre, s, 0)[r] == EntryAt(s, j)
      {
        assert RowAt(s, 0) == r;
      }
    } else {
      CacheCovers(pre, s, k - 1);
      WalkStep(s, k - 1);
      var c := Cache(pre, s, k - 1);
      var wrote := s.x2 >= s.x1 || RowAt(s, k) != RowAt(s, k - 1);
      forall r | Between(r, s.y1, RowAt(s, k))
        ensures exists j :: 0 <= j <= k && RowAt(s, j) == r && Cache(pre, s, k)[r] == EntryAt(s, j)
      {
        if wrote && r == RowAt(s, k) {
          assert RowAt(s, k) == r && Cache(pre, s, k)[r] == EntryAt(s, k);
        } else {
          assert Between(r, s.y1, RowAt(s, k - 1));
          var j :| 0 <= j <= k - 1 && RowAt(s, j) == r && c[r] == EntryAt(s, j);
          assert Cache(pre, s, k)[r] == c[r];
        }
      }
    }
  }

  /** When x2 >= x1 the last visit to a row wins: an iteration after which the
      walk leaves its row (or stops) is what the row finally holds. */
  lemma {:induction false} CacheLastWins(pre: seq<Entry>, s: Seg, j: nat, k: nat)
    requires 0 <= Min(s.y1, s.y2) && Max(s.y1, s.y2) < |pre|
    requires s.x2 >= s.x1 && j <= k <= Major(s)
    requires j == k || RowAt(s, j + 1) != RowAt(s, j)
    ensures Cache(pre, s, k)[RowAt(s, j)] == EntryAt(s, j)
    decreases k
  {
    if j < k {
      CacheLastWins(pre, s, j, k - 1);
      RowMonotone(s, j + 1, k);
      assert RowAt(s, k) != RowAt(s, j);
    }
  }

  /** When x2 < x1 the first visit to a row wins: a row is written only when
      the walk enters it. */
  lemma {:induction false} CacheFirstWins(pre: seq<Entry>, s: Seg, j: nat, k: nat)
    requires 0 <= Min(s.y1, s.y2) && Max(s.y1, s.y2) < |pre|
    requires s.x2 < s.x1 && j <= k <= Major(s)
    requires j == 0 || RowAt(s, j - 1) != RowAt(s, j)
    ensures Cache(pre, s, k)[RowAt(s, j)] == EntryAt(s, j)
    decreases k
  {
    if j < k {
      CacheFirstWins(pre, s, j, k - 1);
      RowMonotone(s, j, k - 1);
      RowMonotone(s, k - 1, k);
      if RowAt(s, k) != RowAt(s, k - 1) {
        assert RowOffset(s, k) != RowOffset(s, k - 1);
        assert RowOffset(s, k) != RowOffset(s, j);
        assert RowAt(s, k) != RowAt(s, j);
      }
    }
  }

  /** The end the write policy keeps: with x2 >= x1 the end row holds the end
      point and its attribute... */
  lemma WalkKeepsEnd(pre: seq<Entry>, s: Seg)
    requires 0 <= Min(s.y1, s.y2) && Max(s.y1, s.y2) < |pre|
    requires s.x2 >= s.x1 && Major(s) > 0
    ensures Cache(pre, s, Major(s))[s.y2] == Entry(s.x2, s.z2)
  {
    WalkEnds(s);
    WalkEndsAttr(s);
    CacheLastWins(pre, s, Major(s), Major(s));
  }

  /** ... otherwise the start row keeps the start point. */
  lemma WalkKeepsStart(pre: seq<Entry>, s: Seg)
    requires 0 <= Min(s.y1, s.y2) && Max(s.y1, s.y2) < |pre|
    requires s.x2 < s.x1
    ensures Cache(pre, s, Major(s))[s.y1] == Entry(s.x1, s.z1)
  {
    WalkStarts(s);
    CacheFirstWins(pre, s, 0, Major(s));
  }

  /** A zero-length segment writes its start entry and nothing else. */
  lemma WalkZeroLength(pre: seq<Entry>, s: Seg)
    requires 0 <= Min(s.y1, s.y2) && Max(s.y1, s.y2) < |pre|
    requires Major(s) == 0
    ensures s.x1 == s.x2 && s.y1 == s.y2
    ensures Cache(pre, s, Major(s)) == pre[s.y1 := Entry(s.x1, s.z1)]
  {
    WalkStarts(s);
  }

  /** Rasterizer::Line's effect on a cache of height + 1 rows. */
  function LineEffect(pre: seq<Entry>, e: Seg, height: int): (c: seq<Entry>)
    requires |pre| == height + 1
    ensures |c| == |pre|
  {
    match ClipLine(e, height)
    case None => pre
    case Some(s) => ClipLineRows(e, height); Cache(pre, s, Major(s))
  }

  /** Line writes only rows between the clamped ends of the segment, and
      nothing at all when the segment's rows miss the screen. */
  lemma LineElsewhere(pre: seq<Entry>, e: Seg, height: int)
    requires |pre| == height + 1
    ensures !MeetsRows(e.y1, e.y2, height) ==> LineEffect(pre, e, height) == pre
    ensures forall r :: 0 <= r < |pre| && !Between(r, ClampRow(e.y1, height - 1), ClampRow(e.y2, height - 1)) ==>
      LineEffect(pre, e, height)[r] == pre[r]
  {
    if MeetsRows(e.y1, e.y2, height) {
      var s := ClipLine(e, height).value;
      ClipLineRows(e, height);
      CacheElsewhere(pre, s, Major(s));
    }
  }

  /** Every row between the clamped ends of a segment that meets the screen
      holds an entry of the walk over the clipped segment. */
  lemma LineCovers(pre: seq<Entry>, e: Seg, height: int)
    requires |pre| == height + 1
    requires MeetsRows(e.y1, e.y2, height)
    ensures forall r :: Between(r, ClampRow(e.y1, height - 1), ClampRow(e.y2, height - 1)) ==>
      Holds(ClipLine(e, height).value, LineEffect(pre, e, height), r)
  {
    var s := ClipLine(e, height).value;
    ClipLineRows(e, height);
    CacheCovers(pre, s, Major(s));
    WalkEnds(s);
  }
}
