/** The Liang–Barsky parametric step of Rasterizer::Test and the pair of such
    steps that Line (against the rows) and Triangle (against the columns) run
    on the parameter interval [0, 1]. */
module Clipping {
  import opened Geometry

  /** The outcome of a clipping step: whether the segment survives, and the
      parameter interval [t1, t2] afterwards (Test's by-reference t1, t2). */
  datatype Clip = Clip(ok: bool, t1: real, t2: real)

  /** Rasterizer::Test. The pair (p, q) stands for the half-line of parameters
      t with p*t <= q; the step intersects [t1, t2] with it and rejects when
      nothing is left. The facts that involve p*t are in TestMeets. */
  function Test(p: real, q: real, t1: real, t2: real): (r: Clip)
    // a rejection leaves the interval alone
    ensures !r.ok ==> r.t1 == t1 && r.t2 == t2
    // an acceptance only narrows the interval and keeps it non-empty
    ensures r.ok && t1 <= t2 ==> t1 <= r.t1 <= r.t2 <= t2
    // a segment parallel to the boundary is rejected exactly when it is outside
    ensures p == 0.0 ==> (r.ok <==> q >= 0.0)
  {
    if p < 0.0 then
      var t := q / p;
      if t > t2 then Clip(false, t1, t2)
      else if t > t1 then Clip(true, t, t2)
      else Clip(true, t1, t2)
    else if p > 0.0 then
      var t := q / p;
      if t < t1 then Clip(false, t1, t2)
      else if t < t2 then Clip(true, t1, t)
      else Clip(true, t1, t2)
    else if q < 0.0 then Clip(false, t1, t2)
    else Clip(true, t1, t2)
  }

  /** What Test keeps is exactly the part of [t1, t2] on the half-line. */
  lemma TestMeets(p: real, q: real, t1: real, t2: real)
    requires t1 <= t2
    // it accepts exactly when some point of [t1, t2] satisfies p*t <= q
    ensures Test(p, q, t1, t2).ok <==> (p * t1 <= q || p * t2 <= q)
    // what is kept satisfies p*t <= q, and a bound only moves onto p*t == q
    ensures var r := Test(p, q, t1, t2);
      r.ok ==> p * r.t1 <= q && p * r.t2 <= q && (r.t1 == t1 || p * r.t1 == q) && (r.t2 == t2 || p * r.t2 == q)
  {
    if p < 0.0 {
      var t := q / p;
      assert p * t == q;
      if t > t2 {
        MulPos(-p, t - t2);
        MulNonPos(p, t2 - t1);
      }
    } else if p > 0.0 {
      var t := q / p;
      assert p * t == q;
    }
  }

  /** `Test(-d, a, t1, t2) && Test(d, top - a, t1, t2)` from t1 = 0, t2 = 1:
      clips the segment a + t*d, t in [0, 1], to the band [0, top]. The second
      step runs only when the first accepts. */
  function ClipRange(a: real, d: real, top: real): (r: Clip)
    ensures r.ok ==> 0.0 <= r.t1 <= r.t2 <= 1.0
  {
    var first := Test(-d, a, 0.0, 1.0);
    if first.ok then Test(d, top - a, first.t1, first.t2) else first
  }

  /** The interval c lies in [0, 1] and its bounds land exactly on the ends of
      the segment a + t*d clamped into the band [0, top]. */
  predicate Lands(a: real, d: real, top: real, c: Clip) {
    0.0 <= c.t1 <= c.t2 <= 1.0 && a + c.t1 * d == ClampReal(a, top) && a + c.t2 * d == ClampReal(a + d, top)
  }

  /** The segment's range [min, max] meets the band [0, top]. */
  predicate Meets(a: real, d: real, top: real) {
    MinReal(a, a + d) <= top && MaxReal(a, a + d) >= 0.0 && 0.0 <= top
  }

  /** What the pair of tests does: it accepts exactly when the segment meets
      the band, and what it keeps lands on the segment clamped into the band. */
  predicate Clips(a: real, d: real, top: real, r: Clip) {
    (r.ok <==> Meets(a, d, top)) && (r.ok ==> Lands(a, d, top, r))
  }

  /** The pair accepts exactly when the segment's range [min, max] meets the
      band [0, top]. */
  lemma ClipRangeAccepts(a: real, d: real, top: real)
    ensures ClipRange(a, d, top).ok <==> Meets(a, d, top)
  {
    ClipRangeIs(a, d, top);
  }

  /** After an acceptance the surviving parameters land exactly on the ends of
      the segment clamped into the band. */
  lemma ClipRangeClamps(a: real, d: real, top: real)
    requires ClipRange(a, d, top).ok
    ensures Lands(a, d, top, ClipRange(a, d, top))
  {
    ClipRangeIs(a, d, top);
  }

  lemma ClipRangeIs(a: real, d: real, top: real)
    ensures Clips(a, d, top, ClipRange(a, d, top))
  {
    var first := Test(-d, a, 0.0, 1.0);
    if d > 0.0 {
      ForwardFirst(a, d);
      if first.ok {
        ForwardSecond(a, d, top, first.t1);
      }
    } else if d < 0.0 {
      BackwardFirst(a, d);
      if first.ok {
        BackwardSecond(a, d, top, first.t2);
      }
    }
  }

  // The two tests on a segment that runs forward (d > 0): the first may move
  // the start up to row 0, the second may move the end down to row top.

  lemma ForwardFirst(a: real, d: real)
    requires d > 0.0
    ensures var f := Test(-d, a, 0.0, 1.0);
      (f.ok <==> a + d >= 0.0) && (f.ok ==> f.t2 == 1.0 && 0.0 <= f.t1 <= 1.0 && a + f.t1 * d == MaxReal(a, 0.0))
  {
    var u := a / -d;
    assert u * -d == a;
    if u > 1.0 {
      MulPos(u - 1.0, d);
    } else if u <= 0.0 {
      MulNonPos(u, d);
    }
  }

  lemma ForwardSecond(a: real, d: real, top: real, s: real)
    requires d > 0.0 && 0.0 <= s <= 1.0 && a + s * d == MaxReal(a, 0.0) && a + d >= 0.0
    ensures Clips(a, d, top, Test(d, top - a, s, 1.0))
  {
    var v := (top - a) / d;
    assert v * d == top - a;
    if v < s {
      MulPos(s - v, d);
      assert (s - v) * d == s * d - v * d;
    } else if v < 1.0 {
      MulPos(1.0 - v, d);
      MulNonPos(s - v, d);
      assert (s - v) * d == s * d - v * d;
      assert (1.0 - v) * d == d - v * d;
    } else {
      MulNonPos(1.0 - v, d);
      assert (1.0 - v) * d == d - v * d;
    }
  }

  // The two tests on a segment that runs backward (d < 0): the first may move
  // the end up to row 0, the second may move the start down to row top.

  lemma BackwardFirst(a: real, d: real)
    requires d < 0.0
    ensures var f := Test(-d, a, 0.0, 1.0);
      (f.ok <==> a >= 0.0) && (f.ok ==> f.t1 == 0.0 && 0.0 <= f.t2 <= 1.0 && a + f.t2 * d == MaxReal(a + d, 0.0))
  {
    var u := a / -d;
    assert u * -d == a;
    if u < 1.0 {
      MulPos(1.0 - u, -d);
      assert (1.0 - u) * -d == -d + u * d;
    } else {
      MulNonPos(1.0 - u, -d);
      assert (1.0 - u) * -d == -d + u * d;
    }
  }

  lemma BackwardSecond(a: real, d: real, top: real, s: real)
    requires d < 0.0 && 0.0 <= s <= 1.0 && a + s * d == MaxReal(a + d, 0.0) && a >= 0.0
    ensures Clips(a, d, top, Test(d, top - a, 0.0, s))
  {
    var v := (top - a) / d;
    assert v * d == top - a;
    if v > s {
      MulPos(v - s, -d);
      assert (v - s) * -d == s * d - v * d;
    } else if v > 0.0 {
      MulPos(v, -d);
      assert v * -d == -(v * d);
      MulNonPos(v - s, -d);
      assert (v - s) * -d == s * d - v * d;
    } else {
      MulNonPos(v, -d);
      assert v * -d == -(v * d);
      MulNonPos(-s, -d);
      assert -s * -d == s * d;
    }
  }

  /** A start already in the band is never moved, unless the segment is parallel. */
  lemma LandsKeepsStart(a: real, d: real, top: real, c: Clip)
    requires Lands(a, d, top, c) && 0.0 <= a <= top && d != 0.0
    ensures c.t1 == 0.0
  {
    assert c.t1 * d == 0.0;
  }

  /** An end already in the band is never moved, unless the segment is parallel. */
  lemma LandsKeepsEnd(a: real, d: real, top: real, c: Clip)
    requires Lands(a, d, top, c) && 0.0 <= a + d <= top && d != 0.0
    ensures c.t2 == 1.0
  {
    assert (c.t2 - 1.0) * d == c.t2 * d - d;
    assert (c.t2 - 1.0) * d == 0.0;
  }

  /** A segment already inside the band is not clipped at all. */
  lemma ClipRangeInside(a: real, d: real, top: real)
    requires 0.0 <= a <= top && 0.0 <= a + d <= top
    ensures ClipRange(a, d, top) == Clip(true, 0.0, 1.0)
  {
    ClipRangeIs(a, d, top);
    var c := ClipRange(a, d, top);
    if d != 0.0 {
      LandsKeepsStart(a, d, top, c);
      LandsKeepsEnd(a, d, top, c);
    }
  }
}
