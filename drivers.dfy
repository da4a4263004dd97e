/** The three drivers AddUVS, AddVertices and AddUVVertices as
    specification functions: how each turns its input into screen-space
    triangles, which triangles it skips, and the index it passes on. The loops
    that run them are methods of Raster.Rasterizer. */
module Drivers {
  import opened Geometry
  import opened Filling

  /** glm::vec4: a homogeneous point. */
  datatype Vec4 = Vec4(x: real, y: real, z: real, w: real)

  /** glm::mat4, by rows: row i holds the coefficients of output component i. */
  datatype Mat4 = Mat4(r0: Vec4, r1: Vec4, r2: Vec4, r3: Vec4)

  function Dot(a: Vec4, b: Vec4): real { a.x * b.x + a.y * b.y + a.z * b.z + a.w * b.w }

  /** `m * v`. */
  function Apply(m: Mat4, v: Vec4): Vec4 { Vec4(Dot(m.r0, v), Dot(m.r1, v), Dot(m.r2, v), Dot(m.r3, v)) }

  /** `glm::vec4(v, 1.0f)`. */
  function Homogeneous(v: Vec3): Vec4 { Vec4(v.x, v.y, v.z, 1.0) }

  /** A vertex transformed by `world2screen`. */
  function Clip4(m: Mat4, v: Vec3): Vec4 { Apply(m, Homogeneous(v)) }

  /** The map from [-1, 1] to [0, 1] and on to raster coordinates; z is kept. */
  function Viewport(x: real, y: real, z: real, width: int, height: int): Vec3 {
    Vec3((x + 1.0) * 0.5 * (width - 1) as real, (y + 1.0) * 0.5 * (height - 1) as real, z)
  }

  // AddUVS

  /** A texture coordinate as a raster point: y mirrored to 1 - y, then both
      axes scaled, depth 0. */
  function UVPoint(uv: Vec2, width: int, height: int): Vec3 {
    Vec3(uv.x * (width - 1) as real, (1.0 - uv.y) * (height - 1) as real, 0.0)
  }

  /** A triangle is skipped when a selection is given and any of its three
      flags is nonzero. */
  predicate Skipped(selected: seq<nat>, i: nat)
    requires selected == [] || i + 2 < |selected|
  {
    selected != [] && (selected[i] != 0 || selected[i + 1] != 0 || selected[i + 2] != 0)
  }

  /** The triangles AddUVS rasterizes, one slot per triple of coordinates: None
      for a skipped one. Its texture coordinates are Triangle's defaults. */
  function UVSteps(uvs: seq<Vec2>, selected: seq<nat>, width: int, height: int): (ts: seq<Option<Tri>>)
    requires |uvs| % 3 == 0 && (selected == [] || |selected| >= |uvs|)
    ensures |ts| == |uvs| / 3
  {
    seq(|uvs| / 3, k requires 0 <= k < |uvs| / 3 =>
      if Skipped(selected, 3 * k) then None
      else Some(Tri(UVPoint(uvs[3 * k], width, height), UVPoint(uvs[3 * k + 1], width, height),
                    UVPoint(uvs[3 * k + 2], width, height), Origin2, Origin2, Origin2)))
  }

  /** Slot k of UVSteps, for the triple starting at i = 3k, read off by one
      lemma so that callers need not unfold the comprehension. */
  lemma UVSlot(uvs: seq<Vec2>, selected: seq<nat>, width: int, height: int, i: nat, k: nat)
    requires |uvs| % 3 == 0 && (selected == [] || |selected| >= |uvs|) && i == 3 * k && i + 2 < |uvs|
    ensures k < |UVSteps(uvs, selected, width, height)|
    ensures UVSteps(uvs, selected, width, height)[k] ==
      if Skipped(selected, i) then None
      else Some(Tri(UVPoint(uvs[i], width, height), UVPoint(uvs[i + 1], width, height),
                    UVPoint(uvs[i + 2], width, height), Origin2, Origin2, Origin2))
  {
    Slot(|uvs|, k);
  }

  // AddVertices

  /** Every vertex has a nonzero w after the transform, so the perspective
      division is defined. */
  predicate Projectable(m: Mat4, vs: seq<Vec3>) {
    forall j :: 0 <= j < |vs| ==> Clip4(m, vs[j]).w != 0.0
  }

  /** A vertex through `world2screen`, divided by |w|, onto the raster. */
  function ScreenPoint(m: Mat4, v: Vec3, width: int, height: int): Vec3
    requires Clip4(m, v).w != 0.0
  {
    var q := Clip4(m, v);
    var n := Abs(q.w);
    Viewport(q.x / n, q.y / n, q.z / n, width, height)
  }

  /** The z component of the cross product (b - a) x (c - a) of the raster
      points, with their z dropped. */
  function CrossZ(a: Vec3, b: Vec3, c: Vec3): real {
    (b.x - a.x) * (c.y - a.y) - (b.y - a.y) * (c.x - a.x)
  }

  predicate BackFacing(t: Tri) { CrossZ(t.a, t.b, t.c) < 0.0 }

  function VertexTri(m: Mat4, vs: seq<Vec3>, i: nat, width: int, height: int): Tri
    requires i + 2 < |vs| && Projectable(m, vs)
  {
    Tri(ScreenPoint(m, vs[i], width, height), ScreenPoint(m, vs[i + 1], width, height),
        ScreenPoint(m, vs[i + 2], width, height), Origin2, Origin2, Origin2)
  }

  /** The triangles AddVertices rasterizes: None for a back-facing one when
      culling is on. */
  function VertexSteps(m: Mat4, vs: seq<Vec3>, culling: bool, width: int, height: int): (ts: seq<Option<Tri>>)
    requires |vs| % 3 == 0 && Projectable(m, vs)
    ensures |ts| == |vs| / 3
  {
    seq(|vs| / 3, k requires 0 <= k < |vs| / 3 => VertexStep(VertexTri(m, vs, 3 * k, width, height), culling))
  }

  /** The culling decision of AddVertices on one projected triangle. */
  function VertexStep(t: Tri, culling: bool): Option<Tri> {
    if culling && BackFacing(t) then None else Some(t)
  }

  /** Slot k of VertexSteps, given the screen points of the triple starting
      at i = 3k and the culling decision on them. */
  lemma VertexSlot(m: Mat4, vs: seq<Vec3>, culling: bool, width: int, height: int, i: nat, k: nat,
                   a: Vec3, b: Vec3, c: Vec3, back: bool)
    requires |vs| % 3 == 0 && Projectable(m, vs) && i == 3 * k && i + 2 < |vs|
    requires a == ScreenPoint(m, vs[i], width, height) && b == ScreenPoint(m, vs[i + 1], width, height)
    requires c == ScreenPoint(m, vs[i + 2], width, height)
    requires back == (culling && CrossZ(a, b, c) < 0.0)
    ensures k < |VertexSteps(m, vs, culling, width, height)|
    ensures VertexSteps(m, vs, culling, width, height)[k] == if back then None else Some(Tri(a, b, c, Origin2, Origin2, Origin2))
  {
    Slot(|vs|, k);
  }

  // AddUVVertices

  /** Every vertex has a nonzero z*w after the transform. */
  predicate Calibratable(m: Mat4, vs: seq<Vec3>) {
    forall j :: 0 <= j < |vs| ==> Clip4(m, vs[j]).z * Clip4(m, vs[j]).w != 0.0
  }

  /** The camera calibration: focal lengths and principal point. */
  datatype Lens = Lens(cx: real, cy: real, fx: real, fy: real)

  /** A vertex through `world2screen`, divided by |z*w|, calibrated, and onto
      the raster. */
  function CalibratedPoint(m: Mat4, v: Vec3, lens: Lens, width: int, height: int): Vec3
    requires Clip4(m, v).z * Clip4(m, v).w != 0.0
  {
    var q := Clip4(m, v);
    var n := Abs(q.z * q.w);
    Viewport(q.x / n * lens.fx + lens.cx, q.y / n * lens.fy + lens.cy, q.z / n, width, height)
  }

  /** The triangles AddUVVertices rasterizes: all of them, each with the
      texture coordinates of its vertices. */
  function UVVertexSteps(m: Mat4, vs: seq<Vec3>, uvs: seq<Vec2>, lens: Lens, width: int, height: int): (ts: seq<Option<Tri>>)
    requires |vs| % 3 == 0 && |uvs| >= |vs| && Calibratable(m, vs)
    ensures |ts| == |vs| / 3
  {
    seq(|vs| / 3, k requires 0 <= k < |vs| / 3 =>
      Some(Tri(CalibratedPoint(m, vs[3 * k], lens, width, height), CalibratedPoint(m, vs[3 * k + 1], lens, width, height),
               CalibratedPoint(m, vs[3 * k + 2], lens, width, height), uvs[3 * k], uvs[3 * k + 1], uvs[3 * k + 2])))
  }

  /** Slot k of UVVertexSteps, for the triple starting at i = 3k. */
  lemma UVVertexSlot(m: Mat4, vs: seq<Vec3>, uvs: seq<Vec2>, lens: Lens, width: int, height: int, i: nat, k: nat)
    requires |vs| % 3 == 0 && |uvs| >= |vs| && Calibratable(m, vs) && i == 3 * k && i + 2 < |vs|
    ensures k < |UVVertexSteps(m, vs, uvs, lens, width, height)|
    ensures UVVertexSteps(m, vs, uvs, lens, width, height)[k] ==
      Some(Tri(CalibratedPoint(m, vs[i], lens, width, height), CalibratedPoint(m, vs[i + 1], lens, width, height),
               CalibratedPoint(m, vs[i + 2], lens, width, height), uvs[i], uvs[i + 1], uvs[i + 2]))
  {
    Slot(|vs|, k);
  }

  // The common loop

  /** The triangles of `ts` rasterized in order, slot k with index 3k; a None
      slot is passed over. */
  function Draw(f: Frame, width: int, height: int, ts: seq<Option<Tri>>): (r: Frame)
    requires |f.cache1| == height + 1 && |f.cache2| == height + 1
    ensures |r.cache1| == height + 1 && |r.cache2| == height + 1
    decreases |ts|
  {
    if ts == [] then f
    else
      var g := Draw(f, width, height, ts[..|ts| - 1]);
      match ts[|ts| - 1]
      case None => g
      case Some(t) => TriangleEffect(g, width, height, 3 * (|ts| - 1), t)
  }

  /** One more slot that holds a triangle rasterizes it with index 3k. */
  lemma DrawStep(f: Frame, width: int, height: int, ts: seq<Option<Tri>>, k: nat, t: Tri)
    requires |f.cache1| == height + 1 && |f.cache2| == height + 1
    requires k < |ts| && ts[k] == Some(t)
    ensures Draw(f, width, height, ts[..k + 1]) == TriangleEffect(Draw(f, width, height, ts[..k]), width, height, 3 * k, t)
  {
    assert ts[..k + 1][..k] == ts[..k];
  }

  /** One more empty slot changes nothing. */
  lemma DrawSkip(f: Frame, width: int, height: int, ts: seq<Option<Tri>>, k: nat)
    requires |f.cache1| == height + 1 && |f.cache2| == height + 1
    requires k < |ts| && ts[k] == None
    ensures Draw(f, width, height, ts[..k + 1]) == Draw(f, width, height, ts[..k])
  {
    assert ts[..k + 1][..k] == ts[..k];
  }

  /** A span reported for slot s.index / 3 of `ts`, which holds a triangle. */
  ghost predicate DrawnFrom(s: Span, ts: seq<Option<Tri>>) {
    s.index % 3 == 0 && s.index / 3 < |ts| && ts[s.index / 3].Some?
  }

  /** Every span in `rs` comes from a triangle slot of `ts`. */
  ghost predicate AllDrawnFrom(rs: seq<Span>, ts: seq<Option<Tri>>) {
    forall s :: s in rs ==> DrawnFrom(s, ts)
  }

  /** f's spans are a prefix of r's. */
  predicate Extends(f: Frame, r: Frame) {
    |f.spans| <= |r.spans| && r.spans[..|f.spans|] == f.spans
  }

  /** A slot drawn from a prefix is drawn from the whole sequence. */
  lemma DrawnFromLonger(rs: seq<Span>, ts: seq<Option<Tri>>, n: nat)
    requires n <= |ts| && AllDrawnFrom(rs, ts[..n])
    ensures AllDrawnFrom(rs, ts)
  {
    forall s | s in rs
      ensures DrawnFrom(s, ts)
    {
      assert DrawnFrom(s, ts[..n]);
      assert ts[..n][s.index / 3] == ts[s.index / 3];
    }
  }

  /** Spans that carry the index 3n of a slot n holding a triangle come from
      that slot. */
  lemma IndexedDrawnFrom(rs: seq<Span>, ts: seq<Option<Tri>>, n: nat)
    requires n < |ts| && ts[n].Some? && AllIndexed(rs, 3 * n)
    ensures AllDrawnFrom(rs, ts)
  {
    Thirds(n);
  }

  /** Triple k of a sequence of n = 3q items starts inside it exactly when
      k is one of its q slots. */
  lemma Slot(n: nat, k: nat)
    requires n % 3 == 0
    ensures 3 * k < n <==> k < n / 3
    ensures 3 * k == n <==> k == n / 3
    ensures 3 * k < n ==> 3 * k + 2 < n
  {
    var q := n / 3;
    assert n == 3 * q;
  }

  lemma Thirds(n: nat)
    ensures (3 * n) % 3 == 0 && (3 * n) / 3 == n
  {}

  /** Appending spans drawn from `ts` to spans drawn from `ts`. */
  lemma AddedJoin(f: Frame, g: Frame, r: Frame, ts: seq<Option<Tri>>)
    requires Extends(f, g) && Extends(g, r)
    requires AllDrawnFrom(Added(f, g), ts) && AllDrawnFrom(Added(g, r), ts)
    ensures Extends(f, r) && AllDrawnFrom(Added(f, r), ts)
  {
    assert r.spans == f.spans + Added(f, g) + Added(g, r);
    assert Added(f, r) == Added(f, g) + Added(g, r);
  }

  /** A driver only appends spans, and every span it appends carries the
      index 3k of a slot k that holds a triangle. */
  lemma {:induction false} DrawAppends(f: Frame, width: int, height: int, ts: seq<Option<Tri>>)
    requires |f.cache1| == height + 1 && |f.cache2| == height + 1
    ensures var r := Draw(f, width, height, ts);
      Extends(f, r) && AllDrawnFrom(Added(f, r), ts)
    decreases |ts|
  {
    if ts != [] {
      var n := |ts| - 1;
      var g := Draw(f, width, height, ts[..n]);
      DrawAppends(f, width, height, ts[..n]);
      DrawnFromLonger(Added(f, g), ts, n);
      match ts[n]
      case None =>
        assert Draw(f, width, height, ts) == g;
      case Some(t) =>
        var r := TriangleEffect(g, width, height, 3 * n, t);
        assert Draw(f, width, height, ts) == r;
        TriangleIndexed(g, width, height, 3 * n, t);
        IndexedDrawnFrom(Added(g, r), ts, n);
        AddedJoin(f, g, r, ts);
    }
  }

  /** A sequence with no triangle draws nothing. */
  lemma {:induction false} DrawNothing(f: Frame, width: int, height: int, ts: seq<Option<Tri>>)
    requires |f.cache1| == height + 1 && |f.cache2| == height + 1
    requires forall k :: 0 <= k < |ts| ==> ts[k].None?
    ensures Draw(f, width, height, ts) == f
    decreases |ts|
  {
    if ts != [] {
      DrawNothing(f, width, height, ts[..|ts| - 1]);
    }
  }

  /** AddUVS reports spans only for triangles i = 0, 3, 6, ... of the input
      whose selection flags are all zero. */
  lemma UVSDrawn(f: Frame, width: int, height: int, uvs: seq<Vec2>, selected: seq<nat>)
    requires |f.cache1| == height + 1 && |f.cache2| == height + 1
    requires |uvs| % 3 == 0 && (selected == [] || |selected| >= |uvs|)
    ensures var r := Draw(f, width, height, UVSteps(uvs, selected, width, height));
      Extends(f, r) &&
      forall s :: s in Added(f, r) ==> s.index % 3 == 0 && s.index + 2 < |uvs| && !Skipped(selected, s.index)
  {
    var ts := UVSteps(uvs, selected, width, height);
    var r := Draw(f, width, height, ts);
    DrawAppends(f, width, height, ts);
    forall s | s in Added(f, r)
      ensures s.index % 3 == 0 && s.index + 2 < |uvs| && !Skipped(selected, s.index)
    {
      assert DrawnFrom(s, ts);
      assert 3 * (s.index / 3) == s.index;
    }
  }

  /** A selection that covers every triangle makes AddUVS report nothing and
      leave the caches alone. */
  lemma UVSAllSelected(f: Frame, width: int, height: int, uvs: seq<Vec2>, selected: seq<nat>)
    requires |f.cache1| == height + 1 && |f.cache2| == height + 1
    requires |uvs| % 3 == 0 && selected != [] && |selected| >= |uvs|
    requires forall j :: 0 <= j < |uvs| ==> selected[j] != 0
    ensures Draw(f, width, height, UVSteps(uvs, selected, width, height)) == f
  {
    var ts := UVSteps(uvs, selected, width, height);
    forall k | 0 <= k < |ts|
      ensures ts[k].None?
    {
      assert selected[3 * k] != 0;
    }
    DrawNothing(f, width, height, ts);
  }

  /** With culling on, AddVertices reports spans only for triangles that are
      not back-facing. */
  lemma VerticesDrawn(f: Frame, width: int, height: int, m: Mat4, vs: seq<Vec3>, culling: bool)
    requires |f.cache1| == height + 1 && |f.cache2| == height + 1
    requires |vs| % 3 == 0 && Projectable(m, vs)
    ensures var r := Draw(f, width, height, VertexSteps(m, vs, culling, width, height));
      Extends(f, r) &&
      forall s :: s in Added(f, r) ==>
        (s.index % 3 == 0 && s.index + 2 < |vs| && !(culling && BackFacing(VertexTri(m, vs, s.index, width, height))))
  {
    var ts := VertexSteps(m, vs, culling, width, height);
    var r := Draw(f, width, height, ts);
    DrawAppends(f, width, height, ts);
    forall s | s in Added(f, r)
      ensures s.index % 3 == 0 && s.index + 2 < |vs| && !(culling && BackFacing(VertexTri(m, vs, s.index, width, height)))
    {
      assert DrawnFrom(s, ts);
      assert 3 * (s.index / 3) == s.index;
    }
  }

  /** When no triangle is back-facing, culling changes nothing. */
  lemma CullingHarmless(m: Mat4, vs: seq<Vec3>, width: int, height: int)
    requires |vs| % 3 == 0 && Projectable(m, vs)
    requires forall k :: 0 <= k < |vs| / 3 ==> !BackFacing(VertexTri(m, vs, 3 * k, width, height))
    ensures VertexSteps(m, vs, true, width, height) == VertexSteps(m, vs, false, width, height)
  {
    var on, off := VertexSteps(m, vs, true, width, height), VertexSteps(m, vs, false, width, height);
    assert forall k :: 0 <= k < |on| ==> on[k] == off[k];
  }

  /** A triangle is rasterized by AddVertices with culling on exactly when it
      is not back-facing. */
  lemma CullingSkips(m: Mat4, vs: seq<Vec3>, width: int, height: int, k: nat)
    requires |vs| % 3 == 0 && Projectable(m, vs) && k < |vs| / 3
    ensures VertexSteps(m, vs, true, width, height)[k].None? <==> BackFacing(VertexTri(m, vs, 3 * k, width, height))
  {}

  /** AddUVVertices reports spans for triangles i = 0, 3, 6, ... of the input,
      none skipped: every slot holds one, with the vertices' own texture
      coordinates. */
  lemma UVVerticesDrawn(f: Frame, width: int, height: int, m: Mat4, vs: seq<Vec3>, uvs: seq<Vec2>, lens: Lens)
    requires |f.cache1| == height + 1 && |f.cache2| == height + 1
    requires |vs| % 3 == 0 && |uvs| >= |vs| && Calibratable(m, vs)
    ensures var ts := UVVertexSteps(m, vs, uvs, lens, width, height);
      var r := Draw(f, width, height, ts);
      Extends(f, r) &&
      (forall s :: s in Added(f, r) ==> s.index % 3 == 0 && s.index + 2 < |vs|) &&
      forall k :: 0 <= k < |ts| ==> ts[k].Some? && ts[k].value.ta == uvs[3 * k] && ts[k].value.tb == uvs[3 * k + 1] && ts[k].value.tc == uvs[3 * k + 2]
  {
    var ts := UVVertexSteps(m, vs, uvs, lens, width, height);
    var r := Draw(f, width, height, ts);
    DrawAppends(f, width, height, ts);
    forall s | s in Added(f, r)
      ensures s.index % 3 == 0 && s.index + 2 < |vs|
    {
      assert DrawnFrom(s, ts);
    }
    forall k | 0 <= k < |ts|
      ensures ts[k].Some? && ts[k].value.ta == uvs[3 * k] && ts[k].value.tb == uvs[3 * k + 1] && ts[k].value.tc == uvs[3 * k + 2]
    {
      UVVertexTexture(m, vs, uvs, lens, width, height, k);
    }
  }

  /** Slot k of UVVertexSteps holds a triangle with the texture coordinates
      of the triple starting at 3k. */
  lemma UVVertexTexture(m: Mat4, vs: seq<Vec3>, uvs: seq<Vec2>, lens: Lens, width: int, height: int, k: nat)
    requires |vs| % 3 == 0 && |uvs| >= |vs| && Calibratable(m, vs) && k < |vs| / 3
    ensures 3 * k + 2 < |vs|
    ensures var t := UVVertexSteps(m, vs, uvs, lens, width, height)[k];
      t.Some? && t.value.ta == uvs[3 * k] && t.value.tb == uvs[3 * k + 1] && t.value.tc == uvs[3 * k + 2]
  {
    Slot(|vs|, k);
  }
}
