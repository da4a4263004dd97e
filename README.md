# Scanline rasterizer of the mesh editor, in Dafny

This project models class `Rasterizer` of `common/editor/rasterizer.cc`: the
scanline rasterizer that the mesh editor uses to find which triangles cover
which pixels. The class keeps a viewport size and two fill caches. Each cache
has one `(x, attribute)` entry per row plus one.

- `Test` is one Liang–Barsky clipping step on a parameter interval.
- `Line` clips a segment to the screen rows and walks what is left with
  Bresenham's integer error term. It writes the column and the interpolated
  attribute of visited points into a cache, indexed by row. When x2 >= x1 it
  writes every visited point, so a row keeps its last one. Otherwise it writes
  only the first visited point of each row.
- `Triangle` walks the long edge into cache 1 and the other two edges into
  cache 2. The long edge is the one with the largest truncated height
  `(int) abs(dy)` of the unrounded vertices, ties going to ab, then ac. The
  edges are walked between the rounded corners. `Triangle` then takes the long
  edge's rows from its first rounded row to its last, clamped to
  `[0, viewport_height - 1]`. Through `Process` it reports the span between
  the two cache entries of each such row that overlaps the screen columns.
- `SetResolution` keeps both caches at `h + 1` rows.
- `AddUVS`, `AddVertices` and `AddUVVertices` turn their input into
  screen-space triangles three vertices at a time. `AddUVS` skips a triangle
  when the selection is non-empty and any of its three vertices is already
  selected (a nonzero flag); `AddVertices` skips back-facing triangles when
  culling is on. The rest go to `Triangle` with the index `i` of their first
  vertex.

The modules follow the source's layers:

- `Geometry`: vectors, the C++ `(int)` conversion (`Trunc`, truncation toward
  zero), cache entries, and clamping.
- `Clipping`: `Test` as a function returning `(ok, t1', t2')`, and the pair of
  tests that `Line` (rows) and `Triangle` (columns) run from `[0, 1]`.
- `EdgeWalk`: the specification of `Line`:
  - `ClipLine`, the clipped segment, with the clipped end re-derived from the
    already moved start exactly as the code does it;
  - `Run`, `RowAt`, `ColAt` and `AttrAt`, the Bresenham iterations;
  - `Cache`, the cache after k iterations under the write policy;
  - `LineEffect`, the whole effect of one call.
- `Filling`: the specification of `Triangle`: `LongEdge`, `Arrange` (which edge
  goes into which cache), `SpanAt`, `RowSpans` and `TriangleEffect`.
- `Drivers`: the three drivers as specification functions, each a sequence of
  optional triangles (`None` for a skipped slot), and `Draw`, their common
  loop.
- `Raster`: class `Rasterizer` with array fields `fillCache1` and `fillCache2`
  and a `spans` field recording every `Process` call. Each method is proved
  against the specification function of its module:
  - `Line` against `LineEffect`;
  - `Triangle` against `TriangleEffect`;
  - the drivers against `Draw`.

A 4x4 matrix `Mat4(r0, r1, r2, r3)` is stored by rows, so `Apply(m, v)` has
component i equal to row i dotted with v. glm stores `mat4` by columns; the
product `world2screen * wa` at lines 45-47 is the same linear map, with row i of
the model holding element i of each of glm's four columns.

Floating-point and double values are modelled as `real`, so all arithmetic is
exact. Every `(int)` conversion is `Trunc`, including the implicit one in
`x1 += t1 * w`. The `+ 0.5f` rounding of the corners is `Trunc(v + 0.5)`.

One expectation about `Triangle` does not hold under exact arithmetic. Because
the caches are never cleared, one might expect `Triangle` to read rows that the
current call did not write. It does not: every row from its first row to its
last is written by this call, in cache 1 by the long edge (`FillLongCovers`)
and in cache 2 by one of the short edges (`FillShortCovers`). A stale row is
possible only through float rounding of a clipped start or end row: the
start row `y1 += t1 * h` at line 164 and the end row `(int)(y1 + t2 * h)` at
line 173. In both, the rounded product can fall just below an integer and is
then truncated to the row before. For example, with `y1 = 0`, `y2 = 49`
and height 2, `t2 = 1/49` and `0 + (1/49) * 49` is `0.9999999999999999` in
doubles. The end row then becomes 0 instead of 1, and row 1 of the cache is
read without having been written. A start clipped onto the last row H - 1
from above can likewise land on row H - 2, leaving row H - 1 stale. Over exact
reals these products are exact, so the model does not show this.

A second property of `Triangle` holds, and the model reproduces it. The long
edge is chosen by the truncated heights of the unrounded vertices (lines
278-280), but the rows filled come from the rounded corners (lines 281-301).
So the filled rows can miss the row a vertex rounds onto. `LongEdgeMissesRow`
gives an example: `a.y = 0.45`, `b.y = 1.45` and `c.y = 1.55` make ab and ac
both of height 1. ab wins the tie, so rows 0 to 1 are filled, while c rounds
onto row 2, which is not reported.

## Model

| member | source | states |
|---|---|---|
| Clipping.Test | common/editor/rasterizer.cc:245-272 | a rejection leaves [t1, t2] unchanged; an acceptance only narrows a non-empty interval and keeps it non-empty; with p = 0 it accepts exactly when q >= 0 |
| Clipping.TestMeets | common/editor/rasterizer.cc:245-272 | the step accepts exactly when some point of [t1, t2] satisfies p*t <= q; the kept bounds satisfy it, and a bound only moves onto p*t == q |
| Clipping.ClipRange | common/editor/rasterizer.cc:154 | what the pair of tests from [0, 1] keeps lies in [0, 1] |
| Clipping.ClipRangeIs | common/editor/rasterizer.cc:154 | the pair accepts exactly when the segment's range meets the band, and what it keeps lands on the segment's ends clamped into the band |
| Clipping.ClipRangeAccepts | common/editor/rasterizer.cc:154 | the pair accepts exactly when min(a, b) <= top and max(a, b) >= 0 (and the band is not empty) |
| Clipping.ClipRangeClamps | common/editor/rasterizer.cc:154 | after an acceptance, a + t1*d and a + t2*d are the clamped start and end |
| Clipping.ClipRangeInside | common/editor/rasterizer.cc:154 | a segment already inside the band keeps the whole interval [0, 1] |
| Clipping.LandsKeepsStart | common/editor/rasterizer.cc:159-167 | a start already in the band is never moved for a non-parallel segment |
| Clipping.LandsKeepsEnd | common/editor/rasterizer.cc:168-175 | an end already in the band is never moved for a non-parallel segment |
| Filling.ColumnsAccepted | common/editor/rasterizer.cc:313-316 | the column pair of tests accepts a row exactly when its span overlaps the columns [0, width - 1] |
| Geometry.Trunc | common/editor/rasterizer.cc:172-173 | `(int)` truncates toward zero: within one unit of the value on the side of zero, and exact on integers |
| EdgeWalk.ClipLine | common/editor/rasterizer.cc:152-175 | a clipped segment exists exactly when the segment's rows meet [0, height - 1] |
| EdgeWalk.Cut | common/editor/rasterizer.cc:159-175 | defines the cut segment field by field: the moved start, and the end re-derived from it |
| EdgeWalk.StartCol | common/editor/rasterizer.cc:160-167 | defines the start column: moved by `x1 += t1 * w` and truncated when t1 > 0, else kept |
| EdgeWalk.StartRow | common/editor/rasterizer.cc:160-167 | defines the start row: moved by `y1 += t1 * h` and truncated when t1 > 0, else kept |
| EdgeWalk.StartAttr | common/editor/rasterizer.cc:160-167 | defines the start attribute: moved by `z1 += t1 * z` when t1 > 0, else kept |
| EdgeWalk.EndCol | common/editor/rasterizer.cc:168-172 | defines the end column: `(int)(x1 + (t2 - t1) * w)` from the moved start with w taken afresh when t2 < 1, else kept |
| EdgeWalk.EndRow | common/editor/rasterizer.cc:168-173 | defines the end row: `(int)(y1 + (t2 - t1) * h)` from the moved start with the unclipped h when t2 < 1, else kept |
| EdgeWalk.EndAttr | common/editor/rasterizer.cc:168-174 | defines the end attribute: `z1 + (t2 - t1) * z` from the moved start with z taken afresh when t2 < 1, else kept |
| EdgeWalk.ClipLineRows | common/editor/rasterizer.cc:152-175 | the clipped rows are the original rows clamped into [0, height - 1], because y is moved with the unrecomputed h |
| EdgeWalk.CutRows | common/editor/rasterizer.cc:159-175 | when the tests' interval lands on the clamped ends, the moved start row and the re-derived end row are those clamped rows |
| EdgeWalk.ClipLineKeepsEnds | common/editor/rasterizer.cc:159-175 | an end already on screen keeps its column and attribute |
| EdgeWalk.Dx | common/editor/rasterizer.cc:178-179 | defines the column length of the clipped segment, `wp ? x2 - x1 : x1 - x2` |
| EdgeWalk.Dy | common/editor/rasterizer.cc:180-181 | defines the row length of the clipped segment, `hp ? y2 - y1 : y1 - y2` |
| EdgeWalk.XMajor | common/editor/rasterizer.cc:184 | defines the strict choice `w > h`: the walk steps along x only when the column length exceeds the row length, so a diagonal with equal lengths walks along y |
| EdgeWalk.Major | common/editor/rasterizer.cc:178-206 | defines the length walked, the column length when stepping along x and the row length otherwise, after the swap of lines 204-206 |
| EdgeWalk.Minor | common/editor/rasterizer.cc:178-206 | defines the other length, the one the error term steps along |
| Raster.MoveStart | common/editor/rasterizer.cc:159-167 | the start moved to t1 along the unclipped deltas, or t1 reset to 0 |
| Raster.MoveEnd | common/editor/rasterizer.cc:168-175 | the end re-derived from the moved start at t2 - t1, with the column and attribute deltas from the moved start and the original row delta |
| EdgeWalk.Run | common/editor/rasterizer.cc:213-230 | the error term p from 2h - w, adding 2h on p < 0 and 2h - 2w otherwise; the minor steps taken after k iterations are at most k |
| EdgeWalk.RunBounds | common/editor/rasterizer.cc:213-230 | the error term equals its closed form 2(k+1)h - (2m+1)w, stays in [2h - 2w, 2h) and never counts more than h minor steps |
| EdgeWalk.RunEnds | common/editor/rasterizer.cc:219-230 | after w iterations exactly h minor steps have been taken |
| EdgeWalk.RunMonotone | common/editor/rasterizer.cc:219-230 | the count of minor steps never decreases |
| EdgeWalk.RowAt | common/editor/rasterizer.cc:219-230 | the row after k iterations lies between the segment's end rows |
| EdgeWalk.ColAt | common/editor/rasterizer.cc:219-230 | the column after k iterations lies between the segment's end columns |
| EdgeWalk.WalkStep | common/editor/rasterizer.cc:219-230 | each iteration moves one unit along the major axis and zero or one unit along the minor axis, toward the end |
| EdgeWalk.WalkNextStraight | common/editor/rasterizer.cc:222-225 | with a negative error term the point moves by (xp0, yp0): along the major axis only |
| EdgeWalk.WalkNextDiagonal | common/editor/rasterizer.cc:226-230 | otherwise it moves by (xp1, yp1): one step on both axes |
| EdgeWalk.RowMonotone | common/editor/rasterizer.cc:219-230 | the distance travelled along the rows never decreases |
| EdgeWalk.Step | common/editor/rasterizer.cc:209-210 | defines the attribute step (z2 - z1) / w over the major length, zero for a zero-length segment |
| EdgeWalk.AttrAt | common/editor/rasterizer.cc:218-231 | defines the attribute after k iterations as z1 plus k accumulations of the step, as `z1 += z` does |
| EdgeWalk.WalkStarts | common/editor/rasterizer.cc:216-218 | the walk starts at the clipped start, with its attribute |
| EdgeWalk.WalkEnds | common/editor/rasterizer.cc:219-239 | after max(abs dx, abs dy) iterations the walk is exactly at (x2, y2) |
| EdgeWalk.AttrClosed | common/editor/rasterizer.cc:209-231 | the attribute accumulated by `z1 += z` after k iterations is z1 + k (z2 - z1) / major |
| EdgeWalk.WalkEndsAttr | common/editor/rasterizer.cc:209-231 | the last iteration carries the attribute z2 |
| EdgeWalk.Cache | common/editor/rasterizer.cc:217-238 | the walk's writes keep the cache's size |
| EdgeWalk.CacheElsewhere | common/editor/rasterizer.cc:217-238 | no row outside the segment's rows is written |
| EdgeWalk.CacheCovers | common/editor/rasterizer.cc:217-238 | every row from the start row to the current row holds an entry of a point the walk visited, so rows are contiguous |
| EdgeWalk.CacheLastWins | common/editor/rasterizer.cc:234-238 | with x2 >= x1 a row holds its last visit |
| EdgeWalk.CacheFirstWins | common/editor/rasterizer.cc:234-238 | with x2 < x1 a row holds its first visit |
| EdgeWalk.WalkKeepsEnd | common/editor/rasterizer.cc:234-238 | with x2 >= x1 the end row ends up holding (x2, z2) |
| EdgeWalk.WalkKeepsStart | common/editor/rasterizer.cc:217-238 | with x2 < x1 the start row keeps (x1, z1) |
| EdgeWalk.WalkZeroLength | common/editor/rasterizer.cc:217-219 | a zero-length segment writes its start entry and nothing else |
| EdgeWalk.LineEffect | common/editor/rasterizer.cc:148-243 | a call keeps the cache's size |
| EdgeWalk.LineElsewhere | common/editor/rasterizer.cc:152-154 | a segment whose rows miss the screen writes nothing; otherwise rows outside its clamped rows are untouched |
| EdgeWalk.LineCovers | common/editor/rasterizer.cc:152-239 | every row between the clamped end rows holds an entry of the clipped walk |
| Raster.Walk | common/editor/rasterizer.cc:177-239 | the walk of a clipped segment leaves the cache as Cache after max(abs dx, abs dy) iterations, every write within the segment's rows |
| Raster.Bresenham | common/editor/rasterizer.cc:212-239 | the loop, from the directions set up by the prelude, leaves the cache as Cache after all iterations |
| Raster.Next | common/editor/rasterizer.cc:219-238 | one iteration takes the error term, point, attribute and cache from iteration k to k + 1 |
| Raster.Advance | common/editor/rasterizer.cc:222-230 | the error term and point after one more iteration |
| Raster.Plot | common/editor/rasterizer.cc:233-238 | the conditional write gives the cache after one more iteration, and the last row written becomes y1 |
| Raster.Rasterizer.Line | common/editor/rasterizer.cc:148-243 | returns true exactly when the segment's rows meet the screen, and leaves the cache as LineEffect |
| Filling.Height | common/editor/rasterizer.cc:278-280 | the truncated height `(int) abs(p.y - q.y)`: the whole rows of the unrounded vertical extent, never negative |
| Filling.Round | common/editor/rasterizer.cc:281-283 | the corner rounding `(int)(v + 0.5f)`: the nearest integer, halves up, from -0.5 up; below -0.5 truncation toward zero rounds v + 0.5 up |
| Filling.Attr | common/editor/rasterizer.cc:285-299 | defines a vertex's attribute `glm::dvec3(t, p.z)`: its texture coordinate and its depth |
| Filling.CornerOf | common/editor/rasterizer.cc:281-283 | defines a vertex's corner: both coordinates rounded by `+ 0.5f` and truncated, with the vertex's attribute |
| Filling.Join | common/editor/rasterizer.cc:285-299 | defines the segment one Line call is given: from one corner to the other, with their attributes |
| Filling.LongEdge | common/editor/rasterizer.cc:278-302 | the chosen edge has the largest truncated abs dy, and ties go in the order ab, ac, bc |
| Filling.Arrange | common/editor/rasterizer.cc:284-302 | each edge is walked exactly once, from its first vertex to its second, and the long edge goes into cache 1 |
| Filling.PlanOf | common/editor/rasterizer.cc:278-302 | defines the three walks of a triangle: Arrange of its LongEdge over its rounded corners |
| Filling.Lo | common/editor/rasterizer.cc:288-301 | defines the first filled row, `max(0, min(y1, y2))` of the long edge |
| Filling.Hi | common/editor/rasterizer.cc:288-301 | defines the last filled row, `min(max(y1, y2), viewport_height - 1)` of the long edge |
| Filling.ArrangeChained | common/editor/rasterizer.cc:284-302 | the two short edges together reach every row of the long edge |
| Filling.PlanChained | common/editor/rasterizer.cc:281-302 | the same holds for any triangle's arrangement |
| Filling.LongEdgeMissesRow | common/editor/rasterizer.cc:278-301 | for a.y = 0.45, b.y = 1.45, c.y = 1.55 the tie-broken long edge ab fills rows 0 to 1 while c rounds onto row 2 |
| Filling.SpanAt | common/editor/rasterizer.cc:316-323 | a row is reported exactly when its span overlaps the columns, with the triangle's index and the row, its ends unclipped and in increasing x with attributes swapped alongside, a tie putting cache 2 first |
| Filling.RowSpans | common/editor/rasterizer.cc:306-325 | defines the fill loop's output: the spans of rows lo to hi in order, a row contributing its SpanAt when there is one |
| Filling.RowSpansSound | common/editor/rasterizer.cc:306-325 | every reported span is its own row's span, and the row is in range |
| Filling.RowSpansIncreasing | common/editor/rasterizer.cc:306-325 | spans are reported in strictly increasing rows |
| Filling.RowSpansComplete | common/editor/rasterizer.cc:306-325 | every row in range whose span overlaps the columns is reported |
| Filling.Fill | common/editor/rasterizer.cc:284-325 | Triangle keeps both caches at height + 1 rows |
| Filling.TriangleEffect | common/editor/rasterizer.cc:274-326 | a call to Triangle keeps both caches at height + 1 rows |
| Filling.FillAppends | common/editor/rasterizer.cc:304-325 | Triangle only appends spans, each with its index, a row in the filled range and x1 <= x2 |
| Filling.FillOrdered | common/editor/rasterizer.cc:306-325 | the appended spans come in strictly increasing rows |
| Filling.FillReports | common/editor/rasterizer.cc:306-323 | a filled row gets a span exactly when its cache entries overlap the columns, and that span is SpanAt of them |
| Filling.FillLongCovers | common/editor/rasterizer.cc:284-306 | every filled row of cache 1 was written by this call's long edge |
| Filling.FillShortCovers | common/editor/rasterizer.cc:284-306 | every filled row of cache 2 was written by this call's short edges, the second edge winning where both reach |
| Filling.RowUntouched | common/editor/rasterizer.cc:148-243 | a row outside a segment's rows is not written by its walk |
| Filling.FillOffscreen | common/editor/rasterizer.cc:288-306 | a long edge whose rows miss the screen reports no span |
| Filling.TriangleIndexed | common/editor/rasterizer.cc:274-326 | a call only appends spans, all carrying its index |
| Raster.Rasterizer.Triangle | common/editor/rasterizer.cc:274-326 | leaves caches and spans as TriangleEffect and keeps both caches at height + 1 rows |
| Raster.Rasterizer.Edges | common/editor/rasterizer.cc:278-302 | the caches after the three walks chosen by LongEdge and Arrange, and the filled row range |
| Raster.Rasterizer.Walks | common/editor/rasterizer.cc:284-287 | one branch's three Line calls: the long edge into cache 1, then the two others into cache 2 |
| Raster.Rasterizer.FillRows | common/editor/rasterizer.cc:304-325 | the spans after the fill loop are the old ones followed by RowSpans of the range |
| Raster.Rasterizer.FillRow | common/editor/rasterizer.cc:307-323 | one row appends SpanAt of its two cache entries, if any |
| Raster.Rasterizer.Process | common/editor/rasterizer.cc:320-322 | the call is recorded by appending its span |
| Raster.Resized | common/editor/rasterizer.cc:142-145 | `resize(n)` keeps the first entries and fills new rows with blank entries |
| Raster.ResizedSameSize | common/editor/rasterizer.cc:142-145 | resizing to the current size changes nothing |
| Raster.ResizedIdempotent | common/editor/rasterizer.cc:138-146 | resizing twice to the same size is resizing once |
| Raster.Resize | common/editor/rasterizer.cc:143 | a new array holding Resized of the old contents |
| Raster.Rasterizer.SetResolution | common/editor/rasterizer.cc:138-146 | stores w and h, leaves both caches with h + 1 rows, preserves their contents, and keeps a cache that already has that size as the same array |
| Raster.Rasterizer.constructor | common/editor/rasterizer.cc:138-146 | a rasterizer with the given size, blank caches of h + 1 rows and no spans |
| Drivers.Skipped | common/editor/rasterizer.cc:8-15 | defines the skip: a selection is given and one of the triangle's three flags is nonzero |
| Drivers.UVPoint | common/editor/rasterizer.cc:16-30 | defines a texture coordinate's raster point: x scaled by width - 1, y mirrored to 1 - y and scaled by height - 1, depth 0 |
| Drivers.UVSteps | common/editor/rasterizer.cc:5-34 | one slot per triple of texture coordinates |
| Drivers.Apply | common/editor/rasterizer.cc:45-47 | defines `world2screen * w` as component i equal to row i of the matrix dotted with w |
| Drivers.Clip4 | common/editor/rasterizer.cc:41-47 | defines a vertex lifted to `vec4(v, 1.0f)` and transformed by `world2screen` |
| Drivers.Viewport | common/editor/rasterizer.cc:62-75 | defines the map from [-1, 1] onto [0, 1] and then onto the raster sizes minus one; z is kept |
| Drivers.ScreenPoint | common/editor/rasterizer.cc:40-75 | defines a vertex's raster point: transformed, divided by abs w, and mapped onto the raster |
| Drivers.CrossZ | common/editor/rasterizer.cc:78-80 | defines the z component of (b - a) x (c - a) with the z of both differences set to zero |
| Drivers.BackFacing | common/editor/rasterizer.cc:80 | defines back-facing as that z component being negative |
| Drivers.VertexStep | common/editor/rasterizer.cc:77-84 | defines the culling decision: skipped exactly when culling is on and the triangle is back-facing, else drawn unchanged |
| Drivers.VertexSteps | common/editor/rasterizer.cc:36-86 | one slot per triple of vertices |
| Drivers.CullingSkips | common/editor/rasterizer.cc:76-82 | with culling on, a slot is skipped exactly when its triangle is back-facing |
| Drivers.CullingHarmless | common/editor/rasterizer.cc:76-82 | when no triangle is back-facing, culling changes nothing |
| Drivers.CalibratedPoint | common/editor/rasterizer.cc:93-132 | defines a vertex's raster point: transformed, divided by abs(z * w), scaled by fx, fy and shifted by cx, cy, then mapped onto the raster |
| Drivers.UVVertexSteps | common/editor/rasterizer.cc:88-136 | one slot per triple of vertices |
| Drivers.UVVertexTexture | common/editor/rasterizer.cc:134 | no slot is skipped, and slot k carries uvs[3k], uvs[3k + 1], uvs[3k + 2] |
| Drivers.Draw | common/editor/rasterizer.cc:7-33 | the common loop keeps both caches at height + 1 rows |
| Drivers.DrawAppends | common/editor/rasterizer.cc:7-33 | the loop only appends spans, each coming from a drawn slot with index 3k |
| Drivers.DrawNothing | common/editor/rasterizer.cc:8-15 | when every slot is skipped, nothing changes |
| Drivers.UVSDrawn | common/editor/rasterizer.cc:7-15 | AddUVS reports spans only for indices 0, 3, 6, ... inside the input whose three flags are all zero |
| Drivers.UVSAllSelected | common/editor/rasterizer.cc:8-15 | when every flag is nonzero, AddUVS leaves caches and spans untouched |
| Drivers.VerticesDrawn | common/editor/rasterizer.cc:39-84 | AddVertices reports spans only for indices 0, 3, 6, ... inside the input, never for a culled back face |
| Drivers.UVVerticesDrawn | common/editor/rasterizer.cc:92-134 | AddUVVertices reports spans only for indices 0, 3, 6, ... inside the input, and every triangle is drawn with its vertices' texture coordinates |
| Drivers.Slot | common/editor/rasterizer.cc:7 | for a length divisible by 3, i = 3k is in range exactly when k is below a third of it, and then i + 2 is in range too |
| Raster.Rasterizer.Emit | common/editor/rasterizer.cc:32 | drawing slot k with index 3k takes the state from Draw of the first k slots to Draw of k + 1 |
| Raster.Rasterizer.AddUVS | common/editor/rasterizer.cc:5-34 | caches and spans as Draw of UVSteps |
| Raster.Rasterizer.AddVertex | common/editor/rasterizer.cc:40-84 | one pass of the loop: the projection at i, the culling decision, and Draw of one more slot |
| Raster.Rasterizer.AddVertices | common/editor/rasterizer.cc:36-86 | caches and spans as Draw of VertexSteps |
| Raster.Rasterizer.AddUVVertices | common/editor/rasterizer.cc:88-136 | caches and spans as Draw of UVVertexSteps |

## Left out

- Floating-point rounding: `float` and `double` values are exact reals, so
  the model does not capture rounding in the projection, the clipping
  parameters or the attribute accumulation. NaN and infinities are not
  represented.
- Integer overflow: `int` and `unsigned long` are unbounded integers.
- The zero-length segment's z step at line 210 divides by zero in the source.
  The value is never used, and the model takes it as the zero vector.
- `memy` at lines 305 and 324 is computed and never read, so it is left out.
- `Process` is virtual, and its implementation is not part of this model
  (`common/editor/selector.h` declares it). Each call is recorded as a span
  appended to `spans`.
- `common/gl/renderer.cc` is OpenGL setup and drawing and is not part of this
  model.
- Raster.Rasterizer.Triangle: the source passes `index`, `x1`, `x2`, `y`, `z1`
  and `z2` to `Process` by non-const reference (`common/editor/selector.h:23`).
  `y` is Triangle's own loop counter, and `index` aliases the driver's loop
  variable `i`. An override could write through any of them and change which
  rows Triangle visits or which slots a driver visits. The model assumes
  `Process` writes through none of them. Triangle's own body never modifies
  `index`, so the model passes it by value.
- Raster.Rasterizer.AddUVS: the default texture coordinates `Triangle`
  receives from `AddUVS` and `AddVertices` are declared in
  `editor/rasterizer.h`, which is not part of this model. They are taken as
  (0, 0).
- Raster.Rasterizer.constructor: the header with the real constructor is not
  part of this model. The constructor models construction followed by
  `SetResolution(w, h)`.
- Raster.Rasterizer.SetResolution: requires `h >= -1`, because the source
  converts `h + 1` to `unsigned long` and a negative size would be a huge
  allocation. It also requires two distinct cache arrays.
- Raster.Rasterizer.AddUVS: requires a length divisible by 3 and a selection
  that is empty or at least as long as the input, because the source reads
  `uvs[i + 2]` and `selected[i + 2]` unchecked.
- Raster.Rasterizer.AddVertices: requires a length divisible by 3 and a
  nonzero w for every transformed vertex (`Projectable`), because the source
  indexes and divides unchecked.
- Raster.Rasterizer.AddUVVertices: requires a length divisible by 3, at least
  as many texture coordinates as vertices, and a nonzero z·w for every
  transformed vertex (`Calibratable`), for the same reason.
- Every core method is split into helper methods along the source's
  structure: `Walk`/`Bresenham`/`Next`/`Advance`/`Plot` for Line's walk,
  `MoveStart`/`MoveEnd` for its clipping, `Edges`/`Walks`/`FillRows`/`FillRow`
  for Triangle, and `Emit`/`AddVertex` for the drivers' loops. The split does
  not change what is computed.
- A cache is a Dafny `array` and `Line` gets the array itself rather than
  `&fillCache[0]`. The model therefore does not capture pointer arithmetic or
  an empty cache's `&fillCache[0]`.
