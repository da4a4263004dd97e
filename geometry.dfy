/** Vocabulary shared by the rasterizer model: the glm vector types over exact
    reals, C++'s conversion of a floating value to `int`, the row-cache entry,
    and small integer and real helpers. */
module Geometry {

  datatype Option<T> = None | Some(value: T)

  /** glm::vec2: a texture coordinate. */
  datatype Vec2 = Vec2(x: real, y: real)

  /** glm::vec3 and glm::dvec3: a vertex position, or a three-channel
      attribute (two texture coordinates and a depth). */
  datatype Vec3 = Vec3(x: real, y: real, z: real) {
    function Plus(o: Vec3): Vec3 { Vec3(x + o.x, y + o.y, z + o.z) }
    function Minus(o: Vec3): Vec3 { Vec3(x - o.x, y - o.y, z - o.z) }
    function Times(t: real): Vec3 { Vec3(t * x, t * y, t * z) }
  }

  const Origin2 := Vec2(0.0, 0.0)
  const Origin3 := Vec3(0.0, 0.0, 0.0)

  /** One row of a fill cache, std::pair<int, glm::dvec3>: the x the edge
      walker stored for that row and the attribute there. */
  datatype Entry = Entry(x: int, attr: Vec3)

  /** What std::vector::resize puts into the rows it adds. */
  const Blank := Entry(0, Origin3)

  /** The C++ conversion `(int) r` of a float or double: truncation toward
      zero (no overflow: the model's integers are unbounded). */
  function Trunc(r: real): (n: int)
    ensures 0.0 <= r ==> 0 <= n && n as real <= r < n as real + 1.0
    ensures r < 0.0 ==> n <= 0 && n as real - 1.0 < r <= n as real
    ensures r == r.Floor as real ==> n == r.Floor
  {
    if r >= 0.0 then r.Floor else -((-r).Floor)
  }

  function Abs(r: real): real { if r < 0.0 then -r else r }

  function Min(a: int, b: int): int { if a <= b then a else b }
  function Max(a: int, b: int): int { if a >= b then a else b }
  function MinReal(a: real, b: real): real { if a <= b then a else b }
  function MaxReal(a: real, b: real): real { if a >= b then a else b }

  /** `v` moved into [0, top]. */
  function ClampReal(v: real, top: real): real { if v < 0.0 then 0.0 else if v > top then top else v }
  function ClampRow(y: int, top: int): int { if y < 0 then 0 else if y > top then top else y }

  /** True when `r` lies between `a` and `b`, in either order. */
  predicate Between(r: int, a: int, b: int) { Min(a, b) <= r <= Max(a, b) }

  /** `base` moved `n` units forward or backward. */
  function Move(base: int, forward: bool, n: int): int { if forward then base + n else base - n }

  // Sign and quotient facts about real products that the solver does not find alone.

  lemma MulNonPos(p: real, x: real)
    requires p <= 0.0 && x >= 0.0
    ensures p * x <= 0.0
  {}

  lemma MulPos(p: real, x: real)
    requires p > 0.0 && x > 0.0
    ensures p * x > 0.0
  {}
}
