/**
 * Real-valued 2D and 3D vectors standing in for the `Vec2`/`Vec3` of the
 * vector library the simulation uses, plus the primitives of that library
 * (and of `f32`) whose values the model does not compute: cosine, sine,
 * two-argument arctangent, `clamp_length_max` and `normalize`.
 *
 * Those primitives are passed around as a `Numerics` record of function
 * values; the laws they obey are stated as predicates and required only by
 * the lemmas that need them.
 */
module Vectors {

  datatype Vec2 = Vec2(x: real, y: real)

  datatype Vec3 = Vec3(x: real, y: real, z: real)

  const Zero2: Vec2 := Vec2(0.0, 0.0)
  const Zero3: Vec3 := Vec3(0.0, 0.0, 0.0)

  function Add2(a: Vec2, b: Vec2): Vec2 { Vec2(a.x + b.x, a.y + b.y) }
  function Sub2(a: Vec2, b: Vec2): Vec2 { Vec2(a.x - b.x, a.y - b.y) }
  function Scale2(a: Vec2, k: real): Vec2 { Vec2(a.x * k, a.y * k) }
  function Div2(a: Vec2, k: real): Vec2 requires k != 0.0 { Vec2(a.x / k, a.y / k) }
  function LenSq2(a: Vec2): real { a.x * a.x + a.y * a.y }
  /** Squared Euclidean distance: `(a - b).length()` squared. */
  function DistSq2(a: Vec2, b: Vec2): real { LenSq2(Sub2(a, b)) }

  function Add3(a: Vec3, b: Vec3): Vec3 { Vec3(a.x + b.x, a.y + b.y, a.z + b.z) }
  function Sub3(a: Vec3, b: Vec3): Vec3 { Vec3(a.x - b.x, a.y - b.y, a.z - b.z) }
  function Scale3(a: Vec3, k: real): Vec3 { Vec3(a.x * k, a.y * k, a.z * k) }
  function Div3(a: Vec3, k: real): Vec3 requires k != 0.0 { Vec3(a.x / k, a.y / k, a.z / k) }
  function LenSq3(a: Vec3): real { a.x * a.x + a.y * a.y + a.z * a.z }
  function DistSq3(a: Vec3, b: Vec3): real { LenSq3(Sub3(a, b)) }

  /** Component `axis` of `v`, as `v[axis]` indexes a `Vec3`. */
  function Axis(v: Vec3, axis: nat): real
    requires axis < 3
  {
    if axis == 0 then v.x else if axis == 1 then v.y else v.z
  }

  /** `v` with component `axis` replaced by `r`, as `v[axis] = r` does. */
  function WithAxis(v: Vec3, axis: nat, r: real): (w: Vec3)
    requires axis < 3
    ensures Axis(w, axis) == r
    ensures forall b :: 0 <= b < 3 && b != axis ==> Axis(w, b) == Axis(v, b)
  {
    if axis == 0 then v.(x := r) else if axis == 1 then v.(y := r) else v.(z := r)
  }

  /**
   * The floating-point primitives the simulation calls but this model does
   * not compute. `atan2(y, x)` is Rust's `y.atan2(x)`; `clampLength2(v, m)`
   * and `clampLength3(v, m)` are `v.clamp_length_max(m)`; `normalize3(v)` is
   * `v.normalize()`.
   */
  datatype Numerics = Numerics(
    cos: real -> real,
    sin: real -> real,
    atan2: (real, real) -> real,
    clampLength2: (Vec2, real) -> Vec2,
    clampLength3: (Vec3, real) -> Vec3,
    normalize3: Vec3 -> Vec3)

  /** `cos d` and `sin d` lie on the unit circle. */
  ghost predicate UnitCircleAt(n: Numerics, d: real)
  {
    n.cos(d) * n.cos(d) + n.sin(d) * n.sin(d) == 1.0
  }

  /** Cosine is even and sine is odd at `d`. */
  ghost predicate ParityAt(n: Numerics, d: real)
  {
    n.cos(-d) == n.cos(d) && n.sin(-d) == -n.sin(d)
  }

  /**
   * `clamp_length_max` caps the length at `max` and leaves a vector that is
   * already short enough unchanged.
   */
  ghost predicate ClampLaw2(n: Numerics)
  {
    forall v: Vec2, max: real :: 0.0 <= max ==>
      LenSq2(n.clampLength2(v, max)) <= max * max &&
      (LenSq2(v) <= max * max ==> n.clampLength2(v, max) == v)
  }

  ghost predicate ClampLaw3(n: Numerics)
  {
    forall v: Vec3, max: real :: 0.0 <= max ==>
      LenSq3(n.clampLength3(v, max)) <= max * max &&
      (LenSq3(v) <= max * max ==> n.clampLength3(v, max) == v)
  }

  /** `normalize` yields a unit vector for every non-zero input. */
  ghost predicate NormalizeLaw3(n: Numerics)
  {
    forall v: Vec3 :: v != Zero3 ==> LenSq3(n.normalize3(v)) == 1.0
  }
}
