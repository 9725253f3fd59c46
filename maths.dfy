/** Vector and colour arithmetic over the reals, standing for the Vector3 and
    GLSL vec3/vec4 values of the scene. Floating point is not modelled: every
    component is an exact real. */
module Maths {

  /** A 3-vector (a Vector3, a GLSL vec3, or a colour's rgb part). */
  datatype Vec3 = Vec3(x: real, y: real, z: real)

  /** An RGBA colour (a GLSL vec4 used as a colour). */
  datatype Color4 = Color4(r: real, g: real, b: real, a: real) {
    /** The `.rgb` swizzle. */
    function Rgb(): Vec3 { Vec3(r, g, b) }
  }

  /** sin and cos as the program sees them (Math.sin, Math.cos): left abstract. */
  datatype Trig = Trig(sin: real -> real, cos: real -> real)

  /** The constant Math.PI. */
  const Pi: real := 3.141592653589793

  function Add(a: Vec3, b: Vec3): Vec3 { Vec3(a.x + b.x, a.y + b.y, a.z + b.z) }

  function Sub(a: Vec3, b: Vec3): Vec3 { Vec3(a.x - b.x, a.y - b.y, a.z - b.z) }

  function Neg(a: Vec3): Vec3 { Vec3(-a.x, -a.y, -a.z) }

  /** Vector times scalar (Vector3.mul, or `k * v` in GLSL). */
  function Scale(a: Vec3, k: real): Vec3 { Vec3(a.x * k, a.y * k, a.z * k) }

  /** Component-wise product (GLSL `*` on two vec3). */
  function Mul(a: Vec3, b: Vec3): Vec3 { Vec3(a.x * b.x, a.y * b.y, a.z * b.z) }

  /** A vec3 plus a float (GLSL adds the float to every component). */
  function AddScalar(a: Vec3, s: real): Vec3 { Vec3(a.x + s, a.y + s, a.z + s) }

  function Dot(a: Vec3, b: Vec3): real { a.x * b.x + a.y * b.y + a.z * b.z }

  /** Vector3.cross(a, b). */
  function Cross(a: Vec3, b: Vec3): Vec3 {
    Vec3(a.y * b.z - a.z * b.y, a.z * b.x - a.x * b.z, a.x * b.y - a.y * b.x)
  }

  function Max(a: real, b: real): real { if a >= b then a else b }

  function Min(a: real, b: real): real { if a <= b then a else b }

  /** Every component of `v` is at least zero. */
  predicate NonNegative(v: Vec3) { v.x >= 0.0 && v.y >= 0.0 && v.z >= 0.0 }

  /** The cross product is anti-commutative. */
  lemma CrossAntiCommutes(a: Vec3, b: Vec3)
    ensures Cross(b, a) == Neg(Cross(a, b))
  {
  }

  /** Scaling commutes with negation. */
  lemma ScaleNeg(a: Vec3, k: real)
    ensures Scale(Neg(a), k) == Neg(Scale(a, k))
  {
  }

  /** Flattens 3-vectors into the float layout a vertex buffer holds. */
  function Flatten3(vs: seq<Vec3>): (r: seq<real>)
    ensures |r| == 3 * |vs|
  {
    if vs == [] then []
    else Flatten3(vs[..|vs| - 1]) + [vs[|vs| - 1].x, vs[|vs| - 1].y, vs[|vs| - 1].z]
  }

  /** Flattens 2-component texture coordinates into the float layout of a UV buffer. */
  function Flatten2(ps: seq<(real, real)>): (r: seq<real>)
    ensures |r| == 2 * |ps|
  {
    if ps == [] then []
    else Flatten2(ps[..|ps| - 1]) + [ps[|ps| - 1].0, ps[|ps| - 1].1]
  }

  /** Where vertex k's components sit in a flattened 3-float buffer. */
  lemma {:induction false} Flatten3At(vs: seq<Vec3>, k: nat)
    requires k < |vs|
    ensures Flatten3(vs)[3 * k] == vs[k].x
    ensures Flatten3(vs)[3 * k + 1] == vs[k].y
    ensures Flatten3(vs)[3 * k + 2] == vs[k].z
  {
    if k < |vs| - 1 {
      Flatten3At(vs[..|vs| - 1], k);
    }
  }

  /** Where vertex k's coordinates sit in a flattened 2-float buffer. */
  lemma {:induction false} Flatten2At(ps: seq<(real, real)>, k: nat)
    requires k < |ps|
    ensures Flatten2(ps)[2 * k] == ps[k].0
    ensures Flatten2(ps)[2 * k + 1] == ps[k].1
  {
    if k < |ps| - 1 {
      Flatten2At(ps[..|ps| - 1], k);
    }
  }

  /** Appending one vertex appends its three components. */
  lemma Flatten3Push(vs: seq<Vec3>, v: Vec3)
    ensures Flatten3(vs + [v]) == Flatten3(vs) + [v.x, v.y, v.z]
  {
    assert (vs + [v])[..|vs|] == vs;
  }

  /** Appending one coordinate pair appends its two floats. */
  lemma Flatten2Push(ps: seq<(real, real)>, p: (real, real))
    ensures Flatten2(ps + [p]) == Flatten2(ps) + [p.0, p.1]
  {
    assert (ps + [p])[..|ps|] == ps;
  }
}
