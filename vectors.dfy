/** Three-component vectors over the reals: the glm::vec3 values the simulator
    computes with, with float arithmetic read as exact real arithmetic. */
module Vectors {

  datatype Vec3 = Vec3(x: real, y: real, z: real)

  const Zero: Vec3 := Vec3(0.0, 0.0, 0.0)

  function Add(a: Vec3, b: Vec3): Vec3 {
    Vec3(a.x + b.x, a.y + b.y, a.z + b.z)
  }

  function Sub(a: Vec3, b: Vec3): Vec3 {
    Vec3(a.x - b.x, a.y - b.y, a.z - b.z)
  }

  /** Scalar times vector (glm's `s * v` and `v * s`). */
  function Scale(c: real, a: Vec3): Vec3 {
    Vec3(c * a.x, c * a.y, c * a.z)
  }

  /** Vector divided by a scalar (glm's `v / s`). */
  function Div(a: Vec3, c: real): Vec3
    requires c != 0.0
  {
    Vec3(a.x / c, a.y / c, a.z / c)
  }

  function Dot(a: Vec3, b: Vec3): real {
    a.x * b.x + a.y * b.y + a.z * b.z
  }

  /** The squared length of a vector is never negative. */
  lemma DotSelfNonNegative(a: Vec3)
    ensures Dot(a, a) >= 0.0
  {
    SumOfSquares(a.x, a.y, a.z);
  }

  lemma SumOfSquares(x: real, y: real, z: real)
    ensures x * x + y * y + z * z >= 0.0
  {
  }

  lemma AddAssociative(a: Vec3, b: Vec3, c: Vec3)
    ensures Add(Add(a, b), c) == Add(a, Add(b, c))
  {
  }

  lemma DotScaleLeft(c: real, a: Vec3, b: Vec3)
    ensures Dot(Scale(c, a), b) == c * Dot(a, b)
  {
  }

  lemma DotScaleBoth(c: real, a: Vec3)
    ensures Dot(Scale(c, a), Scale(c, a)) == c * c * Dot(a, a)
  {
  }

  lemma DotOfSum(a: Vec3, b: Vec3)
    ensures Dot(Add(a, b), Add(a, b)) == Dot(a, a) + 2.0 * Dot(a, b) + Dot(b, b)
  {
  }

  /** Mass times the velocity change (dt/m) f is the impulse dt f. */
  lemma ImpulseOfStep(m: real, dt: real, v: Vec3, f: Vec3)
    requires m != 0.0
    ensures Scale(m, Sub(Add(v, Scale(dt, Div(f, m))), v)) == Scale(dt, f)
  {
    assert Sub(Add(v, Scale(dt, Div(f, m))), v) == Scale(dt, Div(f, m));
    ImpulseComponent(m, dt, f.x);
    ImpulseComponent(m, dt, f.y);
    ImpulseComponent(m, dt, f.z);
  }

  lemma ImpulseComponent(m: real, dt: real, f: real)
    requires m != 0.0
    ensures m * (dt * (f / m)) == dt * f
  {
    assert m * (f / m) == f;
  }

  /** Multiplying back by the divisor undoes a division. */
  lemma ScaleOfDiv(m: real, f: Vec3)
    requires m != 0.0
    ensures Scale(m, Div(f, m)) == f
  {
    assert m * (f.x / m) == f.x;
    assert m * (f.y / m) == f.y;
    assert m * (f.z / m) == f.z;
  }
}
