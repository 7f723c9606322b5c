/** The force laws of the Physics namespace: five leaf forces, each giving a
    force vector and a potential energy for a particle at (position, velocity,
    time), and the mutable force objects that carry their parameters. */
module Physics {
  import opened Vectors

  // Physical constants (src/physics.hpp:11-14); M_PI is read at double precision.
  const StandardGravity: real := 9.806
  const GravitationalConstant: real := 0.0000000000667430
  const VacuumPermittivity: real := 0.000000000008854187817
  const Pi: real := 3.141592653589793
  const CoulombConstant: real := 1.0 / (4.0 * Pi * VacuumPermittivity)


  /** The configuration of one leaf force. */
  datatype ForceLaw =
    | Electric(charge1: real, charge2: real, anchor: Vec3)
    | Gravitational(mass1: real, mass2: real, anchor: Vec3)
    | EarthGravity(mass: real)
    | Hooke(anchor: Vec3, k: real)
    | AirResistance(drag: real)

  // ---- Inverse-square laws (ElectricForce, GravitationalForce) ----

  /** Where an inverse-square law can be evaluated: away from its anchor, with
      `length` (glm::length) giving the positive Euclidean distance to it there.
      At the anchor the source divides by zero. */
  predicate InverseSquareDefined(anchor: Vec3, p: Vec3, length: Vec3 -> real) {
    var d := Sub(p, anchor);
    p != anchor && length(d) > 0.0 && length(d) * length(d) == Dot(d, d)
  }

  function Cube(r: real): real {
    r * r * r
  }

  /** -strength / |p - a|^3 * (p - a) */
  function InverseSquareForce(strength: real, anchor: Vec3, p: Vec3, length: Vec3 -> real): Vec3
    requires InverseSquareDefined(anchor, p, length)
  {
    Scale(-strength / Cube(length(Sub(p, anchor))), Sub(p, anchor))
  }

  /** -strength / |p - a| */
  function InverseSquareEnergy(strength: real, anchor: Vec3, p: Vec3, length: Vec3 -> real): real
    requires InverseSquareDefined(anchor, p, length)
  {
    -strength / length(Sub(p, anchor))
  }

  /** The inverse-square law: the distance is positive, the force is radial with
      magnitude strength / r^2, its radial component d·F equals the energy, and
      energy times distance is -strength. */
  lemma InverseSquareLaw(strength: real, anchor: Vec3, p: Vec3, length: Vec3 -> real)
    requires InverseSquareDefined(anchor, p, length)
    ensures var d := Sub(p, anchor); var r := length(d);
      && r > 0.0
      && Dot(InverseSquareForce(strength, anchor, p, length), d) == InverseSquareEnergy(strength, anchor, p, length)
      && Dot(InverseSquareForce(strength, anchor, p, length), InverseSquareForce(strength, anchor, p, length)) * (r * r * r * r)
         == strength * strength
      && InverseSquareEnergy(strength, anchor, p, length) * r == -strength
  {
    InverseSquareRadial(strength, anchor, p, length);
    InverseSquareStrength(strength, anchor, p, length);
    InverseSquareEnergyAtDistance(strength, anchor, p, length);
  }

  lemma InverseSquareRadial(strength: real, anchor: Vec3, p: Vec3, length: Vec3 -> real)
    requires InverseSquareDefined(anchor, p, length)
    ensures Dot(InverseSquareForce(strength, anchor, p, length), Sub(p, anchor)) == InverseSquareEnergy(strength, anchor, p, length)
  {
    var d := Sub(p, anchor);
    var r := length(d);
    var c := -strength / Cube(r);
    assert InverseSquareForce(strength, anchor, p, length) == Scale(c, d);
    DotScaleLeft(c, d, d);
    RadialComponent(strength, r, Dot(d, d));
  }

  lemma InverseSquareStrength(strength: real, anchor: Vec3, p: Vec3, length: Vec3 -> real)
    requires InverseSquareDefined(anchor, p, length)
    ensures var r := length(Sub(p, anchor));
      Dot(InverseSquareForce(strength, anchor, p, length), InverseSquareForce(strength, anchor, p, length)) * (r * r * r * r)
      == strength * strength
  {
    var d := Sub(p, anchor);
    var r := length(d);
    var c := -strength / Cube(r);
    assert InverseSquareForce(strength, anchor, p, length) == Scale(c, d);
    DotScaleBoth(c, d);
    InverseSquareMagnitude(strength, r, Dot(d, d));
  }

  lemma InverseSquareEnergyAtDistance(strength: real, anchor: Vec3, p: Vec3, length: Vec3 -> real)
    requires InverseSquareDefined(anchor, p, length)
    ensures InverseSquareEnergy(strength, anchor, p, length) * length(Sub(p, anchor)) == -strength
  {
  }

  lemma RadialComponent(s: real, r: real, dd: real)
    requires r > 0.0 && r * r == dd
    ensures (-s / (r * r * r)) * dd == -s / r
  {
    var c := -s / (r * r * r);
    assert r * r * r > 0.0;
    assert c * (r * r * r) == -s;
    assert c * dd * r == -s;
  }

  lemma InverseSquareMagnitude(s: real, r: real, dd: real)
    requires r > 0.0 && r * r == dd
    ensures (-s / (r * r * r)) * (-s / (r * r * r)) * dd * (r * r * r * r) == s * s
  {
    var c := -s / (r * r * r);
    var r3 := r * r * r;
    assert r3 > 0.0;
    assert c * r3 == -s;
    assert c * c * dd * (r * r * r * r) == (c * r3) * (c * r3);
  }

  /** ElectricForce::computeForce: its component along p - anchor is the
      electric energy there. */
  function ElectricForce(charge1: real, charge2: real, anchor: Vec3, p: Vec3, length: Vec3 -> real): (f: Vec3)
    requires InverseSquareDefined(anchor, p, length)
    ensures Dot(f, Sub(p, anchor)) == ElectricEnergy(charge1, charge2, anchor, p, length)
  {
    InverseSquareRadial(CoulombConstant * charge1 * charge2, anchor, p, length);
    InverseSquareForce(CoulombConstant * charge1 * charge2, anchor, p, length)
  }

  /** ElectricForce::computeEnergy: energy times distance is -k_e q1 q2. */
  function ElectricEnergy(charge1: real, charge2: real, anchor: Vec3, p: Vec3, length: Vec3 -> real): (u: real)
    requires InverseSquareDefined(anchor, p, length)
    ensures u * length(Sub(p, anchor)) == -(CoulombConstant * charge1 * charge2)
  {
    InverseSquareEnergyAtDistance(CoulombConstant * charge1 * charge2, anchor, p, length);
    InverseSquareEnergy(CoulombConstant * charge1 * charge2, anchor, p, length)
  }

  /** GravitationalForce::computeForce: its component along p - anchor is the
      gravitational energy there. */
  function GravitationalForce(mass1: real, mass2: real, anchor: Vec3, p: Vec3, length: Vec3 -> real): (f: Vec3)
    requires InverseSquareDefined(anchor, p, length)
    ensures Dot(f, Sub(p, anchor)) == GravitationalEnergy(mass1, mass2, anchor, p, length)
  {
    InverseSquareRadial(GravitationalConstant * mass1 * mass2, anchor, p, length);
    InverseSquareForce(GravitationalConstant * mass1 * mass2, anchor, p, length)
  }

  /** GravitationalForce::computeEnergy: energy times distance is -G m1 m2. */
  function GravitationalEnergy(mass1: real, mass2: real, anchor: Vec3, p: Vec3, length: Vec3 -> real): (u: real)
    requires InverseSquareDefined(anchor, p, length)
    ensures u * length(Sub(p, anchor)) == -(GravitationalConstant * mass1 * mass2)
  {
    InverseSquareEnergyAtDistance(GravitationalConstant * mass1 * mass2, anchor, p, length);
    InverseSquareEnergy(GravitationalConstant * mass1 * mass2, anchor, p, length)
  }

  /** With the sign the electric law is written with, charges of the same sign
      pull the particle towards the anchor and have negative energy; charges of
      opposite signs push it away. */
  lemma ElectricForceDirection(charge1: real, charge2: real, anchor: Vec3, p: Vec3, length: Vec3 -> real)
    requires InverseSquareDefined(anchor, p, length)
    ensures charge1 * charge2 > 0.0 ==>
      Dot(ElectricForce(charge1, charge2, anchor, p, length), Sub(p, anchor)) < 0.0
      && ElectricEnergy(charge1, charge2, anchor, p, length) < 0.0
    ensures charge1 * charge2 < 0.0 ==>
      Dot(ElectricForce(charge1, charge2, anchor, p, length), Sub(p, anchor)) > 0.0
  {
    var s := CoulombConstant * charge1 * charge2;
    InverseSquareLaw(s, anchor, p, length);
    var r := length(Sub(p, anchor));
    assert CoulombConstant > 0.0;
    if charge1 * charge2 > 0.0 {
      assert s > 0.0;
      assert InverseSquareEnergy(s, anchor, p, length) * r < 0.0;
    } else if charge1 * charge2 < 0.0 {
      assert s < 0.0;
      assert InverseSquareEnergy(s, anchor, p, length) * r > 0.0;
    }
  }

  /** Two positive masses attract: the force points from the particle towards
      the anchor, and the energy is negative. */
  lemma GravitationalForceAttracts(mass1: real, mass2: real, anchor: Vec3, p: Vec3, length: Vec3 -> real)
    requires InverseSquareDefined(anchor, p, length)
    requires mass1 > 0.0 && mass2 > 0.0
    ensures Dot(GravitationalForce(mass1, mass2, anchor, p, length), Sub(p, anchor)) < 0.0
    ensures GravitationalEnergy(mass1, mass2, anchor, p, length) < 0.0
  {
    var s := GravitationalConstant * mass1 * mass2;
    assert s > 0.0;
    InverseSquareLaw(s, anchor, p, length);
    var r := length(Sub(p, anchor));
    assert InverseSquareEnergy(s, anchor, p, length) * r < 0.0;
  }

  // ---- EarthGravitationalForce ----

  /** (0, -m g, 0) */
  function EarthGravityForce(mass: real): (f: Vec3)
    ensures f.x == 0.0 && f.z == 0.0
    ensures mass > 0.0 ==> f.y < 0.0
  {
    Vec3(0.0, -mass * StandardGravity, 0.0)
  }

  /** m g y: zero at height 0 and, for a positive mass, positive exactly above it. */
  function EarthGravityEnergy(mass: real, p: Vec3): (u: real)
    ensures p.y == 0.0 ==> u == 0.0
    ensures mass > 0.0 ==> (u > 0.0 <==> p.y > 0.0)
  {
    mass * StandardGravity * p.y
  }

  /** The Earth-gravity energy is the potential of its force: moving the particle
      by h changes the energy by exactly -F·h, wherever it starts. */
  lemma EarthGravityIsConservative(mass: real, p: Vec3, h: Vec3)
    ensures EarthGravityEnergy(mass, Add(p, h)) - EarthGravityEnergy(mass, p)
         == -Dot(EarthGravityForce(mass), h)
  {
    calc {
      EarthGravityEnergy(mass, Add(p, h)) - EarthGravityEnergy(mass, p);
      mass * StandardGravity * (p.y + h.y) - mass * StandardGravity * p.y;
      mass * StandardGravity * h.y;
    }
  }

  // ---- HookeForce ----

  /** -k (p - a) */
  function HookeForce(k: real, anchor: Vec3, p: Vec3): (f: Vec3)
    ensures p == anchor ==> f == Zero
    ensures k >= 0.0 ==> Dot(f, Sub(p, anchor)) <= 0.0
  {
    var d := Sub(p, anchor);
    DotSelfNonNegative(d);
    DotScaleLeft(-k, d, d);
    Scale(-k, d)
  }

  /** k/2 (p - a)·(p - a) */
  function HookeEnergy(k: real, anchor: Vec3, p: Vec3): (u: real)
    ensures p == anchor ==> u == 0.0
    ensures k >= 0.0 ==> u >= 0.0
  {
    var d := Sub(p, anchor);
    DotSelfNonNegative(d);
    0.5 * k * Dot(d, d)
  }

  /** The spring energy is the potential of the spring force: moving the
      particle by h changes the energy by -F·h plus the second-order term k/2 h·h. */
  lemma HookeIsConservative(k: real, anchor: Vec3, p: Vec3, h: Vec3)
    ensures HookeEnergy(k, anchor, Add(p, h)) - HookeEnergy(k, anchor, p)
         == -Dot(HookeForce(k, anchor, p), h) + 0.5 * k * Dot(h, h)
  {
    var d := Sub(p, anchor);
    var e := Sub(Add(p, h), anchor);
    assert e == Add(d, h);
    DotOfSum(d, h);
    DotScaleLeft(-k, d, h);
    SpringEnergyChange(k, Dot(e, e), Dot(d, d), Dot(d, h), Dot(h, h));
  }

  lemma SpringEnergyChange(k: real, ee: real, dd: real, dh: real, hh: real)
    requires ee == dd + 2.0 * dh + hh
    ensures 0.5 * k * ee - 0.5 * k * dd == -(-k * dh) + 0.5 * k * hh
  {
  }

  // ---- AirResistanceForce ----

  /** -c v */
  function AirResistanceForce(drag: real, v: Vec3): (f: Vec3)
    ensures drag >= 0.0 ==> Dot(f, v) <= 0.0
    ensures v == Zero ==> f == Zero
  {
    DotSelfNonNegative(v);
    DotScaleLeft(-drag, v, v);
    Scale(-drag, v)
  }

  /** c/2 v·v */
  function AirResistanceEnergy(drag: real, v: Vec3): (u: real)
    ensures drag >= 0.0 ==> u >= 0.0
  {
    DotSelfNonNegative(v);
    0.5 * drag * Dot(v, v)
  }

  /** The drag's power F·v is minus twice the quantity it reports as energy. */
  lemma AirResistancePower(drag: real, v: Vec3)
    ensures Dot(AirResistanceForce(drag, v), v) == -2.0 * AirResistanceEnergy(drag, v)
  {
    DotScaleLeft(-drag, v, v);
  }

  // ---- Dispatch over the force classes (virtual computeForce / computeEnergy) ----

  predicate Defined(law: ForceLaw, p: Vec3, length: Vec3 -> real) {
    (law.Electric? || law.Gravitational?) ==> InverseSquareDefined(law.anchor, p, length)
  }

  /** The virtual computeForce: the force of the law's own class. */
  function ComputeForce(law: ForceLaw, p: Vec3, v: Vec3, t: real, length: Vec3 -> real): (f: Vec3)
    requires Defined(law, p, length)
    ensures law.EarthGravity? ==> f.x == 0.0 && f.z == 0.0
    ensures law.Hooke? && p == law.anchor ==> f == Zero
    ensures law.AirResistance? && v == Zero ==> f == Zero
    ensures law.AirResistance? && law.drag >= 0.0 ==> Dot(f, v) <= 0.0
  {
    match law
    case Electric(q1, q2, a) => ElectricForce(q1, q2, a, p, length)
    case Gravitational(m1, m2, a) => GravitationalForce(m1, m2, a, p, length)
    case EarthGravity(m) => EarthGravityForce(m)
    case Hooke(a, k) => HookeForce(k, a, p)
    case AirResistance(c) => AirResistanceForce(c, v)
  }

  /** The virtual computeEnergy: the energy of the law's own class. */
  function ComputeEnergy(law: ForceLaw, p: Vec3, v: Vec3, t: real, length: Vec3 -> real): (u: real)
    requires Defined(law, p, length)
    ensures law.Hooke? && p == law.anchor ==> u == 0.0
    ensures law.Hooke? && law.k >= 0.0 ==> u >= 0.0
    ensures law.AirResistance? && law.drag >= 0.0 ==> u >= 0.0
    ensures law.EarthGravity? && p.y == 0.0 ==> u == 0.0
  {
    match law
    case Electric(q1, q2, a) => ElectricEnergy(q1, q2, a, p, length)
    case Gravitational(m1, m2, a) => GravitationalEnergy(m1, m2, a, p, length)
    case EarthGravity(m) => EarthGravityEnergy(m, p)
    case Hooke(a, k) => HookeEnergy(k, a, p)
    case AirResistance(c) => AirResistanceEnergy(c, v)
  }

  /** The same law with its anchor moved by w (laws without an anchor are unchanged). */
  function Translate(law: ForceLaw, w: Vec3): (moved: ForceLaw)
    ensures moved.Electric? == law.Electric? && moved.Gravitational? == law.Gravitational?
    ensures moved.Hooke? == law.Hooke?
  {
    match law
    case Electric(q1, q2, a) => Electric(q1, q2, Add(a, w))
    case Gravitational(m1, m2, a) => Gravitational(m1, m2, Add(a, w))
    case Hooke(a, k) => Hooke(Add(a, w), k)
    case _ => law
  }

  /** No force or energy depends on the time; only the drag's depends on the
      velocity; the drag's force and energy and the Earth-gravity force do not
      depend on the position; the
      anchored laws see the position only through p - anchor: moving both the
      particle and the anchor by w leaves every force unchanged. */
  lemma ForceDependence(law: ForceLaw, p: Vec3, v: Vec3, t: real, p': Vec3, v': Vec3, t': real, w: Vec3, length: Vec3 -> real)
    requires Defined(law, p, length)
    ensures ComputeForce(law, p, v, t', length) == ComputeForce(law, p, v, t, length)
    ensures ComputeEnergy(law, p, v, t', length) == ComputeEnergy(law, p, v, t, length)
    ensures !law.AirResistance? ==> ComputeForce(law, p, v', t, length) == ComputeForce(law, p, v, t, length)
    ensures !law.AirResistance? ==> ComputeEnergy(law, p, v', t, length) == ComputeEnergy(law, p, v, t, length)
    ensures law.AirResistance? ==> ComputeForce(law, p', v, t, length) == ComputeForce(law, p, v, t, length)
    ensures law.AirResistance? ==> ComputeEnergy(law, p', v, t, length) == ComputeEnergy(law, p, v, t, length)
    ensures law.EarthGravity? ==> ComputeForce(law, p', v, t, length) == ComputeForce(law, p, v, t, length)
    ensures Defined(Translate(law, w), Add(p, w), length)
    ensures ComputeForce(Translate(law, w), Add(p, w), v, t, length) == ComputeForce(law, p, v, t, length)
  {
    match law
    case Electric(q1, q2, a) =>
      assert Sub(Add(p, w), Add(a, w)) == Sub(p, a);
    case Gravitational(m1, m2, a) =>
      assert Sub(Add(p, w), Add(a, w)) == Sub(p, a);
    case Hooke(a, k) =>
      assert Sub(Add(p, w), Add(a, w)) == Sub(p, a);
    case _ =>
  }

  /** A force object: one of the five leaf force classes, whose parameters the
      setters change in place. Identity is object identity, as with the raw
      pointers a composite force keeps. */
  class Force {
    var law: ForceLaw

    constructor (law: ForceLaw)
      ensures this.law == law
    {
      this.law := law;
    }

    function GetCharge1(): real
      reads this
      requires law.Electric?
    {
      law.charge1
    }

    function GetCharge2(): real
      reads this
      requires law.Electric?
    {
      law.charge2
    }

    function GetMass1(): real
      reads this
      requires law.Gravitational?
    {
      law.mass1
    }

    function GetMass2(): real
      reads this
      requires law.Gravitational?
    {
      law.mass2
    }

    method SetCharge1(q1: real)
      requires law.Electric?
      modifies this
      ensures law == old(law).(charge1 := q1)
      ensures GetCharge1() == q1 && GetCharge2() == old(GetCharge2())
    {
      law := law.(charge1 := q1);
    }

    method SetCharge2(q2: real)
      requires law.Electric?
      modifies this
      ensures law == old(law).(charge2 := q2)
      ensures GetCharge2() == q2 && GetCharge1() == old(GetCharge1())
    {
      law := law.(charge2 := q2);
    }

    method SetMass1(m1: real)
      requires law.Gravitational?
      modifies this
      ensures law == old(law).(mass1 := m1)
      ensures GetMass1() == m1 && GetMass2() == old(GetMass2())
    {
      law := law.(mass1 := m1);
    }

    method SetMass2(m2: real)
      requires law.Gravitational?
      modifies this
      ensures law == old(law).(mass2 := m2)
      ensures GetMass2() == m2 && GetMass1() == old(GetMass1())
    {
      law := law.(mass2 := m2);
    }

    method SetAnchorPoint(anchor: Vec3)
      requires law.Electric? || law.Gravitational? || law.Hooke?
      modifies this
      ensures law == old(law).(anchor := anchor)
    {
      law := law.(anchor := anchor);
    }
  }
}
