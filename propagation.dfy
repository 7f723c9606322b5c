/** The Propagation namespace: one-step integrators advancing a particle's
    (position, velocity) under the force of a force object. */
module Propagation {
  import opened Vectors
  import opened Physics

  /** What a propagator asks of its force object: computeForce at (position,
      velocity, time), defined everywhere. */
  type ForceField = (Vec3, Vec3, real) -> Vec3

  /** generalizedVector: the state of a particle. */
  datatype GeneralizedVector = GeneralizedVector(position: Vec3, velocity: Vec3)

  /** The default-constructed state: at rest at the origin. */
  const Rest: GeneralizedVector := GeneralizedVector(Zero, Zero)

  /** The field whose value is f everywhere. */
  ghost predicate IsConstantField(field: ForceField, f: Vec3) {
    forall p, v, t :: field(p, v, t) == f
  }

  // ---- Reference motions ----

  /** Free motion: straight line at constant velocity. */
  function Drift(state: GeneralizedVector, dt: real): GeneralizedVector {
    GeneralizedVector(Add(state.position, Scale(dt, state.velocity)), state.velocity)
  }

  /** The exact motion under a constant acceleration a after time dt:
      p + v dt + a dt^2/2 and v + a dt. */
  function UniformAcceleration(state: GeneralizedVector, a: Vec3, dt: real): GeneralizedVector {
    GeneralizedVector(
      Add(Add(state.position, Scale(dt, state.velocity)), Scale(dt * dt / 2.0, a)),
      Add(state.velocity, Scale(dt, a)))
  }

  /** With no acceleration the exact motion is free motion. */
  lemma UniformAccelerationWithoutForce(state: GeneralizedVector, dt: real)
    ensures UniformAcceleration(state, Zero, dt) == Drift(state, dt)
  {
  }

  // ---- explicitEuler and simplecticEuler ----

  /** explicitEuler: one force evaluation at the start of the step; the position
      moves with the pre-step velocity, whatever the force, and the momentum
      changes by the impulse F dt of the force at the start. */
  function ExplicitEuler(field: ForceField, state: GeneralizedVector, mass: real, t: real, dt: real): (next: GeneralizedVector)
    requires mass != 0.0
    ensures next.position == Drift(state, dt).position
    ensures Scale(mass, Sub(next.velocity, state.velocity)) == Scale(dt, field(state.position, state.velocity, t))
    ensures dt == 0.0 ==> next == state
  {
    var force := field(state.position, state.velocity, t);
    ImpulseOfStep(mass, dt, state.velocity, force);
    GeneralizedVector(
      Add(state.position, Scale(dt, state.velocity)),
      Add(state.velocity, Scale(dt, Div(force, mass))))
  }

  /** simplecticEuler: the velocity is updated first, by the impulse F dt of the
      force at the start, and the position moves with the new velocity. */
  function SymplecticEuler(field: ForceField, state: GeneralizedVector, mass: real, t: real, dt: real): (next: GeneralizedVector)
    requires mass != 0.0
    ensures next.position == Drift(GeneralizedVector(state.position, next.velocity), dt).position
    ensures Scale(mass, Sub(next.velocity, state.velocity)) == Scale(dt, field(state.position, state.velocity, t))
    ensures dt == 0.0 ==> next == state
  {
    var force := field(state.position, state.velocity, t);
    var newVelocity := Add(state.velocity, Scale(dt, Div(force, mass)));
    ImpulseOfStep(mass, dt, state.velocity, force);
    GeneralizedVector(Add(state.position, Scale(dt, newVelocity)), newVelocity)
  }

  /** The two Euler steps agree on the velocity; the symplectic position is the
      explicit one plus (F/m) dt^2, F being the force at the start of the step. */
  lemma EulerStepsCompared(field: ForceField, state: GeneralizedVector, mass: real, t: real, dt: real)
    requires mass != 0.0
    ensures SymplecticEuler(field, state, mass, t, dt).velocity == ExplicitEuler(field, state, mass, t, dt).velocity
    ensures SymplecticEuler(field, state, mass, t, dt).position
         == Add(ExplicitEuler(field, state, mass, t, dt).position,
                Scale(dt * dt, Div(field(state.position, state.velocity, t), mass)))
  {
    var p, v := state.position, state.velocity;
    var a := Div(field(p, v, t), mass);
    assert SymplecticEuler(field, state, mass, t, dt).position == Add(p, Scale(dt, Add(v, Scale(dt, a))));
    assert ExplicitEuler(field, state, mass, t, dt).position == Add(p, Scale(dt, v));
    MoveWithNewVelocity(p, v, a, dt);
  }

  /** Moving with v + dt a for dt is moving with v and then by dt^2 a. */
  lemma MoveWithNewVelocity(p: Vec3, v: Vec3, a: Vec3, dt: real)
    ensures Add(p, Scale(dt, Add(v, Scale(dt, a)))) == Add(Add(p, Scale(dt, v)), Scale(dt * dt, a))
  {
  }

  /** Under a constant force both Euler steps get the velocity exactly right;
      the explicit step falls short of the exact position by a dt^2/2 and the
      symplectic step overshoots it by the same amount. */
  lemma EulerUnderConstantForce(field: ForceField, f: Vec3, state: GeneralizedVector, mass: real, t: real, dt: real)
    requires mass != 0.0
    requires IsConstantField(field, f)
    ensures var exact := UniformAcceleration(state, Div(f, mass), dt);
      && ExplicitEuler(field, state, mass, t, dt).velocity == exact.velocity
      && SymplecticEuler(field, state, mass, t, dt).velocity == exact.velocity
      && ExplicitEuler(field, state, mass, t, dt).position == Add(exact.position, Scale(-dt * dt / 2.0, Div(f, mass)))
      && SymplecticEuler(field, state, mass, t, dt).position == Add(exact.position, Scale(dt * dt / 2.0, Div(f, mass)))
  {
    assert field(state.position, state.velocity, t) == f;
    EulerStepsCompared(field, state, mass, t, dt);
  }

  // ---- rungeKutta4 ----

  /** The four stage slopes of one RK4 step and the force of its last stage. */
  datatype Stages = Stages(kx: seq<Vec3>, kv: seq<Vec3>, lastForce: Vec3)

  /** The stages of rungeKutta4 when its stage-0 force is `force0` (stages 1-3
      evaluate the field at the midpoints and the end of the step). */
  function RungeKutta4Stages(field: ForceField, state: GeneralizedVector, mass: real, t: real, dt: real, force0: Vec3): (st: Stages)
    requires mass != 0.0
    ensures |st.kx| == 4 && |st.kv| == 4
    ensures st.kx[0] == state.velocity && Scale(mass, st.kv[0]) == force0
    ensures Scale(mass, st.kv[3]) == st.lastForce
  {
    var p, v := state.position, state.velocity;
    var kx0 := v;
    var kv0 := Div(force0, mass);
    var kx1 := Add(v, Scale(dt / 2.0, kv0));
    var kv1 := Div(field(Add(p, Scale(dt / 2.0, kx0)), kx1, t + dt / 2.0), mass);
    var kx2 := Add(v, Scale(dt / 2.0, kv1));
    var kv2 := Div(field(Add(p, Scale(dt / 2.0, kx1)), kx2, t + dt / 2.0), mass);
    var kx3 := Add(v, Scale(dt, kv2));
    var force3 := field(Add(p, Scale(dt, kx2)), kx3, t + dt);
    ScaleOfDiv(mass, force0);
    ScaleOfDiv(mass, force3);
    Stages([kx0, kx1, kx2, kx3], [kv0, kv1, kv2, Div(force3, mass)], force3)
  }

  /** The RK4 update from a given stage-0 force; a step of length zero leaves
      the state as it is. */
  function RungeKutta4From(field: ForceField, state: GeneralizedVector, mass: real, t: real, dt: real, force0: Vec3): (next: GeneralizedVector)
    requires mass != 0.0
    ensures dt == 0.0 ==> next == state
  {
    var st := RungeKutta4Stages(field, state, mass, t, dt, force0);
    GeneralizedVector(
      Add(state.position, Scale(dt / 6.0, Add(Add(Add(st.kx[0], Scale(2.0, st.kx[1])), Scale(2.0, st.kx[2])), st.kx[3]))),
      Add(state.velocity, Scale(dt / 6.0, Add(Add(Add(st.kv[0], Scale(2.0, st.kv[1])), Scale(2.0, st.kv[2])), st.kv[3]))))
  }

  /** Classical RK4: the stage-0 force is the field at the start of the step. */
  function ClassicRungeKutta4(field: ForceField, state: GeneralizedVector, mass: real, t: real, dt: real): (next: GeneralizedVector)
    requires mass != 0.0
    ensures dt == 0.0 ==> next == state
  {
    RungeKutta4From(field, state, mass, t, dt, field(state.position, state.velocity, t))
  }

  /** Under a constant force, an RK4 step whose stage-0 force is that same force
      is exact, and its last stage force is the constant again. */
  lemma RungeKutta4UnderConstantForce(field: ForceField, f: Vec3, state: GeneralizedVector, mass: real, t: real, dt: real)
    requires mass != 0.0
    requires IsConstantField(field, f)
    ensures RungeKutta4Stages(field, state, mass, t, dt, f).lastForce == f
    ensures RungeKutta4From(field, state, mass, t, dt, f) == UniformAcceleration(state, Div(f, mass), dt)
  {
    var p, v := state.position, state.velocity;
    var a := Div(f, mass);
    var st := RungeKutta4Stages(field, state, mass, t, dt, f);
    var half := Add(v, Scale(dt / 2.0, a));
    assert field(Add(p, Scale(dt / 2.0, v)), half, t + dt / 2.0) == f;
    assert field(Add(p, Scale(dt / 2.0, half)), half, t + dt / 2.0) == f;
    assert field(Add(p, Scale(dt, half)), Add(v, Scale(dt, a)), t + dt) == f;
    assert st.kv == [a, a, a, a];
    assert st.kx == [v, half, half, Add(v, Scale(dt, a))];
    RungeKutta4ConstantComponents(p, v, a, dt);
  }

  lemma RungeKutta4ConstantComponents(p: Vec3, v: Vec3, a: Vec3, dt: real)
    ensures var half := Add(v, Scale(dt / 2.0, a));
      Add(p, Scale(dt / 6.0, Add(Add(Add(v, Scale(2.0, half)), Scale(2.0, half)), Add(v, Scale(dt, a)))))
      == Add(Add(p, Scale(dt, v)), Scale(dt * dt / 2.0, a))
    ensures Add(v, Scale(dt / 6.0, Add(Add(Add(a, Scale(2.0, a)), Scale(2.0, a)), a))) == Add(v, Scale(dt, a))
  {
    RungeKutta4ConstantWeights(v, a, dt);
    SixthOfWeights(v, a, dt);
    AddAssociative(p, Scale(dt, v), Scale(dt * dt / 2.0, a));
    RungeKutta4ConstantSlopes(a, dt);
  }

  /** The weighted sum of the four position slopes under a constant
      acceleration a is 6 v + 3 dt a. */
  lemma RungeKutta4ConstantWeights(v: Vec3, a: Vec3, dt: real)
    ensures var half := Add(v, Scale(dt / 2.0, a));
      Add(Add(Add(v, Scale(2.0, half)), Scale(2.0, half)), Add(v, Scale(dt, a)))
      == Add(Scale(6.0, v), Scale(3.0 * dt, a))
  {
  }

  lemma SixthOfWeights(v: Vec3, a: Vec3, dt: real)
    ensures Scale(dt / 6.0, Add(Scale(6.0, v), Scale(3.0 * dt, a))) == Add(Scale(dt, v), Scale(dt * dt / 2.0, a))
  {
  }

  /** The four velocity slopes under a constant acceleration a average to a. */
  lemma RungeKutta4ConstantSlopes(a: Vec3, dt: real)
    ensures Scale(dt / 6.0, Add(Add(Add(a, Scale(2.0, a)), Scale(2.0, a)), a)) == Scale(dt, a)
  {
  }

  /** Classical RK4 is exact under a constant force. */
  lemma ClassicRungeKutta4UnderConstantForce(field: ForceField, f: Vec3, state: GeneralizedVector, mass: real, t: real, dt: real)
    requires mass != 0.0
    requires IsConstantField(field, f)
    ensures ClassicRungeKutta4(field, state, mass, t, dt) == UniformAcceleration(state, Div(f, mass), dt)
  {
    assert field(state.position, state.velocity, t) == f;
    RungeKutta4UnderConstantForce(field, f, state, mass, t, dt);
  }

  /** With a force that vanishes everywhere, all three propagators move the
      particle in a straight line at constant velocity (RK4 with a stored zero
      stage-0 force, which is what it holds after any earlier step in that field). */
  lemma PropagatorsWithoutForce(field: ForceField, state: GeneralizedVector, mass: real, t: real, dt: real)
    requires mass != 0.0
    requires IsConstantField(field, Zero)
    ensures ExplicitEuler(field, state, mass, t, dt) == Drift(state, dt)
    ensures SymplecticEuler(field, state, mass, t, dt) == Drift(state, dt)
    ensures RungeKutta4From(field, state, mass, t, dt, Zero) == Drift(state, dt)
    ensures ClassicRungeKutta4(field, state, mass, t, dt) == Drift(state, dt)
  {
    assert field(state.position, state.velocity, t) == Zero;
    assert Div(Zero, mass) == Zero;
    RungeKutta4UnderConstantForce(field, Zero, state, mass, t, dt);
  }

  // ---- Fields of single force laws ----

  /** The field of a HookeForce object. */
  function HookeField(k: real, anchor: Vec3): ForceField {
    (p: Vec3, v: Vec3, t: real) => HookeForce(k, anchor, p)
  }

  /** The field of an EarthGravitationalForce object. */
  function EarthGravityField(mass: real): ForceField {
    (p: Vec3, v: Vec3, t: real) => EarthGravityForce(mass)
  }

  /** A particle of mass m under Earth gravity alone, stepped by any of the
      propagators: the velocity always gains -g dt in y; RK4 (classical, or
      carrying the gravity force over from an earlier step) lands on the exact
      parabola, explicit Euler half a g dt^2 above it. */
  lemma FallUnderEarthGravity(state: GeneralizedVector, mass: real, t: real, dt: real)
    requires mass != 0.0
    ensures var a := Vec3(0.0, -StandardGravity, 0.0);
      && ClassicRungeKutta4(EarthGravityField(mass), state, mass, t, dt) == UniformAcceleration(state, a, dt)
      && RungeKutta4From(EarthGravityField(mass), state, mass, t, dt, EarthGravityForce(mass)) == UniformAcceleration(state, a, dt)
      && ExplicitEuler(EarthGravityField(mass), state, mass, t, dt).velocity == Add(state.velocity, Scale(dt, a))
      && ExplicitEuler(EarthGravityField(mass), state, mass, t, dt).position.y
         == UniformAcceleration(state, a, dt).position.y + dt * dt / 2.0 * StandardGravity
  {
    var field := EarthGravityField(mass);
    var f := EarthGravityForce(mass);
    assert IsConstantField(field, f);
    assert Div(f, mass) == Vec3(0.0, -StandardGravity, 0.0);
    ClassicRungeKutta4UnderConstantForce(field, f, state, mass, t, dt);
    RungeKutta4UnderConstantForce(field, f, state, mass, t, dt);
    EulerUnderConstantForce(field, f, state, mass, t, dt);
  }

  /** Classical RK4 on the unit spring (k = 1, m = 1) with dt = 1 applies, from
      every starting state, the fourth-order Taylor expansion of the exact
      oscillation: with d = p - anchor, d' = c d + s v and v' = c v - s d, where
      c = 1 - 1/2 + 1/24 (cos 1) and s = 1 - 1/6 (sin 1). */
  lemma ClassicRungeKutta4OnUnitSpring(anchor: Vec3, state: GeneralizedVector, t: real)
    ensures var d := Sub(state.position, anchor);
      var next := ClassicRungeKutta4(HookeField(1.0, anchor), state, 1.0, t, 1.0);
      && next.position == Add(anchor, Add(Scale(1.0 - 1.0 / 2.0 + 1.0 / 24.0, d), Scale(1.0 - 1.0 / 6.0, state.velocity)))
      && next.velocity == Add(Scale(1.0 - 1.0 / 2.0 + 1.0 / 24.0, state.velocity), Scale(-(1.0 - 1.0 / 6.0), d))
  {
  }

  /** On the unit spring, the last stage force of an RK4 step: the force the
      next rungeKutta4 call reuses for its stage 0. */
  lemma UnitSpringLastForce(anchor: Vec3, state: GeneralizedVector, t: real, force0: Vec3)
    requires force0 == HookeForce(1.0, anchor, state.position)
    ensures var d := Sub(state.position, anchor);
      RungeKutta4Stages(HookeField(1.0, anchor), state, 1.0, t, 1.0, force0).lastForce
        == Add(Scale(-1.0 / 2.0, d), Scale(-3.0 / 4.0, state.velocity))
  {
  }

  /** On the unit spring, an RK4 step whose stage 0 uses force0 instead of the
      force at the starting point is off from classical RK4 by delta / 8 in
      position and delta / 12 in velocity, delta being the error in force0. */
  lemma UnitSpringStaleShift(anchor: Vec3, state: GeneralizedVector, t: real, force0: Vec3)
    ensures var delta := Sub(force0, HookeForce(1.0, anchor, state.position));
      var classic := ClassicRungeKutta4(HookeField(1.0, anchor), state, 1.0, t, 1.0);
      var stale := RungeKutta4From(HookeField(1.0, anchor), state, 1.0, t, 1.0, force0);
      && stale.position == Add(classic.position, Scale(1.0 / 8.0, delta))
      && stale.velocity == Add(classic.velocity, Scale(1.0 / 12.0, delta))
  {
  }

  /** Two rungeKutta4 calls on the unit spring (k = 1, m = 1, dt = 1) from
      any state at offset d from the anchor with velocity v: the first call is
      classical RK4 and stores the last stage force -d/2 - 3v/4, which is off
      from the force at the second call's starting point by d/24 + v/12; the
      second call therefore ends with a velocity a twelfth of that away from
      classical RK4 from the same state. */
  lemma StaleStageZeroOnUnitSpring(anchor: Vec3, start: GeneralizedVector)
    ensures var field := HookeField(1.0, anchor);
      var d := Sub(start.position, anchor);
      var first := ClassicRungeKutta4(field, start, 1.0, 0.0, 1.0);
      var stored := RungeKutta4Stages(field, start, 1.0, 0.0, 1.0, field(start.position, start.velocity, 0.0)).lastForce;
      var delta := Add(Scale(1.0 / 24.0, d), Scale(1.0 / 12.0, start.velocity));
      && Sub(stored, field(first.position, first.velocity, 1.0)) == delta
      && RungeKutta4From(field, first, 1.0, 1.0, 1.0, stored).velocity
         == Add(ClassicRungeKutta4(field, first, 1.0, 1.0, 1.0).velocity, Scale(1.0 / 12.0, delta))
  {
    var field := HookeField(1.0, anchor);
    ClassicRungeKutta4OnUnitSpring(anchor, start, 0.0);
    UnitSpringLastForce(anchor, start, 0.0, field(start.position, start.velocity, 0.0));
    var first := ClassicRungeKutta4(field, start, 1.0, 0.0, 1.0);
    var stored := RungeKutta4Stages(field, start, 1.0, 0.0, 1.0, field(start.position, start.velocity, 0.0)).lastForce;
    UnitSpringForceGap(anchor, Sub(start.position, anchor), start.velocity);
    UnitSpringStaleShift(anchor, first, 1.0, stored);
  }

  /** The last stage force of a unit-spring RK4 step from offset d and velocity
      v, minus the force at the step's classical RK4 result, is d/24 + v/12. */
  lemma UnitSpringForceGap(anchor: Vec3, d: Vec3, v: Vec3)
    ensures var stored := Add(Scale(-1.0 / 2.0, d), Scale(-3.0 / 4.0, v));
      var reached := Add(anchor, Add(Scale(1.0 - 1.0 / 2.0 + 1.0 / 24.0, d), Scale(1.0 - 1.0 / 6.0, v)));
      Sub(stored, HookeForce(1.0, anchor, reached)) == Add(Scale(1.0 / 24.0, d), Scale(1.0 / 12.0, v))
  {
    var reached := Add(anchor, Add(Scale(1.0 - 1.0 / 2.0 + 1.0 / 24.0, d), Scale(1.0 - 1.0 / 6.0, v)));
    assert Sub(reached, anchor) == Add(Scale(1.0 - 1.0 / 2.0 + 1.0 / 24.0, d), Scale(1.0 - 1.0 / 6.0, v));
  }

  /** rungeKutta4 with its function-static state: the stage arrays kx, kv and
      the stage force, which is evaluated at the start of the very first call
      only and afterwards still holds the last stage force of the previous call. */
  class RungeKutta4 {
    const kx: array<Vec3>
    const kv: array<Vec3>
    var force: Vec3
    var forceInitialized: bool

    ghost predicate Valid()
      reads this
    {
      kx.Length == 4 && kv.Length == 4 && kx != kv
    }

    /** The stage-0 force a call from `state` at time t uses. */
    function StageZeroForce(field: ForceField, state: GeneralizedVector, t: real): Vec3
      reads this
    {
      if forceInitialized then force else field(state.position, state.velocity, t)
    }

    constructor ()
      ensures Valid() && !forceInitialized && fresh(kx) && fresh(kv)
    {
      kx := new Vec3[4](_ => Zero);
      kv := new Vec3[4](_ => Zero);
      force := Zero;
      forceInitialized := false;
    }

    /** One rungeKutta4 call. */
    method Step(field: ForceField, state: GeneralizedVector, mass: real, t: real, dt: real) returns (next: GeneralizedVector)
      requires Valid() && mass != 0.0
      modifies this, kx, kv
      ensures Valid() && forceInitialized
      ensures var st := RungeKutta4Stages(field, state, mass, t, dt, old(StageZeroForce(field, state, t)));
        && next == RungeKutta4From(field, state, mass, t, dt, old(StageZeroForce(field, state, t)))
        && force == st.lastForce
        && kx[..] == st.kx && kv[..] == st.kv
      ensures !old(forceInitialized) ==> next == ClassicRungeKutta4(field, state, mass, t, dt)
    {
      var p, v := state.position, state.velocity;
      ghost var st := RungeKutta4Stages(field, state, mass, t, dt, StageZeroForce(field, state, t));
      // The arrays are written in the source's order; each stage value is also
      // kept in a local so that later stages read it from there.
      var kx0 := v;
      kx[0] := kx0;
      if !forceInitialized {
        force := field(p, kx0, t);
        forceInitialized := true;
      }
      var kv0 := Div(force, mass);
      kv[0] := kv0;

      var kx1 := Add(v, Scale(dt / 2.0, kv0));
      kx[1] := kx1;
      force := field(Add(p, Scale(dt / 2.0, kx0)), kx1, t + dt / 2.0);
      var kv1 := Div(force, mass);
      kv[1] := kv1;

      var kx2 := Add(v, Scale(dt / 2.0, kv1));
      kx[2] := kx2;
      force := field(Add(p, Scale(dt / 2.0, kx1)), kx2, t + dt / 2.0);
      var kv2 := Div(force, mass);
      kv[2] := kv2;

      var kx3 := Add(v, Scale(dt, kv2));
      kx[3] := kx3;
      force := field(Add(p, Scale(dt, kx2)), kx3, t + dt);
      var kv3 := Div(force, mass);
      kv[3] := kv3;

      assert st == Stages([kx0, kx1, kx2, kx3], [kv0, kv1, kv2, kv3], force);
      assert kx[..] == st.kx && kv[..] == st.kv;
      next := GeneralizedVector(
        Add(p, Scale(dt / 6.0, Add(Add(Add(kx0, Scale(2.0, kx1)), Scale(2.0, kx2)), kx3))),
        Add(v, Scale(dt / 6.0, Add(Add(Add(kv0, Scale(2.0, kv1)), Scale(2.0, kv2)), kv3))));
    }
  }

  /** rungeKutta4 with its stages held in per-call locals and the stage-0 force
      evaluated at the start of every call: classical RK4 on every call. */
  method FreshRungeKutta4(field: ForceField, state: GeneralizedVector, mass: real, t: real, dt: real) returns (next: GeneralizedVector)
    requires mass != 0.0
    ensures next == ClassicRungeKutta4(field, state, mass, t, dt)
  {
    var p, v := state.position, state.velocity;
    var kx0 := v;
    var kv0 := Div(field(p, kx0, t), mass);
    var kx1 := Add(v, Scale(dt / 2.0, kv0));
    var kv1 := Div(field(Add(p, Scale(dt / 2.0, kx0)), kx1, t + dt / 2.0), mass);
    var kx2 := Add(v, Scale(dt / 2.0, kv1));
    var kv2 := Div(field(Add(p, Scale(dt / 2.0, kx1)), kx2, t + dt / 2.0), mass);
    var kx3 := Add(v, Scale(dt, kv2));
    var kv3 := Div(field(Add(p, Scale(dt, kx2)), kx3, t + dt), mass);
    next := GeneralizedVector(
      Add(p, Scale(dt / 6.0, Add(Add(Add(kx0, Scale(2.0, kx1)), Scale(2.0, kx2)), kx3))),
      Add(v, Scale(dt / 6.0, Add(Add(Add(kv0, Scale(2.0, kv1)), Scale(2.0, kv2)), kv3))));
  }

  /** Two consecutive calls of the corrected step, the second from the first's
      result: both are classical RK4, so the stage-0 error of
      StaleStageZeroExample does not arise. */
  method FreshTwoSteps(field: ForceField, start: GeneralizedVector, mass: real, t: real, dt: real)
    returns (first: GeneralizedVector, second: GeneralizedVector)
    requires mass != 0.0
    ensures first == ClassicRungeKutta4(field, start, mass, t, dt)
    ensures second == ClassicRungeKutta4(field, first, mass, t + dt, dt)
  {
    first := FreshRungeKutta4(field, start, mass, t, dt);
    second := FreshRungeKutta4(field, first, mass, t + dt, dt);
  }

  /** Two consecutive rungeKutta4 calls on one object, the second from the
      first's result: the first is classical RK4 and the second reuses the
      first call's last stage force as its stage-0 force. */
  method TwoSteps(field: ForceField, start: GeneralizedVector, mass: real, t: real, dt: real)
    returns (first: GeneralizedVector, second: GeneralizedVector)
    requires mass != 0.0
    ensures first == ClassicRungeKutta4(field, start, mass, t, dt)
    ensures var stored := RungeKutta4Stages(field, start, mass, t, dt, field(start.position, start.velocity, t)).lastForce;
      second == RungeKutta4From(field, first, mass, t + dt, dt, stored)
  {
    var rk := new RungeKutta4();
    first := rk.Step(field, start, mass, t, dt);
    second := rk.Step(field, first, mass, t + dt, dt);
  }

  /** Moving a vector by a nonzero multiple of a nonzero vector changes it. */
  lemma ShiftChanges(c: Vec3, k: real, delta: Vec3)
    requires k != 0.0
    ensures delta != Zero <==> Add(c, Scale(k, delta)) != c
  {
    if delta != Zero {
      if delta.x != 0.0 {
        assert Add(c, Scale(k, delta)).x != c.x;
      } else if delta.y != 0.0 {
        assert Add(c, Scale(k, delta)).y != c.y;
      } else {
        assert Add(c, Scale(k, delta)).z != c.z;
      }
    }
  }

  /** The two calls of StaleStageZeroOnUnitSpring made on one RungeKutta4
      object: unless d + 2v is zero, the second result is not classical RK4. */
  method StaleStageZeroExample(anchor: Vec3, start: GeneralizedVector) returns (written: GeneralizedVector, classic: GeneralizedVector)
    ensures var delta := Add(Scale(1.0 / 24.0, Sub(start.position, anchor)), Scale(1.0 / 12.0, start.velocity));
      && written.velocity == Add(classic.velocity, Scale(1.0 / 12.0, delta))
      && (delta != Zero <==> written.velocity != classic.velocity)
  {
    var field := HookeField(1.0, anchor);
    var first;
    first, written := TwoSteps(field, start, 1.0, 0.0, 1.0);
    classic := ClassicRungeKutta4(field, first, 1.0, 1.0, 1.0);
    StaleStageZeroOnUnitSpring(anchor, start);
    ShiftChanges(classic.velocity, 1.0 / 12.0, Add(Scale(1.0 / 24.0, Sub(start.position, anchor)), Scale(1.0 / 12.0, start.velocity)));
  }
}
