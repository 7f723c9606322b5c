/** The first prototype of the simulator: a ball whose position and velocity
    live in two global three-float arrays, advanced one component at a time by
    an explicit Euler step on every timer tick, with a redisplay every
    deltaFrame / deltaTime ticks. */
module Prototype {
  import opened Vectors
  import Propagation

  /** The ball's mass in kg. */
  const Mass: real := 0.01
  /** The physics timestep in s. */
  const DeltaTime: real := 0.001
  /** The time between two redisplays in s. */
  const DeltaFrame: real := 0.02

  /** The counter value at which a tick asks for a redisplay. */
  const RedisplayThreshold: real := DeltaFrame / DeltaTime

  /** The prototype's force function f: the zero vector whatever the position,
      velocity and time. */
  function NoForce(x: seq<real>, v: seq<real>, t: real): (force: seq<real>)
    ensures |force| == 3 && forall i :: 0 <= i < 3 ==> force[i] == 0.0
  {
    [0.0, 0.0, 0.0]
  }

  /** f as a field over vectors: NoForce applied to the components. */
  function NoForceField(): Propagation.ForceField {
    (p: Vec3, v: Vec3, t: real) =>
      var force := NoForce([p.x, p.y, p.z], [v.x, v.y, v.z], t);
      Vec3(force[0], force[1], force[2])
  }

  /** f vanishes everywhere, whatever position, velocity and time it is given. */
  lemma NoForceFieldVanishes()
    ensures Propagation.IsConstantField(NoForceField(), Zero)
  {
    forall p: Vec3, v: Vec3, t: real
      ensures NoForceField()(p, v, t) == Zero
    {
      var force := NoForce([p.x, p.y, p.z], [v.x, v.y, v.z], t);
      assert force[0] == 0.0 && force[1] == 0.0 && force[2] == 0.0;
    }
  }

  /** The number of ticks per redisplay. */
  const TicksPerFrame: int := 20

  /** A counter kept below the threshold reaches it on the tick that raises
      it from TicksPerFrame - 1, and on no other. */
  lemma RedisplayOnTwentiethTick(counter: int)
    requires 0 <= counter < TicksPerFrame
    ensures ((counter + 1) as real >= RedisplayThreshold) <==> counter + 1 == TicksPerFrame
  {
    assert RedisplayThreshold == 20.0;
  }

  /** A tick that moves every position component by its velocity times dt and
      keeps the velocity is free motion over dt. */
  lemma DriftByComponents(before: Propagation.GeneralizedVector, after: Propagation.GeneralizedVector, dt: real)
    requires after.position.x == before.position.x + before.velocity.x * dt
    requires after.position.y == before.position.y + before.velocity.y * dt
    requires after.position.z == before.position.z + before.velocity.z * dt
    requires after.velocity == before.velocity
    ensures after == Propagation.Drift(before, dt)
  {
  }

  /** Under the prototype's f, an explicitEuler step of mass Mass over
      DeltaTime is free motion; IncreaseTime's tick is therefore that step. */
  lemma NoForceEulerIsDrift(before: Propagation.GeneralizedVector, t: real)
    ensures Propagation.ExplicitEuler(NoForceField(), before, Mass, t, DeltaTime) == Propagation.Drift(before, DeltaTime)
  {
    NoForceFieldVanishes();
    Propagation.PropagatorsWithoutForce(NoForceField(), before, Mass, t, DeltaTime);
  }

  class Simulation {
    const currentPos: array<real>
    const currentVel: array<real>
    var currentTime: real
    /** Copies of currentPos, one per tick, oldest first. */
    var trajectory: seq<seq<real>>
    var incrementCounter: int

    ghost predicate Valid()
      reads this
    {
      && currentPos.Length == 3 && currentVel.Length == 3 && currentPos != currentVel
      && 0 <= incrementCounter < TicksPerFrame
    }

    /** The ball's position and velocity as a propagator state. */
    function State(): Propagation.GeneralizedVector
      requires Valid()
      reads this, currentPos, currentVel
    {
      Propagation.GeneralizedVector(
        Vec3(currentPos[0], currentPos[1], currentPos[2]),
        Vec3(currentVel[0], currentVel[1], currentVel[2]))
    }

    /** The initial globals: at rest at the origin at time 0, no trajectory yet. */
    constructor ()
      ensures Valid() && fresh(currentPos) && fresh(currentVel)
      ensures State() == Propagation.Rest
      ensures currentTime == 0.0 && trajectory == [] && incrementCounter == 0
    {
      currentPos := new real[3](_ => 0.0);
      currentVel := new real[3](_ => 0.0);
      currentTime := 0.0;
      trajectory := [];
      incrementCounter := 0;
    }

    /** increaseTime: the clock first, then per component the position with the
        velocity it had before the tick and the velocity with f's force (f is
        called with the partly updated position, which it ignores), then a copy
        of the new position is appended to the trajectory. */
    method IncreaseTime()
      requires Valid()
      modifies this, currentPos, currentVel
      ensures Valid() && incrementCounter == old(incrementCounter)
      ensures currentTime == old(currentTime) + DeltaTime
      ensures forall i :: 0 <= i < 3 ==> currentPos[i] == old(currentPos[i]) + old(currentVel[i]) * DeltaTime
      ensures currentVel[..] == old(currentVel[..])
      ensures State() == Propagation.Drift(old(State()), DeltaTime)
      ensures trajectory == old(trajectory) + [currentPos[..]]
    {
      currentTime := currentTime + DeltaTime;
      for i := 0 to 3
        modifies currentPos, currentVel
        invariant forall j :: 0 <= j < i ==> currentPos[j] == old(currentPos[j]) + old(currentVel[j]) * DeltaTime
        invariant forall j :: i <= j < 3 ==> currentPos[j] == old(currentPos[j])
        invariant currentVel[..] == old(currentVel[..])
      {
        var force := NoForce(currentPos[..], currentVel[..], currentTime);
        currentPos[i] := currentPos[i] + currentVel[i] * DeltaTime;
        currentVel[i] := currentVel[i] + force[i] / Mass * DeltaTime;
      }
      trajectory := trajectory + [currentPos[..]];
      DriftByComponents(old(State()), State(), DeltaTime);
    }

    /** animate: one tick, then the counter; when it reaches
        deltaFrame / deltaTime a redisplay is requested and it starts over.
        Rescheduling through the GLUT timer is not part of this model. */
    method Animate() returns (redisplay: bool)
      requires Valid()
      modifies this, currentPos, currentVel
      ensures Valid()
      ensures currentTime == old(currentTime) + DeltaTime
      ensures State() == Propagation.Drift(old(State()), DeltaTime)
      ensures trajectory == old(trajectory) + [currentPos[..]]
      ensures redisplay <==> old(incrementCounter) + 1 == TicksPerFrame
      ensures incrementCounter == if redisplay then 0 else old(incrementCounter) + 1
    {
      RedisplayOnTwentiethTick(incrementCounter);
      IncreaseTime();
      incrementCounter := incrementCounter + 1;
      redisplay := false;
      if (incrementCounter as real) >= RedisplayThreshold {
        redisplay := true;
        incrementCounter := 0;
      }
    }
  }
}
