/** The simulator's update cycle: every frame adds the wall-clock time since
    the previous frame to an accumulator and then takes fixed physics steps of
    deltaTime while a whole step fits, recording each new position in a
    trajectory that keeps at most MAX_POINTS of the most recent positions. */
module FrameLoop {
  import opened Vectors
  import Propagation

  /** The most positions the trajectory keeps. */
  const MaxPoints: nat := 10000

  /** The physics timestep in s. */
  const DeltaTime: real := 0.001

  /** One physics step of the particle: state, time, timestep to the new state.
      The particle's own step is not part of this model. */
  type Step = (Propagation.GeneralizedVector, real, real) -> Propagation.GeneralizedVector

  // ---- The bounded trajectory ----

  /** Record a position: when the trajectory is full the oldest entry is
      dropped first. */
  function PushBounded(trajectory: seq<Vec3>, x: Vec3): (r: seq<Vec3>)
    ensures |r| == if |trajectory| >= MaxPoints then |trajectory| else |trajectory| + 1
    ensures 0 < |r| && r[|r| - 1] == x
    ensures r == (trajectory + [x])[|trajectory| + 1 - |r|..]
  {
    if |trajectory| >= MaxPoints then trajectory[1..] + [x] else trajectory + [x]
  }

  /** The number of steps a frame takes when its accumulator holds a: the
      whole number of timesteps in a, none when a is below one timestep. */
  function StepCount(a: real): (n: nat)
    ensures n == 0 <==> a < DeltaTime
    ensures a >= 0.0 ==> n as real * DeltaTime <= a < (n + 1) as real * DeltaTime
  {
    if a < 0.0 then 0 else (a / DeltaTime).Floor
  }

  /** The time n steps take, accumulated one timestep at a time as the loop
      does. */
  function Elapsed(n: nat): real {
    if n == 0 then 0.0 else Elapsed(n - 1) + DeltaTime
  }

  /** n steps take n deltaTime. */
  lemma {:induction false} ElapsedIsProduct(n: nat)
    ensures Elapsed(n) == n as real * DeltaTime
  {
    if n > 0 {
      ElapsedIsProduct(n - 1);
      assert n as real * DeltaTime == (n - 1) as real * DeltaTime + DeltaTime;
    }
  }

  /** One physics step of deltaTime at time t. */
  function StepOnce(step: Step, s: Propagation.GeneralizedVector, t: real): Propagation.GeneralizedVector {
    step(s, t, DeltaTime)
  }

  /** The particle after n steps starting at time t, the k-th step (from 0)
      taken at time t + Elapsed(k). */
  function Advance(step: Step, s: Propagation.GeneralizedVector, t: real, n: nat): Propagation.GeneralizedVector
  {
    if n == 0 then s else StepOnce(step, Advance(step, s, t, n - 1), t + Elapsed(n - 1))
  }

  /** The positions after each of the first n steps, in order. */
  function Positions(step: Step, s: Propagation.GeneralizedVector, t: real, n: nat): (ps: seq<Vec3>)
    ensures |ps| == n
  {
    if n == 0 then [] else Positions(step, s, t, n - 1) + [Advance(step, s, t, n).position]
  }

  /** The trajectory after recording the positions xs, in order. */
  function RecordAll(trajectory: seq<Vec3>, xs: seq<Vec3>): seq<Vec3>
    decreases |xs|
  {
    if xs == [] then trajectory else PushBounded(RecordAll(trajectory, xs[..|xs| - 1]), xs[|xs| - 1])
  }

  /** kept is the newest min(|all|, MaxPoints) entries of all. */
  predicate KeepsNewest(kept: seq<Vec3>, all: seq<Vec3>) {
    && |kept| == (if |all| <= MaxPoints then |all| else MaxPoints)
    && kept == all[|all| - |kept|..]
  }

  /** Recording positions keeps the most recent min(|trajectory| + |xs|,
      MaxPoints) of the old entries followed by the new ones: only the oldest
      entries are ever evicted, and the bound is kept. */
  lemma {:induction false} RecordAllKeepsNewest(trajectory: seq<Vec3>, xs: seq<Vec3>)
    requires |trajectory| <= MaxPoints
    ensures KeepsNewest(RecordAll(trajectory, xs), trajectory + xs)
    decreases |xs|
  {
    if xs == [] {
      assert trajectory + xs == trajectory;
    } else {
      var init, x := xs[..|xs| - 1], xs[|xs| - 1];
      RecordAllKeepsNewest(trajectory, init);
      AppendInitLast(trajectory, xs);
      PushKeepsNewest(trajectory + init, RecordAll(trajectory, init), x);
    }
  }

  lemma AppendInitLast(a: seq<Vec3>, xs: seq<Vec3>)
    requires xs != []
    ensures a + xs == (a + xs[..|xs| - 1]) + [xs[|xs| - 1]]
  {
  }

  /** Recording one more position is one more PushBounded. */
  lemma RecordAllOneMore(trajectory: seq<Vec3>, xs: seq<Vec3>, x: Vec3)
    ensures RecordAll(trajectory, xs + [x]) == PushBounded(RecordAll(trajectory, xs), x)
  {
    assert (xs + [x])[..|xs|] == xs;
  }

  /** One PushBounded onto the newest entries of a sequence gives the newest
      entries of that sequence extended by the new one. */
  lemma PushKeepsNewest(all: seq<Vec3>, kept: seq<Vec3>, x: Vec3)
    requires KeepsNewest(kept, all)
    ensures KeepsNewest(PushBounded(kept, x), all + [x])
  {
    var k := |all| - |kept|;
    SuffixThenAppend(all, k, x);
    SuffixOfSuffix(all + [x], k, |kept| + 1 - |PushBounded(kept, x)|);
  }

  lemma SuffixThenAppend<T>(a: seq<T>, k: nat, x: T)
    requires k <= |a|
    ensures a[k..] + [x] == (a + [x])[k..]
  {
  }

  lemma SuffixOfSuffix<T>(a: seq<T>, k: nat, j: nat)
    requires k + j <= |a|
    ensures a[k..][j..] == a[k + j..]
  {
  }

  /** After at least one step, the newest entry of the trajectory is the
      particle's position. */
  lemma RecordAllEndsAtParticle(step: Step, trajectory: seq<Vec3>, s: Propagation.GeneralizedVector, t: real, n: nat)
    requires n > 0
    ensures var r := RecordAll(trajectory, Positions(step, s, t, n));
      0 < |r| && r[|r| - 1] == Advance(step, s, t, n).position
  {
  }

  /** Step n + 1 is taken from the state after n steps at time t + Elapsed(n),
      and adds one position. */
  lemma AdvanceOneMore(step: Step, s: Propagation.GeneralizedVector, t: real, n: nat,
                       p: Propagation.GeneralizedVector, time: real)
    requires p == Advance(step, s, t, n) && time == t + Elapsed(n)
    ensures StepOnce(step, p, time) == Advance(step, s, t, n + 1)
    ensures Positions(step, s, t, n + 1) == Positions(step, s, t, n) + [StepOnce(step, p, time).position]
    ensures time + DeltaTime == t + Elapsed(n + 1)
  {
  }

  /** Some number of steps takes longer than any given time a. */
  lemma StepsExceed(a: real) returns (n: nat)
    ensures a < Elapsed(n)
  {
    n := if a < 0.0 then 0 else (a / DeltaTime).Floor + 1;
    ElapsedIsProduct(n);
  }

  /** While a whole timestep is still owed out of a, one more step stays below
      any count whose time exceeds a. */
  lemma OneMoreStepFits(a: real, n: nat, bound: nat)
    requires a < Elapsed(bound) && Elapsed(n) + DeltaTime <= a
    ensures n + 1 < bound
  {
    ElapsedIsProduct(n);
    ElapsedIsProduct(bound);
  }

  /** A loop that took n steps of deltaTime out of a and stops below one
      timestep has taken StepCount(a) steps. */
  lemma StepsTaken(a: real, n: nat, rest: real)
    requires rest == a - Elapsed(n) && rest < DeltaTime
    requires n == 0 || rest >= 0.0
    requires a >= 0.0 || n == 0
    ensures n == StepCount(a)
  {
    ElapsedIsProduct(n);
  }

  /** The inner loop of a frame: steps of deltaTime, each at the loop's own
      time (the frame's clock reading, then deltaTime later, ...), while a
      whole timestep is owed, each new position recorded. */
  method CatchUp(step: Step, particle: Propagation.GeneralizedVector, trajectory: seq<Vec3>, accumulator: real, currentTime: real)
    returns (p: Propagation.GeneralizedVector, traj: seq<Vec3>, acc: real, steps: nat)
    requires 1 <= |trajectory| <= MaxPoints && trajectory[|trajectory| - 1] == particle.position
    ensures 1 <= |traj| <= MaxPoints && traj[|traj| - 1] == p.position
    ensures acc == accumulator - Elapsed(steps) && acc < DeltaTime
    ensures steps == 0 || acc >= 0.0
    ensures accumulator >= 0.0 || steps == 0
    ensures p == Advance(step, particle, currentTime, steps)
    ensures traj == RecordAll(trajectory, Positions(step, particle, currentTime, steps))
  {
    var time := currentTime;
    p, traj, acc := particle, trajectory, accumulator;
    ghost var xs: seq<Vec3> := [];
    ghost var bound := StepsExceed(accumulator);
    steps := 0;
    while acc >= DeltaTime
      invariant acc == accumulator - Elapsed(steps)
      invariant time == currentTime + Elapsed(steps)
      invariant steps == 0 || acc >= 0.0
      invariant accumulator >= 0.0 || steps == 0
      invariant p == Advance(step, particle, currentTime, steps)
      invariant xs == Positions(step, particle, currentTime, steps)
      invariant traj == RecordAll(trajectory, xs)
      invariant 1 <= |traj| <= MaxPoints && traj[|traj| - 1] == p.position
      invariant steps <= bound
      decreases bound - steps
    {
      OneMoreStepFits(accumulator, steps, bound);
      AdvanceOneMore(step, particle, currentTime, steps, p, time);
      p := StepOnce(step, p, time);
      RecordAllOneMore(trajectory, xs, p.position);
      traj := PushBounded(traj, p.position);
      xs := xs + [p.position];
      time := time + DeltaTime;
      acc := acc - DeltaTime;
      steps := steps + 1;
    }
  }

  /** The loop state of the update cycle. */
  class Simulation {
    /** The particle's state. */
    var particle: Propagation.GeneralizedVector
    /** The positions recorded, oldest first. */
    var trajectory: seq<Vec3>
    /** The wall-clock time of the previous frame. */
    var lastTime: real
    /** The simulated time still owed to the physics. */
    var accumulator: real

    ghost predicate Valid()
      reads this
    {
      && 1 <= |trajectory| <= MaxPoints
      && trajectory[|trajectory| - 1] == particle.position
      && accumulator < DeltaTime
    }

    /** The set-up before the cycle: the trajectory is seeded with the initial
        position, the clock read and the accumulator empty. */
    constructor (start: Propagation.GeneralizedVector, startTime: real)
      ensures Valid()
      ensures particle == start && trajectory == [start.position]
      ensures lastTime == startTime && accumulator == 0.0
    {
      particle := start;
      trajectory := [start.position];
      lastTime := startTime;
      accumulator := 0.0;
    }

    /** One pass of the cycle with the clock reading now: the frame time is
        added to the accumulator and steps are taken until less than one
        timestep is left. */
    method Frame(step: Step, now: real) returns (steps: nat)
      requires Valid()
      modifies this
      ensures Valid()
      ensures var owed := old(accumulator) + (now - old(lastTime));
        && steps == StepCount(owed)
        && accumulator == owed - Elapsed(steps)
        && (owed >= 0.0 ==> 0.0 <= accumulator)
      ensures lastTime == now
      ensures particle == Advance(step, old(particle), now, steps)
      ensures trajectory == RecordAll(old(trajectory), Positions(step, old(particle), now, steps))
    {
      var currentTime := now;
      var frameTime := currentTime - lastTime;
      lastTime := currentTime;
      accumulator := accumulator + frameTime;
      particle, trajectory, accumulator, steps := CatchUp(step, particle, trajectory, accumulator, currentTime);
      StepsTaken(old(accumulator) + (now - old(lastTime)), steps, accumulator);
    }
  }
}
