# DynamicsSim: force laws, composite forces and propagators

DynamicsSim simulates one particle moving under forces. This project models its physics
core.

- The five leaf force laws of the `Physics` namespace: electric, gravitational,
  Earth-surface gravity, Hooke spring and linear air resistance. Each gives a force vector
  and a potential energy.
- The mutable force objects and their setters.
- `CompositeForce`: a list of non-owning references whose forces and energies are summed
  in list order.
- The `Propagation` namespace: `explicitEuler`, `simplecticEuler` and `rungeKutta4`,
  including the function-static stage arrays and stage force of `rungeKutta4`.
- The two update cycles of the program:
  - the early prototype in `main.cpp`: global float arrays, a timer tick that does its own
    per-component explicit Euler update (it calls none of the propagators), and a
    redisplay counter;
  - the fixed-timestep loop in `src/main.cpp`, which calls a propagator for every step: a
    wall-clock accumulator and a trajectory bounded to `MAX_POINTS` entries.

Modules:

- `Vectors`: `glm::vec3` over the reals.
- `Physics`: force laws, their dispatch and the `Force` class.
- `Composite`: `CompositeForce` and the in-order sums that specify it.
- `Propagation`: the propagators, the stateful `RungeKutta4` class and its stateless
  correction.
- `Prototype`: the `main.cpp` globals and tick.
- `FrameLoop`: the `src/main.cpp` update cycle.

Float arithmetic is read as exact real arithmetic. `glm::length` is a parameter of the
inverse-square laws, constrained to the positive distance where those laws are evaluated.
A force object handed to a propagator is a field: a function of position, velocity and
time.

## Model

| member | source | states |
|---|---|---|
| Vectors.DotSelfNonNegative | lib/physics.cpp:126-128 | helper, not a model of these lines: the squared length `glm::dot(d, d)` that the spring and drag energies are built on is never negative |
| Physics.InverseSquareLaw | lib/physics.cpp:63-69 | away from the anchor, the inverse-square force is radial and has magnitude \|s\|/r²; its radial component d·F equals the energy, and energy times distance is -s |
| Physics.ElectricForceDirection | lib/physics.cpp:63-69 | with the sign the electric law is written with, charges of the same sign give a force towards the anchor and a negative energy, and charges of opposite sign give a force away from it |
| Physics.GravitationalForceAttracts | lib/physics.cpp:95-101 | two positive masses give a force towards the anchor and a negative energy |
| Physics.ElectricForce | lib/physics.cpp:63-65 | off the anchor, the force's component along p - anchor is the electric energy there (magnitude and sign in InverseSquareLaw and ElectricForceDirection) |
| Physics.ElectricEnergy | lib/physics.cpp:67-69 | off the anchor, energy times distance is -k_e q1 q2 |
| Physics.GravitationalForce | lib/physics.cpp:95-97 | off the anchor, the force's component along p - anchor is the gravitational energy there (magnitude and direction in InverseSquareLaw and GravitationalForceAttracts) |
| Physics.GravitationalEnergy | lib/physics.cpp:99-101 | off the anchor, energy times distance is -G m1 m2 |
| Physics.EarthGravityForce | lib/physics.cpp:106-108 | the force is vertical (no x or z part) and points down for a positive mass |
| Physics.EarthGravityEnergy | lib/physics.cpp:110-112 | the energy is zero at height 0 and, for a positive mass, positive exactly above it (its force is its gradient: EarthGravityIsConservative) |
| Physics.EarthGravityIsConservative | lib/physics.cpp:106-112 | moving the particle by h changes m g y by exactly -F·h, so the energy is the potential of the force |
| Physics.HookeForce | lib/physics.cpp:122-124 | the force vanishes at the anchor and, for k ≥ 0, never points away from it |
| Physics.HookeEnergy | lib/physics.cpp:126-128 | the energy is zero at the anchor and non-negative for k ≥ 0 |
| Physics.HookeIsConservative | lib/physics.cpp:122-128 | moving the particle by h changes the spring energy by -F·h plus the second-order term k/2 h·h |
| Physics.AirResistanceForce | lib/physics.cpp:133-135 | for a non-negative drag the force opposes the velocity; it is zero at rest |
| Physics.AirResistanceEnergy | lib/physics.cpp:137-139 | for a non-negative drag the reported energy is non-negative |
| Physics.AirResistancePower | lib/physics.cpp:133-139 | the drag's power F·v is minus twice the quantity it reports as energy |
| Physics.ComputeForce | include/physics.hpp:38-47 | the virtual computeForce gives each law's own force, so the leaf promises carry over: Earth gravity is vertical, the spring force vanishes at the anchor, the drag vanishes at rest and opposes the velocity |
| Physics.ComputeEnergy | include/physics.hpp:38-47 | the virtual computeEnergy gives each law's own energy: the spring energy is zero at the anchor and non-negative for k ≥ 0, the drag energy non-negative, the Earth-gravity energy zero at height 0 |
| Physics.ForceDependence | src/physics.hpp:84-161 | no force or energy depends on the time; only the drag's force and energy depend on the velocity; the drag's force and energy and the Earth-gravity force do not depend on the position; the anchored laws see the position only through p - anchor, so moving particle and anchor together changes no force |
| Physics.Force.constructor | lib/physics.cpp:40-41 | a force object starts with the parameters it is given |
| Physics.Force.SetCharge1 | lib/physics.cpp:43-53 | only charge 1 changes; getCharge1 then returns the new value and getCharge2 the old one |
| Physics.Force.SetCharge2 | lib/physics.cpp:43-57 | only charge 2 changes; the other charge is kept |
| Physics.Force.SetMass1 | lib/physics.cpp:75-85 | only mass 1 changes; getMass2 is unchanged |
| Physics.Force.SetMass2 | lib/physics.cpp:75-89 | only mass 2 changes; getMass1 is unchanged |
| Physics.Force.SetAnchorPoint | lib/physics.cpp:59-61 | only the anchor of an electric, gravitational or spring force changes |
| Composite.FirstIndex | lib/physics.cpp:11-12 | the iterator loop stops at the earliest entry that is the given object, or at the end when there is none |
| Composite.RemoveFirstSpec | lib/physics.cpp:10-17 | removing an absent force leaves the list as it was; otherwise the list shrinks by one and exactly one copy of that force leaves the multiset of members |
| Composite.RemoveFirstAt | lib/physics.cpp:11-14 | the entry erased is the earliest one holding the force; the others keep their order |
| Composite.AddThenRemove | lib/physics.cpp:6-17 | add then remove restores the list when the force was absent; when it was present, the earlier copy goes, so the list comes back with that entry moved to the end; the multiset is always restored |
| Composite.LawsOf | lib/physics.cpp:22-23 | the sums read each member's current parameters through its reference, in list order |
| Composite.TotalForceOfConcat | lib/physics.cpp:19-27 | the force sum over two lists joined is the sum of their force sums |
| Composite.TotalEnergyOfConcat | lib/physics.cpp:29-37 | the energy sum over two lists joined is the sum of their energy sums |
| Composite.TotalsOfMoveToEnd | lib/physics.cpp:19-37 | moving one member to the end of the list changes neither sum |
| Composite.AddedForceCounted | lib/physics.cpp:6-8 | adding a force grows both sums by exactly its own force and energy, so a force added twice counts twice |
| Composite.AddThenRemoveRestoresTotals | lib/physics.cpp:6-37 | adding a force and then removing it restores both sums, whether or not it was already a member |
| Composite.CompositeForce.constructor | include/physics.hpp:50-66 | a new composite force has no members |
| Composite.CompositeForce.AddForce | lib/physics.cpp:6-8 | exactly one reference, to this force, is appended |
| Composite.CompositeForce.RemoveForce | lib/physics.cpp:10-17 | the list becomes the old list with its earliest entry that is this object erased, and is unchanged when there is none |
| Composite.CompositeForce.ComputeForce | lib/physics.cpp:19-27 | the result is the zero vector plus each member's force in list order; it is zero for an empty composite |
| Composite.CompositeForce.ComputeEnergy | lib/physics.cpp:29-37 | the result is zero plus each member's energy in list order; it is zero for an empty composite |
| Propagation.UniformAccelerationWithoutForce | lib/physics.cpp:153-160 | helper, not a model of these lines: the exact motion under zero acceleration, which the propagators are compared with, is free motion |
| Propagation.GeneralizedVector | lib/physics.cpp:148-149 | datatype, no contract: a state is exactly a position and a velocity |
| Propagation.Rest | lib/physics.cpp:145-146 | constant, no contract: the default state is at rest at the origin (Prototype.Simulation.constructor starts there) |
| Propagation.ExplicitEuler | lib/physics.cpp:153-160 | whatever the force, the position moves with the pre-step velocity, as free motion does; mass times the velocity change is the impulse dt F of the force at the start; a zero step changes nothing (more in EulerStepsCompared, EulerUnderConstantForce) |
| Propagation.SymplecticEuler | lib/physics.cpp:187-195 | mass times the velocity change is the impulse dt F of the force at the start, and the position moves with the new velocity; a zero step changes nothing (more in EulerStepsCompared, EulerUnderConstantForce) |
| Propagation.EulerStepsCompared | lib/physics.cpp:153-195 | the two Euler steps give the same velocity; the symplectic position is the explicit one plus (F/m) dt² |
| Propagation.EulerUnderConstantForce | lib/physics.cpp:153-195 | under a constant force both Euler steps give the exact velocity; the explicit position is a dt²/2 short of the exact one and the symplectic position a dt²/2 beyond it |
| Propagation.RungeKutta4Stages | lib/physics.cpp:163-179 | there are four position and four velocity slopes; the first position slope is the velocity, the first velocity slope is the stage-0 force over the mass, and the last velocity slope is the force left in the static variable over the mass |
| Propagation.RungeKutta4From | lib/physics.cpp:181-184 | the RK4 update from a given stage-0 force; a zero step changes nothing (exactness and error in RungeKutta4UnderConstantForce and UnitSpringStaleShift) |
| Propagation.ClassicRungeKutta4 | lib/physics.cpp:162-185 | RK4 with the stage-0 force taken at the start of the step; a zero step changes nothing (exactness under a constant force and the Taylor form on the unit spring in ClassicRungeKutta4UnderConstantForce and ClassicRungeKutta4OnUnitSpring) |
| Propagation.RungeKutta4UnderConstantForce | lib/physics.cpp:162-185 | under a constant force, an RK4 step whose stage-0 force is that force is exact and leaves that force as its last stage force |
| Propagation.ClassicRungeKutta4UnderConstantForce | lib/physics.cpp:162-185 | classical RK4 is exact under a constant force |
| Propagation.PropagatorsWithoutForce | lib/physics.cpp:153-195 | with a force that vanishes everywhere, all propagators give free motion |
| Propagation.FallUnderEarthGravity | lib/physics.cpp:153-185 | under Earth gravity alone, RK4 (classical, or with the gravity force carried over) lands on the exact parabola; explicit Euler gets the velocity right and ends g dt²/2 above it |
| Propagation.ClassicRungeKutta4OnUnitSpring | lib/physics.cpp:162-185 | on the unit spring with dt = 1, classical RK4 applies the fourth-order Taylor expansion of the exact oscillation |
| Propagation.UnitSpringLastForce | lib/physics.cpp:176-179 | on the unit spring, the force left in the static variable after a step is -d/2 - 3v/4 |
| Propagation.UnitSpringStaleShift | lib/physics.cpp:166-167 | on the unit spring, an error delta in the stage-0 force moves the result by delta/8 in position and delta/12 in velocity |
| Propagation.StaleStageZeroOnUnitSpring | lib/physics.cpp:166 | the force stored by the first call differs from the force at the second call's start by d/24 + v/12, and the second call's velocity is off from classical RK4 by a twelfth of that |
| Propagation.RungeKutta4.constructor | lib/physics.cpp:163-166 | before the first call, the static stage force has not been evaluated |
| Propagation.RungeKutta4.Step | lib/physics.cpp:162-185 | a call is the RK4 update from the stored stage force (the field at the start only on the very first call, which is therefore classical RK4); afterwards the static arrays hold that step's stages and the static force holds its last stage force |
| Propagation.TwoSteps | lib/physics.cpp:162-185 | two consecutive calls: the first is classical RK4 and the second starts from the first call's last stage force |
| Propagation.StaleStageZeroExample | lib/physics.cpp:166 | on the unit spring, the second call's velocity differs from classical RK4 exactly when d/24 + v/12 is nonzero |
| Propagation.FreshRungeKutta4 | lib/physics.cpp:162-185 | with the stages in per-call locals and the stage-0 force evaluated on every call, every call is classical RK4 |
| Propagation.FreshTwoSteps | lib/physics.cpp:162-185 | with the corrected step, two consecutive calls are both classical RK4 |
| Prototype.NoForce | main.cpp:30-32 | function whose contract is its value: `f` returns three zero components for every input; NoForceField is built from it and NoForceFieldVanishes draws the consequence |
| Prototype.NoForceFieldVanishes | main.cpp:30-32 | `f`, read as a field over vectors, is zero at every position, velocity and time |
| Prototype.RedisplayOnTwentiethTick | main.cpp:59-66 | `incrementCounter >= deltaFrame / deltaTime` first holds on the 20th tick |
| Prototype.DriftByComponents | main.cpp:40-46 | updating the three position components with the pre-tick velocity and keeping the velocity is free motion |
| Prototype.NoForceEulerIsDrift | main.cpp:30-46 | under the prototype's force, explicitEuler with mass 0.01 and deltaTime 0.001 is free motion, which is what one tick does |
| Prototype.Simulation.constructor | main.cpp:17-25 | the ball starts at rest at the origin at time 0 with an empty trajectory and counter |
| Prototype.Simulation.IncreaseTime | main.cpp:35-49 | the clock advances by deltaTime; each position component moves by its pre-tick velocity times deltaTime; the velocity is unchanged; one copy of the new position is appended to the trajectory |
| Prototype.Simulation.Animate | main.cpp:59-69 | one tick, then the counter; a redisplay is requested, and the counter reset, exactly when it reaches 20 |
| FrameLoop.PushBounded | src/main.cpp:129-130 | the new position is always the last entry; the length grows by one until MAX_POINTS and then stays; only the oldest entry is dropped |
| FrameLoop.StepCount | src/main.cpp:126-133 | the number of steps a frame takes is the floor of accumulator / deltaTime: none below one timestep |
| FrameLoop.ElapsedIsProduct | src/main.cpp:132-133 | n steps of `+= deltaTime` add up to n deltaTime |
| FrameLoop.RecordAllKeepsNewest | src/main.cpp:129-130 | after any number of steps, the trajectory holds the newest min(length, MAX_POINTS) positions of the full history, in order |
| FrameLoop.RecordAllEndsAtParticle | src/main.cpp:129-130 | after a step the newest trajectory entry is the particle's position |
| FrameLoop.AdvanceOneMore | src/main.cpp:127-132 | each step starts from the previous step's state, at the loop's time advanced by deltaTime per step |
| FrameLoop.StepsTaken | src/main.cpp:126-133 | a loop that stops with less than one timestep left has taken exactly StepCount(accumulator) steps |
| FrameLoop.CatchUp | src/main.cpp:126-134 | the inner loop ends with less than one timestep in the accumulator, the particle advanced by the steps taken, and each new position recorded |
| FrameLoop.Simulation.constructor | src/main.cpp:99-109 | the trajectory is seeded with the initial position, the clock read and the accumulator empty |
| FrameLoop.Simulation.Frame | src/main.cpp:119-134 | a frame adds the time since the last frame and takes floor(owed / deltaTime) steps, each at the frame's clock reading plus k deltaTime; it leaves a remainder below deltaTime, non-negative whenever the owed time is, the trajectory bounded and ending at the particle |

## Left out

- Windowing, graphics and camera (`camera.hpp`, `graphics.hpp`, GLFW/GLUT set-up, `drawScene`, `resize`, `writeBitmapString`) are not part of this model: they only display the state.
- Float rounding is not modelled; every value is an exact real. The redisplay threshold `0.02f / 0.001f` is taken as exactly 20, and long-run float drift is out of scope.
- `glm::length` and `pow(·, 3)` become a `length` parameter and `Cube`, because square roots are not available over the reals here. The constants `g`, `G`, `epsilon_0`, `M_PI` and `k_e` are the source's decimal values read as reals.
- `Physics::Particle` and the `rungeKutta4(Particle&, …)` overload that `src/main.cpp` calls are not part of this model, so the update cycle takes an abstract `Step`.
- FrameLoop.Simulation.Frame: the step is a pure function of state, time and timestep, so the frame loop assumes the particle overload keeps no state between calls. The state-keeping `rungeKutta4` that is modelled does keep a stage force between calls (lib/physics.cpp:166). If the overload does too, the particle after a frame is not `Advance(...)` of a pure step.
- Propagation.RungeKutta4: each object stands for the one function-static state of the program. A new object starts with the stage force not yet evaluated, as at program start, so only calls made through a single object model the program.
- A zero mass is excluded: the propagators and `Div` require `mass != 0.0`. At zero mass, `force / mass` in the source (lib/physics.cpp:158, 167, 189) yields infinities or NaN, which exact reals cannot represent.
- The GLUT timer rescheduling in `animate`, raw-pointer lifetimes and the memory that `f` and `increaseTime` leak each call are left out: none of them affects the values computed.
- Electric and gravitational forces are undefined at their anchor, where the source divides by zero. Their functions therefore require `InverseSquareDefined`, and the propagators, which take fields defined everywhere, are not applied to them.
- The signatures that `include/physics.hpp` declares for the getters and setters differ from `lib/physics.cpp`. The model follows the definitions in `lib/physics.cpp`.
- Physics.Force.GetCharge1, GetCharge2, GetMass1, GetMass2: these getters return the stored parameter and appear only in the setters' contracts.
- Composite.CompositeForce: in the source a composite is itself a `Force` (include/physics.hpp:50), so it can be a member of another composite or be passed to a propagator as its force. In the model its members are leaf force objects only, and nothing turns a composite into a propagator's field.
- The default anchor `glm::vec3(0.0f)` of the electric, gravitational and spring constructors (include/physics.hpp:76, 97, 124) is not modelled: Physics.Force.constructor always takes the complete law, anchor included.
- Composite.AddThenRemove: when the force was already a member, add-then-remove restores the multiset of members and both sums but not the order, because `removeForce` erases the earlier copy.
- Physics.ElectricForceDirection: the model keeps the electric law's sign as the source writes it. With that sign, charges of the same sign pull toward the anchor, the opposite of Coulomb's law.

## Findings

| source | as written | input that shows it | evidently intended | confidence | as-written member | corrected member |
|---|---|---|---|---|---|---|
| lib/physics.cpp:166 | the stage-0 force is a function-static variable, so it is evaluated only on the first call; later calls use the previous call's last stage force, computed at another point | unit spring (k = 1, mass 1, anchor at the origin), dt = 1, start at rest at (1, 0, 0): the second call's velocity is 1/288 off in x from classical RK4 (stored force off by 1/24) | every call evaluates the force at its own starting state (classical RK4), with stages in per-call locals | not executed | Propagation.StaleStageZeroExample | Propagation.FreshRungeKutta4 |
