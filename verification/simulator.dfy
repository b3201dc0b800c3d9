/** One agent's frame update: steering, clamping, integration and wrap-around. Agents update
    one at a time against the world as it stands; the frame clock enters as `dt`. */
module Simulator {
  import opened Vectors
  import opened Numerics
  import opened Entities
  import opened Bounds
  import opened Steering
  import opened PredatorSteering

  /** The steering the agent's kind selects: `combine` or its predator override. */
  function Acceleration(lib: MathLib, c: Config, w: World, subject: Agent, wander: V3): V3 {
    match subject.kind
    case Prey => PreyCombine(lib, c, w, subject, wander)
    case Predator => PredatorCombine(c, wander)
  }

  /** The rest of `Agent.Update` once the steering vector is known, for a frame of length
      `dt`: the acceleration is clamped, then integrated into the velocity, which is
      clamped, then into the position, which is wrapped into the box
      [-maxBound/2, maxBound/2]³. The identity and kind of the agent never change and, for
      a non-negative bound, the new position lies in the box. */
  function Integrate(lib: MathLib, c: Config, subject: Agent, steering: V3, dt: real): (r: Agent)
    ensures r.id == subject.id && r.kind == subject.kind
    ensures 0.0 <= c.maxBound ==> InBox(r.position, -c.maxBound / 2.0, c.maxBound / 2.0)
  {
    var acc := ClampMagnitude(lib, steering, c.maxAcceleration);
    var vel := ClampMagnitude(lib, Add(subject.velocity, Scale(acc, dt)), c.maxVelocity);
    var pos := Wrap(Add(subject.position, Scale(vel, dt)), -c.maxBound / 2.0, c.maxBound / 2.0);
    subject.(position := pos, velocity := vel, acceleration := acc)
  }

  /** `Agent.Update`: steer by the agent's kind, then integrate. */
  function Tick(lib: MathLib, c: Config, w: World, subject: Agent, wander: V3, dt: real): (r: Agent)
    ensures r.id == subject.id && r.kind == subject.kind
    ensures 0.0 <= c.maxBound ==> InBox(r.position, -c.maxBound / 2.0, c.maxBound / 2.0)
  {
    Integrate(lib, c, subject, Acceleration(lib, c, w, subject, wander), dt)
  }

  /** The steering `Update` picks is `combine` for every agent: a predator's override is the
      prey's `combine` with every weight but the wander weight at zero. */
  lemma AccelerationIsCombine(lib: MathLib, c: Config, w: World, subject: Agent, wander: V3)
    ensures Acceleration(lib, c, w, subject, wander) ==
            PreyCombine(lib, if subject.kind == Prey then c else WanderOnly(c), w, subject, wander)
  {
    if subject.kind == Predator {
      PredatorIsPreyThatOnlyWanders(lib, c, w, subject, wander);
    }
  }

  /** When neither clamp bites and the new position is already in the box, integration is
      the plain semi-implicit Euler step: the steering becomes the acceleration, the velocity
      grows by `steering·dt` and the position moves by the new velocity times `dt`. */
  lemma IntegrateFreeFlight(lib: MathLib, c: Config, subject: Agent, steering: V3, dt: real)
    requires SqrMagnitude(steering) <= c.maxAcceleration * c.maxAcceleration
    requires SqrMagnitude(Add(subject.velocity, Scale(steering, dt))) <= c.maxVelocity * c.maxVelocity
    requires InBox(Add(subject.position, Scale(Add(subject.velocity, Scale(steering, dt)), dt)),
                   -c.maxBound / 2.0, c.maxBound / 2.0)
    ensures var r := Integrate(lib, c, subject, steering, dt);
      && r.acceleration == steering
      && r.velocity == Add(subject.velocity, Scale(steering, dt))
      && r.position == Add(subject.position, Scale(r.velocity, dt))
  {
    assert ClampMagnitude(lib, steering, c.maxAcceleration) == steering;
    var vel := Add(subject.velocity, Scale(steering, dt));
    assert ClampMagnitude(lib, vel, c.maxVelocity) == vel;
  }

  /** The same for a whole tick, with the steering the agent's kind selects. */
  lemma TickFreeFlight(lib: MathLib, c: Config, w: World, subject: Agent, wander: V3, dt: real)
    requires var steering := Acceleration(lib, c, w, subject, wander);
      && SqrMagnitude(steering) <= c.maxAcceleration * c.maxAcceleration
      && SqrMagnitude(Add(subject.velocity, Scale(steering, dt))) <= c.maxVelocity * c.maxVelocity
      && InBox(Add(subject.position, Scale(Add(subject.velocity, Scale(steering, dt)), dt)),
               -c.maxBound / 2.0, c.maxBound / 2.0)
    ensures var steering := Acceleration(lib, c, w, subject, wander);
      var r := Tick(lib, c, w, subject, wander, dt);
      && r.acceleration == steering
      && r.velocity == Add(subject.velocity, Scale(steering, dt))
      && r.position == Add(subject.position, Scale(r.velocity, dt))
  {
    IntegrateFreeFlight(lib, c, subject, Acceleration(lib, c, w, subject, wander), dt);
  }

  /** After integration the acceleration and the velocity respect their limits, whatever
      the steering and whatever the state the agent started from. */
  lemma IntegrateKeepsLimits(lib: MathLib, c: Config, subject: Agent, steering: V3, dt: real)
    requires lib.Valid()
    ensures var r := Integrate(lib, c, subject, steering, dt);
      && SqrMagnitude(r.acceleration) <= c.maxAcceleration * c.maxAcceleration
      && SqrMagnitude(r.velocity) <= c.maxVelocity * c.maxVelocity
  {
    var acc := ClampMagnitude(lib, steering, c.maxAcceleration);
    ClampMagnitudeBound(lib, steering, c.maxAcceleration);
    ClampMagnitudeBound(lib, Add(subject.velocity, Scale(acc, dt)), c.maxVelocity);
  }

  /** The limits hold after every tick, for prey and predators alike. */
  lemma TickKeepsLimits(lib: MathLib, c: Config, w: World, subject: Agent, wander: V3, dt: real)
    requires lib.Valid()
    ensures var r := Tick(lib, c, w, subject, wander, dt);
      && SqrMagnitude(r.acceleration) <= c.maxAcceleration * c.maxAcceleration
      && SqrMagnitude(r.velocity) <= c.maxVelocity * c.maxVelocity
  {
    IntegrateKeepsLimits(lib, c, subject, Acceleration(lib, c, w, subject, wander), dt);
  }

  /** A frame of length zero leaves an agent that already respects the speed limit and lies
      in the box where it was, with the velocity it had, whatever the steering. */
  lemma ZeroFrameKeepsState(lib: MathLib, c: Config, subject: Agent, steering: V3)
    requires SqrMagnitude(subject.velocity) <= c.maxVelocity * c.maxVelocity
    requires InBox(subject.position, -c.maxBound / 2.0, c.maxBound / 2.0)
    ensures Integrate(lib, c, subject, steering, 0.0).position == subject.position
    ensures Integrate(lib, c, subject, steering, 0.0).velocity == subject.velocity
  {
    var acc := ClampMagnitude(lib, steering, c.maxAcceleration);
    var vel := ClampMagnitude(lib, Add(subject.velocity, Scale(acc, 0.0)), c.maxVelocity);
    assert Add(subject.velocity, Scale(acc, 0.0)) == subject.velocity by {
      ScaleByZero(acc);
    }
    assert vel == subject.velocity;
    ScaleByZero(vel);
  }

  /** A predator's update does not depend on the world: it sees neither prey nor predators. */
  lemma PredatorTickIgnoresWorld(lib: MathLib, c: Config, w1: World, w2: World, subject: Agent, wander: V3, dt: real)
    requires subject.kind == Predator
    ensures Tick(lib, c, w1, subject, wander, dt) == Tick(lib, c, w2, subject, wander, dt)
  {
  }

  /** A prey alone in the world, with nothing to steer by but wandering, accelerates exactly
      as a predator with the same wander vector would. */
  lemma LonePreyMovesLikePredator(lib: MathLib, c: Config, w: World, subject: Agent, wander: V3, dt: real)
    requires subject.kind == Prey
    requires forall a :: a in w.agents ==> a.id == subject.id
    requires w.predators == []
    ensures Tick(lib, c, w, subject, wander, dt) ==
            Tick(lib, c, w, subject.(kind := Predator), wander, dt).(kind := Prey)
  {
    PreyAloneOnlyWanders(lib, c, w, subject, wander);
  }
}
