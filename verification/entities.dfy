/** The records the flocking engine works on: the shared tuning parameters, the agents
    (prey and predators share one representation) and the world's two lists. */
module Entities {
  import opened Vectors

  /** The tuning parameters shared by every agent. No field is checked anywhere: negative
      radii, weights or bounds are accepted as they are. */
  datatype Config = Config(
    radiusCohesion: real,
    radiusSeparation: real,
    radiusAlignment: real,
    weightCohesion: real,
    weightSeparation: real,
    weightAlignment: real,
    maxAcceleration: real,
    maxVelocity: real,
    maxBound: real,
    maxFieldOfViewAngle: real,
    wanderWeight: real,
    wanderRadius: real,
    wanderJitter: real,
    wanderDistance: real,
    radiusAvoid: real,
    weightAvoid: real)

  /** An unedited configuration: every number zero except the field of view, 90 degrees. */
  const DefaultConfig: Config := Config(
    0.0, 0.0, 0.0,
    0.0, 0.0, 0.0,
    0.0, 0.0,
    0.0,
    90.0,
    0.0, 0.0, 0.0, 0.0,
    0.0, 0.0)

  /** A predator is an agent whose steering is replaced by wandering alone. */
  datatype Kind = Prey | Predator

  /** One agent. `id` stands for the object's identity, which the neighbour query compares
      by reference; `position` is the logical position the agent integrates. */
  datatype Agent = Agent(id: nat, kind: Kind, position: V3, velocity: V3, acceleration: V3)

  /** The world's registry, filled once when the world starts: `agents` is the list the
      neighbour query scans and `predators` the list the threat query scans. Which objects
      they hold is engine set-up and is not constrained here. */
  datatype World = World(agents: seq<Agent>, predators: seq<Agent>)

  function PositionOf(a: Agent): V3 {
    a.position
  }

  function VelocityOf(a: Agent): V3 {
    a.velocity
  }
}
