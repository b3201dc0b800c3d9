# Flocking engine core in Dafny

This project models the per-frame logic of a Unity flocking simulation. Prey agents steer by five weighted rules:

- cohesion;
- separation;
- alignment;
- wander;
- avoiding predators.

Predators steer by wandering alone. Every agent then:

- clamps its acceleration and velocity;
- integrates its position;
- wraps the position around the faces of a cubic world.

The two proximity queries of the world are modelled as order-preserving filters over the world's lists.

Floats become `real`, and `Vector3` becomes the datatype `V3`. The square root behind `Vector3.Magnitude` and the arc cosine behind `Vector3.Angle` cannot be defined over the reals. They are the two fields of a `MathLib` value that every geometric operation takes as a parameter. `MathLib.Valid` states what the code relies on:

- the magnitude is the non-negative root of the squared length;
- it vanishes only on the zero vector;
- it scales with non-negative factors;
- the angle lies in [0, 180].

`Normalize`, `Distance` and `ClampMagnitude` are then defined on top of it, as the vector library defines them.

Modules, in dependency order:

- `Reals` and `Vectors`: field facts and exact vector algebra.
- `Numerics`: magnitude-based operations.
- `Seqs`: the filter behind every scanning loop.
- `Entities`: configuration, agents and the world.
- `Bounds`: wrap-around.
- `Queries`: `getNeigh` and `getPredators`.
- `Steering`: the prey rules and `combine`.
- `PredatorSteering`: the overriding `combine`.
- `Simulator`: `Update`.

Each `foreach … if … +=` loop is modelled by `Steering.Accumulate`, which walks the list front to back as the loop does. It is proved equal to a sum over `Seqs.Filter`, the reference definition that the rules' contracts are stated against.

Points of the code that the model keeps as written:

- `getNeigh` and `getPredators` return agents in list order (`Assets/World.cs:52-58`, `Assets/World.cs:66-72`).
- `getPredators` does not exclude the querying agent (`Assets/World.cs:66-72`).
- `wander` keeps no state between frames: it assigns a fresh jitter vector on every call (`Assets/Agent.cs:225`).
- A frame of length zero still clamps the velocity and wraps the position (`Assets/Agent.cs:31-39`). Position and velocity stay unchanged only when the velocity is within `maxVelocity` and the position is inside the box.

## Model

| member | source | states |
|---|---|---|
| Bounds.WrapFloat | Assets/Agent.cs:200-208 | past `max` gives `min`; below `min` (and not past `max`) gives `max`; inside is unchanged; for a non-empty interval the result is in [min, max] |
| Bounds.WrapFloatIdempotent | Assets/Agent.cs:200-208 | wrapping a wrapped value changes nothing, for every interval including an empty one |
| Bounds.WrapFloatEmptyInterval | Assets/Agent.cs:200-208 | with min > max a value above `max` lands on `min`, outside the interval |
| Bounds.Wrap | Assets/Agent.cs:193-198 | for a non-empty interval the point ends in the box; a point already in the box is unchanged |
| Bounds.WrapIdempotent | Assets/Agent.cs:193-198 | wrapping a point twice is wrapping it once |
| Bounds.WrapIsComponentwise | Assets/Agent.cs:193-198 | a coordinate's result depends on that coordinate alone |
| Seqs.Filter | Assets/World.cs:50-59 | the result holds exactly the kept elements, each as often as in the input, is no longer than the input, and is a subsequence of it (order kept) |
| Seqs.FilterEmpty | Assets/World.cs:52-58 | the filter comes back empty exactly when no element passes the test |
| Queries.Neighbours | Assets/World.cs:48-60 | an agent is returned iff it is on the list, has another identity than the subject and is strictly closer than the radius, as often as it is on the list; result is a subsequence of the list |
| Queries.Threats | Assets/World.cs:62-74 | a predator is returned iff it is on the list and strictly closer than the radius, as often as it is on the list; result is a subsequence of the list |
| Queries.NeighboursExcludeSelf | Assets/World.cs:54 | the subject, and anything with its identity, is never its own neighbour |
| Queries.NonPositiveRadiusFindsNothing | Assets/World.cs:54-68 | with radius ≤ 0 both queries return the empty list |
| Queries.ThreatsIncludeSelf | Assets/World.cs:66-72 | a subject on the predator list finds itself for any positive radius (no self-exclusion) |
| Queries.NeighboursMonotone | Assets/World.cs:54 | a larger radius never loses a neighbour |
| Numerics.ClampMagnitudeBound | Assets/Agent.cs:28-34 | the clamped vector's squared length is at most the bound squared; a short vector is unchanged; a long one is cut to exactly the bound and keeps its direction for a positive bound |
| Numerics.NormalizeUnitOrZero | Assets/Agent.cs:85 | normalising gives zero exactly for the zero vector and a unit vector otherwise |
| Numerics.NormalizeScaleInvariant | Assets/Agent.cs:117 | a positive stretch does not change the normalised direction |
| Steering.Accumulate | Assets/Agent.cs:67-74 | the loop's running sum is the sum over the kept elements and its counter is their number |
| Steering.Cohesion | Assets/Agent.cs:50-88 | zero for an empty list or when no neighbour is in view; otherwise the direction from the agent to the mean position of the neighbours in view |
| Steering.Separation | Assets/Agent.cs:91-126 | zero for an empty list; otherwise the normalised sum of the pushes from the neighbours in view |
| Steering.Push | Assets/Agent.cs:108-117 | the zero-distance skip: a zero offset gives no push; with `PushTimesSquaredDistance` for every other offset this fixes each push |
| Steering.PushTimesSquaredDistance | Assets/Agent.cs:113-117 | a push times the squared distance is the unit vector away from the neighbour: the push has length 1/d² |
| Steering.PushZero | Assets/Agent.cs:110-119 | a neighbour standing on the agent's position pushes with the zero vector, without assuming anything of the magnitude |
| Steering.PushPointsAway | Assets/Agent.cs:108-117 | a push points from the neighbour towards the agent and is never zero |
| Steering.PushInverseSquare | Assets/Agent.cs:113-117 | moving a neighbour k times as far along the same bearing divides its push by k² |
| Steering.PushHalfDistance | Assets/Agent.cs:113-117 | a neighbour at half the distance pushes four times as hard |
| Steering.SeparationIgnoresCoincident | Assets/Agent.cs:108-119 | adding a neighbour standing on the agent's own position does not change separation |
| Steering.Alignment | Assets/Agent.cs:128-151 | zero for an empty list; otherwise the normalised sum of the velocities of the neighbours in view |
| Steering.WideFieldOfView | Assets/Agent.cs:210-215 | with a field of view of at least 180 degrees every neighbour is in view |
| Steering.NegativeFieldOfView | Assets/Agent.cs:210-215 | with a negative field of view no neighbour is in view, so cohesion, separation and alignment are all zero |
| Steering.NothingInViewNoSteering | Assets/Agent.cs:67-148 | with no neighbour in view, cohesion, separation and alignment are all zero |
| Steering.CohesionUnitOrZero | Assets/Agent.cs:76-87 | cohesion is zero or a unit vector |
| Steering.SeparationUnitOrZero | Assets/Agent.cs:123-125 | separation is zero or a unit vector |
| Steering.AlignmentUnitOrZero | Assets/Agent.cs:148-150 | alignment is zero or a unit vector |
| Steering.AvoidEnemies | Assets/Agent.cs:253-266 | zero when no predator is near; otherwise the normalised sum of the flee vectors from every predator on the list |
| Steering.AvoidEnemiesUnitOrZero | Assets/Agent.cs:256-265 | avoidance is zero or a unit vector |
| Steering.FleeReachesDesiredVelocity | Assets/Agent.cs:269-274 | for a target off the agent's position, the current velocity plus `flee` has length `maxVelocity` and, for a positive maximum, points straight away from the target |
| Steering.FleeDesiredVelocity | Assets/Agent.cs:269-274 | the desired velocity `maxVelocity` times the unit vector away from the target has length `maxVelocity` and, for a positive maximum, that direction |
| Steering.FleeOnTarget | Assets/Agent.cs:269-274 | a target on the agent's own position only cancels the current velocity |
| Steering.FleeFromLonePredator | Assets/Agent.cs:253-274 | a prey at rest with one predator nearby is steered straight away from it |
| Steering.WeightedSumIgnoresZeroWeights | Assets/Agent.cs:178-183 | for each of the five rules, a rule whose weight is zero does not contribute: rule vectors that differ only in zero-weighted rules give the same sum |
| Steering.WeightedSumOnlyWander | Assets/Agent.cs:178-183 | with the cohesion, separation, alignment and avoidance weights at zero the sum is the wander vector times `wanderWeight` |
| Steering.PreyCombineLinearInWander | Assets/Agent.cs:153-187 | `combine` is affine in the wander vector: changing it changes the steering by `wanderWeight` times the change, whatever the world |
| Steering.ZeroAvoidWeightIgnoresPredators | Assets/Agent.cs:174-183 | with `weightAvoid` zero the prey's steering does not depend on the predator list |
| Steering.PreyAloneOnlyWanders | Assets/Agent.cs:153-187 | a prey with no other agent and no predator steers by exactly `wanderWeight` times the wander vector, with no normalisation of the sum |
| PredatorSteering.PredatorCombine | Assets/Predator.cs:7-10 | zero when the wander weight or the wander vector is zero, and non-zero otherwise |
| PredatorSteering.PredatorIsPreyThatOnlyWanders | Assets/Predator.cs:5-11 | a predator steers as a prey would with the cohesion, separation, alignment and avoidance weights at zero, whatever the world |
| Simulator.AccelerationIsCombine | Assets/Agent.cs:153-187 | the steering of a prey is its `combine`; that of a predator is `combine` with only the wander weight left |
| Simulator.Integrate | Assets/Agent.cs:28-39 | identity and kind are kept; for a non-negative bound the new position lies in [-maxBound/2, maxBound/2]³ |
| Simulator.Tick | Assets/Agent.cs:25-39 | the same for the whole update, prey or predator |
| Simulator.IntegrateFreeFlight | Assets/Agent.cs:28-39 | when neither clamp bites and the new position is in the box, the acceleration is the steering, the velocity grows by steering·dt and the position moves by the new velocity times dt |
| Simulator.TickFreeFlight | Assets/Agent.cs:25-39 | the same for a whole update with the steering the agent's kind selects |
| Simulator.IntegrateKeepsLimits | Assets/Agent.cs:28-34 | afterwards acceleration and velocity are within `maxAcceleration` and `maxVelocity`, whatever the steering |
| Simulator.TickKeepsLimits | Assets/Agent.cs:25-34 | the limits hold after every tick, for prey and for predators (which inherit `Update`) |
| Simulator.ZeroFrameKeepsState | Assets/Agent.cs:33-39 | a zero-length frame keeps the position and velocity of an agent within the speed limit and inside the box |
| Simulator.PredatorTickIgnoresWorld | Assets/Predator.cs:7-10 | a predator's update is the same in every world |
| Simulator.LonePreyMovesLikePredator | Assets/Agent.cs:153-187 | a prey alone in the world updates exactly as a predator with the same wander vector |

## Left out

- Unity lifecycle: `Start`, `FindObjectOfType` and `FindObjectsOfType` are engine glue. The configuration and the world's two lists are passed in as values.
- Spawning (`spawn`, `Instantiate`, `Random.Range`): random and engine-side.
- The internals of `wander`: they use the engine's random generator and the local-to-world `TransformPoint`, which reads the transform that `Update` sets through `transform.position` and `transform.LookAt` (`Assets/Agent.cs:41`, `Assets/Agent.cs:45`, `Assets/Agent.cs:237`). The transform is therefore left out with `wander`, and the wander vector is an input of `PreyCombine`, `PredatorCombine` and `Tick`.
- The frame clock `Time.deltaTime`: it becomes the parameter `dt`.
- Floating-point rounding and the small-magnitude threshold of `Vector3.Normalize`. The model normalises every non-zero vector over exact reals.
- `Vector3.Magnitude` and `Vector3.Angle` are abstract. `MathLib.Valid` lists their properties, including two that follow from the first (zero only at zero, scaling by non-negative factors). They are stated directly so that proofs need not derive them through non-linear real arithmetic.
- The order in which the engine calls `Update` on different agents within a frame: each tick is modelled against a given world snapshot.
- Object identity: the reference comparison in `getNeigh` is modelled by comparing an `id` field.
- Configuration checking: the code has none, so negative radii, weights and bounds are accepted as they are. For a negative `maxBound` the wrap interval is empty, and `Bounds.WrapFloatEmptyInterval` shows that the result then leaves it.
- Numerics.ClampMagnitudeBound: the direction of a clamped vector is stated only for a positive bound. With a negative bound the clamp reverses the vector.
