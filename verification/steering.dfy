/** The prey's steering behaviours and their weighted combination. Each behaviour is a
    pure function of the agent and of the neighbour list a query returned; every loop of
    the form `foreach (x in list) if (test(x)) sum += term(x)` is modelled by `Accumulate`
    and proved equal to a sum over the filtered list. */
module Steering {
  import opened Reals
  import opened Vectors
  import opened Numerics
  import opened Seqs
  import opened Entities
  import opened Queries

  /** `isInFieldOfView`: the unsigned angle between the agent's velocity and the offset to
      `p` is at most the field of view. */
  predicate InView(lib: MathLib, fov: real, subject: Agent, p: V3) {
    lib.angle(subject.velocity, Sub(p, subject.position)) <= fov
  }

  function VisibleTest(lib: MathLib, fov: real, subject: Agent): Agent -> bool {
    (a: Agent) => InView(lib, fov, subject, a.position)
  }

  /** The neighbours the agent can see, in list order. */
  function Visible(lib: MathLib, fov: real, subject: Agent, neighbours: seq<Agent>): seq<Agent> {
    Filter(neighbours, VisibleTest(lib, fov, subject))
  }

  /** The state of an accumulating loop: the running vector sum and the number of
      elements added to it. */
  datatype Tally = Tally(sum: V3, count: nat)

  /** `foreach (x in s) if (keep(x)) { sum += term(x); count++; }` starting from zero,
      taken one element at a time from the front as the loop does: the sum is the sum
      over the kept elements and the count is their number. */
  function Accumulate<T(==,!new)>(s: seq<T>, keep: T -> bool, term: T -> V3): (t: Tally)
    ensures t.sum == SumOf(Filter(s, keep), term)
    ensures t.count == |Filter(s, keep)|
    decreases |s|
  {
    if |s| == 0 then Tally(Zero, 0)
    else
      var prefix := s[..|s| - 1];
      var x := s[|s| - 1];
      var t := Accumulate(prefix, keep, term);
      if keep(x) then
        SumOfSnoc(Filter(prefix, keep), x, term);
        Tally(Add(t.sum, term(x)), t.count + 1)
      else
        t
  }

  /** The mean position of a non-empty list of agents: the centre of mass the cohesion
      rule steers towards. */
  function Centroid(agents: seq<Agent>): V3
    requires |agents| > 0
  {
    Div(SumOf(agents, PositionOf), |agents| as real)
  }

  /** `cohesion`: nothing for an empty neighbour list or when no neighbour is in view;
      otherwise the direction from the agent to the mean position of the neighbours it
      sees. */
  function Cohesion(lib: MathLib, fov: real, subject: Agent, neighbours: seq<Agent>): (r: V3)
    ensures |neighbours| == 0 ==> r == Zero
    ensures (forall i :: 0 <= i < |neighbours| ==> !InView(lib, fov, subject, neighbours[i].position)) ==>
              r == Zero
    ensures |Visible(lib, fov, subject, neighbours)| > 0 ==>
              r == Normalize(lib, Sub(Centroid(Visible(lib, fov, subject, neighbours)), subject.position))
  {
    if |neighbours| == 0 then Zero
    else
      var t := Accumulate(neighbours, VisibleTest(lib, fov, subject), PositionOf);
      FilterEmpty(neighbours, VisibleTest(lib, fov, subject));
      if t.count == 0 then t.sum
      else Normalize(lib, Sub(Div(t.sum, t.count as real), subject.position))
  }

  /** One neighbour's contribution to separation for the offset `away` = own position minus
      the neighbour's: `Normalize(away) / |away| / |away|`, and nothing at distance zero. */
  function Push(lib: MathLib, away: V3): (r: V3)
    ensures lib.magnitude(away) == 0.0 ==> r == Zero
  {
    var d := lib.magnitude(away);
    if d != 0.0 then Div(Div(Normalize(lib, away), d), d) else Zero
  }

  /** Multiplied by the squared distance, a push gives back the unit direction away from the
      neighbour. */
  lemma PushTimesSquaredDistance(lib: MathLib, away: V3)
    requires lib.magnitude(away) != 0.0
    ensures Scale(Push(lib, away), lib.magnitude(away) * lib.magnitude(away)) == Normalize(lib, away)
  {
    DivTwiceMulVector(Normalize(lib, away), lib.magnitude(away));
  }

  /** `DivTwiceMul` on every component. */
  lemma DivTwiceMulVector(u: V3, d: real)
    requires d != 0.0
    ensures Scale(Div(Div(u, d), d), d * d) == u
  {
    DivTwiceMul(u.x, d);
    DivTwiceMul(u.y, d);
    DivTwiceMul(u.z, d);
  }

  function PushFrom(lib: MathLib, subject: Agent): Agent -> V3 {
    (a: Agent) => Push(lib, Sub(subject.position, a.position))
  }

  /** `separation`: nothing for an empty neighbour list; otherwise the direction of the sum
      of the pushes away from every neighbour in view. The sum is normalised even when no
      neighbour is in view, which gives the zero vector. */
  function Separation(lib: MathLib, fov: real, subject: Agent, neighbours: seq<Agent>): (r: V3)
    ensures |neighbours| == 0 ==> r == Zero
    ensures r == Normalize(lib, SumOf(Visible(lib, fov, subject, neighbours), PushFrom(lib, subject)))
  {
    if |neighbours| == 0 then Zero
    else Normalize(lib, Accumulate(neighbours, VisibleTest(lib, fov, subject), PushFrom(lib, subject)).sum)
  }

  /** `alignment`: nothing for an empty neighbour list; otherwise the direction of the sum
      of the velocities of the neighbours in view. */
  function Alignment(lib: MathLib, fov: real, subject: Agent, neighbours: seq<Agent>): (r: V3)
    ensures |neighbours| == 0 ==> r == Zero
    ensures r == Normalize(lib, SumOf(Visible(lib, fov, subject, neighbours), VelocityOf))
  {
    if |neighbours| == 0 then Zero
    else Normalize(lib, Accumulate(neighbours, VisibleTest(lib, fov, subject), VelocityOf).sum)
  }

  /** `flee`: the change of velocity that turns the current velocity into one of speed
      `maxVelocity` pointing straight away from `target`. */
  function Flee(lib: MathLib, maxVelocity: real, subject: Agent, target: V3): V3 {
    Sub(Scale(Normalize(lib, Sub(subject.position, target)), maxVelocity), subject.velocity)
  }

  function FleeFrom(lib: MathLib, maxVelocity: real, subject: Agent): Agent -> V3 {
    (p: Agent) => Flee(lib, maxVelocity, subject, p.position)
  }

  function Always(a: Agent): bool {
    true
  }

  /** `avoidEnemies`: nothing when no predator is near; otherwise the direction of the sum of
      the flee vectors from every predator on the list. */
  function AvoidEnemies(lib: MathLib, maxVelocity: real, subject: Agent, threats: seq<Agent>): (r: V3)
    ensures |threats| == 0 ==> r == Zero
    ensures r == Normalize(lib, SumOf(threats, FleeFrom(lib, maxVelocity, subject)))
  {
    if |threats| == 0 then Zero
    else
      FilterKeepsAll(threats, Always);
      Normalize(lib, Accumulate(threats, Always, FleeFrom(lib, maxVelocity, subject)).sum)
  }

  /** The five rule vectors, each times its weight, added up. */
  function WeightedSum(c: Config, cohere: V3, separate: V3, align: V3, wander: V3, avoid: V3): V3 {
    Add(Add(Add(Add(
      Scale(cohere, c.weightCohesion),
      Scale(separate, c.weightSeparation)),
      Scale(align, c.weightAlignment)),
      Scale(wander, c.wanderWeight)),
      Scale(avoid, c.weightAvoid))
  }

  /** `Agent.combine`: every rule runs against its own query, and the results are added up
      with their weights. `wander` is the wander rule's result for this tick. */
  function PreyCombine(lib: MathLib, c: Config, w: World, subject: Agent, wander: V3): V3 {
    var fov := c.maxFieldOfViewAngle;
    var cohere := Cohesion(lib, fov, subject, Neighbours(lib, w, subject, c.radiusCohesion));
    var separate := Separation(lib, fov, subject, Neighbours(lib, w, subject, c.radiusSeparation));
    var align := Alignment(lib, fov, subject, Neighbours(lib, w, subject, c.radiusAlignment));
    var avoid := AvoidEnemies(lib, c.maxVelocity, subject, Threats(lib, w, subject, c.radiusAvoid));
    WeightedSum(c, cohere, separate, align, wander, avoid)
  }

  /** A neighbour at another position pushes straight away from itself: the push has the
      direction of `away` and is never zero. */
  lemma PushPointsAway(lib: MathLib, away: V3)
    requires lib.Valid()
    requires away != Zero
    ensures Normalize(lib, Push(lib, away)) == Normalize(lib, away)
    ensures Push(lib, away) != Zero
  {
    MagnitudePositive(lib, away);
    var d := lib.magnitude(away);
    var u := Normalize(lib, away);
    assert 0.0 < 1.0 / d;
    DivIsScale(u, d);
    NormalizeScaleInvariant(lib, u, 1.0 / d);
    DivIsScale(Div(u, d), d);
    NormalizeScaleInvariant(lib, Div(u, d), 1.0 / d);
    NormalizeIdempotent(lib, away);
    NormalizeUnitOrZero(lib, away);
    NormalizeUnitOrZero(lib, Push(lib, away));
  }

  /** There is no push from a neighbour on the agent's own position. */
  lemma PushZero(lib: MathLib)
    ensures Push(lib, Zero) == Zero
  {
    var d := lib.magnitude(Zero);
    if d != 0.0 {
      assert Normalize(lib, Zero) == Zero;
      assert Div(Zero, d) == Zero;
    }
  }

  /** The push falls off with the square of the distance: moving a neighbour k times as far
      away along the same bearing divides its push by k². */
  lemma PushInverseSquare(lib: MathLib, away: V3, k: real)
    requires lib.Valid()
    requires 0.0 < k
    ensures Scale(Push(lib, Scale(away, k)), k * k) == Push(lib, away)
  {
    if away != Zero {
      PushInverseSquareAway(lib, away, k);
    } else {
      ScaleZero(k);
      ScaleZero(k * k);
      PushZero(lib);
    }
  }

  lemma PushInverseSquareAway(lib: MathLib, away: V3, k: real)
    requires lib.Valid()
    requires 0.0 < k && away != Zero
    ensures Scale(Push(lib, Scale(away, k)), k * k) == Push(lib, away)
  {
    MagnitudePositive(lib, away);
    var d := lib.magnitude(away);
    assert lib.magnitude(Scale(away, k)) == k * d;
    NormalizeScaleInvariant(lib, away, k);
    PushScaled(lib, away, Scale(away, k), d, k);
  }

  /** The algebra behind `PushInverseSquare`, once the lengths and directions are known. */
  lemma PushScaled(lib: MathLib, away: V3, far: V3, d: real, k: real)
    requires 0.0 < d && 0.0 < k
    requires lib.magnitude(away) == d && lib.magnitude(far) == k * d
    requires Normalize(lib, far) == Normalize(lib, away)
    ensures Scale(Push(lib, far), k * k) == Push(lib, away)
  {
    MulPositive(k, d);
    assert Push(lib, far) == Div(Div(Normalize(lib, away), k * d), k * d);
    DivTwiceScaledVector(Normalize(lib, away), d, k);
  }

  /** `DivTwiceScaled` on every component. */
  lemma DivTwiceScaledVector(u: V3, d: real, k: real)
    requires 0.0 < d && 0.0 < k
    ensures Scale(Div(Div(u, k * d), k * d), k * k) == Div(Div(u, d), d)
  {
    DivTwiceScaled(u.x, d, k);
    DivTwiceScaled(u.y, d, k);
    DivTwiceScaled(u.z, d, k);
  }

  /** A neighbour at half the distance pushes four times as hard. */
  lemma PushHalfDistance(lib: MathLib, away: V3)
    requires lib.Valid()
    ensures Push(lib, away) == Scale(Push(lib, Scale(away, 2.0)), 4.0)
  {
    PushInverseSquare(lib, away, 2.0);
  }

  /** A neighbour standing exactly on the agent's position adds nothing to separation, in
      view or not. */
  lemma SeparationIgnoresCoincident(lib: MathLib, fov: real, subject: Agent, neighbours: seq<Agent>, a: Agent)
    requires a.position == subject.position
    ensures Separation(lib, fov, subject, neighbours + [a]) == Separation(lib, fov, subject, neighbours)
  {
    var push := PushFrom(lib, subject);
    var vis := Visible(lib, fov, subject, neighbours);
    var tail := Filter([a], VisibleTest(lib, fov, subject));
    FilterAppend(neighbours, [a], VisibleTest(lib, fov, subject));
    assert Visible(lib, fov, subject, neighbours + [a]) == vis + tail;
    assert SumOf(tail, push) == Zero by {
      assert Sub(subject.position, a.position) == Zero;
      PushZero(lib);
      assert push(a) == Zero;
      SumOfSnoc([], a, push);
      assert [] + [a] == [a];
    }
    SumOfAppend(vis, tail, push);
  }

  /** With a field of view of 180 degrees or more every neighbour is in view. */
  lemma WideFieldOfView(lib: MathLib, fov: real, subject: Agent, neighbours: seq<Agent>)
    requires lib.Valid()
    requires 180.0 <= fov
    ensures Visible(lib, fov, subject, neighbours) == neighbours
  {
    FilterKeepsAll(neighbours, VisibleTest(lib, fov, subject));
  }

  /** With a negative field of view nothing is in view, and the three neighbour rules give
      the zero vector whatever the neighbours. */
  lemma NegativeFieldOfView(lib: MathLib, fov: real, subject: Agent, neighbours: seq<Agent>)
    requires lib.Valid()
    requires fov < 0.0
    ensures Visible(lib, fov, subject, neighbours) == []
    ensures Cohesion(lib, fov, subject, neighbours) == Zero
    ensures Separation(lib, fov, subject, neighbours) == Zero
    ensures Alignment(lib, fov, subject, neighbours) == Zero
  {
    assert Visible(lib, fov, subject, neighbours) == [] by {
      FilterEmpty(neighbours, VisibleTest(lib, fov, subject));
    }
    NothingInViewNoSteering(lib, fov, subject, neighbours);
  }

  /** When no neighbour is in view, cohesion, separation and alignment all give the zero
      vector. */
  lemma NothingInViewNoSteering(lib: MathLib, fov: real, subject: Agent, neighbours: seq<Agent>)
    requires Visible(lib, fov, subject, neighbours) == []
    ensures Cohesion(lib, fov, subject, neighbours) == Zero
    ensures Separation(lib, fov, subject, neighbours) == Zero
    ensures Alignment(lib, fov, subject, neighbours) == Zero
  {
    NormalizeZero(lib);
  }

  /** `v` is the zero vector or a unit vector. */
  predicate UnitOrZero(v: V3) {
    v == Zero || SqrMagnitude(v) == 1.0
  }

  lemma CohesionUnitOrZero(lib: MathLib, fov: real, subject: Agent, neighbours: seq<Agent>)
    requires lib.Valid()
    ensures UnitOrZero(Cohesion(lib, fov, subject, neighbours))
  {
    var visible := Visible(lib, fov, subject, neighbours);
    if |visible| > 0 {
      NormalizeUnitOrZero(lib, Sub(Centroid(visible), subject.position));
    }
  }

  lemma SeparationUnitOrZero(lib: MathLib, fov: real, subject: Agent, neighbours: seq<Agent>)
    requires lib.Valid()
    ensures UnitOrZero(Separation(lib, fov, subject, neighbours))
  {
    NormalizeUnitOrZero(lib, SumOf(Visible(lib, fov, subject, neighbours), PushFrom(lib, subject)));
  }

  lemma AlignmentUnitOrZero(lib: MathLib, fov: real, subject: Agent, neighbours: seq<Agent>)
    requires lib.Valid()
    ensures UnitOrZero(Alignment(lib, fov, subject, neighbours))
  {
    NormalizeUnitOrZero(lib, SumOf(Visible(lib, fov, subject, neighbours), VelocityOf));
  }

  lemma AvoidEnemiesUnitOrZero(lib: MathLib, maxVelocity: real, subject: Agent, threats: seq<Agent>)
    requires lib.Valid()
    ensures UnitOrZero(AvoidEnemies(lib, maxVelocity, subject, threats))
  {
    NormalizeUnitOrZero(lib, SumOf(threats, FleeFrom(lib, maxVelocity, subject)));
  }

  /** The velocity `flee` steers towards (see the contract of `Flee`) has length
      `maxVelocity` and, for a positive maximum, points straight away from the target. */
  lemma FleeDesiredVelocity(lib: MathLib, maxVelocity: real, subject: Agent, target: V3)
    requires lib.Valid()
    requires target != subject.position
    ensures var desired := Scale(Normalize(lib, Sub(subject.position, target)), maxVelocity);
      && SqrMagnitude(desired) == maxVelocity * maxVelocity
      && (0.0 < maxVelocity ==> Normalize(lib, desired) == Normalize(lib, Sub(subject.position, target)))
  {
    var away := Sub(subject.position, target);
    assert away != Zero;
    StretchedUnitLength(lib, away, maxVelocity);
    if 0.0 < maxVelocity {
      StretchedUnitDirection(lib, away, maxVelocity);
    }
  }

  /** Fleeing from a target off the agent's position turns the velocity into one of speed
      `maxVelocity` and, for a positive maximum, one that points straight away from the
      target. */
  lemma FleeReachesDesiredVelocity(lib: MathLib, maxVelocity: real, subject: Agent, target: V3)
    requires lib.Valid()
    requires target != subject.position
    ensures var v := Add(Flee(lib, maxVelocity, subject, target), subject.velocity);
      && SqrMagnitude(v) == maxVelocity * maxVelocity
      && (0.0 < maxVelocity ==> Normalize(lib, v) == Normalize(lib, Sub(subject.position, target)))
  {
    FleeDesiredVelocity(lib, maxVelocity, subject, target);
  }

  /** Stretching the unit vector of a non-zero `v` by `k` gives a vector of length |k|. */
  lemma StretchedUnitLength(lib: MathLib, v: V3, k: real)
    requires lib.Valid()
    requires v != Zero
    ensures SqrMagnitude(Scale(Normalize(lib, v), k)) == k * k
  {
    NormalizeIsUnit(lib, v);
    ScaleUnit(Normalize(lib, v), k);
  }

  /** ... and, for a positive `k`, one that still points the way `v` does. */
  lemma StretchedUnitDirection(lib: MathLib, v: V3, k: real)
    requires lib.Valid()
    requires 0.0 < k
    ensures Normalize(lib, Scale(Normalize(lib, v), k)) == Normalize(lib, v)
  {
    NormalizeScaleInvariant(lib, Normalize(lib, v), k);
    NormalizeIdempotent(lib, v);
  }

  /** A target on the agent's own position gives no direction to flee in: the result only
      cancels the current velocity. */
  lemma FleeOnTarget(lib: MathLib, maxVelocity: real, subject: Agent)
    ensures Flee(lib, maxVelocity, subject, subject.position) == Scale(subject.velocity, -1.0)
  {
    assert Sub(subject.position, subject.position) == Zero;
  }

  /** A prey at rest with a single predator nearby is steered straight away from it. */
  lemma FleeFromLonePredator(lib: MathLib, maxVelocity: real, subject: Agent, p: Agent)
    requires lib.Valid()
    requires 0.0 < maxVelocity
    requires subject.velocity == Zero && p.position != subject.position
    ensures AvoidEnemies(lib, maxVelocity, subject, [p]) == Normalize(lib, Sub(subject.position, p.position))
  {
    var away := Sub(subject.position, p.position);
    var u := Normalize(lib, away);
    LonePredatorSum(lib, maxVelocity, subject, p);
    NormalizeScaleInvariant(lib, u, maxVelocity);
    NormalizeIdempotent(lib, away);
  }

  /** The flee sum over a single predator, for an agent at rest. */
  lemma LonePredatorSum(lib: MathLib, maxVelocity: real, subject: Agent, p: Agent)
    requires subject.velocity == Zero
    ensures SumOf([p], FleeFrom(lib, maxVelocity, subject)) ==
            Scale(Normalize(lib, Sub(subject.position, p.position)), maxVelocity)
  {
    SumOfSnoc([], p, FleeFrom(lib, maxVelocity, subject));
    assert [] + [p] == [p];
  }

  /** With the avoidance weight at zero the prey ignores the predators entirely: any
      predator list gives the same steering. */
  lemma ZeroAvoidWeightIgnoresPredators(lib: MathLib, c: Config, w: World, predators: seq<Agent>, subject: Agent, wander: V3)
    requires c.weightAvoid == 0.0
    ensures PreyCombine(lib, c, w, subject, wander) == PreyCombine(lib, c, w.(predators := predators), subject, wander)
  {
    var fov := c.maxFieldOfViewAngle;
    var w' := w.(predators := predators);
    assert Neighbours(lib, w', subject, c.radiusCohesion) == Neighbours(lib, w, subject, c.radiusCohesion);
    assert Neighbours(lib, w', subject, c.radiusSeparation) == Neighbours(lib, w, subject, c.radiusSeparation);
    assert Neighbours(lib, w', subject, c.radiusAlignment) == Neighbours(lib, w, subject, c.radiusAlignment);
    var cohere := Cohesion(lib, fov, subject, Neighbours(lib, w, subject, c.radiusCohesion));
    var separate := Separation(lib, fov, subject, Neighbours(lib, w, subject, c.radiusSeparation));
    var align := Alignment(lib, fov, subject, Neighbours(lib, w, subject, c.radiusAlignment));
    WeightedSumIgnoresZeroWeights(c,
      cohere, separate, align, wander, AvoidEnemies(lib, c.maxVelocity, subject, Threats(lib, w, subject, c.radiusAvoid)),
      cohere, separate, align, wander, AvoidEnemies(lib, c.maxVelocity, subject, Threats(lib, w', subject, c.radiusAvoid)));
  }

  /** A rule whose weight is zero does not contribute to the weighted sum: two sets of rule
      vectors that differ only in rules of weight zero give the same sum. */
  lemma WeightedSumIgnoresZeroWeights(c: Config,
                                      cohere1: V3, separate1: V3, align1: V3, wander1: V3, avoid1: V3,
                                      cohere2: V3, separate2: V3, align2: V3, wander2: V3, avoid2: V3)
    requires c.weightCohesion == 0.0 || cohere1 == cohere2
    requires c.weightSeparation == 0.0 || separate1 == separate2
    requires c.weightAlignment == 0.0 || align1 == align2
    requires c.wanderWeight == 0.0 || wander1 == wander2
    requires c.weightAvoid == 0.0 || avoid1 == avoid2
    ensures WeightedSum(c, cohere1, separate1, align1, wander1, avoid1) ==
            WeightedSum(c, cohere2, separate2, align2, wander2, avoid2)
  {
    WeightedTermAgrees(cohere1, cohere2, c.weightCohesion);
    WeightedTermAgrees(separate1, separate2, c.weightSeparation);
    WeightedTermAgrees(align1, align2, c.weightAlignment);
    WeightedTermAgrees(wander1, wander2, c.wanderWeight);
    WeightedTermAgrees(avoid1, avoid2, c.weightAvoid);
  }

  /** One weighted term: equal vectors, or weight zero, give equal terms. */
  lemma WeightedTermAgrees(v1: V3, v2: V3, weight: real)
    requires weight == 0.0 || v1 == v2
    ensures Scale(v1, weight) == Scale(v2, weight)
  {
    if weight == 0.0 {
      ScaleByZero(v1);
      ScaleByZero(v2);
    }
  }

  /** With the four neighbour and avoidance weights at zero only the wander term is left. */
  lemma WeightedSumOnlyWander(c: Config, cohere: V3, separate: V3, align: V3, wander: V3, avoid: V3)
    requires c.weightCohesion == 0.0 && c.weightSeparation == 0.0
    requires c.weightAlignment == 0.0 && c.weightAvoid == 0.0
    ensures WeightedSum(c, cohere, separate, align, wander, avoid) == Scale(wander, c.wanderWeight)
  {
    ScaleByZero(cohere);
    ScaleByZero(separate);
    ScaleByZero(align);
    ScaleByZero(avoid);
  }

  /** The weighted sum is not normalised: changing the wander vector moves the prey's
      steering by exactly the change times the wander weight, whatever the world. */
  lemma PreyCombineLinearInWander(lib: MathLib, c: Config, w: World, subject: Agent, wander1: V3, wander2: V3)
    ensures Sub(PreyCombine(lib, c, w, subject, wander1), PreyCombine(lib, c, w, subject, wander2)) ==
            Scale(Sub(wander1, wander2), c.wanderWeight)
  {
    var fov := c.maxFieldOfViewAngle;
    WeightedSumLinearInWander(c,
      Cohesion(lib, fov, subject, Neighbours(lib, w, subject, c.radiusCohesion)),
      Separation(lib, fov, subject, Neighbours(lib, w, subject, c.radiusSeparation)),
      Alignment(lib, fov, subject, Neighbours(lib, w, subject, c.radiusAlignment)),
      AvoidEnemies(lib, c.maxVelocity, subject, Threats(lib, w, subject, c.radiusAvoid)),
      wander1, wander2);
  }

  lemma WeightedSumLinearInWander(c: Config, cohere: V3, separate: V3, align: V3, avoid: V3, wander1: V3, wander2: V3)
    ensures Sub(WeightedSum(c, cohere, separate, align, wander1, avoid), WeightedSum(c, cohere, separate, align, wander2, avoid)) ==
            Scale(Sub(wander1, wander2), c.wanderWeight)
  {
  }

  /** A prey with no other agent in the world and no predator only wanders. */
  lemma PreyAloneOnlyWanders(lib: MathLib, c: Config, w: World, subject: Agent, wander: V3)
    requires forall a :: a in w.agents ==> a.id == subject.id
    requires w.predators == []
    ensures PreyCombine(lib, c, w, subject, wander) == Scale(wander, c.wanderWeight)
  {
    assert Neighbours(lib, w, subject, c.radiusCohesion) == [];
    assert Neighbours(lib, w, subject, c.radiusSeparation) == [];
    assert Neighbours(lib, w, subject, c.radiusAlignment) == [];
    assert Threats(lib, w, subject, c.radiusAvoid) == [];
  }
}
