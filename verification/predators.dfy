/** The predator's steering: it overrides the combination of rules with wandering alone. */
module PredatorSteering {
  import opened Vectors
  import opened Numerics
  import opened Entities
  import opened Queries
  import opened Steering

  /** `Predator.combine`: the wander vector times the wander weight. */
  function PredatorCombine(c: Config, wander: V3): (r: V3)
    ensures c.wanderWeight == 0.0 || wander == Zero ==> r == Zero
    ensures c.wanderWeight != 0.0 && wander != Zero ==> r != Zero
  {
    Scale(wander, c.wanderWeight)
  }

  /** The prey's configuration with every rule but wander switched off. */
  function WanderOnly(c: Config): Config {
    c.(weightCohesion := 0.0, weightSeparation := 0.0, weightAlignment := 0.0, weightAvoid := 0.0)
  }

  /** A predator steers as a prey would with the cohesion, separation, alignment and
      avoidance weights set to zero, whatever the world around it. */
  lemma PredatorIsPreyThatOnlyWanders(lib: MathLib, c: Config, w: World, subject: Agent, wander: V3)
    ensures PredatorCombine(c, wander) == PreyCombine(lib, WanderOnly(c), w, subject, wander)
  {
    var c' := WanderOnly(c);
    var fov := c'.maxFieldOfViewAngle;
    WeightedSumOnlyWander(c',
      Cohesion(lib, fov, subject, Neighbours(lib, w, subject, c'.radiusCohesion)),
      Separation(lib, fov, subject, Neighbours(lib, w, subject, c'.radiusSeparation)),
      Alignment(lib, fov, subject, Neighbours(lib, w, subject, c'.radiusAlignment)),
      wander,
      AvoidEnemies(lib, c'.maxVelocity, subject, Threats(lib, w, subject, c'.radiusAvoid)));
  }
}
