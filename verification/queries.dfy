/** The world's two proximity queries, `getNeigh` and `getPredators`: linear scans that
    keep, in list order, the entries strictly closer than a radius. Neither query changes
    the lists it scans. */
module Queries {
  import opened Numerics
  import opened Seqs
  import opened Entities

  /** The test `getNeigh` applies to each candidate: another object than the subject,
      strictly within `radius`. */
  function NeighbourTest(lib: MathLib, subject: Agent, radius: real): Agent -> bool {
    (a: Agent) => a.id != subject.id && Distance(lib, subject.position, a.position) < radius
  }

  /** The test `getPredators` applies: strictly within `radius`, with no identity check. */
  function ThreatTest(lib: MathLib, subject: Agent, radius: real): Agent -> bool {
    (p: Agent) => Distance(lib, subject.position, p.position) < radius
  }

  /** `World.getNeigh`: exactly the agents other than the subject that are strictly closer
      than `radius`, in the order of the world's list and as often as they occur in it. */
  function Neighbours(lib: MathLib, w: World, subject: Agent, radius: real): (r: seq<Agent>)
    ensures forall a :: a in r <==>
              a in w.agents && a.id != subject.id && Distance(lib, subject.position, a.position) < radius
    ensures forall a :: multiset(r)[a] ==
              if a.id != subject.id && Distance(lib, subject.position, a.position) < radius
              then multiset(w.agents)[a] else 0
    ensures IsSubsequence(r, w.agents)
  {
    Filter(w.agents, NeighbourTest(lib, subject, radius))
  }

  /** `World.getPredators`: exactly the predators strictly closer than `radius`, in the
      order of the world's list and as often as they occur in it. */
  function Threats(lib: MathLib, w: World, subject: Agent, radius: real): (r: seq<Agent>)
    ensures forall p :: p in r <==>
              p in w.predators && Distance(lib, subject.position, p.position) < radius
    ensures forall p :: multiset(r)[p] ==
              if Distance(lib, subject.position, p.position) < radius then multiset(w.predators)[p] else 0
    ensures IsSubsequence(r, w.predators)
  {
    Filter(w.predators, ThreatTest(lib, subject, radius))
  }

  /** The subject never appears among its own neighbours, and neither does any other entry
      that carries its identity. */
  lemma NeighboursExcludeSelf(lib: MathLib, w: World, subject: Agent, radius: real)
    ensures subject !in Neighbours(lib, w, subject, radius)
    ensures forall a :: a in Neighbours(lib, w, subject, radius) ==> a.id != subject.id
  {
  }

  /** No distance is below a radius that is not positive, so both queries come back empty. */
  lemma NonPositiveRadiusFindsNothing(lib: MathLib, w: World, subject: Agent, radius: real)
    requires lib.Valid()
    requires radius <= 0.0
    ensures Neighbours(lib, w, subject, radius) == []
    ensures Threats(lib, w, subject, radius) == []
  {
  }

  /** The predator query has no self-exclusion: a subject that is itself on the predator
      list finds itself at distance zero whenever the radius is positive. */
  lemma ThreatsIncludeSelf(lib: MathLib, w: World, subject: Agent, radius: real)
    requires lib.Valid()
    requires subject in w.predators && 0.0 < radius
    ensures subject in Threats(lib, w, subject, radius)
  {
    DistanceToSelf(lib, subject.position);
  }

  /** Enlarging the radius never loses a neighbour. */
  lemma NeighboursMonotone(lib: MathLib, w: World, subject: Agent, r1: real, r2: real)
    requires r1 <= r2
    ensures forall a :: a in Neighbours(lib, w, subject, r1) ==> a in Neighbours(lib, w, subject, r2)
  {
  }
}
