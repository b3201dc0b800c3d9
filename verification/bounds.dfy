/** The world is a box with opposite faces glued together: a coordinate that leaves the
    interval [min, max] on one side reappears on the other side, coordinate by coordinate.
    Only comparisons are involved, so this part holds for floats exactly as for reals. */
module Bounds {
  import opened Vectors

  /** `wrapAroundFloat`. A value past `max` jumps to `min` and a value below `min` jumps to
      `max`, whatever the distance it overshot by; a value inside is kept. When the interval
      is not empty the result always lies in it. */
  function WrapFloat(value: real, min: real, max: real): (r: real)
    ensures min <= max ==> min <= r <= max
    ensures min <= value <= max ==> r == value
    ensures value > max ==> r == min
    ensures value < min && value <= max ==> r == max
  {
    if value > max then min
    else if value < min then max
    else value
  }

  /** Wrapping a wrapped value changes nothing. This holds even for an empty interval
      (min > max), where the result of the first wrap may lie outside [min, max]. */
  lemma WrapFloatIdempotent(value: real, min: real, max: real)
    ensures WrapFloat(WrapFloat(value, min, max), min, max) == WrapFloat(value, min, max)
  {
  }

  /** With an empty interval a value above `max` lands on `min`, which is above `max`
      too: the wrapped coordinate is not in the interval. */
  lemma WrapFloatEmptyInterval(value: real, min: real, max: real)
    requires max < min && max < value
    ensures WrapFloat(value, min, max) == min && max < WrapFloat(value, min, max)
  {
  }

  /** `p` lies in the box [min, max]³. */
  predicate InBox(p: V3, min: real, max: real) {
    && min <= p.x <= max
    && min <= p.y <= max
    && min <= p.z <= max
  }

  /** `wrapAround`: each coordinate is wrapped on its own. */
  function Wrap(p: V3, min: real, max: real): (r: V3)
    ensures min <= max ==> InBox(r, min, max)
    ensures InBox(p, min, max) ==> r == p
  {
    V3(WrapFloat(p.x, min, max), WrapFloat(p.y, min, max), WrapFloat(p.z, min, max))
  }

  lemma WrapIdempotent(p: V3, min: real, max: real)
    ensures Wrap(Wrap(p, min, max), min, max) == Wrap(p, min, max)
  {
    WrapFloatIdempotent(p.x, min, max);
    WrapFloatIdempotent(p.y, min, max);
    WrapFloatIdempotent(p.z, min, max);
  }

  /** The coordinates do not interact: two points that agree in one coordinate still
      agree in it after wrapping, whatever their other coordinates. */
  lemma WrapIsComponentwise(p: V3, q: V3, min: real, max: real)
    ensures p.x == q.x ==> Wrap(p, min, max).x == Wrap(q, min, max).x
    ensures p.y == q.y ==> Wrap(p, min, max).y == Wrap(q, min, max).y
    ensures p.z == q.z ==> Wrap(p, min, max).z == Wrap(q, min, max).z
  {
  }
}
