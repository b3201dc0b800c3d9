/** The vector-library operations of the engine that need a square root or an arc cosine.
    Neither is definable over Dafny's reals, so `Vector3.Magnitude` and `Vector3.Angle` are
    carried by a `MathLib` value, and `Valid` states the properties of the Euclidean length
    and of the angle that the flocking code relies on. Normalisation, distance and magnitude
    clamping are then defined as the vector library defines them, on top of the magnitude
    (apart from the small-magnitude threshold of `Normalize`, which is zero here). */
module Numerics {
  import opened Reals
  import opened Vectors

  /** `magnitude` stands for `Vector3.Magnitude`, `angle` for `Vector3.Angle` in degrees. */
  datatype MathLib = MathLib(magnitude: V3 -> real, angle: (V3, V3) -> real) {
    /** The magnitude is the non-negative square root of the squared length; it vanishes
        only on the zero vector and a non-negative factor scales it by that factor (both follow
        from the first property and are stated so that proofs need not rederive them). The unsigned
        angle between two vectors lies in [0, 180]. */
    ghost predicate Valid() {
      && (forall v :: 0.0 <= magnitude(v) && magnitude(v) * magnitude(v) == SqrMagnitude(v))
      && (forall v :: magnitude(v) == 0.0 ==> v == Zero)
      && (forall v, k :: 0.0 <= k ==> magnitude(Scale(v, k)) == k * magnitude(v))
      && (forall u, v :: 0.0 <= angle(u, v) <= 180.0)
    }
  }

  /** `Vector3.Normalize(v)`, `v.normalized` and `v.Normalize()` */
  function Normalize(lib: MathLib, v: V3): V3 {
    var m := lib.magnitude(v);
    if m > 0.0 then Div(v, m) else Zero
  }

  /** `Vector3.Distance(a, b)` */
  function Distance(lib: MathLib, a: V3, b: V3): real {
    lib.magnitude(Sub(a, b))
  }

  /** `Vector3.ClampMagnitude(v, maxLength)` */
  function ClampMagnitude(lib: MathLib, v: V3, maxLength: real): V3 {
    if SqrMagnitude(v) > maxLength * maxLength then Scale(Normalize(lib, v), maxLength) else v
  }

  /** Normalising the zero vector gives the zero vector, whatever the magnitude says. */
  lemma NormalizeZero(lib: MathLib)
    ensures Normalize(lib, Zero) == Zero
  {
    var m := lib.magnitude(Zero);
    if m > 0.0 {
      assert Div(Zero, m) == Zero;
    }
  }

  /** The zero vector has magnitude zero. */
  lemma MagnitudeZero(lib: MathLib)
    requires lib.Valid()
    ensures lib.magnitude(Zero) == 0.0
  {
    assert Scale(Zero, 0.0) == Zero;
    assert lib.magnitude(Scale(Zero, 0.0)) == 0.0 * lib.magnitude(Zero);
  }

  /** Exactly the non-zero vectors have a positive magnitude. */
  lemma MagnitudePositive(lib: MathLib, v: V3)
    requires lib.Valid()
    ensures 0.0 < lib.magnitude(v) <==> v != Zero
  {
    MagnitudeZero(lib);
    assert 0.0 <= lib.magnitude(v);
  }

  /** Dividing a vector by its length gives a vector of length one. */
  lemma UnitAfterDiv(v: V3, m: real)
    requires 0.0 < m && m * m == SqrMagnitude(v)
    ensures SqrMagnitude(Div(v, m)) == 1.0
  {
    DivIsScale(v, m);
    SqrMagnitudeScale(v, 1.0 / m);
    assert (1.0 / m) * (1.0 / m) * (m * m) == 1.0;
  }

  /** A non-zero vector normalises to a unit vector which, stretched back by the original
      magnitude, is the original vector. */
  lemma NormalizeIsUnit(lib: MathLib, v: V3)
    requires lib.Valid()
    requires v != Zero
    ensures SqrMagnitude(Normalize(lib, v)) == 1.0
    ensures Scale(Normalize(lib, v), lib.magnitude(v)) == v
  {
    MagnitudePositive(lib, v);
    var m := lib.magnitude(v);
    UnitAfterDiv(v, m);
    DivMul(v.x, m);
    DivMul(v.y, m);
    DivMul(v.z, m);
  }

  /** Normalising yields the zero vector exactly for the zero vector and a unit vector
      otherwise. */
  lemma NormalizeUnitOrZero(lib: MathLib, v: V3)
    requires lib.Valid()
    ensures Normalize(lib, v) == Zero <==> v == Zero
    ensures v != Zero ==> SqrMagnitude(Normalize(lib, v)) == 1.0
  {
    MagnitudePositive(lib, v);
    if v != Zero {
      NormalizeIsUnit(lib, v);
    }
  }

  /** A positive stretch leaves the direction alone. */
  lemma NormalizeScaleInvariant(lib: MathLib, v: V3, k: real)
    requires lib.Valid()
    requires 0.0 < k
    ensures Normalize(lib, Scale(v, k)) == Normalize(lib, v)
  {
    var m := lib.magnitude(v);
    var w := Scale(v, k);
    assert lib.magnitude(w) == k * m;
    MagnitudePositive(lib, v);
    if v != Zero {
      assert 0.0 < k * m;
      assert Normalize(lib, w) == Div(w, k * m);
      assert Normalize(lib, v) == Div(v, m);
      DivCancel(v.x, k, m);
      DivCancel(v.y, k, m);
      DivCancel(v.z, k, m);
    } else {
      assert Scale(v, k) == Zero;
    }
  }

  /** A vector of length one stretched by k has squared length k². */
  lemma ScaleUnit(u: V3, k: real)
    requires SqrMagnitude(u) == 1.0
    ensures SqrMagnitude(Scale(u, k)) == k * k
  {
    SqrMagnitudeScale(u, k);
  }

  /** Normalising twice is normalising once. */
  lemma NormalizeIdempotent(lib: MathLib, v: V3)
    requires lib.Valid()
    ensures Normalize(lib, Normalize(lib, v)) == Normalize(lib, v)
  {
    MagnitudePositive(lib, v);
    if v != Zero {
      var m := lib.magnitude(v);
      DivIsScale(v, m);
      NormalizeScaleInvariant(lib, v, 1.0 / m);
    } else {
      MagnitudeZero(lib);
    }
  }

  /** Clamping never leaves a vector longer than the bound and leaves a short enough vector
      alone. A longer vector is cut to exactly the bound and, when the bound is positive,
      keeps its direction. */
  lemma ClampMagnitudeBound(lib: MathLib, v: V3, maxLength: real)
    requires lib.Valid()
    ensures SqrMagnitude(ClampMagnitude(lib, v, maxLength)) <= maxLength * maxLength
    ensures SqrMagnitude(v) <= maxLength * maxLength ==> ClampMagnitude(lib, v, maxLength) == v
    ensures SqrMagnitude(v) > maxLength * maxLength ==>
              SqrMagnitude(ClampMagnitude(lib, v, maxLength)) == maxLength * maxLength
    ensures SqrMagnitude(v) > maxLength * maxLength && 0.0 < maxLength ==>
              Normalize(lib, ClampMagnitude(lib, v, maxLength)) == Normalize(lib, v)
  {
    if SqrMagnitude(v) > maxLength * maxLength {
      SquareNonNegative(maxLength);
      assert v != Zero;
      NormalizeIsUnit(lib, v);
      var u := Normalize(lib, v);
      ScaleUnit(u, maxLength);
      if 0.0 < maxLength {
        NormalizeScaleInvariant(lib, u, maxLength);
        NormalizeIdempotent(lib, v);
      }
    }
  }

  /** The distance from a point to itself is zero. */
  lemma DistanceToSelf(lib: MathLib, a: V3)
    requires lib.Valid()
    ensures Distance(lib, a, a) == 0.0
  {
    assert Sub(a, a) == Zero;
    MagnitudeZero(lib);
  }
}
