/** Three-dimensional vectors over the reals: the model's stand-in for the engine's
    single-precision `Vector3`. Only exact algebra lives here; everything that needs a
    square root or an angle is in module Numerics. */
module Vectors {

  datatype V3 = V3(x: real, y: real, z: real)

  /** `Vector3.zero`, also `new Vector3(0, 0, 0)` */
  const Zero: V3 := V3(0.0, 0.0, 0.0)

  function Add(a: V3, b: V3): V3 {
    V3(a.x + b.x, a.y + b.y, a.z + b.z)
  }

  function Sub(a: V3, b: V3): V3 {
    V3(a.x - b.x, a.y - b.y, a.z - b.z)
  }

  /** `v * k` and `k * v` */
  function Scale(v: V3, k: real): V3 {
    V3(v.x * k, v.y * k, v.z * k)
  }

  /** `v / k` */
  function Div(v: V3, k: real): V3
    requires k != 0.0
  {
    V3(v.x / k, v.y / k, v.z / k)
  }

  function Dot(a: V3, b: V3): real {
    a.x * b.x + a.y * b.y + a.z * b.z
  }

  /** `Vector3.sqrMagnitude` */
  function SqrMagnitude(v: V3): real {
    Dot(v, v)
  }

  /** The sum `term(s[0]) + term(s[1]) + ...`, the reference against which the
      engine's accumulating loops are proved. */
  function SumOf<T>(s: seq<T>, term: T -> V3): V3
    decreases |s|
  {
    if |s| == 0 then Zero else Add(term(s[0]), SumOf(s[1..], term))
  }

  /** Scaling a vector by k scales its squared length by k². */
  lemma SqrMagnitudeScale(v: V3, k: real)
    ensures SqrMagnitude(Scale(v, k)) == k * k * SqrMagnitude(v)
  {
  }

  lemma ScaleZero(k: real)
    ensures Scale(Zero, k) == Zero
  {
  }

  lemma ScaleByZero(v: V3)
    ensures Scale(v, 0.0) == Zero
  {
  }

  /** Dividing by k is scaling by 1/k. */
  lemma DivIsScale(v: V3, k: real)
    requires k != 0.0
    ensures Div(v, k) == Scale(v, 1.0 / k)
  {
  }

  /** A sum over a concatenation splits into the two partial sums. */
  lemma {:induction false} SumOfAppend<T>(a: seq<T>, b: seq<T>, term: T -> V3)
    ensures SumOf(a + b, term) == Add(SumOf(a, term), SumOf(b, term))
    decreases |a|
  {
    if |a| == 0 {
      assert a + b == b;
    } else {
      assert (a + b)[1..] == a[1..] + b;
      SumOfAppend(a[1..], b, term);
    }
  }

  /** Appending one element adds its term to the sum. */
  lemma SumOfSnoc<T>(a: seq<T>, x: T, term: T -> V3)
    ensures SumOf(a + [x], term) == Add(SumOf(a, term), term(x))
  {
    SumOfAppend(a, [x], term);
    assert SumOf([x], term) == Add(term(x), SumOf([x][1..], term));
    assert [x][1..] == [];
  }
}
