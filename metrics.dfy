/**
 * The two transcendental functions the reward code calls, `np.linalg.norm`
 * and `np.arccos`, passed in as functions. Only the properties below are
 * assumed of them, and only by the lemmas that need them.
 */
module Metrics {
  import opened Vectors

  datatype Metric = Metric(norm: seq<real> -> real, arccos: real -> real)

  /** The norm is the Euclidean norm; arccos maps [-1, 1] to [0, pi] with arccos(1) = 0. */
  ghost predicate Valid(m: Metric)
  {
    && (forall v :: m.norm(v) >= 0.0 && m.norm(v) * m.norm(v) == SumSq(v))
    && m.arccos(1.0) == 0.0
    && (forall t :: -1.0 <= t <= 1.0 ==> m.arccos(t) >= 0.0)
  }

  /** The zero vector has norm zero. */
  lemma NormZero(m: Metric, v: seq<real>)
    requires Valid(m)
    requires AllZero(v)
    ensures m.norm(v) == 0.0
  {
    var n := m.norm(v);
    assert n >= 0.0 && n * n == SumSq(v);
    SumSqOfZero(v);
    SqrtUnique(n, 0.0);
  }

  lemma {:induction false} SumSqOfZero(v: seq<real>)
    requires AllZero(v)
    ensures SumSq(v) == 0.0
  {
    if v != [] {
      assert v[0] == 0.0;
      assert AllZero(v[1..]) by {
        forall i | 0 <= i < |v[1..]| ensures v[1..][i] == 0.0 {
          assert v[1..][i] == v[i + 1];
        }
      }
      SumSqOfZero(v[1..]);
    }
  }
}
