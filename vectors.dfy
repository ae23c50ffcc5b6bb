/**
 * The numpy vector operations the environments use, on `seq<real>`.
 *
 * Floating-point rounding is not modelled: every quantity is an exact real.
 */
module Vectors {

  /** `np.zeros(n)` */
  function Zeros(n: nat): (r: seq<real>)
    ensures |r| == n
    ensures forall i :: 0 <= i < n ==> r[i] == 0.0
  {
    seq(n, _ => 0.0)
  }

  predicate AllZero(v: seq<real>)
  {
    forall i :: 0 <= i < |v| ==> v[i] == 0.0
  }

  function Add(a: seq<real>, b: seq<real>): (r: seq<real>)
    requires |a| == |b|
    ensures |r| == |a|
  {
    seq(|a|, i requires 0 <= i < |a| => a[i] + b[i])
  }

  function Sub(a: seq<real>, b: seq<real>): (r: seq<real>)
    requires |a| == |b|
    ensures |r| == |a|
  {
    seq(|a|, i requires 0 <= i < |a| => a[i] - b[i])
  }

  function Scale(k: real, a: seq<real>): (r: seq<real>)
    ensures |r| == |a|
  {
    seq(|a|, i requires 0 <= i < |a| => k * a[i])
  }

  lemma SubAddCancel(x: seq<real>, y: seq<real>)
    requires |x| == |y|
    ensures Sub(Add(x, y), x) == y
    ensures Add(x, Sub(y, x)) == y
  {
  }

  /** Sum of squares: the square of the Euclidean norm. */
  function SumSq(v: seq<real>): (r: real)
    ensures r >= 0.0
  {
    if v == [] then 0.0 else (SquarePos(v[0]); v[0] * v[0] + SumSq(v[1..]))
  }

  function Abs(x: real): (r: real)
    ensures r >= 0.0 && (r == x || r == -x)
  {
    if x < 0.0 then -x else x
  }

  function Max(a: real, b: real): (r: real)
    ensures r >= a && r >= b && (r == a || r == b)
  {
    if a < b then b else a
  }

  /** `np.clip(x, lo, hi)`, i.e. `minimum(maximum(x, lo), hi)`. */
  function Clip(x: real, lo: real, hi: real): (r: real)
    ensures lo <= hi ==> lo <= r <= hi
    ensures lo <= x <= hi ==> r == x
  {
    var up := if x < lo then lo else x;
    if hi < up then hi else up
  }

  /** Componentwise `np.clip` against per-component bounds. */
  function ClipVec(a: seq<real>, lo: seq<real>, hi: seq<real>): (r: seq<real>)
    requires |lo| == |a| && |hi| == |a|
    ensures |r| == |a|
    ensures forall i :: 0 <= i < |a| ==> r[i] == Clip(a[i], lo[i], hi[i])
  {
    seq(|a|, i requires 0 <= i < |a| => Clip(a[i], lo[i], hi[i]))
  }

  /** Every component lies between its bounds (`lo[i] <= a[i] <= hi[i]`). */
  ghost predicate Within(a: seq<real>, lo: seq<real>, hi: seq<real>)
    requires |lo| == |a| && |hi| == |a|
  {
    forall i :: 0 <= i < |a| ==> lo[i] <= a[i] <= hi[i]
  }

  /** Clipping to ordered bounds lands inside them and leaves points inside unchanged. */
  lemma ClipVecWithin(a: seq<real>, lo: seq<real>, hi: seq<real>)
    requires |lo| == |a| && |hi| == |a|
    requires forall i :: 0 <= i < |a| ==> lo[i] <= hi[i]
    ensures Within(ClipVec(a, lo, hi), lo, hi)
    ensures Within(a, lo, hi) ==> ClipVec(a, lo, hi) == a
  {
  }

  /**
   * `_check_range`: `np.all((a_min <= a) & (a <= a_max))` when the bounds
   * are included, `np.all((a_min < a) & (a < a_max))` otherwise. Evaluated
   * from the last component down, like a fold.
   */
  function CheckRange(a: seq<real>, lo: seq<real>, hi: seq<real>, includeBounds: bool): (r: bool)
    requires |lo| == |a| && |hi| == |a|
    ensures r <==> forall i :: 0 <= i < |a| ==>
      if includeBounds then lo[i] <= a[i] <= hi[i] else lo[i] < a[i] < hi[i]
  {
    if a == [] then true
    else
      var n := |a| - 1;
      var here := if includeBounds then lo[n] <= a[n] <= hi[n] else lo[n] < a[n] < hi[n];
      here && CheckRange(a[..n], lo[..n], hi[..n], includeBounds)
  }

  /** numpy's `uniform(low, high)` for a unit draw `u` of the random source. */
  function Uniform(low: real, high: real, u: real): (r: real)
    ensures 0.0 <= u < 1.0 && low <= high ==> low <= r <= high
    ensures 0.0 <= u < 1.0 && low < high ==> r < high
  {
    UniformBound(low, high, u);
    low + (high - low) * u
  }

  lemma UniformBound(low: real, high: real, u: real)
    ensures 0.0 <= u < 1.0 && low <= high ==> 0.0 <= (high - low) * u <= high - low
    ensures 0.0 <= u < 1.0 && low < high ==> (high - low) * u < high - low
  {
    if 0.0 <= u < 1.0 && low <= high {
      MulNonNeg(high - low, u);
      MulNonNeg(high - low, 1.0 - u);
      if low < high {
        MulPos(high - low, 1.0 - u);
      }
    }
  }

  lemma MulNonNeg(a: real, b: real)
    requires a >= 0.0 && b >= 0.0
    ensures a * b >= 0.0
  {
  }

  lemma MulPos(a: real, b: real)
    requires a > 0.0 && b > 0.0
    ensures a * b > 0.0
  {
  }

  lemma SquarePos(a: real)
    ensures a * a >= 0.0
    ensures a != 0.0 ==> a * a > 0.0
  {
    if a < 0.0 {
      MulPos(-a, -a);
    } else if a > 0.0 {
      MulPos(a, a);
    }
  }

  lemma SquareNonZero(a: real)
    requires a != 0.0
    ensures a * a > 0.0
  {
    SquarePos(a);
  }

  lemma SquareLess(x: real, y: real)
    requires 0.0 <= x < y
    ensures x * x < y * y
  {
    MulPos(y - x, y + x);
    assert (y - x) * (y + x) == y * y - x * x;
  }

  /** Two non-negative reals with equal squares are equal. */
  lemma SqrtUnique(n: real, s: real)
    requires n >= 0.0 && s >= 0.0
    requires n * n == s * s
    ensures n == s
  {
    if n < s {
      SquareLess(n, s);
    } else if s < n {
      SquareLess(s, n);
    }
  }

  /** Componentwise `uniform(low, high)` for a vector of unit draws. */
  function UniformVec(low: seq<real>, high: seq<real>, u: seq<real>): (r: seq<real>)
    requires |high| == |low| && |u| == |low|
    ensures |r| == |low|
    ensures forall i :: 0 <= i < |low| ==> r[i] == Uniform(low[i], high[i], u[i])
  {
    seq(|low|, i requires 0 <= i < |low| => Uniform(low[i], high[i], u[i]))
  }

  /** A vector of unit draws, each in `[0, 1)`. */
  predicate UnitDraws(u: seq<real>)
  {
    forall i :: 0 <= i < |u| ==> 0.0 <= u[i] < 1.0
  }

  /** Unit draws scaled into an ordered box stay inside it. */
  lemma UniformVecWithin(low: seq<real>, high: seq<real>, u: seq<real>)
    requires |high| == |low| && |u| == |low|
    requires UnitDraws(u)
    requires forall i :: 0 <= i < |low| ==> low[i] <= high[i]
    ensures Within(UniformVec(low, high, u), low, high)
    ensures CheckRange(UniformVec(low, high, u), low, high, true)
  {
  }

  /** The three parts of a concatenation sit at their offsets. */
  lemma Concat3<T>(a: seq<T>, b: seq<T>, c: seq<T>)
    ensures (a + b + c)[..|a|] == a
    ensures (a + b + c)[|a|..|a| + |b|] == b
    ensures (a + b + c)[|a| + |b|..] == c
  {
    var s := a + b + c;
    assert s == a + (b + c);
    assert s[|a|..] == b + c;
  }

  /** A slice of a part found at offset `o` is the same slice of the whole, shifted by `o`. */
  lemma SliceWithin<T>(s: seq<T>, t: seq<T>, o: nat, i: nat, j: nat)
    requires o + |t| <= |s| && s[o..o + |t|] == t
    requires i <= j <= |t|
    ensures s[o + i..o + j] == t[i..j]
  {
    forall k | 0 <= k < j - i
      ensures s[o + i..o + j][k] == t[i..j][k]
    {
      assert s[o + i + k] == s[o..o + |t|][i + k];
    }
  }
}
