/**
 * Quaternions stored scalar first, `(w, x, y, z)`, as MuJoCo and the
 * `rotations` helpers that the pose code calls store them. `Mul` is the
 * Hamilton product (`rotations.quat_mul`), `Conjugate` negates the vector
 * part (`rotations.quat_conjugate`) and `RotVec` rotates a 3-vector by the
 * sandwich `q * (0, v) * conj(q)` (`rotations.quat_rot_vec`).
 */
module Quaternions {
  import opened Vectors

  datatype Quat = Quat(w: real, x: real, y: real, z: real)

  const Identity: Quat := Quat(1.0, 0.0, 0.0, 0.0)

  function Mul(a: Quat, b: Quat): (r: Quat)
  {
    Quat(a.w * b.w - a.x * b.x - a.y * b.y - a.z * b.z,
         a.w * b.x + a.x * b.w + a.y * b.z - a.z * b.y,
         a.w * b.y - a.x * b.z + a.y * b.w + a.z * b.x,
         a.w * b.z + a.x * b.y - a.y * b.x + a.z * b.w)
  }

  function Conjugate(q: Quat): (r: Quat)
  {
    Quat(q.w, -q.x, -q.y, -q.z)
  }

  function NormSq(q: Quat): (n: real)
  {
    q.w * q.w + q.x * q.x + q.y * q.y + q.z * q.z
  }

  predicate IsUnit(q: Quat)
  {
    NormSq(q) == 1.0
  }

  /** Componentwise sum and scalar multiple, used to decompose a quaternion over its basis. */
  function Plus(p: Quat, q: Quat): (r: Quat)
  {
    Quat(p.w + q.w, p.x + q.x, p.y + q.y, p.z + q.z)
  }

  function Times(k: real, q: Quat): (r: Quat)
  {
    Quat(k * q.w, k * q.x, k * q.y, k * q.z)
  }

  /** A 4-element array `[w, x, y, z]` read as a quaternion, and back. */
  function FromSeq(s: seq<real>): (q: Quat)
    requires |s| == 4
  {
    Quat(s[0], s[1], s[2], s[3])
  }

  function ToSeq(q: Quat): (r: seq<real>)
    ensures |r| == 4
    ensures FromSeq(r) == q
  {
    [q.w, q.x, q.y, q.z]
  }

  lemma ToSeqFromSeq(s: seq<real>)
    requires |s| == 4
    ensures ToSeq(FromSeq(s)) == s
  {
  }

  /** The pure quaternion `(0, v)` of a 3-vector, and the vector part of a quaternion. */
  function Pure(v: seq<real>): (p: Quat)
    requires |v| == 3
  {
    Quat(0.0, v[0], v[1], v[2])
  }

  function VecPart(q: Quat): (r: seq<real>)
    ensures |r| == 3
  {
    [q.x, q.y, q.z]
  }

  /** `rotations.quat_rot_vec`: the vector part of `q * (0, v) * conj(q)`. */
  function RotVec(q: Quat, v: seq<real>): (r: seq<real>)
    requires |v| == 3
    ensures |r| == 3
  {
    VecPart(Mul(q, Mul(Pure(v), Conjugate(q))))
  }

  // ---------------------------------------------------------------------
  // Algebraic laws of the Hamilton product.

  lemma MulIdentity(q: Quat)
    ensures Mul(Identity, q) == q
    ensures Mul(q, Identity) == q
  {
  }

  lemma ConjugateInvolution(q: Quat)
    ensures Conjugate(Conjugate(q)) == q
    ensures NormSq(Conjugate(q)) == NormSq(q)
  {
  }

  lemma ConjugateOfProduct(a: Quat, b: Quat)
    ensures Conjugate(Mul(a, b)) == Mul(Conjugate(b), Conjugate(a))
  {
    ConjugateOfProductW(a, b);
    ConjugateOfProductX(a, b);
    ConjugateOfProductY(a, b);
    ConjugateOfProductZ(a, b);
  }

  /** `q * conj(q) == conj(q) * q == |q|^2`, so a unit quaternion's conjugate is its inverse. */
  lemma MulConjugate(q: Quat)
    ensures Mul(q, Conjugate(q)) == Quat(NormSq(q), 0.0, 0.0, 0.0)
    ensures Mul(Conjugate(q), q) == Quat(NormSq(q), 0.0, 0.0, 0.0)
  {
  }

  lemma MulZeroRight(q: Quat)
    ensures Mul(q, Quat(0.0, 0.0, 0.0, 0.0)) == Quat(0.0, 0.0, 0.0, 0.0)
  {
  }

  lemma MulPlusLeft(a: Quat, b: Quat, c: Quat)
    ensures Mul(Plus(a, b), c) == Plus(Mul(a, c), Mul(b, c))
  {
    MulPlusLeftW(a, b, c);
    MulPlusLeftX(a, b, c);
    MulPlusLeftY(a, b, c);
    MulPlusLeftZ(a, b, c);
  }

  lemma MulPlusRight(a: Quat, b: Quat, c: Quat)
    ensures Mul(a, Plus(b, c)) == Plus(Mul(a, b), Mul(a, c))
  {
    MulPlusRightW(a, b, c);
    MulPlusRightX(a, b, c);
    MulPlusRightY(a, b, c);
    MulPlusRightZ(a, b, c);
  }

  lemma MulTimesLeft(k: real, a: Quat, c: Quat)
    ensures Mul(Times(k, a), c) == Times(k, Mul(a, c))
  {
    MulTimesLeftW(k, a, c);
    MulTimesLeftX(k, a, c);
    MulTimesLeftY(k, a, c);
    MulTimesLeftZ(k, a, c);
  }

  lemma AssocBasis(b: Quat, c: Quat)
    ensures Mul(Mul(Quat(1.0, 0.0, 0.0, 0.0), b), c) == Mul(Quat(1.0, 0.0, 0.0, 0.0), Mul(b, c))
    ensures Mul(Mul(Quat(0.0, 1.0, 0.0, 0.0), b), c) == Mul(Quat(0.0, 1.0, 0.0, 0.0), Mul(b, c))
    ensures Mul(Mul(Quat(0.0, 0.0, 1.0, 0.0), b), c) == Mul(Quat(0.0, 0.0, 1.0, 0.0), Mul(b, c))
    ensures Mul(Mul(Quat(0.0, 0.0, 0.0, 1.0), b), c) == Mul(Quat(0.0, 0.0, 0.0, 1.0), Mul(b, c))
  {
    AssocBasisW(b, c);
    AssocBasisX(b, c);
    AssocBasisY(b, c);
    AssocBasisZ(b, c);
  }

  /**
   * The Hamilton product is associative. The proof writes `a` over the basis
   * `1, i, j, k` and uses that the product is linear in its left argument.
   */
  lemma Assoc(a: Quat, b: Quat, c: Quat)
    ensures Mul(Mul(a, b), c) == Mul(a, Mul(b, c))
  {
    var e0, e1, e2, e3 := Quat(1.0, 0.0, 0.0, 0.0), Quat(0.0, 1.0, 0.0, 0.0), Quat(0.0, 0.0, 1.0, 0.0), Quat(0.0, 0.0, 0.0, 1.0);
    var p0, p1, p2, p3 := Times(a.w, e0), Times(a.x, e1), Times(a.y, e2), Times(a.z, e3);
    assert a == Plus(Plus(Plus(p0, p1), p2), p3);
    AssocBasis(b, c);
    var bc := Mul(b, c);
    MulPlusLeft(Plus(Plus(p0, p1), p2), p3, b);
    MulPlusLeft(Plus(p0, p1), p2, b);
    MulPlusLeft(p0, p1, b);
    MulPlusLeft(Plus(Plus(p0, p1), p2), p3, bc);
    MulPlusLeft(Plus(p0, p1), p2, bc);
    MulPlusLeft(p0, p1, bc);
    MulTimesLeft(a.w, e0, b); MulTimesLeft(a.x, e1, b); MulTimesLeft(a.y, e2, b); MulTimesLeft(a.z, e3, b);
    MulTimesLeft(a.w, e0, bc); MulTimesLeft(a.x, e1, bc); MulTimesLeft(a.y, e2, bc); MulTimesLeft(a.z, e3, bc);
    var m0, m1, m2, m3 := Mul(e0, b), Mul(e1, b), Mul(e2, b), Mul(e3, b);
    MulPlusLeft(Plus(Plus(Times(a.w, m0), Times(a.x, m1)), Times(a.y, m2)), Times(a.z, m3), c);
    MulPlusLeft(Plus(Times(a.w, m0), Times(a.x, m1)), Times(a.y, m2), c);
    MulPlusLeft(Times(a.w, m0), Times(a.x, m1), c);
    MulTimesLeft(a.w, m0, c); MulTimesLeft(a.x, m1, c); MulTimesLeft(a.y, m2, c); MulTimesLeft(a.z, m3, c);
  }

  // ---------------------------------------------------------------------
  // The laws above, one component at a time: each component is a polynomial
  // identity, and stating them separately keeps the arithmetic small.

  lemma ConjugateOfProductW(a: Quat, b: Quat)
    ensures Conjugate(Mul(a, b)).w == Mul(Conjugate(b), Conjugate(a)).w
  {
  }

  lemma MulPlusLeftW(a: Quat, b: Quat, c: Quat)
    ensures Mul(Plus(a, b), c).w == Plus(Mul(a, c), Mul(b, c)).w
  {
  }

  lemma MulPlusRightW(a: Quat, b: Quat, c: Quat)
    ensures Mul(a, Plus(b, c)).w == Plus(Mul(a, b), Mul(a, c)).w
  {
  }

  lemma MulTimesLeftW(k: real, a: Quat, c: Quat)
    ensures Mul(Times(k, a), c).w == Times(k, Mul(a, c)).w
  {
    var t, m := Times(k, a), Mul(a, c);
    ScaleRowW(k, a.w, a.x, a.y, a.z, c.w, c.x, c.y, c.z, t.w, t.x, t.y, t.z, m.w);
  }

  /** Component `w` of a product whose left factor is scaled by `k`, over plain reals. */
  lemma ScaleRowW(k: real, aw: real, ax: real, ay: real, az: real, cw: real, cx: real, cy: real, cz: real,
                    tw: real, tx: real, ty: real, tz: real, m: real)
    requires tw == k * aw && tx == k * ax && ty == k * ay && tz == k * az
    requires m == aw * cw - ax * cx - ay * cy - az * cz
    ensures tw * cw - tx * cx - ty * cy - tz * cz == k * m
  {
  }

  lemma ConjugateOfProductX(a: Quat, b: Quat)
    ensures Conjugate(Mul(a, b)).x == Mul(Conjugate(b), Conjugate(a)).x
  {
  }

  lemma MulPlusLeftX(a: Quat, b: Quat, c: Quat)
    ensures Mul(Plus(a, b), c).x == Plus(Mul(a, c), Mul(b, c)).x
  {
  }

  lemma MulPlusRightX(a: Quat, b: Quat, c: Quat)
    ensures Mul(a, Plus(b, c)).x == Plus(Mul(a, b), Mul(a, c)).x
  {
  }

  lemma MulTimesLeftX(k: real, a: Quat, c: Quat)
    ensures Mul(Times(k, a), c).x == Times(k, Mul(a, c)).x
  {
    var t, m := Times(k, a), Mul(a, c);
    ScaleRowX(k, a.w, a.x, a.y, a.z, c.w, c.x, c.y, c.z, t.w, t.x, t.y, t.z, m.x);
  }

  /** Component `x` of a product whose left factor is scaled by `k`, over plain reals. */
  lemma ScaleRowX(k: real, aw: real, ax: real, ay: real, az: real, cw: real, cx: real, cy: real, cz: real,
                    tw: real, tx: real, ty: real, tz: real, m: real)
    requires tw == k * aw && tx == k * ax && ty == k * ay && tz == k * az
    requires m == aw * cx + ax * cw + ay * cz - az * cy
    ensures tw * cx + tx * cw + ty * cz - tz * cy == k * m
  {
  }

  lemma ConjugateOfProductY(a: Quat, b: Quat)
    ensures Conjugate(Mul(a, b)).y == Mul(Conjugate(b), Conjugate(a)).y
  {
  }

  lemma MulPlusLeftY(a: Quat, b: Quat, c: Quat)
    ensures Mul(Plus(a, b), c).y == Plus(Mul(a, c), Mul(b, c)).y
  {
  }

  lemma MulPlusRightY(a: Quat, b: Quat, c: Quat)
    ensures Mul(a, Plus(b, c)).y == Plus(Mul(a, b), Mul(a, c)).y
  {
  }

  lemma MulTimesLeftY(k: real, a: Quat, c: Quat)
    ensures Mul(Times(k, a), c).y == Times(k, Mul(a, c)).y
  {
    var t, m := Times(k, a), Mul(a, c);
    ScaleRowY(k, a.w, a.x, a.y, a.z, c.w, c.x, c.y, c.z, t.w, t.x, t.y, t.z, m.y);
  }

  /** Component `y` of a product whose left factor is scaled by `k`, over plain reals. */
  lemma ScaleRowY(k: real, aw: real, ax: real, ay: real, az: real, cw: real, cx: real, cy: real, cz: real,
                    tw: real, tx: real, ty: real, tz: real, m: real)
    requires tw == k * aw && tx == k * ax && ty == k * ay && tz == k * az
    requires m == aw * cy - ax * cz + ay * cw + az * cx
    ensures tw * cy - tx * cz + ty * cw + tz * cx == k * m
  {
  }

  lemma ConjugateOfProductZ(a: Quat, b: Quat)
    ensures Conjugate(Mul(a, b)).z == Mul(Conjugate(b), Conjugate(a)).z
  {
  }

  lemma MulPlusLeftZ(a: Quat, b: Quat, c: Quat)
    ensures Mul(Plus(a, b), c).z == Plus(Mul(a, c), Mul(b, c)).z
  {
  }

  lemma MulPlusRightZ(a: Quat, b: Quat, c: Quat)
    ensures Mul(a, Plus(b, c)).z == Plus(Mul(a, b), Mul(a, c)).z
  {
  }

  lemma MulTimesLeftZ(k: real, a: Quat, c: Quat)
    ensures Mul(Times(k, a), c).z == Times(k, Mul(a, c)).z
  {
    var t, m := Times(k, a), Mul(a, c);
    ScaleRowZ(k, a.w, a.x, a.y, a.z, c.w, c.x, c.y, c.z, t.w, t.x, t.y, t.z, m.z);
  }

  /** Component `z` of a product whose left factor is scaled by `k`, over plain reals. */
  lemma ScaleRowZ(k: real, aw: real, ax: real, ay: real, az: real, cw: real, cx: real, cy: real, cz: real,
                    tw: real, tx: real, ty: real, tz: real, m: real)
    requires tw == k * aw && tx == k * ax && ty == k * ay && tz == k * az
    requires m == aw * cz + ax * cy - ay * cx + az * cw
    ensures tw * cz + tx * cy - ty * cx + tz * cw == k * m
  {
  }

  lemma AssocBasisW(b: Quat, c: Quat)
    ensures Mul(Mul(Quat(1.0, 0.0, 0.0, 0.0), b), c) == Mul(Quat(1.0, 0.0, 0.0, 0.0), Mul(b, c))
  {
  }

  lemma AssocBasisX(b: Quat, c: Quat)
    ensures Mul(Mul(Quat(0.0, 1.0, 0.0, 0.0), b), c) == Mul(Quat(0.0, 1.0, 0.0, 0.0), Mul(b, c))
  {
  }

  lemma AssocBasisY(b: Quat, c: Quat)
    ensures Mul(Mul(Quat(0.0, 0.0, 1.0, 0.0), b), c) == Mul(Quat(0.0, 0.0, 1.0, 0.0), Mul(b, c))
  {
  }

  lemma AssocBasisZ(b: Quat, c: Quat)
    ensures Mul(Mul(Quat(0.0, 0.0, 0.0, 1.0), b), c) == Mul(Quat(0.0, 0.0, 0.0, 1.0), Mul(b, c))
  {
  }

  // ---------------------------------------------------------------------
  // Rotation of vectors.

  /** The sandwich of a pure quaternion is pure, so `RotVec` loses nothing. */
  lemma SandwichPure(q: Quat, v: seq<real>)
    requires |v| == 3
    ensures Mul(q, Mul(Pure(v), Conjugate(q))) == Pure(RotVec(q, v))
  {
  }

  lemma RotVecIdentity(v: seq<real>)
    requires |v| == 3
    ensures RotVec(Identity, v) == v
  {
    var p := Pure(v);
    MulIdentity(p);
    calc {
      RotVec(Identity, v);
      VecPart(Mul(Identity, Mul(p, Conjugate(Identity))));
      { assert Conjugate(Identity) == Identity; }
      VecPart(Mul(Identity, Mul(p, Identity)));
      VecPart(p);
      { VecPartPure(v); }
      v;
    }
  }

  lemma VecPartPure(v: seq<real>)
    requires |v| == 3
    ensures VecPart(Pure(v)) == v
  {
    assert VecPart(Pure(v)) == [v[0], v[1], v[2]];
  }

  /** Rotating by a product rotates by the right factor first. */
  lemma RotVecCompose(a: Quat, b: Quat, v: seq<real>)
    requires |v| == 3
    ensures RotVec(Mul(a, b), v) == RotVec(a, RotVec(b, v))
  {
    var p := Pure(v);
    var ca, cb := Conjugate(a), Conjugate(b);
    SandwichPure(b, v);
    ConjugateOfProduct(a, b);
    // a * (b * p * cb) * ca == (a * b) * p * (cb * ca)
    Assoc(b, p, cb);
    Assoc(a, Mul(b, p), cb);
    Assoc(Mul(a, Mul(b, p)), cb, ca);
    Assoc(a, b, p);
    Assoc(Mul(a, b), p, Mul(cb, ca));
    Assoc(Mul(Mul(a, b), p), cb, ca);
    Assoc(a, Mul(Mul(b, p), cb), ca);
  }

  /** Rotating by a unit quaternion and then by its conjugate gives the vector back. */
  lemma RotVecInverse(q: Quat, v: seq<real>)
    requires |v| == 3
    requires IsUnit(q)
    ensures RotVec(Conjugate(q), RotVec(q, v)) == v
    ensures RotVec(q, RotVec(Conjugate(q), v)) == v
  {
    RotVecCompose(Conjugate(q), q, v);
    RotVecCompose(q, Conjugate(q), v);
    MulConjugate(q);
    RotVecIdentity(v);
  }

  /** `RotVec` is linear in the vector. */
  lemma RotVecAdd(q: Quat, u: seq<real>, v: seq<real>)
    requires |u| == 3 && |v| == 3
    ensures RotVec(q, Add(u, v)) == Add(RotVec(q, u), RotVec(q, v))
  {
    var cq := Conjugate(q);
    assert Pure(Add(u, v)) == Plus(Pure(u), Pure(v));
    MulPlusLeft(Pure(u), Pure(v), cq);
    MulPlusRight(q, Mul(Pure(u), cq), Mul(Pure(v), cq));
    var a, b := Mul(q, Mul(Pure(u), cq)), Mul(q, Mul(Pure(v), cq));
    assert VecPart(Plus(a, b)) == Add(VecPart(a), VecPart(b));
  }
}
