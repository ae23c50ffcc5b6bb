/**
 * Pose composition from `gym/utils/transformations.py`.
 *
 * A pose is a 7-element array `[x, y, z, qw, qx, qy, qz]`: a position and a
 * scalar-first orientation quaternion. `apply_tf(a_to_b, world_to_a)` maps a
 * pose expressed in frame `a` to the world frame; `get_tf(world_to_b,
 * world_to_a)` is meant to recover `a_to_b`. Only single poses are modelled,
 * not numpy's batched `...` leading axes.
 */
module Transformations {
  import opened Vectors
  import opened Quaternions

  predicate IsPose(p: seq<real>)
  {
    |p| == 7
  }

  /** A position alone (3 elements) or a full pose (7 elements). */
  predicate IsPosOrPose(p: seq<real>)
  {
    |p| == 3 || |p| == 7
  }

  function Position(p: seq<real>): (r: seq<real>)
    requires |p| >= 3
    ensures |r| == 3
  {
    p[..3]
  }

  lemma PositionOfPosition(p: seq<real>)
    requires |p| == 3
    ensures Position(p) == p
  {
  }

  function Orientation(p: seq<real>): (q: Quat)
    requires IsPose(p)
  {
    Quat(p[3], p[4], p[5], p[6])
  }

  function MakePose(pos: seq<real>, q: Quat): (r: seq<real>)
    requires |pos| == 3
    ensures IsPose(r)
    ensures Position(r) == pos && Orientation(r) == q
  {
    var r := pos + ToSeq(q);
    assert r[..3] == pos;
    assert r[3..] == ToSeq(q);
    r
  }

  lemma MakePoseOfParts(p: seq<real>)
    requires IsPose(p)
    ensures MakePose(Position(p), Orientation(p)) == p
  {
    assert p == p[..3] + ToSeq(Orientation(p));
  }

  /** Position-only input gets the identity orientation; a full pose is kept. */
  function Pad(p: seq<real>): (r: seq<real>)
    requires IsPosOrPose(p)
    ensures IsPose(r)
    ensures Position(r) == Position(p)
    ensures |p| == 3 ==> Orientation(r) == Identity
    ensures |p| == 7 ==> r == p
  {
    if |p| == 3 then
      MakePose(p, Identity)
    else
      p
  }

  /**
   * `apply_tf`: the world pose of `a_to_b` given `world_to_a`. The position
   * is `world_to_a.pos + rot(world_to_a.q, a_to_b.pos)` and the orientation
   * `world_to_a.q * a_to_b.q`. The result is position-only exactly when
   * `world_to_a` was.
   */
  function ApplyTf(aToB: seq<real>, worldToA: seq<real>): (r: seq<real>)
    requires IsPosOrPose(aToB) && IsPosOrPose(worldToA)
    ensures |r| == (if |worldToA| == 3 then 3 else 7)
  {
    var w := Pad(worldToA);
    var t := Pad(aToB);
    var newPos := Add(Position(w), RotVec(Orientation(w), Position(t)));
    var newQuat := Mul(Orientation(w), Orientation(t));
    if |worldToA| == 3 then newPos else MakePose(newPos, newQuat)
  }

  /**
   * `get_tf`, as written: position `rot(conj(world_to_a.q), b.pos - a.pos)`
   * and orientation `world_to_b.q * conj(world_to_a.q)`.
   */
  function GetTf(worldToB: seq<real>, worldToA: seq<real>): (r: seq<real>)
    requires IsPose(worldToB) && IsPose(worldToA)
    ensures IsPose(r)
  {
    var posTf := Sub(Position(worldToB), Position(worldToA));
    var q := Mul(Identity, Conjugate(Orientation(worldToA)));
    MakePose(RotVec(q, posTf), Mul(Orientation(worldToB), Conjugate(Orientation(worldToA))))
  }

  /**
   * `get_tf` with the orientation factors in the order that inverts
   * `ApplyTf`: `conj(world_to_a.q) * world_to_b.q`.
   */
  function GetTfInverse(worldToB: seq<real>, worldToA: seq<real>): (r: seq<real>)
    requires IsPose(worldToB) && IsPose(worldToA)
    ensures IsPose(r)
  {
    var posTf := Sub(Position(worldToB), Position(worldToA));
    var ca := Conjugate(Orientation(worldToA));
    MakePose(RotVec(ca, posTf), Mul(ca, Orientation(worldToB)))
  }

  // ---------------------------------------------------------------------
  // apply_tf

  /**
   * Padding: a 3-element `a_to_b` behaves as the pose with identity
   * orientation, and a 3-element `world_to_a` gives the position part of
   * the result for the padded pose.
   */
  lemma ApplyTfPadding(aToB: seq<real>, worldToA: seq<real>)
    requires IsPosOrPose(aToB) && IsPosOrPose(worldToA)
    ensures ApplyTf(aToB, worldToA) == ApplyTf(Pad(aToB), worldToA)
    ensures |worldToA| == 3 ==> ApplyTf(aToB, worldToA) == Position(ApplyTf(aToB, Pad(worldToA)))
  {
  }

  /** With identity orientation, `apply_tf` is a translation that keeps `a_to_b`'s orientation. */
  lemma ApplyTfIdentityOrientation(aToB: seq<real>, worldToA: seq<real>)
    requires IsPosOrPose(aToB) && IsPosOrPose(worldToA)
    requires |worldToA| == 7 ==> Orientation(worldToA) == Identity
    ensures Position(ApplyTf(aToB, worldToA)) == Add(Position(worldToA), Position(aToB))
    ensures |worldToA| == 7 ==> Orientation(ApplyTf(aToB, worldToA)) == Orientation(Pad(aToB))
  {
    var w, t := Pad(worldToA), Pad(aToB);
    assert Orientation(w) == Identity;
    RotVecIdentity(Position(t));
    if |worldToA| == 3 {
      ApplyTfPositionOnly(aToB, worldToA);
    } else {
      ApplyTfFullPose(aToB, worldToA);
      MulIdentity(Orientation(t));
    }
  }

  /** A full `world_to_a` gives the pose of the composed position and orientation. */
  lemma ApplyTfFullPose(aToB: seq<real>, worldToA: seq<real>)
    requires IsPosOrPose(aToB) && IsPose(worldToA)
    ensures Position(ApplyTf(aToB, worldToA))
         == Add(Position(worldToA), RotVec(Orientation(worldToA), Position(Pad(aToB))))
    ensures Orientation(ApplyTf(aToB, worldToA)) == Mul(Orientation(worldToA), Orientation(Pad(aToB)))
  {
  }

  /** A position-only `world_to_a` gives a position-only result. */
  lemma ApplyTfPositionOnly(aToB: seq<real>, worldToA: seq<real>)
    requires IsPosOrPose(aToB) && |worldToA| == 3
    ensures Position(ApplyTf(aToB, worldToA))
         == Add(Position(Pad(worldToA)), RotVec(Orientation(Pad(worldToA)), Position(Pad(aToB))))
  {
    var w, t := Pad(worldToA), Pad(aToB);
    var newPos := Add(Position(w), RotVec(Orientation(w), Position(t)));
    assert ApplyTf(aToB, worldToA) == newPos;
    PositionOfPosition(newPos);
  }

  /**
   * The orientation order: the rotation of `world_to_b` is that of
   * `a_to_b` followed by that of `world_to_a`.
   */
  lemma ApplyTfRotation(aToB: seq<real>, worldToA: seq<real>, v: seq<real>)
    requires IsPosOrPose(aToB) && IsPose(worldToA) && |v| == 3
    ensures RotVec(Orientation(ApplyTf(aToB, worldToA)), v)
         == RotVec(Orientation(worldToA), RotVec(Orientation(Pad(aToB)), v))
  {
    RotVecCompose(Orientation(worldToA), Orientation(Pad(aToB)), v);
  }

  lemma AddAssoc(x: seq<real>, y: seq<real>, z: seq<real>)
    requires |x| == |y| == |z|
    ensures Add(Add(x, y), z) == Add(x, Add(y, z))
  {
  }

  /** Composing frames: applying `b_to_c` then `a_to_b` equals applying their composite. */
  lemma ApplyTfCompose(bToC: seq<real>, aToB: seq<real>, worldToA: seq<real>)
    requires IsPose(bToC) && IsPose(aToB) && IsPose(worldToA)
    ensures ApplyTf(ApplyTf(bToC, aToB), worldToA) == ApplyTf(bToC, ApplyTf(aToB, worldToA))
  {
    var qa, qb, qc := Orientation(worldToA), Orientation(aToB), Orientation(bToC);
    var pa, pb, pc := Position(worldToA), Position(aToB), Position(bToC);
    var inner := ApplyTf(bToC, aToB);
    assert Position(inner) == Add(pb, RotVec(qb, pc));
    assert Orientation(inner) == Mul(qb, qc);
    var outer := ApplyTf(aToB, worldToA);
    assert Position(outer) == Add(pa, RotVec(qa, pb));
    assert Orientation(outer) == Mul(qa, qb);
    RotVecAdd(qa, pb, RotVec(qb, pc));
    RotVecCompose(qa, qb, pc);
    AddAssoc(pa, RotVec(qa, pb), RotVec(Mul(qa, qb), pc));
    Assoc(qa, qb, qc);
    var lhs := ApplyTf(inner, worldToA);
    var rhs := ApplyTf(bToC, outer);
    assert Position(lhs) == Position(rhs);
    assert Orientation(lhs) == Orientation(rhs);
    MakePoseOfParts(lhs);
    MakePoseOfParts(rhs);
  }

  // ---------------------------------------------------------------------
  // get_tf

  /** The parts `get_tf` builds when `world_to_a` has the identity orientation. */
  lemma IdentityFrameParts(posB: seq<real>, posA: seq<real>, qb: Quat, qa: Quat)
    requires qa == Identity && |posB| == 3 && |posA| == 3
    ensures MakePose(RotVec(Mul(Identity, Conjugate(qa)), Sub(posB, posA)), Mul(qb, Conjugate(qa)))
            == MakePose(Sub(posB, posA), qb)
  {
    RotVecIdentity(Sub(posB, posA));
    MulIdentity(qb);
  }

  /** With identity orientation of `world_to_a`, `get_tf` is a difference of positions. */
  lemma GetTfIdentityOrientation(worldToB: seq<real>, worldToA: seq<real>)
    requires IsPose(worldToB) && IsPose(worldToA)
    requires Orientation(worldToA) == Identity
    ensures GetTf(worldToB, worldToA) == MakePose(Sub(Position(worldToB), Position(worldToA)), Orientation(worldToB))
  {
    IdentityFrameParts(Position(worldToB), Position(worldToA), Orientation(worldToB), Orientation(worldToA));
  }


  /** ... so with identity orientation `get_tf` undoes `apply_tf`. */
  lemma GetTfApplyTfIdentity(p: seq<real>, w: seq<real>)
    requires IsPose(p) && IsPose(w)
    requires Orientation(w) == Identity
    ensures GetTf(ApplyTf(p, w), w) == p
  {
    ApplyTfIdentityOrientation(p, w);
    var b := ApplyTf(p, w);
    assert Position(b) == Add(Position(w), Position(p));
    assert Orientation(b) == Orientation(p);
    GetTfIdentityOrientation(b, w);
    SubAddCancel(Position(w), Position(p));
    assert GetTf(b, w) == MakePose(Position(p), Orientation(p));
    MakePoseOfParts(p);
  }

  /** For a unit `world_to_a` quaternion the position parts of `get_tf` and `apply_tf` are inverse. */
  lemma PositionRoundTrip(worldToB: seq<real>, worldToA: seq<real>, aToB: seq<real>)
    requires IsPose(worldToB) && IsPose(worldToA) && IsPose(aToB)
    requires IsUnit(Orientation(worldToA))
    ensures Position(ApplyTf(GetTf(worldToB, worldToA), worldToA)) == Position(worldToB)
    ensures Position(GetTf(ApplyTf(aToB, worldToA), worldToA)) == Position(aToB)
  {
    var qa, pa := Orientation(worldToA), Position(worldToA);
    MulIdentity(Conjugate(qa));
    var d := Sub(Position(worldToB), pa);
    RotVecInverse(qa, d);
    SubAddCancel(pa, Position(worldToB));
    var pt := Position(aToB);
    RotVecInverse(qa, pt);
    SubAddCancel(pa, RotVec(qa, pt));
  }

  /**
   * The orientation part of `get_tf` undoes `apply_tf` when the two
   * orientations commute (for instance, when they are equal).
   */
  lemma RoundTripWhenCommuting(worldToB: seq<real>, worldToA: seq<real>)
    requires IsPose(worldToB) && IsPose(worldToA)
    requires IsUnit(Orientation(worldToA))
    requires Mul(Orientation(worldToA), Orientation(worldToB)) == Mul(Orientation(worldToB), Orientation(worldToA))
    ensures ApplyTf(GetTf(worldToB, worldToA), worldToA) == worldToB
  {
    var qa, qb := Orientation(worldToA), Orientation(worldToB);
    var r := ApplyTf(GetTf(worldToB, worldToA), worldToA);
    PositionRoundTrip(worldToB, worldToA, worldToB);
    // qa * (qb * conj qa) == (qb * qa) * conj qa == qb
    Assoc(qa, qb, Conjugate(qa));
    Assoc(qb, qa, Conjugate(qa));
    MulConjugate(qa);
    MulIdentity(qb);
    assert Orientation(r) == qb;
    MakePoseOfParts(r);
    MakePoseOfParts(worldToB);
  }

  /** The orientation that the round trip through `get_tf` produces is the conjugation `a.q * b.q * conj(a.q)`. */
  lemma RoundTripOrientation(worldToB: seq<real>, worldToA: seq<real>)
    requires IsPose(worldToB) && IsPose(worldToA)
    ensures Orientation(ApplyTf(GetTf(worldToB, worldToA), worldToA))
         == Mul(Orientation(worldToA), Mul(Orientation(worldToB), Conjugate(Orientation(worldToA))))
  {
  }

  /**
   * For a unit `world_to_a` orientation, `apply_tf(get_tf(b, a), a) == b`
   * holds exactly when the two orientations commute.
   */
  lemma RoundTripIffCommute(worldToB: seq<real>, worldToA: seq<real>)
    requires IsPose(worldToB) && IsPose(worldToA)
    requires IsUnit(Orientation(worldToA))
    ensures ApplyTf(GetTf(worldToB, worldToA), worldToA) == worldToB
        <==> Mul(Orientation(worldToA), Orientation(worldToB)) == Mul(Orientation(worldToB), Orientation(worldToA))
  {
    var qa, qb := Orientation(worldToA), Orientation(worldToB);
    var r := ApplyTf(GetTf(worldToB, worldToA), worldToA);
    if Mul(qa, qb) == Mul(qb, qa) {
      RoundTripWhenCommuting(worldToB, worldToA);
    }
    if r == worldToB {
      RoundTripOrientation(worldToB, worldToA);
      var ca := Conjugate(qa);
      assert Mul(qa, Mul(qb, ca)) == qb;
      // multiply both sides by qa on the right
      Assoc(qa, Mul(qb, ca), qa);
      Assoc(qb, ca, qa);
      MulConjugate(qa);
      MulIdentity(qb);
    }
  }

  /** Two unit quaternions that do not commute. */
  lemma NonCommutingUnits()
    ensures IsUnit(Quat(0.5, 0.5, 0.5, 0.5)) && IsUnit(Quat(0.5, 0.5, 0.5, -0.5))
    ensures Mul(Quat(0.5, 0.5, 0.5, 0.5), Quat(0.5, 0.5, 0.5, -0.5))
         != Mul(Quat(0.5, 0.5, 0.5, -0.5), Quat(0.5, 0.5, 0.5, 0.5))
  {
    assert Mul(Quat(0.5, 0.5, 0.5, 0.5), Quat(0.5, 0.5, 0.5, -0.5)).y == 1.0;
    assert Mul(Quat(0.5, 0.5, 0.5, -0.5), Quat(0.5, 0.5, 0.5, 0.5)).y == 0.0;
  }

  /**
   * Poses with these two unit orientations, at any positions, on which the
   * round trip through `get_tf` fails.
   */
  lemma GetTfRoundTripCounterexample(worldToB: seq<real>, worldToA: seq<real>)
    requires IsPose(worldToB) && IsPose(worldToA)
    requires Orientation(worldToA) == Quat(0.5, 0.5, 0.5, 0.5)
    requires Orientation(worldToB) == Quat(0.5, 0.5, 0.5, -0.5)
    ensures IsUnit(Orientation(worldToA)) && IsUnit(Orientation(worldToB))
    ensures ApplyTf(GetTf(worldToB, worldToA), worldToA) != worldToB
  {
    NonCommutingUnits();
    RoundTripIffCommute(worldToB, worldToA);
  }

  /** The corrected `get_tf` undoes `apply_tf` for every unit `world_to_a` orientation ... */
  lemma ApplyTfGetTfInverse(worldToB: seq<real>, worldToA: seq<real>)
    requires IsPose(worldToB) && IsPose(worldToA)
    requires IsUnit(Orientation(worldToA))
    ensures ApplyTf(GetTfInverse(worldToB, worldToA), worldToA) == worldToB
  {
    var qa, qb, pa := Orientation(worldToA), Orientation(worldToB), Position(worldToA);
    var d := Sub(Position(worldToB), pa);
    RotVecInverse(qa, d);
    SubAddCancel(pa, Position(worldToB));
    Assoc(qa, Conjugate(qa), qb);
    MulConjugate(qa);
    MulIdentity(qb);
    var r := ApplyTf(GetTfInverse(worldToB, worldToA), worldToA);
    assert Position(r) == Position(worldToB);
    assert Orientation(r) == qb;
    MakePoseOfParts(r);
    MakePoseOfParts(worldToB);
  }

  /** ... and `apply_tf` undoes the corrected `get_tf`. */
  lemma GetTfInverseApplyTf(aToB: seq<real>, worldToA: seq<real>)
    requires IsPose(aToB) && IsPose(worldToA)
    requires IsUnit(Orientation(worldToA))
    ensures GetTfInverse(ApplyTf(aToB, worldToA), worldToA) == aToB
  {
    var qa, qt, pa, pt := Orientation(worldToA), Orientation(aToB), Position(worldToA), Position(aToB);
    RotVecInverse(qa, pt);
    SubAddCancel(pa, RotVec(qa, pt));
    Assoc(Conjugate(qa), qa, qt);
    MulConjugate(qa);
    MulIdentity(qt);
    var r := GetTfInverse(ApplyTf(aToB, worldToA), worldToA);
    assert Position(r) == pt;
    assert Orientation(r) == qt;
    MakePoseOfParts(r);
    MakePoseOfParts(aToB);
  }

  // ---------------------------------------------------------------------
  // pose_to_mat and mat_to_pose

  /** `m` has `rows` rows of `cols` entries each. */
  predicate IsMatrix(m: seq<seq<real>>, rows: nat, cols: nat)
  {
    |m| == rows && forall i :: 0 <= i < rows ==> |m[i]| == cols
  }

  /**
   * `pose_to_mat`: the homogeneous 4x4 matrix of a pose. The rotation block
   * is `rotations.quat2mat` of the orientation, passed in as `quatToMat`.
   */
  function PoseToMat(pose: seq<real>, quatToMat: Quat -> seq<seq<real>>): (m: seq<seq<real>>)
    requires IsPose(pose)
    requires IsMatrix(quatToMat(Orientation(pose)), 3, 3)
    ensures IsMatrix(m, 4, 4)
    ensures forall i :: 0 <= i < 3 ==> m[i][3] == pose[i]
    ensures m[3] == [0.0, 0.0, 0.0, 1.0]
    ensures forall i, j :: 0 <= i < 3 && 0 <= j < 3 ==> m[i][j] == quatToMat(Orientation(pose))[i][j]
  {
    var rot := quatToMat(Orientation(pose));
    seq(4, i requires 0 <= i < 4 => if i < 3 then rot[i] + [pose[i]] else [0.0, 0.0, 0.0, 1.0])
  }

  /** The upper-left 3x3 block of a matrix with at least 3 rows and 3 columns. */
  function RotationBlock(m: seq<seq<real>>): (r: seq<seq<real>>)
    requires |m| >= 3 && forall i :: 0 <= i < 3 ==> |m[i]| >= 3
    ensures IsMatrix(r, 3, 3)
    ensures forall i, j :: 0 <= i < 3 && 0 <= j < 3 ==> r[i][j] == m[i][j]
  {
    seq(3, i requires 0 <= i < 3 => m[i][..3])
  }

  /**
   * `mat_to_pose`: the position read from column 3 of rows 0-2, followed by
   * `rotations.mat2quat` of the rotation block, passed in as `matToQuat`.
   */
  function MatToPose(m: seq<seq<real>>, matToQuat: seq<seq<real>> -> Quat): (pose: seq<real>)
    requires |m| >= 3 && forall i :: 0 <= i < 3 ==> |m[i]| >= 4
    ensures IsPose(pose)
    ensures forall i :: 0 <= i < 3 ==> pose[i] == m[i][3]
    ensures Orientation(pose) == matToQuat(RotationBlock(m))
  {
    MakePose([m[0][3], m[1][3], m[2][3]], matToQuat(RotationBlock(m)))
  }

  /**
   * `mat_to_pose(pose_to_mat(p))` keeps the position of `p`, and keeps the
   * whole pose when `mat2quat` inverts `quat2mat` on its orientation.
   */
  lemma MatToPoseOfPoseToMat(pose: seq<real>, quatToMat: Quat -> seq<seq<real>>, matToQuat: seq<seq<real>> -> Quat)
    requires IsPose(pose)
    requires IsMatrix(quatToMat(Orientation(pose)), 3, 3)
    ensures Position(MatToPose(PoseToMat(pose, quatToMat), matToQuat)) == Position(pose)
    ensures Orientation(MatToPose(PoseToMat(pose, quatToMat), matToQuat)) == matToQuat(quatToMat(Orientation(pose)))
    ensures matToQuat(quatToMat(Orientation(pose))) == Orientation(pose) ==>
              MatToPose(PoseToMat(pose, quatToMat), matToQuat) == pose
  {
    var m := PoseToMat(pose, quatToMat);
    var rot := quatToMat(Orientation(pose));
    assert RotationBlock(m) == rot by {
      forall i | 0 <= i < 3 ensures RotationBlock(m)[i] == rot[i] {
        assert RotationBlock(m)[i] == m[i][..3];
      }
    }
    var r := MatToPose(m, matToQuat);
    assert Position(r) == Position(pose);
    MakePoseOfParts(r);
    MakePoseOfParts(pose);
  }
}
