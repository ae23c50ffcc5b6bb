/**
 * The goal, reward and command logic of the YuMi dual-arm reaching
 * environment (`YumiEnv` in `gym/envs/yumi/yumi_env.py`). The goal holds a
 * 3-element gripper target per arm, left in slots 0-2 and right in 3-5;
 * an absent arm's half stays zero.
 *
 * Forward kinematics and the simulator are parameters: a `Sim` object
 * holding the joint positions, and functions from joint positions to
 * gripper positions.
 */
module YumiEnv {
  import opened Outcomes
  import opened Vectors
  import opened Metrics

  datatype Arm = Right | Left | Both
  datatype RewardType = Sparse | Dense

  predicate HasRightArm(arm: Arm) { arm == Right || arm == Both }
  predicate HasLeftArm(arm: Arm) { arm == Left || arm == Both }
  predicate HasTwoArms(arm: Arm) { arm == Both }

  /** The arm properties agree with each other, and there is always an arm. */
  lemma ArmPredicates(arm: Arm)
    ensures HasTwoArms(arm) <==> HasLeftArm(arm) && HasRightArm(arm)
    ensures HasLeftArm(arm) || HasRightArm(arm)
  {
  }

  function ArmCount(arm: Arm): (n: real)
    ensures n == 1.0 || n == 2.0
    ensures n == 2.0 <==> HasTwoArms(arm)
  {
    if arm == Both then 2.0 else 1.0
  }

  const TargetLowL: seq<real> := [-0.20, 0.07, 0.05]
  const TargetHighL: seq<real> := [0.35, 0.43, 0.6]
  const TargetLowR: seq<real> := [-0.20, -0.43, 0.05]
  const TargetHighR: seq<real> := [0.35, -0.07, 0.6]
  const GripperJointMax: real := 0.02
  /** Actuator limits of the seven arm joints, `[40, 35, 30, 20, 15, 10, 10] * 10`. */
  const ArmCtrlHigh: seq<real> := [400.0, 350.0, 300.0, 200.0, 150.0, 100.0, 100.0]
  /** Components of each arm command after `_set_action`: 7 joints and 2 gripper fingers. */
  const ArmCommandLength: nat := 9
  /** `np.pi` and the joint-range margin of `_sample_safe_qpos`. */
  const Pi: real := 3.141592653589793
  const Margin: real := Pi / 6.0

  function ParseArm(s: string): (r: Result<Arm>)
    ensures r.Ok? <==> s in {"right", "left", "both"}
    ensures r.Err? ==> r.error == ValueError("")
    ensures r.Ok? ==> (r.value == Right <==> s == "right") && (r.value == Left <==> s == "left")
  {
    if s == "right" then Ok(Right)
    else if s == "left" then Ok(Left)
    else if s == "both" then Ok(Both)
    else Err(ValueError(""))
  }

  function ParseRewardType(s: string): (r: Result<RewardType>)
    ensures r.Ok? <==> s in {"sparse", "dense"}
    ensures r.Err? ==> r.error == ValueError("")
    ensures r.Ok? ==> (r.value == Sparse <==> s == "sparse")
  {
    if s == "sparse" then Ok(Sparse)
    else if s == "dense" then Ok(Dense)
    else Err(ValueError(""))
  }

  /** Per-arm actuator limits (plus the gripper unless it is blocked), repeated for two arms. */
  function CtrlHigh(arm: Arm, blockGripper: bool): (h: seq<real>)
    ensures |h| == (if blockGripper then 7 else 8) * (if arm == Both then 2 else 1)
    ensures h[..7] == ArmCtrlHigh
    ensures !blockGripper ==> h[7] == GripperJointMax
    ensures arm == Both ==> h[|h| / 2..] == h[..|h| / 2]
    ensures forall i :: 0 <= i < |h| ==> h[i] > 0.0
  {
    var one := if blockGripper then ArmCtrlHigh else ArmCtrlHigh + [GripperJointMax];
    var h := if arm == Both then one + one else one;
    assert h[..7] == ArmCtrlHigh;
    assert arm == Both ==> h[|h| / 2..] == one && h[..|h| / 2] == one;
    h
  }

  datatype Yumi = Yumi(arm: Arm, blockGripper: bool, rewardType: RewardType, distanceThreshold: real,
                       hasObject: bool, ctrlHigh: seq<real>, ctrlLow: seq<real>)

  /**
   * `YumiEnv.__init__`: `ValueError` unless the arm is right, left or both
   * and the reward type is sparse or dense; then the actuator limits, with
   * the lower limits the negated upper ones.
   */
  function NewYumi(arm: string, blockGripper: bool, rewardType: string, distanceThreshold: real, hasObject: bool): (r: Result<Yumi>)
    ensures r.Ok? <==> arm in {"right", "left", "both"} && rewardType in {"sparse", "dense"}
    ensures r.Err? ==> r.error == ValueError("")
    ensures r.Ok? ==> |r.value.ctrlHigh| == (if blockGripper then 7 else 8) * (if arm == "both" then 2 else 1)
    ensures r.Ok? ==> |r.value.ctrlLow| == |r.value.ctrlHigh|
    ensures r.Ok? ==> forall i :: 0 <= i < |r.value.ctrlLow| ==> r.value.ctrlLow[i] == -r.value.ctrlHigh[i]
    ensures r.Ok? ==> r.value.ctrlHigh == CtrlHigh(r.value.arm, blockGripper)
  {
    var a := ParseArm(arm);
    if a.Err? then Err(a.error)
    else
      var t := ParseRewardType(rewardType);
      if t.Err? then Err(t.error)
      else
        var high := CtrlHigh(a.value, blockGripper);
        Ok(Yumi(a.value, blockGripper, t.value, distanceThreshold, hasObject, high, Scale(-1.0, high)))
  }

  /** The first three components and the rest, as numpy's `[..., :3]` and `[..., 3:]` slice. */
  function Head3(a: seq<real>): (h: seq<real>)
    ensures h + Tail3(a) == a
    ensures |a| >= 3 ==> |h| == 3
  {
    if |a| >= 3 then a[..3] else a
  }

  function Tail3(a: seq<real>): (t: seq<real>)
    ensures |a| >= 3 ==> |t| == |a| - 3
    ensures |a| < 3 ==> t == []
  {
    if |a| >= 3 then a[3..] else []
  }

  lemma Head3Tail3(a: seq<real>, b: seq<real>)
    requires |a| == |b|
    ensures |Head3(a)| == |Head3(b)| && |Tail3(a)| == |Tail3(b)|
  {
  }

  /** `_is_success`: 1 exactly when the goal distance is strictly below the threshold. */
  function IsSuccess(y: Yumi, achieved: seq<real>, desired: seq<real>, m: Metric): (r: real)
    requires |achieved| == |desired|
    ensures r == 0.0 || r == 1.0
    ensures r == 1.0 <==> m.norm(Sub(achieved, desired)) < y.distanceThreshold
  {
    if m.norm(Sub(achieved, desired)) < y.distanceThreshold then 1.0 else 0.0
  }

  predicate LeftSucceeds(y: Yumi, achieved: seq<real>, desired: seq<real>, m: Metric)
    requires |achieved| == |desired|
  {
    Head3Tail3(achieved, desired);
    IsSuccess(y, Head3(achieved), Head3(desired), m) == 1.0
  }

  predicate RightSucceeds(y: Yumi, achieved: seq<real>, desired: seq<real>, m: Metric)
    requires |achieved| == |desired|
  {
    Head3Tail3(achieved, desired);
    IsSuccess(y, Tail3(achieved), Tail3(desired), m) == 1.0
  }

  /**
   * `compute_reward`: sparse rewards with an object are not implemented;
   * otherwise the sparse reward is the number of present arms that reach
   * their target minus the number of arms, and the dense reward is minus the
   * distance between the whole goals.
   */
  function ComputeReward(y: Yumi, achieved: seq<real>, desired: seq<real>, m: Metric): (r: Result<real>)
    requires |achieved| == |desired|
    ensures r.Err? <==> y.rewardType == Sparse && y.hasObject
    ensures r.Err? ==> r.error == NotImplementedError
    ensures y.rewardType == Sparse && r.Ok? && HasTwoArms(y.arm) ==> r.value in {-2.0, -1.0, 0.0}
    ensures y.rewardType == Sparse && r.Ok? && !HasTwoArms(y.arm) ==> r.value in {-1.0, 0.0}
    ensures y.rewardType == Sparse && r.Ok? ==>
      (r.value == 0.0 <==>
        (HasLeftArm(y.arm) ==> LeftSucceeds(y, achieved, desired, m)) && (HasRightArm(y.arm) ==> RightSucceeds(y, achieved, desired, m)))
    ensures y.rewardType == Sparse && r.Ok? ==>
      (r.value == -ArmCount(y.arm) <==>
        (HasLeftArm(y.arm) ==> !LeftSucceeds(y, achieved, desired, m)) && (HasRightArm(y.arm) ==> !RightSucceeds(y, achieved, desired, m)))
    ensures y.rewardType == Dense ==> r == Ok(-m.norm(Sub(achieved, desired)))
  {
    match y.rewardType
    case Sparse =>
      if y.hasObject then Err(NotImplementedError)
      else
        Head3Tail3(achieved, desired);
        var successL := (if HasLeftArm(y.arm) then 1.0 else 0.0) * IsSuccess(y, Head3(achieved), Head3(desired), m);
        var successR := (if HasRightArm(y.arm) then 1.0 else 0.0) * IsSuccess(y, Tail3(achieved), Tail3(desired), m);
        var success := successL + successR;
        if HasTwoArms(y.arm) then Ok(success - 2.0) else Ok(success - 1.0)
    case Dense =>
      Ok(-m.norm(Sub(achieved, desired)))
  }

  /** The dense reward is never positive and is zero when the goal is reached exactly. */
  lemma DenseRewardBounds(y: Yumi, achieved: seq<real>, desired: seq<real>, m: Metric)
    requires y.rewardType == Dense && |achieved| == |desired|
    requires Valid(m)
    ensures ComputeReward(y, achieved, desired, m).Ok?
    ensures ComputeReward(y, achieved, desired, m).value <= 0.0
    ensures achieved == desired ==> ComputeReward(y, achieved, desired, m).value == 0.0
  {
    if achieved == desired {
      var delta := Sub(achieved, desired);
      assert AllZero(delta);
      NormZero(m, delta);
    }
  }

  /** The action after clipping to the action space and scaling by the actuator limits. */
  function ScaledAction(y: Yumi, a: seq<real>, low: seq<real>, high: seq<real>): (s: seq<real>)
    requires |a| == |y.ctrlHigh| && |low| == |a| && |high| == |a|
    ensures |s| == |a|
    ensures forall i :: 0 <= i < |s| ==> s[i] == Clip(a[i], low[i], high[i]) * y.ctrlHigh[i]
  {
    seq(|a|, i requires 0 <= i < |a| => Clip(a[i], low[i], high[i]) * y.ctrlHigh[i])
  }

  /**
   * `_set_action`: the scaled action rebuilt into 9 entries per arm. With a
   * free gripper each arm's gripper command is duplicated for its two
   * fingers; with a blocked gripper both fingers get 0.02.
   */
  function SetAction(y: Yumi, a: seq<real>, low: seq<real>, high: seq<real>): (r: seq<real>)
    requires y.ctrlHigh == CtrlHigh(y.arm, y.blockGripper)
    requires |a| == |y.ctrlHigh| && |low| == |a| && |high| == |a|
    ensures |r| == ArmCommandLength * (if HasTwoArms(y.arm) then 2 else 1)
    ensures r[..7] == ScaledAction(y, a, low, high)[..7]
    ensures HasTwoArms(y.arm) ==>
      var stride := if y.blockGripper then 7 else 8;
      r[9..16] == ScaledAction(y, a, low, high)[stride..stride + 7]
    ensures !y.blockGripper ==> r[7] == r[8] == ScaledAction(y, a, low, high)[7]
    ensures !y.blockGripper && HasTwoArms(y.arm) ==> r[16] == r[17] == ScaledAction(y, a, low, high)[15]
    ensures y.blockGripper ==> r[7] == r[8] == GripperJointMax
    ensures y.blockGripper && HasTwoArms(y.arm) ==> r[16] == r[17] == GripperJointMax
  {
    var s := ScaledAction(y, a, low, high);
    if !y.blockGripper then FreeGripperCommand(s, HasTwoArms(y.arm))
    else BlockedGripperCommand(s, HasTwoArms(y.arm))
  }

  /** Free grippers: each arm's 8 entries with its gripper entry repeated for the second finger. */
  function FreeGripperCommand(s: seq<real>, twoArms: bool): (r: seq<real>)
    requires |s| == (if twoArms then 16 else 8)
    ensures |r| == ArmCommandLength * (if twoArms then 2 else 1)
    ensures r[..7] == s[..7] && r[7] == r[8] == s[7]
    ensures twoArms ==> r[9..16] == s[8..15] && r[16] == r[17] == s[15]
  {
    var arm1, arm2 := s[..8], s[8..];
    var gripper1 := arm1[7..];
    var gripper2 := if twoArms then arm2[7..] else [];
    var r := arm1 + gripper1 + arm2 + gripper2;
    assert forall j :: 0 <= j < 7 ==> r[j] == s[j];
    assert twoArms ==> forall j :: 9 <= j < 16 ==> r[j] == s[j - 1];
    r
  }

  /** Blocked grippers: each arm's 7 entries followed by 0.02 for both fingers. */
  function BlockedGripperCommand(s: seq<real>, twoArms: bool): (r: seq<real>)
    requires |s| == (if twoArms then 14 else 7)
    ensures |r| == ArmCommandLength * (if twoArms then 2 else 1)
    ensures r[..7] == s[..7] && r[7] == r[8] == GripperJointMax
    ensures twoArms ==> r[9..16] == s[7..14] && r[16] == r[17] == GripperJointMax
  {
    var arm1, arm2 := s[..7], s[7..];
    var g := GripperJointMax;
    var r := arm1 + [g, g];
    var r := if twoArms then r + arm2 + [g, g] else r;
    assert forall j :: 0 <= j < 7 ==> r[j] == s[j];
    assert twoArms ==> forall j :: 9 <= j < 16 ==> r[j] == s[j - 2];
    r
  }

  lemma MulWithin(t: real, c: real)
    requires -1.0 <= t <= 1.0 && c >= 0.0
    ensures -c <= t * c <= c
  {
    MulNonNeg(1.0 - t, c);
    MulNonNeg(1.0 + t, c);
  }

  /** With the action space `[-1, 1]`, each scaled component lies within its actuator limit. */
  lemma ScaledActionWithin(y: Yumi, a: seq<real>, low: seq<real>, high: seq<real>)
    requires forall i :: 0 <= i < |y.ctrlHigh| ==> y.ctrlHigh[i] >= 0.0
    requires |a| == |y.ctrlHigh| && |low| == |a| && |high| == |a|
    requires forall i :: 0 <= i < |a| ==> low[i] == -1.0 && high[i] == 1.0
    ensures forall i :: 0 <= i < |a| ==> -y.ctrlHigh[i] <= ScaledAction(y, a, low, high)[i] <= y.ctrlHigh[i]
  {
    forall i | 0 <= i < |a| {
      ScaledComponentWithin(y, a, low, high, i);
    }
  }

  lemma ScaledComponentWithin(y: Yumi, a: seq<real>, low: seq<real>, high: seq<real>, i: nat)
    requires |a| == |y.ctrlHigh| && |low| == |a| && |high| == |a|
    requires i < |a| && y.ctrlHigh[i] >= 0.0 && low[i] == -1.0 && high[i] == 1.0
    ensures -y.ctrlHigh[i] <= ScaledAction(y, a, low, high)[i] <= y.ctrlHigh[i]
  {
    var t := Clip(a[i], low[i], high[i]);
    var c := y.ctrlHigh[i];
    assert ScaledAction(y, a, low, high)[i] == t * c;
    MulWithin(t, c);
  }

  /** The second arm's limits sit at the stride offset of the limit vector. */
  lemma SecondArmLimits(arm: Arm, blockGripper: bool)
    requires arm == Both
    ensures var h := CtrlHigh(arm, blockGripper);
            var stride := if blockGripper then 7 else 8;
            h[stride..stride + 7] == ArmCtrlHigh
  {
    var h := CtrlHigh(arm, blockGripper);
    var stride := if blockGripper then 7 else 8;
    assert |h| == 2 * stride;
    assert h[stride..stride + 7] == h[|h| / 2..][..7];
  }

  /**
   * With the action space `[-1, 1]`, every joint command stays within its
   * actuator limit and every finger command within the gripper's range.
   */
  lemma SetActionWithinLimits(y: Yumi, a: seq<real>, low: seq<real>, high: seq<real>, j: nat)
    requires y.ctrlHigh == CtrlHigh(y.arm, y.blockGripper)
    requires |a| == |y.ctrlHigh| && |low| == |a| && |high| == |a|
    requires forall i :: 0 <= i < |a| ==> low[i] == -1.0 && high[i] == 1.0
    requires j < 7
    ensures -ArmCtrlHigh[j] <= SetAction(y, a, low, high)[j] <= ArmCtrlHigh[j]
    ensures HasTwoArms(y.arm) ==> -ArmCtrlHigh[j] <= SetAction(y, a, low, high)[9 + j] <= ArmCtrlHigh[j]
    ensures -GripperJointMax <= SetAction(y, a, low, high)[7] <= GripperJointMax
    ensures -GripperJointMax <= SetAction(y, a, low, high)[8] <= GripperJointMax
  {
    FirstArmWithinLimits(y, a, low, high, j);
    if HasTwoArms(y.arm) {
      SecondArmWithinLimits(y, a, low, high, j);
    }
    FingersWithinLimits(y, a, low, high);
  }

  lemma FirstArmWithinLimits(y: Yumi, a: seq<real>, low: seq<real>, high: seq<real>, j: nat)
    requires y.ctrlHigh == CtrlHigh(y.arm, y.blockGripper)
    requires |a| == |y.ctrlHigh| && |low| == |a| && |high| == |a|
    requires forall i :: 0 <= i < |a| ==> low[i] == -1.0 && high[i] == 1.0
    requires j < 7
    ensures -ArmCtrlHigh[j] <= SetAction(y, a, low, high)[j] <= ArmCtrlHigh[j]
  {
    var s := ScaledAction(y, a, low, high);
    var r := SetAction(y, a, low, high);
    var h := y.ctrlHigh;
    ScaledComponentWithin(y, a, low, high, j);
    assert r[j] == r[..7][j] == s[..7][j] == s[j];
    assert h[j] == h[..7][j] == ArmCtrlHigh[j];
  }

  lemma SecondArmWithinLimits(y: Yumi, a: seq<real>, low: seq<real>, high: seq<real>, j: nat)
    requires y.ctrlHigh == CtrlHigh(y.arm, y.blockGripper)
    requires |a| == |y.ctrlHigh| && |low| == |a| && |high| == |a|
    requires forall i :: 0 <= i < |a| ==> low[i] == -1.0 && high[i] == 1.0
    requires j < 7 && HasTwoArms(y.arm)
    ensures -ArmCtrlHigh[j] <= SetAction(y, a, low, high)[9 + j] <= ArmCtrlHigh[j]
  {
    var k := (if y.blockGripper then 7 else 8) + j;
    SecondArmCommand(y, a, low, high, j);
    SecondArmLimit(y.arm, y.blockGripper, j);
    ScaledComponentWithin(y, a, low, high, k);
  }

  /** Joint `j` of the second arm's command is the scaled action at the second arm's offset. */
  lemma SecondArmCommand(y: Yumi, a: seq<real>, low: seq<real>, high: seq<real>, j: nat)
    requires y.ctrlHigh == CtrlHigh(y.arm, y.blockGripper)
    requires |a| == |y.ctrlHigh| && |low| == |a| && |high| == |a|
    requires j < 7 && HasTwoArms(y.arm)
    ensures SetAction(y, a, low, high)[9 + j] == ScaledAction(y, a, low, high)[(if y.blockGripper then 7 else 8) + j]
  {
    var stride := if y.blockGripper then 7 else 8;
    var r, s := SetAction(y, a, low, high), ScaledAction(y, a, low, high);
    assert r[9 + j] == r[9..16][j];
    assert s[stride..stride + 7][j] == s[stride + j];
  }

  lemma SecondArmLimit(arm: Arm, blockGripper: bool, j: nat)
    requires arm == Both && j < 7
    ensures CtrlHigh(arm, blockGripper)[(if blockGripper then 7 else 8) + j] == ArmCtrlHigh[j]
  {
    var h := CtrlHigh(arm, blockGripper);
    var stride := if blockGripper then 7 else 8;
    SecondArmLimits(arm, blockGripper);
    assert h[stride..stride + 7][j] == h[stride + j];
  }

  lemma FingersWithinLimits(y: Yumi, a: seq<real>, low: seq<real>, high: seq<real>)
    requires y.ctrlHigh == CtrlHigh(y.arm, y.blockGripper)
    requires |a| == |y.ctrlHigh| && |low| == |a| && |high| == |a|
    requires forall i :: 0 <= i < |a| ==> low[i] == -1.0 && high[i] == 1.0
    ensures -GripperJointMax <= SetAction(y, a, low, high)[7] <= GripperJointMax
    ensures -GripperJointMax <= SetAction(y, a, low, high)[8] <= GripperJointMax
  {
    if !y.blockGripper {
      ScaledComponentWithin(y, a, low, high, 7);
    }
  }

  /**
   * `_sample_safe_qpos`: each joint range shrunk by pi/6 at both ends, then
   * sampled uniformly.
   */
  function SampleSafeQpos(lows: seq<real>, highs: seq<real>, u: seq<real>): (q: seq<real>)
    requires |highs| == |lows| && |u| == |lows|
    ensures |q| == |lows|
    ensures UnitDraws(u) ==> forall i :: 0 <= i < |q| && highs[i] - lows[i] >= 2.0 * Margin ==>
      lows[i] + Margin <= q[i] <= highs[i] - Margin
  {
    UniformVec(seq(|lows|, i requires 0 <= i < |lows| => lows[i] + Margin),
               seq(|highs|, i requires 0 <= i < |highs| => highs[i] - Margin), u)
  }

  // ---------------------------------------------------------------------
  // Reset

  /** Bounds that `_reset_sim` draws each arm's seven joint positions from. */
  const ResetLow: seq<real> := [-1.0, -0.3, -0.4, -0.4, -0.3, -0.3, -0.3]
  const ResetHigh: seq<real> := [0.4, 0.6, 0.4, 0.4, 0.3, 0.3, 0.3]

  /** Joint positions and velocities, as `_set_sim_state` takes them. */
  datatype State = State(qpos: seq<real>, qvel: seq<real>)

  /** The joint addresses `_reset_sim` writes; `None` where the arm, or its free gripper, is absent. */
  datatype ResetJoints = ResetJoints(armL: Option<seq<nat>>, gripperL: Option<seq<nat>>,
                                     armR: Option<seq<nat>>, gripperR: Option<seq<nat>>)

  predicate IdxFit(idx: Option<seq<nat>>, s: State)
  {
    idx.Some? ==> forall i :: 0 <= i < |idx.value| ==> idx.value[i] < |s.qpos| && idx.value[i] < |s.qvel|
  }

  predicate ResetJointsFit(j: ResetJoints, s: State)
  {
    && (j.armL.Some? ==> |j.armL.value| == 7)
    && (j.armR.Some? ==> |j.armR.value| == 7)
    && IdxFit(j.armL, s) && IdxFit(j.gripperL, s) && IdxFit(j.armR, s) && IdxFit(j.gripperR, s)
  }

  /** Joint `a` is one of the addresses of a group. */
  predicate InGroup(a: nat, idx: Option<seq<nat>>)
  {
    idx.Some? && a in idx.value
  }

  lemma {:induction false} WriteJointsConstant(qpos: seq<real>, idx: seq<nat>, q: seq<real>, c: real, a: nat)
    requires |idx| == |q|
    requires forall i :: 0 <= i < |idx| ==> idx[i] < |qpos|
    requires forall i :: 0 <= i < |q| ==> q[i] == c
    requires a in idx
    ensures WriteJoints(qpos, idx, q)[a] == c
    decreases |idx|
  {
    var next := qpos[idx[0] := q[0]];
    if a in idx[1..] {
      WriteJointsConstant(next, idx[1..], q[1..], c, a);
    } else {
      assert a == idx[0];
      assert next[a] == c;
    }
  }

  /** An address written only once more from entry `i` on holds `q[i]` afterwards. */
  lemma {:induction false} WriteJointsLast(qpos: seq<real>, idx: seq<nat>, q: seq<real>, i: nat)
    requires |idx| == |q|
    requires forall k :: 0 <= k < |idx| ==> idx[k] < |qpos|
    requires i < |idx| && idx[i] !in idx[i + 1..]
    ensures WriteJoints(qpos, idx, q)[idx[i]] == q[i]
    decreases |idx|
  {
    var next := qpos[idx[0] := q[0]];
    if i > 0 {
      assert idx[1..][i - 1] == idx[i];
      assert idx[1..][i..] == idx[i + 1..];
      WriteJointsLast(next, idx[1..], q[1..], i - 1);
    }
  }

  /**
   * One group of joints written: positions `pos` and velocities zero. The
   * group's velocities are then zero and its other joints are untouched.
   */
  function WriteGroup(s: State, idx: Option<seq<nat>>, pos: seq<real>): (r: State)
    requires IdxFit(idx, s) && (idx.Some? ==> |pos| == |idx.value|)
    ensures |r.qpos| == |s.qpos| && |r.qvel| == |s.qvel|
    ensures forall a :: 0 <= a < |s.qvel| && InGroup(a, idx) ==> r.qvel[a] == 0.0
    ensures forall a :: 0 <= a < |s.qvel| && !InGroup(a, idx) ==> r.qvel[a] == s.qvel[a]
    ensures forall a :: 0 <= a < |s.qpos| && !InGroup(a, idx) ==> r.qpos[a] == s.qpos[a]
  {
    if idx.None? then s
    else
      var zeros := Zeros(|idx.value|);
      forall a | 0 <= a < |s.qvel| && InGroup(a, idx)
        ensures WriteJoints(s.qvel, idx.value, zeros)[a] == 0.0
      {
        WriteJointsConstant(s.qvel, idx.value, zeros, 0.0, a);
      }
      State(WriteJoints(s.qpos, idx.value, pos), WriteJoints(s.qvel, idx.value, zeros))
  }

  /**
   * The state `_reset_sim` builds: the left arm's joints drawn from the
   * reset bounds, the left fingers at zero, then the same for the right
   * arm; every written joint's velocity zero.
   */
  function Randomized(s: State, j: ResetJoints, uL: seq<real>, uR: seq<real>): (r: State)
    requires ResetJointsFit(j, s) && |uL| == 7 && |uR| == 7
    ensures |r.qpos| == |s.qpos| && |r.qvel| == |s.qvel|
  {
    var s1 := WriteGroup(s, j.armL, UniformVec(ResetLow, ResetHigh, uL));
    var s2 := WriteGroup(s1, j.gripperL, if j.gripperL.Some? then Zeros(|j.gripperL.value|) else []);
    var s3 := WriteGroup(s2, j.armR, UniformVec(ResetLow, ResetHigh, uR));
    WriteGroup(s3, j.gripperR, if j.gripperR.Some? then Zeros(|j.gripperR.value|) else [])
  }

  /**
   * After a reset every arm and finger joint is at rest, the right fingers
   * (written last) are closed, and joints outside the groups keep their state.
   */
  lemma RandomizedAtRest(s: State, j: ResetJoints, uL: seq<real>, uR: seq<real>)
    requires ResetJointsFit(j, s) && |uL| == 7 && |uR| == 7
    ensures var r := Randomized(s, j, uL, uR);
      && (forall a :: 0 <= a < |s.qvel| && (InGroup(a, j.armL) || InGroup(a, j.gripperL) || InGroup(a, j.armR) || InGroup(a, j.gripperR))
            ==> r.qvel[a] == 0.0)
      && (forall a :: 0 <= a < |s.qpos| && InGroup(a, j.gripperR) ==> r.qpos[a] == 0.0)
      && (forall a :: 0 <= a < |s.qpos| && !(InGroup(a, j.armL) || InGroup(a, j.gripperL) || InGroup(a, j.armR) || InGroup(a, j.gripperR))
            ==> r.qpos[a] == s.qpos[a])
      && (forall a :: 0 <= a < |s.qvel| && !(InGroup(a, j.armL) || InGroup(a, j.gripperL) || InGroup(a, j.armR) || InGroup(a, j.gripperR))
            ==> r.qvel[a] == s.qvel[a])
  {
    var s1 := WriteGroup(s, j.armL, UniformVec(ResetLow, ResetHigh, uL));
    var s2 := WriteGroup(s1, j.gripperL, if j.gripperL.Some? then Zeros(|j.gripperL.value|) else []);
    var s3 := WriteGroup(s2, j.armR, UniformVec(ResetLow, ResetHigh, uR));
    forall a | 0 <= a < |s.qpos| && InGroup(a, j.gripperR)
      ensures Randomized(s, j, uL, uR).qpos[a] == 0.0
    {
      WriteJointsConstant(s3.qpos, j.gripperR.value, Zeros(|j.gripperR.value|), 0.0, a);
    }
  }

  /**
   * A right-arm joint that appears once in its group and not among the
   * right fingers holds its draw, inside the reset bounds.
   */
  lemma RandomizedRightArmWithin(s: State, j: ResetJoints, uL: seq<real>, uR: seq<real>, i: nat)
    requires ResetJointsFit(j, s) && |uL| == 7 && |uR| == 7 && UnitDraws(uR)
    requires j.armR.Some? && i < 7
    requires j.armR.value[i] !in j.armR.value[i + 1..] && !InGroup(j.armR.value[i], j.gripperR)
    ensures Randomized(s, j, uL, uR).qpos[j.armR.value[i]] == Uniform(ResetLow[i], ResetHigh[i], uR[i])
    ensures ResetLow[i] <= Randomized(s, j, uL, uR).qpos[j.armR.value[i]] <= ResetHigh[i]
  {
    var s1 := WriteGroup(s, j.armL, UniformVec(ResetLow, ResetHigh, uL));
    var s2 := WriteGroup(s1, j.gripperL, if j.gripperL.Some? then Zeros(|j.gripperL.value|) else []);
    var pos := UniformVec(ResetLow, ResetHigh, uR);
    WriteJointsLast(s2.qpos, j.armR.value, pos, i);
    assert ResetLow[i] <= ResetHigh[i];
  }

  /** The initial joint state that `_reset_sim` starts from, kept by the environment. */
  class InitialState {
    var qpos: seq<real>
    var qvel: seq<real>

    constructor (qpos0: seq<real>, qvel0: seq<real>)
      ensures qpos == qpos0 && qvel == qvel0
    {
      qpos := qpos0;
      qvel := qvel0;
    }

    /**
     * `_reset_sim` as written: the state handed to the simulator is a copy
     * taken before the draws, while the randomized joints go into the kept
     * initial state; each reset therefore shows the previous reset's draws.
     */
    method ResetSimAsWritten(j: ResetJoints, uL: seq<real>, uR: seq<real>) returns (state: State)
      requires ResetJointsFit(j, State(qpos, qvel)) && |uL| == 7 && |uR| == 7
      modifies this
      ensures state == State(old(qpos), old(qvel))
      ensures State(qpos, qvel) == Randomized(State(old(qpos), old(qvel)), j, uL, uR)
    {
      state := State(qpos, qvel);
      var s := State(qpos, qvel);
      s := WriteGroup(s, j.armL, UniformVec(ResetLow, ResetHigh, uL));
      s := WriteGroup(s, j.gripperL, if j.gripperL.Some? then Zeros(|j.gripperL.value|) else []);
      s := WriteGroup(s, j.armR, UniformVec(ResetLow, ResetHigh, uR));
      s := WriteGroup(s, j.gripperR, if j.gripperR.Some? then Zeros(|j.gripperR.value|) else []);
      qpos, qvel := s.qpos, s.qvel;
    }

    /** `_reset_sim` corrected: the randomized copy goes to the simulator and the kept state is left alone. */
    method ResetSim(j: ResetJoints, uL: seq<real>, uR: seq<real>) returns (state: State)
      requires ResetJointsFit(j, State(qpos, qvel)) && |uL| == 7 && |uR| == 7
      ensures state == Randomized(State(qpos, qvel), j, uL, uR)
    {
      var s := State(qpos, qvel);
      s := WriteGroup(s, j.armL, UniformVec(ResetLow, ResetHigh, uL));
      s := WriteGroup(s, j.gripperL, if j.gripperL.Some? then Zeros(|j.gripperL.value|) else []);
      s := WriteGroup(s, j.armR, UniformVec(ResetLow, ResetHigh, uR));
      s := WriteGroup(s, j.gripperR, if j.gripperR.Some? then Zeros(|j.gripperR.value|) else []);
      state := s;
    }
  }

  /**
   * A left arm at joints 0-6, all zero, with draws of one half: the state
   * the reset should produce has joint 0 at -0.3, but the state the
   * code as written hands to the simulator still has it at 0.
   */
  lemma ResetShowsStaleState()
    ensures var s := State(Zeros(7), Zeros(7));
            var j := ResetJoints(Some([0, 1, 2, 3, 4, 5, 6]), None, None, None);
            var u := [0.5, 0.5, 0.5, 0.5, 0.5, 0.5, 0.5];
            ResetJointsFit(j, s) && Randomized(s, j, u, u).qpos[0] == -0.3 && s.qpos[0] == 0.0
  {
    var s := State(Zeros(7), Zeros(7));
    var idx: seq<nat> := [0, 1, 2, 3, 4, 5, 6];
    var j := ResetJoints(Some(idx), None, None, None);
    var u := [0.5, 0.5, 0.5, 0.5, 0.5, 0.5, 0.5];
    var pos := UniformVec(ResetLow, ResetHigh, u);
    assert pos[0] == -0.3;
    var w := WriteJoints(s.qpos, idx, pos);
    WriteJointsLast(s.qpos, idx, pos, 0);
  }

  // ---------------------------------------------------------------------
  // Goal sampling

  /** The simulator's joint positions, the only simulator state goal sampling touches. */
  class Sim {
    var qpos: seq<real>

    constructor (qpos0: seq<real>)
      ensures qpos == qpos0
    {
      qpos := qpos0;
    }
  }

  /** An arm's joint position addresses and joint ranges. */
  datatype ArmJoints = ArmJoints(idx: seq<nat>, lows: seq<real>, highs: seq<real>)

  predicate JointsFit(arm: ArmJoints, qpos: seq<real>)
  {
    && |arm.lows| == |arm.idx| && |arm.highs| == |arm.idx|
    && forall i :: 0 <= i < |arm.idx| ==> arm.idx[i] < |qpos|
  }

  /** `qpos[idx] = q`: with repeated addresses the last write wins. */
  function WriteJoints(qpos: seq<real>, idx: seq<nat>, q: seq<real>): (r: seq<real>)
    requires |idx| == |q|
    requires forall i :: 0 <= i < |idx| ==> idx[i] < |qpos|
    ensures |r| == |qpos|
    ensures forall a :: 0 <= a < |qpos| && a !in idx ==> r[a] == qpos[a]
    decreases |idx|
  {
    if idx == [] then qpos else WriteJoints(qpos[idx[0] := q[0]], idx[1..], q[1..])
  }

  predicate DrawsFit(arm: ArmJoints, draws: seq<seq<real>>)
  {
    forall k :: 0 <= k < |draws| ==> |draws[k]| == |arm.idx|
  }

  /** Joint positions after the first `n` sampling attempts for one arm. */
  function Attempts(qpos: seq<real>, arm: ArmJoints, draws: seq<seq<real>>, n: nat): (r: seq<real>)
    requires JointsFit(arm, qpos) && DrawsFit(arm, draws) && n <= |draws|
    ensures |r| == |qpos|
  {
    if n == 0 then qpos
    else WriteJoints(Attempts(qpos, arm, draws, n - 1), arm.idx, SampleSafeQpos(arm.lows, arm.highs, draws[n - 1]))
  }

  ghost predicate FkFits(fk: seq<real> -> seq<real>)
  {
    forall s :: |fk(s)| == 3
  }

  /** The gripper position reached by attempt `k`, and whether it lies in the target box. */
  function Candidate(qpos: seq<real>, arm: ArmJoints, draws: seq<seq<real>>, fk: seq<real> -> seq<real>, k: nat): (pos: seq<real>)
    requires JointsFit(arm, qpos) && DrawsFit(arm, draws) && k < |draws|
    ensures FkFits(fk) ==> |pos| == 3
  {
    fk(Attempts(qpos, arm, draws, k + 1))
  }

  ghost predicate CandidateOk(qpos: seq<real>, arm: ArmJoints, draws: seq<seq<real>>, fk: seq<real> -> seq<real>,
                        k: nat, low: seq<real>, high: seq<real>)
    requires JointsFit(arm, qpos) && DrawsFit(arm, draws) && k < |draws| && FkFits(fk)
    requires |low| == 3 && |high| == 3
  {
    CheckRange(Candidate(qpos, arm, draws, fk, k), low, high, true)
  }

  /**
   * The first attempt from `from` on whose gripper position lies in the box
   * [low, high], or `None` when every remaining attempt is rejected.
   */
  ghost function FirstAccepted(qpos: seq<real>, arm: ArmJoints, draws: seq<seq<real>>, fk: seq<real> -> seq<real>,
                               low: seq<real>, high: seq<real>, from: nat): (k: Option<nat>)
    requires JointsFit(arm, qpos) && DrawsFit(arm, draws) && FkFits(fk)
    requires |low| == 3 && |high| == 3 && from <= |draws|
    ensures k.Some? ==>
      && from <= k.value < |draws|
      && CandidateOk(qpos, arm, draws, fk, k.value, low, high)
      && forall j :: from <= j < k.value ==> !CandidateOk(qpos, arm, draws, fk, j, low, high)
    ensures k.None? ==> forall j :: from <= j < |draws| ==> !CandidateOk(qpos, arm, draws, fk, j, low, high)
    decreases |draws| - from
  {
    if from == |draws| then None
    else if CandidateOk(qpos, arm, draws, fk, from, low, high) then Some(from)
    else FirstAccepted(qpos, arm, draws, fk, low, high, from + 1)
  }

  /** One step of the search: attempt `k` is the answer when accepted, otherwise the search goes on from `k + 1`. */
  lemma FirstAcceptedStep(qpos: seq<real>, arm: ArmJoints, draws: seq<seq<real>>, fk: seq<real> -> seq<real>,
                          low: seq<real>, high: seq<real>, k: nat)
    requires JointsFit(arm, qpos) && DrawsFit(arm, draws) && FkFits(fk)
    requires |low| == 3 && |high| == 3 && k < |draws|
    ensures CandidateOk(qpos, arm, draws, fk, k, low, high) ==> FirstAccepted(qpos, arm, draws, fk, low, high, k) == Some(k)
    ensures !CandidateOk(qpos, arm, draws, fk, k, low, high) ==>
      FirstAccepted(qpos, arm, draws, fk, low, high, k) == FirstAccepted(qpos, arm, draws, fk, low, high, k + 1)
  {
  }

  /** The joint positions one arm's sampling loop leaves behind: after the accepted attempt, or after all of them. */
  ghost function AfterSampling(qpos: seq<real>, arm: ArmJoints, draws: seq<seq<real>>, fk: seq<real> -> seq<real>,
                               low: seq<real>, high: seq<real>): (r: seq<real>)
    requires JointsFit(arm, qpos) && DrawsFit(arm, draws) && FkFits(fk)
    requires |low| == 3 && |high| == 3
    ensures |r| == |qpos|
  {
    match FirstAccepted(qpos, arm, draws, fk, low, high, 0)
    case Some(k) => Attempts(qpos, arm, draws, k + 1)
    case None => Attempts(qpos, arm, draws, |draws|)
  }

  /** The gripper position one arm's sampling loop accepts, if any: it lies in the box. */
  ghost function SampledHalf(qpos: seq<real>, arm: ArmJoints, draws: seq<seq<real>>, fk: seq<real> -> seq<real>,
                             low: seq<real>, high: seq<real>): (h: Option<seq<real>>)
    requires JointsFit(arm, qpos) && DrawsFit(arm, draws) && FkFits(fk)
    requires |low| == 3 && |high| == 3
    ensures h.Some? ==> |h.value| == 3 && CheckRange(h.value, low, high, true)
    ensures h.Some? <==> FirstAccepted(qpos, arm, draws, fk, low, high, 0).Some?
  {
    match FirstAccepted(qpos, arm, draws, fk, low, high, 0)
    case Some(k) => Some(Candidate(qpos, arm, draws, fk, k))
    case None => None
  }

  /** `_fk_position` without restoring the state: write the arm's joints, read the gripper position. */
  method FkPosition(sim: Sim, arm: ArmJoints, q: seq<real>, fk: seq<real> -> seq<real>) returns (pos: seq<real>)
    requires JointsFit(arm, sim.qpos) && |q| == |arm.idx|
    modifies sim
    ensures sim.qpos == WriteJoints(old(sim.qpos), arm.idx, q)
    ensures pos == fk(sim.qpos)
  {
    sim.qpos := WriteJoints(sim.qpos, arm.idx, q);
    pos := fk(sim.qpos);
  }

  /**
   * One `while True` loop of `_sample_goal`: sample safe joint positions,
   * run forward kinematics, accept the first gripper position inside the
   * box. `draws` are the unit draws of successive attempts; `None` means
   * all of them were rejected.
   */
  method SampleArmTarget(sim: Sim, arm: ArmJoints, draws: seq<seq<real>>, fk: seq<real> -> seq<real>,
                         low: seq<real>, high: seq<real>) returns (accepted: Option<nat>, pos: seq<real>)
    requires JointsFit(arm, sim.qpos) && DrawsFit(arm, draws) && FkFits(fk)
    requires |low| == 3 && |high| == 3
    modifies sim
    ensures |sim.qpos| == |old(sim.qpos)|
    ensures accepted.Some? ==>
      && accepted.value < |draws|
      && pos == Candidate(old(sim.qpos), arm, draws, fk, accepted.value)
      && CheckRange(pos, low, high, true)
      && forall j :: 0 <= j < accepted.value ==> !CandidateOk(old(sim.qpos), arm, draws, fk, j, low, high)
    ensures accepted.None? ==> forall j :: 0 <= j < |draws| ==> !CandidateOk(old(sim.qpos), arm, draws, fk, j, low, high)
    ensures accepted == FirstAccepted(old(sim.qpos), arm, draws, fk, low, high, 0)
    ensures sim.qpos == AfterSampling(old(sim.qpos), arm, draws, fk, low, high)
  {
    ghost var start := sim.qpos;
    var k := 0;
    pos := [];
    while k < |draws|
      invariant 0 <= k <= |draws|
      invariant sim.qpos == Attempts(start, arm, draws, k)
      invariant FirstAccepted(start, arm, draws, fk, low, high, 0) == FirstAccepted(start, arm, draws, fk, low, high, k)
    {
      pos := Attempt(sim, start, arm, draws, fk, k);
      FirstAcceptedStep(start, arm, draws, fk, low, high, k);
      if CheckRange(pos, low, high, true) {
        SamplingAccepts(start, arm, draws, fk, low, high, k);
        return Some(k), pos;
      }
      k := k + 1;
    }
    SamplingExhausted(start, arm, draws, fk, low, high);
    return None, pos;
  }

  /** The search that reaches an accepted attempt `k` answers `k` and stops after attempt `k`. */
  lemma SamplingAccepts(qpos: seq<real>, arm: ArmJoints, draws: seq<seq<real>>, fk: seq<real> -> seq<real>,
                        low: seq<real>, high: seq<real>, k: nat)
    requires JointsFit(arm, qpos) && DrawsFit(arm, draws) && FkFits(fk)
    requires |low| == 3 && |high| == 3 && k < |draws|
    requires CheckRange(Candidate(qpos, arm, draws, fk, k), low, high, true)
    requires FirstAccepted(qpos, arm, draws, fk, low, high, 0) == FirstAccepted(qpos, arm, draws, fk, low, high, k)
    ensures FirstAccepted(qpos, arm, draws, fk, low, high, 0) == Some(k)
    ensures AfterSampling(qpos, arm, draws, fk, low, high) == Attempts(qpos, arm, draws, k + 1)
  {
    FirstAcceptedStep(qpos, arm, draws, fk, low, high, k);
  }

  /** The search that runs out of attempts answers `None` and stops after the last one. */
  lemma SamplingExhausted(qpos: seq<real>, arm: ArmJoints, draws: seq<seq<real>>, fk: seq<real> -> seq<real>,
                          low: seq<real>, high: seq<real>)
    requires JointsFit(arm, qpos) && DrawsFit(arm, draws) && FkFits(fk)
    requires |low| == 3 && |high| == 3
    requires FirstAccepted(qpos, arm, draws, fk, low, high, 0) == FirstAccepted(qpos, arm, draws, fk, low, high, |draws|)
    ensures FirstAccepted(qpos, arm, draws, fk, low, high, 0) == None
    ensures AfterSampling(qpos, arm, draws, fk, low, high) == Attempts(qpos, arm, draws, |draws|)
  {
  }

  /** Attempt `k`: sample safe joint positions from its draws and read the gripper position. */
  method Attempt(sim: Sim, ghost start: seq<real>, arm: ArmJoints, draws: seq<seq<real>>, fk: seq<real> -> seq<real>, k: nat)
    returns (pos: seq<real>)
    requires JointsFit(arm, start) && DrawsFit(arm, draws) && k < |draws|
    requires sim.qpos == Attempts(start, arm, draws, k)
    modifies sim
    ensures sim.qpos == Attempts(start, arm, draws, k + 1)
    ensures pos == Candidate(start, arm, draws, fk, k)
  {
    var q := SampleSafeQpos(arm.lows, arm.highs, draws[k]);
    pos := FkPosition(sim, arm, q, fk);
  }

  /** The loop for one arm, writing the accepted position into `goal[offset..offset + 3]`. */
  method FillArmTarget(sim: Sim, arm: ArmJoints, draws: seq<seq<real>>, fk: seq<real> -> seq<real>,
                       low: seq<real>, high: seq<real>, goal: array<real>, offset: nat) returns (accepted: Option<nat>)
    requires JointsFit(arm, sim.qpos) && DrawsFit(arm, draws) && FkFits(fk)
    requires |low| == 3 && |high| == 3
    requires goal.Length == 6 && (offset == 0 || offset == 3)
    modifies sim, goal
    ensures |sim.qpos| == |old(sim.qpos)|
    ensures offset == 0 ==> goal[3..] == old(goal[3..])
    ensures offset == 3 ==> goal[..3] == old(goal[..3])
    ensures accepted.Some? ==>
      && accepted.value < |draws|
      && goal[offset..offset + 3] == Candidate(old(sim.qpos), arm, draws, fk, accepted.value)
      && CheckRange(goal[offset..offset + 3], low, high, true)
      && forall j :: 0 <= j < accepted.value ==> !CandidateOk(old(sim.qpos), arm, draws, fk, j, low, high)
    ensures accepted.None? ==> forall j :: 0 <= j < |draws| ==> !CandidateOk(old(sim.qpos), arm, draws, fk, j, low, high)
    ensures accepted == FirstAccepted(old(sim.qpos), arm, draws, fk, low, high, 0)
    ensures sim.qpos == AfterSampling(old(sim.qpos), arm, draws, fk, low, high)
    ensures accepted.Some? ==> goal[offset..offset + 3] == SampledHalf(old(sim.qpos), arm, draws, fk, low, high).value
    ensures accepted.Some? ==>
      goal[..] == old(goal[..])[..offset] + SampledHalf(old(sim.qpos), arm, draws, fk, low, high).value + old(goal[..])[offset + 3..]
    ensures accepted.None? ==> goal[..] == old(goal[..])
  {
    var pos;
    accepted, pos := SampleArmTarget(sim, arm, draws, fk, low, high);
    if accepted.Some? {
      WriteHalf(goal, offset, pos);
    }
  }

  /** `goal[offset:offset + 3] = v`: one arm's half of the goal, the other half kept. */
  method WriteHalf(goal: array<real>, offset: nat, v: seq<real>)
    requires goal.Length == 6 && (offset == 0 || offset == 3) && |v| == 3
    modifies goal
    ensures goal[..] == old(goal[..])[..offset] + v + old(goal[..])[offset + 3..]
    ensures goal[offset..offset + 3] == v
    ensures offset == 0 ==> goal[3..] == old(goal[3..])
    ensures offset == 3 ==> goal[..3] == old(goal[..3])
  {
    goal[offset], goal[offset + 1], goal[offset + 2] := v[0], v[1], v[2];
    assert goal[..] == old(goal[..])[..offset] + v + old(goal[..])[offset + 3..];
  }

  /** The shape `_sample_goal` promises: each present arm's half in its box, an absent arm's half zero. */
  ghost predicate GoalInBounds(arm: Arm, g: seq<real>)
  {
    && |g| == 6
    && (HasLeftArm(arm) ==> CheckRange(g[..3], TargetLowL, TargetHighL, true))
    && (HasRightArm(arm) ==> CheckRange(g[3..], TargetLowR, TargetHighR, true))
    && (!HasLeftArm(arm) ==> g[..3] == Zeros(3))
    && (!HasRightArm(arm) ==> g[3..] == Zeros(3))
  }

  /**
   * The goal `_sample_goal` draws from joint positions `qpos`: the left
   * arm's accepted position (zero without a left arm), then the right arm's,
   * sampled from the joint positions the left loop left behind (zero without
   * a right arm); `None` when some present arm's draws are all rejected.
   */
  ghost function SampledGoal(arm: Arm, qpos: seq<real>, left: ArmJoints, right: ArmJoints,
                             leftDraws: seq<seq<real>>, rightDraws: seq<seq<real>>,
                             fkLeft: seq<real> -> seq<real>, fkRight: seq<real> -> seq<real>): (g: Option<seq<real>>)
    requires JointsFit(left, qpos) && JointsFit(right, qpos)
    requires DrawsFit(left, leftDraws) && DrawsFit(right, rightDraws)
    requires FkFits(fkLeft) && FkFits(fkRight)
    ensures g.Some? ==> GoalInBounds(arm, g.value)
  {
    var leftHalf := if HasLeftArm(arm) then SampledHalf(qpos, left, leftDraws, fkLeft, TargetLowL, TargetHighL) else Some(Zeros(3));
    var afterLeft := if HasLeftArm(arm) then AfterSampling(qpos, left, leftDraws, fkLeft, TargetLowL, TargetHighL) else qpos;
    var rightHalf := if HasRightArm(arm) then SampledHalf(afterLeft, right, rightDraws, fkRight, TargetLowR, TargetHighR) else Some(Zeros(3));
    if leftHalf.None? || rightHalf.None? then None
    else
      var g := leftHalf.value + rightHalf.value;
      assert g[..3] == leftHalf.value && g[3..] == rightHalf.value;
      Some(g)
  }

  /**
   * The two `while True` loops of `_sample_goal`, filling a zero goal: the
   * left arm's half first, then the right arm's. `false` means some arm's
   * draws ran out.
   */
  method FillGoal(arm: Arm, sim: Sim, left: ArmJoints, right: ArmJoints,
                  leftDraws: seq<seq<real>>, rightDraws: seq<seq<real>>,
                  fkLeft: seq<real> -> seq<real>, fkRight: seq<real> -> seq<real>, goal: array<real>) returns (complete: bool)
    requires JointsFit(left, sim.qpos) && JointsFit(right, sim.qpos)
    requires DrawsFit(left, leftDraws) && DrawsFit(right, rightDraws)
    requires FkFits(fkLeft) && FkFits(fkRight)
    requires goal.Length == 6 && goal[..] == Zeros(6)
    modifies sim, goal
    ensures complete ==> GoalInBounds(arm, goal[..])
    ensures complete && HasLeftArm(arm) ==>
      exists k :: 0 <= k < |leftDraws| && goal[..3] == Candidate(old(sim.qpos), left, leftDraws, fkLeft, k)
        && forall j :: 0 <= j < k ==> !CandidateOk(old(sim.qpos), left, leftDraws, fkLeft, j, TargetLowL, TargetHighL)
    ensures !complete && !HasRightArm(arm) ==>
      forall j :: 0 <= j < |leftDraws| ==> !CandidateOk(old(sim.qpos), left, leftDraws, fkLeft, j, TargetLowL, TargetHighL)
    ensures complete <==> SampledGoal(arm, old(sim.qpos), left, right, leftDraws, rightDraws, fkLeft, fkRight).Some?
    ensures complete ==> goal[..] == SampledGoal(arm, old(sim.qpos), left, right, leftDraws, rightDraws, fkLeft, fkRight).value
  {
    ghost var q0 := sim.qpos;
    ghost var leftHalf := Zeros(3);
    complete := true;
    if HasLeftArm(arm) {
      var accepted := FillArmTarget(sim, left, leftDraws, fkLeft, TargetLowL, TargetHighL, goal, 0);
      if accepted.None? {
        LeftExhausted(arm, q0, left, right, leftDraws, rightDraws, fkLeft, fkRight);
        complete := false;
      } else {
        leftHalf := SampledHalf(q0, left, leftDraws, fkLeft, TargetLowL, TargetHighL).value;
      }
    }
    if complete {
      ghost var afterLeft := sim.qpos;
      ghost var g1 := goal[..];
      assert g1 == leftHalf + Zeros(3);
      ghost var rightHalf := Zeros(3);
      if HasRightArm(arm) {
        var accepted := FillArmTarget(sim, right, rightDraws, fkRight, TargetLowR, TargetHighR, goal, 3);
        if accepted.None? {
          RightExhausted(arm, q0, left, right, leftDraws, rightDraws, fkLeft, fkRight, afterLeft);
          complete := false;
        } else {
          rightHalf := SampledHalf(afterLeft, right, rightDraws, fkRight, TargetLowR, TargetHighR).value;
        }
      }
      if complete {
        assert goal[..] == leftHalf + rightHalf;
        GoalFromHalves(arm, q0, left, right, leftDraws, rightDraws, fkLeft, fkRight, afterLeft, leftHalf, rightHalf);
      }
    }
    SampledGoalFacts(arm, q0, left, right, leftDraws, rightDraws, fkLeft, fkRight);
  }

  /**
   * What the sampled goal promises: each present arm's half in its box, the
   * left half the first accepted left attempt, and, without a right arm, no
   * goal only when every left attempt is rejected.
   */
  lemma SampledGoalFacts(arm: Arm, qpos: seq<real>, left: ArmJoints, right: ArmJoints,
                         leftDraws: seq<seq<real>>, rightDraws: seq<seq<real>>,
                         fkLeft: seq<real> -> seq<real>, fkRight: seq<real> -> seq<real>)
    requires JointsFit(left, qpos) && JointsFit(right, qpos)
    requires DrawsFit(left, leftDraws) && DrawsFit(right, rightDraws)
    requires FkFits(fkLeft) && FkFits(fkRight)
    ensures var g := SampledGoal(arm, qpos, left, right, leftDraws, rightDraws, fkLeft, fkRight);
      g.Some? ==> GoalInBounds(arm, g.value)
    ensures var g := SampledGoal(arm, qpos, left, right, leftDraws, rightDraws, fkLeft, fkRight);
      g.Some? && HasLeftArm(arm) ==>
        exists k :: 0 <= k < |leftDraws| && g.value[..3] == Candidate(qpos, left, leftDraws, fkLeft, k)
          && forall j :: 0 <= j < k ==> !CandidateOk(qpos, left, leftDraws, fkLeft, j, TargetLowL, TargetHighL)
    ensures SampledGoal(arm, qpos, left, right, leftDraws, rightDraws, fkLeft, fkRight).None? && !HasRightArm(arm) ==>
      forall j :: 0 <= j < |leftDraws| ==> !CandidateOk(qpos, left, leftDraws, fkLeft, j, TargetLowL, TargetHighL)
  {
    var g := SampledGoal(arm, qpos, left, right, leftDraws, rightDraws, fkLeft, fkRight);
    if g.Some? && HasLeftArm(arm) {
      var k := FirstAccepted(qpos, left, leftDraws, fkLeft, TargetLowL, TargetHighL, 0).value;
      assert g.value[..3] == Candidate(qpos, left, leftDraws, fkLeft, k);
    }
  }

  /** A left arm whose draws are all rejected leaves no goal. */
  lemma LeftExhausted(arm: Arm, qpos: seq<real>, left: ArmJoints, right: ArmJoints,
                      leftDraws: seq<seq<real>>, rightDraws: seq<seq<real>>,
                      fkLeft: seq<real> -> seq<real>, fkRight: seq<real> -> seq<real>)
    requires JointsFit(left, qpos) && JointsFit(right, qpos)
    requires DrawsFit(left, leftDraws) && DrawsFit(right, rightDraws)
    requires FkFits(fkLeft) && FkFits(fkRight)
    requires HasLeftArm(arm) && FirstAccepted(qpos, left, leftDraws, fkLeft, TargetLowL, TargetHighL, 0).None?
    ensures SampledGoal(arm, qpos, left, right, leftDraws, rightDraws, fkLeft, fkRight).None?
  {
  }

  /** A right arm whose draws, from the joints the left loop left behind, are all rejected leaves no goal. */
  lemma RightExhausted(arm: Arm, qpos: seq<real>, left: ArmJoints, right: ArmJoints,
                       leftDraws: seq<seq<real>>, rightDraws: seq<seq<real>>,
                       fkLeft: seq<real> -> seq<real>, fkRight: seq<real> -> seq<real>, afterLeft: seq<real>)
    requires JointsFit(left, qpos) && JointsFit(right, qpos)
    requires DrawsFit(left, leftDraws) && DrawsFit(right, rightDraws)
    requires FkFits(fkLeft) && FkFits(fkRight)
    requires afterLeft == (if HasLeftArm(arm) then AfterSampling(qpos, left, leftDraws, fkLeft, TargetLowL, TargetHighL) else qpos)
    requires HasRightArm(arm) && FirstAccepted(afterLeft, right, rightDraws, fkRight, TargetLowR, TargetHighR, 0).None?
    ensures SampledGoal(arm, qpos, left, right, leftDraws, rightDraws, fkLeft, fkRight).None?
  {
  }

  /** Two accepted halves, the right one sampled after the left loop, make the sampled goal. */
  lemma GoalFromHalves(arm: Arm, qpos: seq<real>, left: ArmJoints, right: ArmJoints,
                       leftDraws: seq<seq<real>>, rightDraws: seq<seq<real>>,
                       fkLeft: seq<real> -> seq<real>, fkRight: seq<real> -> seq<real>,
                       afterLeft: seq<real>, leftHalf: seq<real>, rightHalf: seq<real>)
    requires JointsFit(left, qpos) && JointsFit(right, qpos)
    requires DrawsFit(left, leftDraws) && DrawsFit(right, rightDraws)
    requires FkFits(fkLeft) && FkFits(fkRight)
    requires afterLeft == (if HasLeftArm(arm) then AfterSampling(qpos, left, leftDraws, fkLeft, TargetLowL, TargetHighL) else qpos)
    requires HasLeftArm(arm) ==> Some(leftHalf) == SampledHalf(qpos, left, leftDraws, fkLeft, TargetLowL, TargetHighL)
    requires !HasLeftArm(arm) ==> leftHalf == Zeros(3)
    requires HasRightArm(arm) ==> Some(rightHalf) == SampledHalf(afterLeft, right, rightDraws, fkRight, TargetLowR, TargetHighR)
    requires !HasRightArm(arm) ==> rightHalf == Zeros(3)
    ensures SampledGoal(arm, qpos, left, right, leftDraws, rightDraws, fkLeft, fkRight) == Some(leftHalf + rightHalf)
  {
  }

  /**
   * `_sample_goal` without an object: a zero goal whose present arms' halves
   * are filled by rejection sampling inside their target boxes, after which
   * the simulator state saved at the start is restored. With an object it
   * raises `NotImplementedError`.
   */
  method SampleGoal(y: Yumi, sim: Sim, left: ArmJoints, right: ArmJoints,
                    leftDraws: seq<seq<real>>, rightDraws: seq<seq<real>>,
                    fkLeft: seq<real> -> seq<real>, fkRight: seq<real> -> seq<real>) returns (r: Result<Option<seq<real>>>)
    requires JointsFit(left, sim.qpos) && JointsFit(right, sim.qpos)
    requires DrawsFit(left, leftDraws) && DrawsFit(right, rightDraws)
    requires FkFits(fkLeft) && FkFits(fkRight)
    modifies sim
    ensures sim.qpos == old(sim.qpos)
    ensures r.Err? <==> y.hasObject
    ensures r.Err? ==> r.error == NotImplementedError
    ensures r.Ok? && r.value.Some? ==> GoalInBounds(y.arm, r.value.value)
    ensures r.Ok? && r.value.Some? && HasLeftArm(y.arm) ==>
      exists k :: 0 <= k < |leftDraws| && r.value.value[..3] == Candidate(old(sim.qpos), left, leftDraws, fkLeft, k)
        && forall j :: 0 <= j < k ==> !CandidateOk(old(sim.qpos), left, leftDraws, fkLeft, j, TargetLowL, TargetHighL)
    ensures r == Ok(None) && !HasRightArm(y.arm) ==>
      forall j :: 0 <= j < |leftDraws| ==> !CandidateOk(old(sim.qpos), left, leftDraws, fkLeft, j, TargetLowL, TargetHighL)
    ensures r.Ok? ==> r.value == SampledGoal(y.arm, old(sim.qpos), left, right, leftDraws, rightDraws, fkLeft, fkRight)
  {
    if y.hasObject {
      return Err(NotImplementedError);
    }
    var newGoal := new real[6](_ => 0.0);
    assert newGoal[..] == Zeros(6);
    var oldState := sim.qpos;
    var complete := FillGoal(y.arm, sim, left, right, leftDraws, rightDraws, fkLeft, fkRight, newGoal);
    sim.qpos := oldState;
    if !complete {
      return Ok(None);
    }
    return Ok(Some(newGoal[..]));
  }

  // ---------------------------------------------------------------------
  // Observation

  /** What `_get_obs` reads for one arm. */
  datatype ArmReadings = ArmReadings(qpos: seq<real>, qvel: seq<real>, gripperQpos: seq<real>, gripperPos: seq<real>)

  predicate ReadingsFit(a: ArmReadings)
  {
    |a.qpos| == 7 && |a.qvel| == 7 && |a.gripperQpos| == 2 && |a.gripperPos| == 3
  }

  const VelocityLow: seq<real> := [-10.0, -10.0, -10.0, -10.0, -10.0, -10.0, -10.0]
  const VelocityHigh: seq<real> := [10.0, 10.0, 10.0, 10.0, 10.0, 10.0, 10.0]

  /** One arm's share of the observation, in the order of `_get_obs`, without the gripper position. */
  function ArmObservation(y: Yumi, present: bool, a: ArmReadings): (s: seq<real>)
    requires ReadingsFit(a)
    ensures !present ==> s == []
    ensures present ==> |s| == ArmBlock(y)
    ensures present ==> s[..7] == a.qpos && s[7..14] == ClipVec(a.qvel, VelocityLow, VelocityHigh)
    ensures present && !y.blockGripper ==> s[14..16] == a.gripperQpos
  {
    var s := (if present then a.qpos + ClipVec(a.qvel, VelocityLow, VelocityHigh) else [])
             + (if present && !y.blockGripper then a.gripperQpos else []);
    assert present ==> s[..7] == a.qpos && s[7..14] == ClipVec(a.qvel, VelocityLow, VelocityHigh);
    s
  }

  /** The length of one present arm's block: 7 positions, 7 velocities and, unless blocked, 2 finger positions. */
  function ArmBlock(y: Yumi): (n: nat)
  {
    if y.blockGripper then 14 else 16
  }

  /** The achieved goal: each present gripper's position in its half of a zero 6-vector. */
  function AchievedGoal(y: Yumi, l: ArmReadings, r: ArmReadings): (achieved: seq<real>)
    requires ReadingsFit(l) && ReadingsFit(r)
    ensures |achieved| == 6
    ensures achieved[..3] == (if HasLeftArm(y.arm) then l.gripperPos else Zeros(3))
    ensures achieved[3..] == (if HasRightArm(y.arm) then r.gripperPos else Zeros(3))
  {
    var achieved := (if HasLeftArm(y.arm) then l.gripperPos else Zeros(3)) + (if HasRightArm(y.arm) then r.gripperPos else Zeros(3));
    assert achieved[..3] == (if HasLeftArm(y.arm) then l.gripperPos else Zeros(3));
    achieved
  }

  /**
   * The observation vector: per arm, joint positions, velocities clipped to
   * [-10, 10] and finger positions, then the gripper positions.
   */
  function ObservationVector(y: Yumi, l: ArmReadings, r: ArmReadings): (obs: seq<real>)
    requires ReadingsFit(l) && ReadingsFit(r)
    ensures |obs| == (if HasTwoArms(y.arm) then 2 else 1) * (if y.blockGripper then 17 else 19)
    ensures HasLeftArm(y.arm) ==> obs[..7] == l.qpos && Within(obs[7..14], VelocityLow, VelocityHigh)
    ensures HasLeftArm(y.arm) ==> obs[..ArmBlock(y)] == ArmObservation(y, true, l)
    ensures HasRightArm(y.arm) ==>
      var o := if HasLeftArm(y.arm) then ArmBlock(y) else 0;
      obs[o..o + ArmBlock(y)] == ArmObservation(y, true, r) && Within(obs[o + 7..o + 14], VelocityLow, VelocityHigh)
    ensures var g := if HasTwoArms(y.arm) then 2 * ArmBlock(y) else ArmBlock(y);
      obs[g..] == (if HasLeftArm(y.arm) then l.gripperPos else []) + (if HasRightArm(y.arm) then r.gripperPos else [])
  {
    var left := ArmObservation(y, HasLeftArm(y.arm), l);
    var right := ArmObservation(y, HasRightArm(y.arm), r);
    var tail := (if HasLeftArm(y.arm) then l.gripperPos else []) + (if HasRightArm(y.arm) then r.gripperPos else []);
    ObservationParts(y, l, r, left, right, tail);
    left + right + tail
  }

  /** The layout of the observation, from the layout of its arm blocks and its tail. */
  lemma ObservationParts(y: Yumi, l: ArmReadings, r: ArmReadings, left: seq<real>, right: seq<real>, tail: seq<real>)
    requires ReadingsFit(l) && ReadingsFit(r)
    requires left == ArmObservation(y, HasLeftArm(y.arm), l) && right == ArmObservation(y, HasRightArm(y.arm), r)
    requires tail == (if HasLeftArm(y.arm) then l.gripperPos else []) + (if HasRightArm(y.arm) then r.gripperPos else [])
    ensures var obs := left + right + tail;
      && |obs| == (if HasTwoArms(y.arm) then 2 else 1) * (if y.blockGripper then 17 else 19)
      && (HasLeftArm(y.arm) ==> obs[..7] == l.qpos && Within(obs[7..14], VelocityLow, VelocityHigh))
      && (HasLeftArm(y.arm) ==> obs[..ArmBlock(y)] == ArmObservation(y, true, l))
      && (HasRightArm(y.arm) ==>
            var o := if HasLeftArm(y.arm) then ArmBlock(y) else 0;
            obs[o..o + ArmBlock(y)] == ArmObservation(y, true, r) && Within(obs[o + 7..o + 14], VelocityLow, VelocityHigh))
      && (var g := if HasTwoArms(y.arm) then 2 * ArmBlock(y) else ArmBlock(y);
          obs[g..] == (if HasLeftArm(y.arm) then l.gripperPos else []) + (if HasRightArm(y.arm) then r.gripperPos else []))
  {
    var block := ArmBlock(y);
    ArmsLayout(left, right, tail, block, HasLeftArm(y.arm), HasRightArm(y.arm));
    var obs := left + right + tail;
    if HasLeftArm(y.arm) {
      ArmBlockAt(y, obs, 0, l);
    }
    if HasRightArm(y.arm) {
      ArmBlockAt(y, obs, |left|, r);
    }
    match y.arm {
      case Left => assert |obs| == block + 3;
      case Right => assert |obs| == block + 3;
      case Both => assert |obs| == 2 * block + 6;
    }
  }

  /** An arm block placed at offset `o` holds the joint positions first and the clipped velocities next. */
  lemma ArmBlockAt(y: Yumi, obs: seq<real>, o: nat, a: ArmReadings)
    requires ReadingsFit(a) && o + ArmBlock(y) <= |obs| && obs[o..o + ArmBlock(y)] == ArmObservation(y, true, a)
    ensures obs[o..o + 7] == a.qpos && Within(obs[o + 7..o + 14], VelocityLow, VelocityHigh)
  {
    var block := ArmObservation(y, true, a);
    SliceWithin(obs, block, o, 0, 7);
    SliceWithin(obs, block, o, 7, 14);
    ClipVecWithin(a.qvel, VelocityLow, VelocityHigh);
  }

  /** Where the two arm blocks and the tail sit in the observation, whichever arms are present. */
  lemma ArmsLayout(left: seq<real>, right: seq<real>, tail: seq<real>, block: nat, leftPresent: bool, rightPresent: bool)
    requires block >= 14
    requires |left| == (if leftPresent then block else 0) && |right| == (if rightPresent then block else 0)
    ensures var obs := left + right + tail;
      && (leftPresent ==> obs[..block] == left && obs[..7] == left[..7] && obs[7..14] == left[7..14])
      && (rightPresent ==> var o := |left|; obs[o..o + block] == right && obs[o + 7..o + 14] == right[7..14])
      && obs[|left| + |right|..] == tail
  {
    var obs := left + right + tail;
    Concat3(left, right, tail);
    if leftPresent {
      SliceWithin(obs, left, 0, 0, 7);
      SliceWithin(obs, left, 0, 7, 14);
    }
    if rightPresent {
      SliceWithin(obs, right, |left|, 7, 14);
    }
  }

  /** `_get_obs`: with an object it raises `NotImplementedError`. */
  function Observe(y: Yumi, l: ArmReadings, r: ArmReadings): (res: Result<(seq<real>, seq<real>)>)
    requires ReadingsFit(l) && ReadingsFit(r)
    ensures res.Err? <==> y.hasObject
    ensures res.Err? ==> res.error == NotImplementedError
    ensures res.Ok? ==> res.value == (ObservationVector(y, l, r), AchievedGoal(y, l, r))
  {
    if y.hasObject then Err(NotImplementedError)
    else Ok((ObservationVector(y, l, r), AchievedGoal(y, l, r)))
  }
}
