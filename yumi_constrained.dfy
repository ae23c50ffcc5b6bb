/**
 * The constrained dual-arm YuMi environment (`YumiConstrainedEnv` in
 * `gym/envs/yumi/yumi_constrained.py`): the agent commands the distance
 * between the grippers and a displacement of their common centre, and a
 * PD servo loop drives both arms towards the resulting gripper targets.
 * The goal is the 3-element object position.
 *
 * Simulator reads, inverse kinematics and Euler-to-quaternion conversions
 * are parameters.
 */
module YumiConstrained {
  import opened Outcomes
  import opened Vectors
  import opened Metrics
  import opened Quaternions
  import opened Transformations

  /** Range that the separation action in [-1, 1] maps to. */
  const MinSeparation: real := 0.05
  const MaxSeparation: real := 0.30
  /** Scale from the centre action to the centre displacement. */
  const CenterStep: real := 0.2
  /** Weight of the error derivative in the PD law. */
  const DerivativeGain: real := 0.05
  /** Servo steps that `step` allows. */
  const StepMaxSteps: nat := 5
  /** `_move_arms` defaults: position and rotation thresholds, and the gain. */
  const DefaultPosThreshold: real := 0.02
  const DefaultRotThreshold: real := 0.1
  const DefaultGain: real := 2.0
  /** Relative object movement below which a servo step counts as still. */
  const StillThreshold: real := 0.002
  /** Iteration index after which a non-stable step ends the counting loop. */
  const StableGrace: nat := 10
  /** Size of the underlying two-arm command with free grippers; slots 7 and 15 are the grippers. */
  const ActuatorCount: nat := 16

  // ---------------------------------------------------------------------
  // Goal, success and reward

  /** `_goal_distance` over 3-element object positions. */
  function GoalDistance(goalA: seq<real>, goalB: seq<real>, m: Metric): (d: real)
    requires |goalA| == |goalB| == 3
    ensures d == m.norm(Sub(goalA, goalB))
  {
    assert goalA[..3] == goalA && goalB[..3] == goalB;
    m.norm(Sub(goalA[..3], goalB[..3]))
  }

  lemma GoalDistanceProperties(a: seq<real>, b: seq<real>, m: Metric)
    requires |a| == |b| == 3
    requires Valid(m)
    ensures GoalDistance(a, b, m) >= 0.0
    ensures GoalDistance(a, a, m) == 0.0
  {
    var delta := Sub(a[..3], a[..3]);
    assert AllZero(delta);
    NormZero(m, delta);
  }

  datatype Config = Config(rewardType: string, rotationCtrl: bool, fingersCtrl: bool, distanceThreshold: real)

  /** `_is_success`: 1 exactly when the object is strictly closer than the threshold. */
  function IsSuccess(cfg: Config, achieved: seq<real>, desired: seq<real>, m: Metric): (r: real)
    requires |achieved| == |desired| == 3
    ensures r == 0.0 || r == 1.0
    ensures r == 1.0 <==> GoalDistance(achieved, desired, m) < cfg.distanceThreshold
  {
    if GoalDistance(achieved, desired, m) < cfg.distanceThreshold then 1.0 else 0.0
  }

  /** `compute_reward`: `success - 1` when sparse, minus the distance otherwise. */
  function ComputeReward(cfg: Config, achieved: seq<real>, desired: seq<real>, m: Metric): (r: real)
    requires |achieved| == |desired| == 3
    ensures cfg.rewardType == "sparse" ==> r == 0.0 || r == -1.0
    ensures cfg.rewardType == "sparse" ==> (r == 0.0 <==> GoalDistance(achieved, desired, m) < cfg.distanceThreshold)
    ensures cfg.rewardType != "sparse" ==> r == -m.norm(Sub(achieved, desired))
  {
    if cfg.rewardType == "sparse" then IsSuccess(cfg, achieved, desired, m) - 1.0
    else -GoalDistance(achieved, desired, m)
  }

  /** The dense reward is never positive and is zero at the goal. */
  lemma DenseRewardBounds(cfg: Config, achieved: seq<real>, desired: seq<real>, m: Metric)
    requires cfg.rewardType != "sparse" && |achieved| == |desired| == 3
    requires Valid(m)
    ensures ComputeReward(cfg, achieved, desired, m) <= 0.0
    ensures achieved == desired ==> ComputeReward(cfg, achieved, desired, m) == 0.0
  {
    GoalDistanceProperties(achieved, desired, m);
  }

  /** `is_object_unreachable`: outside the open box (-0.15, 0.15) x (-0.15, 0.15) x (-0.01, 0.45). */
  function IsObjectUnreachable(objectPos: seq<real>): (r: bool)
    requires |objectPos| >= 3
    ensures !r ==> -0.15 < objectPos[0] < 0.15 && -0.15 < objectPos[1] < 0.15
  {
    !((-0.15 < objectPos[0] < 0.15) && (-0.15 < objectPos[1] < 0.15) && (-0.01 < objectPos[2] < 0.45))
  }

  /** Unreachable is exactly failing the exclusive box test. */
  lemma UnreachableIsOutsideBox(objectPos: seq<real>)
    requires |objectPos| >= 3
    ensures IsObjectUnreachable(objectPos) <==> !CheckRange(objectPos[..3], [-0.15, -0.15, -0.01], [0.15, 0.15, 0.45], false)
  {
    var p := objectPos[..3];
    assert p[0] == objectPos[0] && p[1] == objectPos[1] && p[2] == objectPos[2];
  }

  /** `get_grasp_center_pos`: the midpoint of the two gripper positions. */
  function GraspCenter(left: seq<real>, right: seq<real>): (c: seq<real>)
    requires |left| == |right|
    ensures |c| == |left|
  {
    Scale(0.5, Add(left, right))
  }

  /** The centre is as far from the left gripper as the right gripper is from it. */
  lemma GraspCenterMidpoint(left: seq<real>, right: seq<real>)
    requires |left| == |right|
    ensures Sub(left, GraspCenter(left, right)) == Sub(GraspCenter(left, right), right)
    ensures left == right ==> GraspCenter(left, right) == left
  {
  }

  // ---------------------------------------------------------------------
  // Actions

  /** Separation and centre delta, plus a quaternion delta and two finger commands when enabled. */
  function NActions(cfg: Config): (n: nat)
    ensures n == 4 + (if cfg.rotationCtrl then 4 else 0) + (if cfg.fingersCtrl then 2 else 0)
    ensures n in {4, 6, 8, 10}
  {
    var n := 4;
    var n := if cfg.rotationCtrl then n + 4 else n;
    if cfg.fingersCtrl then n + 2 else n
  }

  datatype Unpacked = Unpacked(separation: real, posDelta: seq<real>, quatDelta: seq<real>, leftFingers: real, rightFingers: real)

  /**
   * `_unpack_action`: slot 0 is the separation and 1-3 the centre delta;
   * the quaternion delta takes the next 4 slots only with rotation control
   * (otherwise it is the identity), and the finger commands the next 2 only
   * with finger control (otherwise both are -1).
   */
  function UnpackAction(cfg: Config, action: seq<real>): (u: Unpacked)
    requires |action| == NActions(cfg)
    ensures u.separation == action[0] && u.posDelta == action[1..4]
    ensures cfg.rotationCtrl ==> u.quatDelta == action[4..8]
    ensures !cfg.rotationCtrl ==> u.quatDelta == [1.0, 0.0, 0.0, 0.0]
    ensures var offset := if cfg.rotationCtrl then 8 else 4;
            cfg.fingersCtrl ==> u.leftFingers == action[offset] && u.rightFingers == action[offset + 1]
    ensures !cfg.fingersCtrl ==> u.leftFingers == -1.0 && u.rightFingers == -1.0
  {
    var separation := action[0];
    var posDelta := action[1..4];
    var offset := 4;
    var quatDelta := if cfg.rotationCtrl then action[offset..offset + 4] else [1.0, 0.0, 0.0, 0.0];
    var offset := if cfg.rotationCtrl then offset + 4 else offset;
    if cfg.fingersCtrl then
      Unpacked(separation, posDelta, quatDelta, action[offset], action[offset + 1])
    else
      Unpacked(separation, posDelta, quatDelta, -1.0, -1.0)
  }

  /** The action that unpacks to `u`: the enabled parts in order. */
  function PackAction(cfg: Config, u: Unpacked): (a: seq<real>)
    requires |u.posDelta| == 3 && |u.quatDelta| == 4
    ensures |a| == NActions(cfg)
  {
    [u.separation] + u.posDelta
    + (if cfg.rotationCtrl then u.quatDelta else [])
    + (if cfg.fingersCtrl then [u.leftFingers, u.rightFingers] else [])
  }

  /** Unpacking reads every slot exactly once: packing the parts gives the action back. */
  lemma PackUnpack(cfg: Config, action: seq<real>)
    requires |action| == NActions(cfg)
    ensures PackAction(cfg, UnpackAction(cfg, action)) == action
  {
    var u := UnpackAction(cfg, action);
    var a := PackAction(cfg, u);
    forall i | 0 <= i < |a|
      ensures a[i] == action[i]
    {
    }
  }

  /** Parts whose disabled fields hold the defaults survive packing and unpacking. */
  lemma UnpackPack(cfg: Config, u: Unpacked)
    requires |u.posDelta| == 3 && |u.quatDelta| == 4
    requires !cfg.rotationCtrl ==> u.quatDelta == [1.0, 0.0, 0.0, 0.0]
    requires !cfg.fingersCtrl ==> u.leftFingers == -1.0 && u.rightFingers == -1.0
    ensures UnpackAction(cfg, PackAction(cfg, u)) == u
  {
    var a := PackAction(cfg, u);
    assert a[1..4] == u.posDelta;
    assert cfg.rotationCtrl ==> a[4..8] == u.quatDelta;
  }

  /** `np.interp(x, [-1, 1], [0.05, 0.30])`, which holds the end values outside [-1, 1]. */
  function Interp(x: real): (r: real)
    ensures MinSeparation <= r <= MaxSeparation
    ensures x <= -1.0 ==> r == MinSeparation
    ensures x >= 1.0 ==> r == MaxSeparation
  {
    if x <= -1.0 then MinSeparation
    else if x >= 1.0 then MaxSeparation
    else MinSeparation + (x + 1.0) * ((MaxSeparation - MinSeparation) / 2.0)
  }

  /** Inside [-1, 1] the map is the straight line through (-1, 0.05) and (1, 0.30). */
  lemma InterpLinear(x: real, y: real)
    requires -1.0 <= x <= 1.0 && -1.0 <= y <= 1.0
    ensures Interp(x) == MinSeparation + (x + 1.0) * ((MaxSeparation - MinSeparation) / 2.0)
    ensures Interp(y) - Interp(x) == (y - x) * ((MaxSeparation - MinSeparation) / 2.0)
  {
  }

  lemma InterpMonotone(x: real, y: real)
    requires x <= y
    ensures Interp(x) <= Interp(y)
  {
    if -1.0 < x && y < 1.0 {
      MulNonNeg(y - x, (MaxSeparation - MinSeparation) / 2.0);
    }
  }

  /** What `step` hands to the servo loop. */
  datatype Targets = Targets(separation: real, center: seq<real>, left: seq<real>, right: seq<real>,
                             leftFingers: real, rightFingers: real)

  /** `np.clip` of an action to the action space [-1, 1]. */
  function ClipAction(action: seq<real>): (r: seq<real>)
    ensures |r| == |action|
    ensures forall i :: 0 <= i < |action| ==> -1.0 <= r[i] <= 1.0
    ensures forall i :: 0 <= i < |action| && -1.0 <= action[i] <= 1.0 ==> r[i] == action[i]
  {
    seq(|action|, i requires 0 <= i < |action| => Clip(action[i], -1.0, 1.0))
  }

  /** The grasp-centre pose `step` builds: the target centre with the identity orientation. */
  function CenterPose(center: seq<real>): (p: seq<real>)
    requires |center| == 3
    ensures IsPose(p) && Position(p) == center && Orientation(p) == Identity
  {
    center + [1.0, 0.0, 0.0, 0.0]
  }

  /** The offset of one gripper from the centre: `offsetY` along y, no rotation. */
  function OffsetPose(offsetY: real): (p: seq<real>)
    ensures IsPose(p) && Position(p) == [0.0, offsetY, 0.0] && Orientation(p) == Identity
  {
    [0.0, offsetY, 0.0, 1.0, 0.0, 0.0, 0.0]
  }

  /**
   * One gripper target as `step` computes it, `apply_tf` of the offset onto
   * the centre pose: with the identity orientation it is a plain shift of
   * the centre along y, which is how `StepTargets` places the targets.
   */
  lemma GripperTargetShift(center: seq<real>, offsetY: real)
    requires |center| == 3
    ensures Position(ApplyTf(OffsetPose(offsetY), CenterPose(center))) == Add(center, [0.0, offsetY, 0.0])
  {
    ApplyTfIdentityOrientation(OffsetPose(offsetY), CenterPose(center));
  }

  /**
   * The target geometry of `step`: clip the action to [-1, 1], map the
   * separation to [0.05, 0.30], move the centre by 0.2 times the delta, and
   * place the two gripper targets at the centre plus and minus half the
   * separation along y (what `apply_tf` computes there, by
   * `GripperTargetShift`). Rotation control raises `NotImplementedError`.
   */
  function StepTargets(cfg: Config, action: seq<real>, gripperL: seq<real>, gripperR: seq<real>): (r: Result<Targets>)
    requires |action| == NActions(cfg)
    requires |gripperL| == 3 && |gripperR| == 3
    ensures r.Err? <==> cfg.rotationCtrl
    ensures r.Err? ==> r.error == NotImplementedError
    ensures r.Ok? ==>
      var t := r.value;
      && MinSeparation <= t.separation <= MaxSeparation
      && |t.center| == 3
      && t.left == Add(t.center, [0.0, t.separation / 2.0, 0.0])
      && t.right == Add(t.center, [0.0, -t.separation / 2.0, 0.0])
    ensures r.Ok? ==> r.value.separation == Interp(ClipAction(action)[0])
    ensures r.Ok? ==> r.value.center == Add(GraspCenter(gripperL, gripperR), Scale(CenterStep, ClipAction(action)[1..4]))
    ensures r.Ok? && cfg.fingersCtrl ==>
      r.value.leftFingers == ClipAction(action)[4] && r.value.rightFingers == ClipAction(action)[5]
  {
    var u := UnpackAction(cfg, ClipAction(action));
    var separation := Interp(u.separation);
    var centerPos := Add(GraspCenter(gripperL, gripperR), Scale(CenterStep, u.posDelta));
    if cfg.rotationCtrl then Err(NotImplementedError)
    else
      var left := Add(centerPos, [0.0, separation / 2.0, 0.0]);
      var right := Add(centerPos, [0.0, -separation / 2.0, 0.0]);
      Ok(Targets(separation, centerPos, left, right, u.leftFingers, u.rightFingers))
  }

  /** The finger commands reach the servo loop clipped to [-1, 1], or as -1 when finger control is off. */
  lemma StepFingers(cfg: Config, action: seq<real>, gripperL: seq<real>, gripperR: seq<real>)
    requires |action| == NActions(cfg)
    requires |gripperL| == 3 && |gripperR| == 3
    requires StepTargets(cfg, action, gripperL, gripperR).Ok?
    ensures var t := StepTargets(cfg, action, gripperL, gripperR).value;
            -1.0 <= t.leftFingers <= 1.0 && -1.0 <= t.rightFingers <= 1.0
            && (!cfg.fingersCtrl ==> t.leftFingers == -1.0 && t.rightFingers == -1.0)
  {
  }

  /** The planar difference of two points that differ only along y, by `s`. */
  lemma TargetDifference(center: seq<real>, s: real)
    requires |center| == 3
    ensures Sub(Add(center, [0.0, s / 2.0, 0.0])[..2], Add(center, [0.0, -s / 2.0, 0.0])[..2]) == [0.0, s]
  {
    var l := Add(center, [0.0, s / 2.0, 0.0]);
    var r := Add(center, [0.0, -s / 2.0, 0.0]);
    var d := Sub(l[..2], r[..2]);
    assert d[0] == l[0] - r[0] == 0.0;
    assert d[1] == l[1] - r[1] == s;
  }

  lemma NormOfPlanar(s: real, m: Metric)
    requires Valid(m) && s >= 0.0
    ensures m.norm([0.0, s]) == s
  {
    var v := [0.0, s];
    assert v[1..] == [s] && [s][1..] == [];
    assert SumSq([s]) == s * s;
    assert SumSq(v) == 0.0 * 0.0 + SumSq([s]);
    SqrtUnique(m.norm(v), s);
  }

  /**
   * Half the planar distance between the targets is half the separation,
   * which `step` asserts before moving the arms.
   */
  lemma GraspRadius(cfg: Config, action: seq<real>, gripperL: seq<real>, gripperR: seq<real>, m: Metric)
    requires |action| == NActions(cfg)
    requires |gripperL| == 3 && |gripperR| == 3
    requires Valid(m)
    requires StepTargets(cfg, action, gripperL, gripperR).Ok?
    ensures var t := StepTargets(cfg, action, gripperL, gripperR).value;
            m.norm(Sub(t.left[..2], t.right[..2])) / 2.0 == t.separation / 2.0
  {
    var t := StepTargets(cfg, action, gripperL, gripperR).value;
    TargetDifference(t.center, t.separation);
    NormOfPlanar(t.separation, m);
  }

  // ---------------------------------------------------------------------
  // Servo loop

  /**
   * The PD law of `_controller`: `-(error + 0.05 d_err) k`, where the
   * derivative `(error - prev) / dt` is taken as zero while the previous
   * error is all zeros.
   */
  function ControlLaw(error: seq<real>, prevError: seq<real>, k: real, dt: real): (u: seq<real>)
    requires |prevError| == |error| && dt != 0.0
    ensures |u| == |error|
  {
    if AllZero(prevError) then Scale(-k, error)
    else Scale(-k, Add(error, Scale(DerivativeGain, Scale(1.0 / dt, Sub(error, prevError)))))
  }

  /** When the error has not changed the derivative term vanishes, whichever branch is taken. */
  lemma ControlLawSteady(error: seq<real>, k: real, dt: real)
    requires dt != 0.0
    ensures ControlLaw(error, error, k, dt) == Scale(-k, error)
  {
    if !AllZero(error) {
      var d := Scale(DerivativeGain, Scale(1.0 / dt, Sub(error, error)));
      assert Add(error, d) == error;
    }
  }

  /** `_controller`: the PD command, with `prev_error` overwritten by `error` in place. */
  method Controller(error: seq<real>, prevError: array<real>, k: real, dt: real) returns (u: seq<real>)
    requires prevError.Length == |error| && dt != 0.0
    modifies prevError
    ensures prevError[..] == error
    ensures u == ControlLaw(error, old(prevError[..]), k, dt)
  {
    var dErr: seq<real>;
    if forall i :: 0 <= i < prevError.Length ==> prevError[i] == 0.0 {
      assert AllZero(prevError[..]);
      dErr := Zeros(|error|);
      assert Add(error, Scale(DerivativeGain, dErr)) == error;
    } else {
      dErr := Scale(1.0 / dt, Sub(error, prevError[..]));
    }
    forall i | 0 <= i < prevError.Length {
      prevError[i] := error[i];
    }
    u := Scale(-k, Add(error, Scale(DerivativeGain, dErr)));
  }

  /** The largest absolute difference over the first `n` components, `np.abs(x[:n] - y[:n]).max()`. */
  function MaxAbsDiff(x: seq<real>, y: seq<real>, n: nat): (r: real)
    requires 0 < n <= |x| && n <= |y|
    ensures r >= 0.0
  {
    if n == 1 then Abs(x[0] - y[0]) else Max(MaxAbsDiff(x, y, n - 1), Abs(x[n - 1] - y[n - 1]))
  }

  /** `MaxAbsDiff` bounds every component's difference and is attained by one of them. */
  lemma {:induction false} MaxAbsDiffIsMaximum(x: seq<real>, y: seq<real>, n: nat)
    requires 0 < n <= |x| && n <= |y|
    ensures forall j :: 0 <= j < n ==> Abs(x[j] - y[j]) <= MaxAbsDiff(x, y, n)
    ensures exists j :: 0 <= j < n && MaxAbsDiff(x, y, n) == Abs(x[j] - y[j])
  {
    if n > 1 {
      MaxAbsDiffIsMaximum(x, y, n - 1);
      var j :| 0 <= j < n - 1 && MaxAbsDiff(x, y, n - 1) == Abs(x[j] - y[j]);
      if MaxAbsDiff(x, y, n) != Abs(x[n - 1] - y[n - 1]) {
        assert MaxAbsDiff(x, y, n) == Abs(x[j] - y[j]);
      }
    }
  }

  /** `-inf` or a real, for the running maxima of the servo loop. */
  datatype MaxError = NegInfinity | Finite(value: real)

  /** What one arm shows in one servo step, and the inverse-kinematics answer. */
  datatype ArmReading = ArmReading(currPose: seq<real>, currQ: seq<real>, ikQ: seq<real>, rotErr: real)

  /** One servo step's readings: both arms, the pitch quaternion, the object, and whether it touches the table. */
  datatype StepReading = StepReading(left: ArmReading, right: ArmReading, pitch: Quat, objectPos: seq<real>, objectAboveTable: bool)

  predicate ArmReadingFits(a: ArmReading)
  {
    |a.currPose| == 7 && |a.currQ| == 7 && |a.ikQ| == 7
  }

  predicate ReadingFits(r: StepReading)
  {
    ArmReadingFits(r.left) && ArmReadingFits(r.right) && |r.objectPos| == 3
  }

  /** The target pose of one arm: the yawed target, turned by the pitch about its own origin. */
  function TargetPose(target: seq<real>, yaw: Quat, pitch: Quat): (p: seq<real>)
    requires |target| == 3
    ensures IsPose(p)
  {
    ApplyTf(MakePose(Zeros(3), pitch), MakePose(target, yaw))
  }

  lemma RotVecZero(q: Quat)
    ensures RotVec(q, Zeros(3)) == Zeros(3)
  {
    var z := Quat(0.0, 0.0, 0.0, 0.0);
    assert Pure(Zeros(3)) == z;
    assert Mul(z, Conjugate(q)) == z;
    MulZeroRight(q);
  }

  /** Turning the target about its own origin does not move it. */
  lemma TargetPosePosition(target: seq<real>, yaw: Quat, pitch: Quat)
    requires |target| == 3
    ensures Position(TargetPose(target, yaw, pitch)) == target
  {
    var offset, world := MakePose(Zeros(3), pitch), MakePose(target, yaw);
    ApplyTfFullPose(offset, world);
    assert Position(Pad(offset)) == Zeros(3);
    RotVecZero(yaw);
    assert Add(target, Zeros(3)) == target;
  }

  /** The position error of one arm against its target. */
  function ArmPosErr(a: ArmReading, target: seq<real>): (e: real)
    requires ArmReadingFits(a) && |target| == 3
  {
    MaxAbsDiff(a.currPose, target, 3)
  }

  /** The larger of the two arms' position errors. */
  function StepPosErr(r: StepReading, leftTarget: seq<real>, rightTarget: seq<real>): (e: real)
    requires ReadingFits(r) && |leftTarget| == 3 && |rightTarget| == 3
  {
    Max(ArmPosErr(r.left, leftTarget), ArmPosErr(r.right, rightTarget))
  }

  /** The larger of the two arms' rotation errors. */
  function StepRotErr(r: StepReading): (e: real)
  {
    Max(r.left.rotErr, r.right.rotErr)
  }

  /**
   * One arm's share of a servo step: compute the target pose, the position
   * error and the PD command, and write the command into `u[offset..offset + 7]`.
   */
  method ArmStep(u: array<real>, prevErr: array<real>, offset: nat, a: ArmReading, target: seq<real>,
                 yaw: Quat, pitch: Quat, k: real, dt: real) returns (posErr: real)
    requires ArmReadingFits(a) && |target| == 3
    requires u.Length == ActuatorCount && (offset == 0 || offset == 8)
    requires prevErr.Length == 7 && prevErr != u && dt != 0.0
    modifies u, prevErr
    ensures posErr == ArmPosErr(a, target)
    ensures u[offset..offset + 7] == ControlLaw(Sub(a.currQ, a.ikQ), old(prevErr[..]), k, dt)
    ensures forall i :: 0 <= i < u.Length && !(offset <= i < offset + 7) ==> u[i] == old(u[i])
    ensures prevErr[..] == Sub(a.currQ, a.ikQ)
  {
    var targetPose := TargetPose(target, yaw, pitch);
    TargetPosePosition(target, yaw, pitch);
    posErr := MaxAbsDiff(a.currPose, Position(targetPose), 3);
    var command := Controller(Sub(a.currQ, a.ikQ), prevErr, k, dt);
    forall i | offset <= i < offset + 7 {
      u[i] := command[i - offset];
    }
  }

  datatype MoveResult = StableSteps(count: nat) | MaxPosError(err: MaxError)

  /** A command as `_move_arms` sends it: within the bounds, with the two gripper configurations. */
  ghost predicate CommandOk(c: seq<real>, low: seq<real>, high: seq<real>, leftGrp: real, rightGrp: real)
    requires |low| == ActuatorCount && |high| == ActuatorCount
  {
    && |c| == ActuatorCount
    && Within(c, low, high)
    && c[7] == Clip(leftGrp, low[7], high[7])
    && c[15] == Clip(rightGrp, low[15], high[15])
  }

  /** The break test of `_move_arms`: both errors strictly below their thresholds. */
  predicate Converged(r: StepReading, leftTarget: seq<real>, rightTarget: seq<real>, posThreshold: real, rotThreshold: real)
    requires ReadingFits(r) && |leftTarget| == 3 && |rightTarget| == 3
  {
    StepPosErr(r, leftTarget, rightTarget) < posThreshold && StepRotErr(r) < rotThreshold
  }

  /** One arm's joint error, `curr_q - target_q`: what the PD law drives to zero. */
  function JointError(a: ArmReading): (e: seq<real>)
    requires ArmReadingFits(a)
    ensures |e| == 7
    ensures forall j :: 0 <= j < 7 ==> e[j] == a.currQ[j] - a.ikQ[j]
  {
    Sub(a.currQ, a.ikQ)
  }

  /** One arm's PD command given the previous error, clipped to the bounds of its actuator slots from `offset` on. */
  function ClippedLaw(a: ArmReading, prev: seq<real>, k: real, dt: real, low: seq<real>, high: seq<real>, offset: nat): (c: seq<real>)
    requires ArmReadingFits(a) && |prev| == 7 && dt != 0.0
    requires offset + 7 <= |low| && offset + 7 <= |high|
    ensures |c| == 7
    ensures forall j :: 0 <= j < 7 ==> c[j] == Clip(ControlLaw(JointError(a), prev, k, dt)[j], low[offset + j], high[offset + j])
  {
    var law := ControlLaw(JointError(a), prev, k, dt);
    seq(7, j requires 0 <= j < 7 => Clip(law[j], low[offset + j], high[offset + j]))
  }

  /**
   * A sent command whose arm slots 0-6 and 8-14 hold the PD commands of the
   * left and right arm, clipped to the actuator bounds, given the errors of
   * the previous step.
   */
  ghost predicate PdCommand(c: seq<real>, r: StepReading, prevL: seq<real>, prevR: seq<real>, k: real, dt: real,
                            low: seq<real>, high: seq<real>)
  {
    && ReadingFits(r) && |c| == ActuatorCount && |low| == ActuatorCount && |high| == ActuatorCount
    && |prevL| == 7 && |prevR| == 7 && dt != 0.0
    && c[..7] == ClippedLaw(r.left, prevL, k, dt, low, high, 0)
    && c[8..15] == ClippedLaw(r.right, prevR, k, dt, low, high, 8)
  }

  /** The command `_move_arms` sends for one reading: both arms' clipped PD commands and the clipped gripper slots. */
  function Command(r: StepReading, prevL: seq<real>, prevR: seq<real>, k: real, dt: real,
                   low: seq<real>, high: seq<real>, leftGrp: real, rightGrp: real): (c: seq<real>)
    requires ReadingFits(r) && |prevL| == 7 && |prevR| == 7 && dt != 0.0
    requires |low| == ActuatorCount && |high| == ActuatorCount
    ensures |c| == ActuatorCount
  {
    ClippedLaw(r.left, prevL, k, dt, low, high, 0) + [Clip(leftGrp, low[7], high[7])]
    + ClippedLaw(r.right, prevR, k, dt, low, high, 8) + [Clip(rightGrp, low[15], high[15])]
  }

  /** `Command` is the one command within bounds with the gripper slots and the PD commands of the step. */
  lemma CommandMeaning(c: seq<real>, r: StepReading, prevL: seq<real>, prevR: seq<real>, k: real, dt: real,
                       low: seq<real>, high: seq<real>, leftGrp: real, rightGrp: real)
    requires ReadingFits(r) && |prevL| == 7 && |prevR| == 7 && dt != 0.0
    requires |low| == ActuatorCount && |high| == ActuatorCount
    requires forall i :: 0 <= i < ActuatorCount ==> low[i] <= high[i]
    ensures c == Command(r, prevL, prevR, k, dt, low, high, leftGrp, rightGrp)
            <==> CommandOk(c, low, high, leftGrp, rightGrp) && PdCommand(c, r, prevL, prevR, k, dt, low, high)
  {
    var lawL := ClippedLaw(r.left, prevL, k, dt, low, high, 0);
    var lawR := ClippedLaw(r.right, prevR, k, dt, low, high, 8);
    var cmd := Command(r, prevL, prevR, k, dt, low, high, leftGrp, rightGrp);
    Concat3(lawL + [Clip(leftGrp, low[7], high[7])], lawR, [Clip(rightGrp, low[15], high[15])]);
    assert cmd[..7] == lawL;
    assert cmd[8..15] == lawR;
    assert Within(cmd, low, high);
    if |c| == ActuatorCount && c[..7] == lawL && c[8..15] == lawR
       && c[7] == Clip(leftGrp, low[7], high[7]) && c[15] == Clip(rightGrp, low[15], high[15]) {
      assert c == c[..7] + [c[7]] + c[8..15] + [c[15]];
    }
  }

  /**
   * The body of one `_move_arms` iteration up to sending: both arms'
   * commands, the gripper slots, and the clip to the actuator bounds. The
   * arm slots hold the clipped PD commands.
   */
  method ServoStep(u: array<real>, prevErrL: array<real>, prevErrR: array<real>, r: StepReading,
                   leftTarget: seq<real>, rightTarget: seq<real>, yawL: Quat, yawR: Quat, k: real, dt: real,
                   leftGrp: real, rightGrp: real, low: seq<real>, high: seq<real>, posThreshold: real, rotThreshold: real)
    returns (command: seq<real>, posErr: real, converged: bool)
    requires ReadingFits(r) && |leftTarget| == 3 && |rightTarget| == 3
    requires u.Length == ActuatorCount && prevErrL.Length == 7 && prevErrR.Length == 7
    requires u != prevErrL && u != prevErrR && prevErrL != prevErrR
    requires |low| == ActuatorCount && |high| == ActuatorCount
    requires forall i :: 0 <= i < ActuatorCount ==> low[i] <= high[i]
    requires dt != 0.0
    modifies u, prevErrL, prevErrR
    ensures CommandOk(command, low, high, leftGrp, rightGrp)
    ensures u[..] == command
    ensures posErr == StepPosErr(r, leftTarget, rightTarget)
    ensures converged == Converged(r, leftTarget, rightTarget, posThreshold, rotThreshold)
    ensures var lawL := ControlLaw(Sub(r.left.currQ, r.left.ikQ), old(prevErrL[..]), k, dt);
            forall i :: 0 <= i < 7 ==> command[i] == Clip(lawL[i], low[i], high[i])
    ensures var lawR := ControlLaw(Sub(r.right.currQ, r.right.ikQ), old(prevErrR[..]), k, dt);
            forall i :: 0 <= i < 7 ==> command[8 + i] == Clip(lawR[i], low[8 + i], high[8 + i])
    ensures prevErrL[..] == Sub(r.left.currQ, r.left.ikQ)
    ensures prevErrR[..] == Sub(r.right.currQ, r.right.ikQ)
  {
    var errL := ArmStep(u, prevErrL, 0, r.left, leftTarget, yawL, r.pitch, k, dt);
    ghost var afterL := u[..];
    var errR := ArmStep(u, prevErrR, 8, r.right, rightTarget, yawR, r.pitch, k, dt);
    assert forall i :: 0 <= i < 7 ==> u[i] == afterL[i];
    posErr := Max(errL, errR);
    converged := posErr < posThreshold && Max(r.left.rotErr, r.right.rotErr) < rotThreshold;
    u[7] := leftGrp;
    u[15] := rightGrp;
    ghost var raw := u[..];
    forall j | 0 <= j < ActuatorCount {
      u[j] := Clip(u[j], low[j], high[j]);
    }
    command := u[..];
    assert forall j :: 0 <= j < ActuatorCount ==> command[j] == Clip(raw[j], low[j], high[j]);
  }

  /** The counting-mode test: every coordinate of the relative object position moved less than 0.002. */
  predicate Still(relPos: seq<real>, prevRelPos: seq<real>)
    requires |relPos| == |prevRelPos|
  {
    forall j :: 0 <= j < |relPos| ==> Abs(relPos[j] - prevRelPos[j]) < StillThreshold
  }

  /** The object position relative to the grasp centre, the quantity whose stillness is counted. */
  function RelPos(r: StepReading): (p: seq<real>)
    requires ReadingFits(r)
    ensures |p| == 3
  {
    Sub(r.objectPos, GraspCenter(Position(r.left.currPose), Position(r.right.currPose)))
  }

  /** A step counts as stable when the object kept still relative to the grippers and is off the table. */
  predicate StableStep(r: StepReading, prevRelPos: seq<real>)
    requires ReadingFits(r) && |prevRelPos| == 3
  {
    Still(RelPos(r), prevRelPos) && r.objectAboveTable
  }

  /**
   * One iteration of `_move_arms`: the servo step, then the break test and,
   * in counting mode, the stable-step bookkeeping.
   */
  method Iteration(u: array<real>, prevErrL: array<real>, prevErrR: array<real>, r: StepReading,
                   leftTarget: seq<real>, rightTarget: seq<real>, yawL: Quat, yawR: Quat, k: real, dt: real,
                   leftGrp: real, rightGrp: real, low: seq<real>, high: seq<real>, posThreshold: real, rotThreshold: real,
                   countStableSteps: bool, i: nat, stableSteps: nat, prevRelPos: seq<real>)
    returns (command: seq<real>, posErr: real, converged: bool, stableSteps': nat, prevRelPos': seq<real>, stop: bool)
    requires ReadingFits(r) && |leftTarget| == 3 && |rightTarget| == 3 && |prevRelPos| == 3
    requires u.Length == ActuatorCount && prevErrL.Length == 7 && prevErrR.Length == 7
    requires u != prevErrL && u != prevErrR && prevErrL != prevErrR
    requires |low| == ActuatorCount && |high| == ActuatorCount
    requires forall j :: 0 <= j < ActuatorCount ==> low[j] <= high[j]
    requires dt != 0.0
    modifies u, prevErrL, prevErrR
    ensures CommandOk(command, low, high, leftGrp, rightGrp)
    ensures posErr == StepPosErr(r, leftTarget, rightTarget)
    ensures converged == Converged(r, leftTarget, rightTarget, posThreshold, rotThreshold)
    ensures PdCommand(command, r, old(prevErrL[..]), old(prevErrR[..]), k, dt, low, high)
    ensures command == Command(r, old(prevErrL[..]), old(prevErrR[..]), k, dt, low, high, leftGrp, rightGrp)
    ensures prevErrL[..] == JointError(r.left) && prevErrR[..] == JointError(r.right)
    ensures |prevRelPos'| == 3
    ensures converged ==> stop && stableSteps' == stableSteps && prevRelPos' == prevRelPos
    ensures !converged && !countStableSteps ==> !stop && stableSteps' == stableSteps && prevRelPos' == prevRelPos
    ensures !converged && countStableSteps ==>
      && prevRelPos' == RelPos(r)
      && stableSteps' == (if StableStep(r, prevRelPos) then stableSteps + 1 else stableSteps)
      && stop == (!StableStep(r, prevRelPos) && i > StableGrace)
  {
    command, posErr, converged := ServoStep(u, prevErrL, prevErrR, r, leftTarget, rightTarget, yawL, yawR,
                                            k, dt, leftGrp, rightGrp, low, high, posThreshold, rotThreshold);
    assert PdCommand(command, r, old(prevErrL[..]), old(prevErrR[..]), k, dt, low, high);
    CommandMeaning(command, r, old(prevErrL[..]), old(prevErrR[..]), k, dt, low, high, leftGrp, rightGrp);
    stableSteps', prevRelPos', stop := stableSteps, prevRelPos, false;
    if converged {
      stop := true;
    } else if countStableSteps {
      var relPos := RelPos(r);
      var stable := Still(relPos, prevRelPos) && r.objectAboveTable;
      stableSteps' := if stable then stableSteps + 1 else stableSteps;
      stop := !stable && i > StableGrace;
      prevRelPos' := relPos;
    }
  }

  ghost predicate ReadingsFit(readings: seq<StepReading>)
  {
    forall t :: 0 <= t < |readings| ==> ReadingFits(readings[t])
  }

  /**
   * What the break tests of `_move_arms` look at in one step: whether both
   * errors are below their thresholds, the object's position relative to the
   * grasp centre, and whether the object is above the table.
   */
  datatype StepView = StepView(converged: bool, relPos: seq<real>, aboveTable: bool)

  /** The views of successive steps' readings. */
  ghost function Views(readings: seq<StepReading>, leftTarget: seq<real>, rightTarget: seq<real>,
                       posThreshold: real, rotThreshold: real): (vs: seq<StepView>)
    requires ReadingsFit(readings) && |leftTarget| == 3 && |rightTarget| == 3
    ensures |vs| == |readings| && ViewsFit(vs)
  {
    seq(|readings|, t requires 0 <= t < |readings| =>
      StepView(Converged(readings[t], leftTarget, rightTarget, posThreshold, rotThreshold), RelPos(readings[t]),
               readings[t].objectAboveTable))
  }

  /** Step `t`'s view is its break-test verdict, its relative object position and its table test. */
  lemma ViewAt(readings: seq<StepReading>, leftTarget: seq<real>, rightTarget: seq<real>,
               posThreshold: real, rotThreshold: real, t: nat)
    requires ReadingsFit(readings) && |leftTarget| == 3 && |rightTarget| == 3 && t < |readings|
    ensures var v := Views(readings, leftTarget, rightTarget, posThreshold, rotThreshold)[t];
      && v.converged == Converged(readings[t], leftTarget, rightTarget, posThreshold, rotThreshold)
      && v.relPos == RelPos(readings[t])
      && v.aboveTable == readings[t].objectAboveTable
  {
  }

  ghost predicate ViewsFit(views: seq<StepView>)
  {
    forall t :: 0 <= t < |views| ==> |views[t].relPos| == 3
  }

  /** `StableStep` on a view: the object kept still relative to the grippers and is off the table. */
  predicate Steady(v: StepView, prevRelPos: seq<real>)
    requires |v.relPos| == |prevRelPos|
  {
    Still(v.relPos, prevRelPos) && v.aboveTable
  }

  /**
   * How many servo steps `_move_arms` takes outside counting mode, counting
   * from step `from`: up to and including the first step whose errors are
   * below both thresholds, and at most `maxSteps`.
   */
  function StepsTaken(views: seq<StepView>, maxSteps: nat, from: nat): (n: nat)
    requires maxSteps <= |views| && from <= maxSteps
    decreases maxSteps - from
  {
    if from == maxSteps then maxSteps
    else if views[from].converged then from + 1
    else StepsTaken(views, maxSteps, from + 1)
  }

  /**
   * The servo loop stops at the first converged step: no step before the
   * last one taken converged, and stopping short of `maxSteps` means the
   * last step did.
   */
  lemma {:induction false} StepsTakenIsFirstConvergence(views: seq<StepView>, maxSteps: nat, from: nat)
    requires maxSteps <= |views| && from <= maxSteps
    ensures var n := StepsTaken(views, maxSteps, from);
            && from <= n <= maxSteps
            && (from < maxSteps ==> from < n)
            && (forall t :: from <= t < n - 1 ==> !views[t].converged)
            && (n < maxSteps ==> views[n - 1].converged)
    decreases maxSteps - from
  {
    if from < maxSteps && !views[from].converged {
      StepsTakenIsFirstConvergence(views, maxSteps, from + 1);
    }
  }

  /**
   * Counting mode of `_move_arms` from step `from`, with `stable` stable
   * steps so far and the previous relative position: the number of steps
   * taken and the number of stable steps. The loop stops at a converged
   * step, at an unstable step after the grace period, or after `maxSteps`.
   */
  function StableRun(views: seq<StepView>, maxSteps: nat, from: nat, stable: nat, prevRelPos: seq<real>): (res: (nat, nat))
    requires ViewsFit(views) && maxSteps <= |views| && from <= maxSteps && |prevRelPos| == 3
    ensures from <= res.0 <= maxSteps
    ensures from < maxSteps ==> from < res.0
    ensures stable <= res.1 <= stable + (res.0 - from)
    decreases maxSteps - from
  {
    if from == maxSteps then (from, stable)
    else
      var v := views[from];
      if v.converged then (from + 1, stable)
      else
        var steady := Steady(v, prevRelPos);
        var stable' := if steady then stable + 1 else stable;
        if !steady && from > StableGrace then (from + 1, stable')
        else StableRun(views, maxSteps, from + 1, stable', v.relPos)
  }

  /** Counting mode goes past a step only when that step did not converge. */
  lemma {:induction false} StableRunPassed(views: seq<StepView>, maxSteps: nat, from: nat, stable: nat,
                                           prevRelPos: seq<real>, t: nat)
    requires ViewsFit(views) && maxSteps <= |views| && from <= maxSteps && |prevRelPos| == 3 && from <= t
    requires t + 1 < StableRun(views, maxSteps, from, stable, prevRelPos).0
    ensures !views[t].converged
    decreases maxSteps - from
  {
    var v := views[from];
    var stable' := if Steady(v, prevRelPos) then stable + 1 else stable;
    if t > from {
      assert StableRun(views, maxSteps, from, stable, prevRelPos) == StableRun(views, maxSteps, from + 1, stable', v.relPos);
      StableRunPassed(views, maxSteps, from + 1, stable', v.relPos, t);
    }
  }

  /** A counting-mode stop before `maxSteps` within the first eleven steps is a converged step. */
  lemma {:induction false} StableRunEarlyStop(views: seq<StepView>, maxSteps: nat, from: nat, stable: nat,
                                              prevRelPos: seq<real>)
    requires ViewsFit(views) && maxSteps <= |views| && from <= maxSteps && |prevRelPos| == 3
    requires var n := StableRun(views, maxSteps, from, stable, prevRelPos).0;
             n < maxSteps && n <= StableGrace + 1
    ensures views[StableRun(views, maxSteps, from, stable, prevRelPos).0 - 1].converged
    decreases maxSteps - from
  {
    var v := views[from];
    if !v.converged {
      var stable' := if Steady(v, prevRelPos) then stable + 1 else stable;
      assert StableRun(views, maxSteps, from, stable, prevRelPos) == StableRun(views, maxSteps, from + 1, stable', v.relPos);
      StableRunEarlyStop(views, maxSteps, from + 1, stable', v.relPos);
    }
  }

  /**
   * Counting mode stops early only for a reason: no step before the last one
   * converged, and a stop before `maxSteps` within the first eleven steps
   * means the last step converged.
   */
  lemma StableRunStops(views: seq<StepView>, maxSteps: nat, from: nat, stable: nat, prevRelPos: seq<real>)
    requires ViewsFit(views) && maxSteps <= |views| && from <= maxSteps && |prevRelPos| == 3
    ensures var n := StableRun(views, maxSteps, from, stable, prevRelPos).0;
            && (forall t :: from <= t < n - 1 ==> !views[t].converged)
            && (n < maxSteps && n <= StableGrace + 1 ==> views[n - 1].converged)
  {
    var n := StableRun(views, maxSteps, from, stable, prevRelPos).0;
    forall t | from <= t < n - 1
      ensures !views[t].converged
    {
      StableRunPassed(views, maxSteps, from, stable, prevRelPos, t);
    }
    if n < maxSteps && n <= StableGrace + 1 {
      StableRunEarlyStop(views, maxSteps, from, stable, prevRelPos);
    }
  }

  /** Outside counting mode one iteration advances `StepsTaken` by one step: it either stops here or continues. */
  lemma StepsTakenAdvance(views: seq<StepView>, maxSteps: nat, i: nat, stop: bool)
    requires maxSteps <= |views| && i < maxSteps
    requires stop == views[i].converged
    ensures stop ==> StepsTaken(views, maxSteps, i) == i + 1
    ensures !stop ==> StepsTaken(views, maxSteps, i) == StepsTaken(views, maxSteps, i + 1)
  {
  }

  /** One counting-mode iteration advances `StableRun` by one step: it either stops with the totals or continues. */
  lemma StableRunAdvance(views: seq<StepView>, maxSteps: nat, i: nat, stable: nat, prevRelPos: seq<real>,
                         stable': nat, prevRelPos': seq<real>, stop: bool)
    requires ViewsFit(views) && maxSteps <= |views| && i < maxSteps && |prevRelPos| == 3 && |prevRelPos'| == 3
    requires var v := views[i];
      if v.converged then stop && stable' == stable
      else
        && prevRelPos' == v.relPos
        && stable' == (if Steady(v, prevRelPos) then stable + 1 else stable)
        && stop == (!Steady(v, prevRelPos) && i > StableGrace)
    ensures stop ==> StableRun(views, maxSteps, i, stable, prevRelPos) == (i + 1, stable')
    ensures !stop ==> StableRun(views, maxSteps, i, stable, prevRelPos) == StableRun(views, maxSteps, i + 1, stable', prevRelPos')
  {
  }

  /** The joint errors the controller holds before step `t`: zero at first, then the errors of step `t - 1`. */
  function PrevError(readings: seq<StepReading>, t: nat, left: bool): (e: seq<real>)
    requires ReadingsFit(readings) && t <= |readings|
    ensures |e| == 7
    ensures t == 0 ==> e == Zeros(7)
  {
    if t == 0 then Zeros(7)
    else if left then JointError(readings[t - 1].left)
    else JointError(readings[t - 1].right)
  }

  /** The commands `_move_arms` sends in its first `n` steps, each given the previous step's errors. */
  ghost function Commands(readings: seq<StepReading>, n: nat, k: real, dt: real,
                          low: seq<real>, high: seq<real>, leftGrp: real, rightGrp: real): (cs: seq<seq<real>>)
    requires ReadingsFit(readings) && n <= |readings| && dt != 0.0
    requires |low| == ActuatorCount && |high| == ActuatorCount
    ensures |cs| == n
    decreases n
  {
    if n == 0 then []
    else Commands(readings, n - 1, k, dt, low, high, leftGrp, rightGrp)
         + [Command(readings[n - 1], PrevError(readings, n - 1, true), PrevError(readings, n - 1, false),
                    k, dt, low, high, leftGrp, rightGrp)]
  }

  /** The command of step `t` among the first `n`. */
  lemma {:induction false} CommandsAt(readings: seq<StepReading>, n: nat, k: real, dt: real,
                                      low: seq<real>, high: seq<real>, leftGrp: real, rightGrp: real, t: nat)
    requires ReadingsFit(readings) && n <= |readings| && dt != 0.0
    requires |low| == ActuatorCount && |high| == ActuatorCount && t < n
    ensures Commands(readings, n, k, dt, low, high, leftGrp, rightGrp)[t]
            == Command(readings[t], PrevError(readings, t, true), PrevError(readings, t, false), k, dt, low, high, leftGrp, rightGrp)
    decreases n
  {
    if t < n - 1 {
      CommandsAt(readings, n - 1, k, dt, low, high, leftGrp, rightGrp, t);
    }
  }

  /** The arguments of one `_move_arms` call, and what the simulator shows at successive steps. */
  datatype Servo = Servo(leftTarget: seq<real>, rightTarget: seq<real>, yawL: Quat, yawR: Quat,
                         posThreshold: real, rotThreshold: real, k: real, maxSteps: nat, countStableSteps: bool,
                         leftGrp: real, rightGrp: real, low: seq<real>, high: seq<real>, dt: real,
                         readings: seq<StepReading>)

  /** What `_move_arms` demands of its arguments. */
  ghost predicate ServoOk(s: Servo)
  {
    && |s.leftTarget| == 3 && |s.rightTarget| == 3
    && |s.low| == ActuatorCount && |s.high| == ActuatorCount
    && (forall i :: 0 <= i < ActuatorCount ==> s.low[i] <= s.high[i])
    && s.dt != 0.0
    && s.maxSteps <= |s.readings|
    && ReadingsFit(s.readings)
  }

  /** The views of the steps of one `_move_arms` call. */
  ghost function ServoViews(s: Servo): (vs: seq<StepView>)
    requires ServoOk(s)
    ensures |vs| == |s.readings| && ViewsFit(vs)
  {
    Views(s.readings, s.leftTarget, s.rightTarget, s.posThreshold, s.rotThreshold)
  }

  /**
   * The loop state of `_move_arms` after `i` steps: the commands sent, the
   * last step's position error, the controller's previous errors, and the
   * step and stable counts so far as `StepsTaken` and `StableRun` describe
   * them (`stop` once the loop has broken out).
   */
  ghost predicate Progress(s: Servo, i: nat, sent: seq<seq<real>>, stableSteps: nat, prevRelPos: seq<real>,
                           prevL: seq<real>, prevR: seq<real>, maxPosErr: MaxError, stop: bool)
    requires ServoOk(s)
  {
    && i <= s.maxSteps && |sent| == i
    && sent == Commands(s.readings, i, s.k, s.dt, s.low, s.high, s.leftGrp, s.rightGrp)
    && stableSteps <= i && |prevRelPos| == 3
    && (i == 0 ==> maxPosErr == NegInfinity && !stop)
    && (i > 0 ==> maxPosErr == Finite(StepPosErr(s.readings[i - 1], s.leftTarget, s.rightTarget)))
    && (!s.countStableSteps && stop ==>
          StepsTaken(ServoViews(s), s.maxSteps, 0) == i)
    && (!s.countStableSteps && !stop ==>
          StepsTaken(ServoViews(s), s.maxSteps, 0)
          == StepsTaken(ServoViews(s), s.maxSteps, i))
    && (s.countStableSteps && stop ==>
          StableRun(ServoViews(s), s.maxSteps, 0, 0, Zeros(3))
          == (i, stableSteps))
    && (s.countStableSteps && !stop ==>
          StableRun(ServoViews(s), s.maxSteps, 0, 0, Zeros(3))
          == StableRun(ServoViews(s), s.maxSteps, i, stableSteps, prevRelPos))
    && prevL == PrevError(s.readings, i, true) && prevR == PrevError(s.readings, i, false)
  }

  /** What one `Iteration` at step `i` reports takes `Progress` from step `i` to step `i + 1`. */
  lemma ProgressNext(s: Servo, i: nat, sent: seq<seq<real>>, stableSteps: nat, prevRelPos: seq<real>,
                     prevL: seq<real>, prevR: seq<real>, maxPosErr: MaxError,
                     command: seq<real>, posErr: real, converged: bool, stableSteps': nat, prevRelPos': seq<real>,
                     stop: bool, newL: seq<real>, newR: seq<real>)
    requires ServoOk(s) && i < s.maxSteps
    requires Progress(s, i, sent, stableSteps, prevRelPos, prevL, prevR, maxPosErr, false)
    requires command == Command(s.readings[i], prevL, prevR, s.k, s.dt, s.low, s.high, s.leftGrp, s.rightGrp)
    requires posErr == StepPosErr(s.readings[i], s.leftTarget, s.rightTarget)
    requires converged == Converged(s.readings[i], s.leftTarget, s.rightTarget, s.posThreshold, s.rotThreshold)
    requires newL == JointError(s.readings[i].left) && newR == JointError(s.readings[i].right)
    requires |prevRelPos'| == 3
    requires converged ==> stop && stableSteps' == stableSteps && prevRelPos' == prevRelPos
    requires !converged && !s.countStableSteps ==> !stop && stableSteps' == stableSteps && prevRelPos' == prevRelPos
    requires !converged && s.countStableSteps ==>
      && prevRelPos' == RelPos(s.readings[i])
      && stableSteps' == (if StableStep(s.readings[i], prevRelPos) then stableSteps + 1 else stableSteps)
      && stop == (!StableStep(s.readings[i], prevRelPos) && i > StableGrace)
    ensures Progress(s, i + 1, sent + [command], stableSteps', prevRelPos', newL, newR, Finite(posErr), stop)
  {
    assert PrevError(s.readings, i + 1, true) == newL && PrevError(s.readings, i + 1, false) == newR;
    assert sent + [command] == Commands(s.readings, i + 1, s.k, s.dt, s.low, s.high, s.leftGrp, s.rightGrp);
    var vs := ServoViews(s);
    ViewAt(s.readings, s.leftTarget, s.rightTarget, s.posThreshold, s.rotThreshold, i);
    assert vs[i].converged == converged && vs[i].relPos == RelPos(s.readings[i]);
    if s.countStableSteps {
      assert Steady(vs[i], prevRelPos) == StableStep(s.readings[i], prevRelPos);
      StableRunAdvance(vs, s.maxSteps, i, stableSteps, prevRelPos, stableSteps', prevRelPos', stop);
    } else {
      StepsTakenAdvance(vs, s.maxSteps, i, stop);
    }
  }

  /**
   * Step `i` of `_move_arms` with its bookkeeping: the command joins the
   * sent ones, the controller's errors become this step's, and the step
   * count (and, in counting mode, the stable count) advance as `StepsTaken`
   * and `StableRun` say.
   */
  method MoveStep(s: Servo, u: array<real>, prevErrL: array<real>, prevErrR: array<real>,
                  i: nat, sent: seq<seq<real>>, stableSteps: nat, prevRelPos: seq<real>, ghost maxPosErr: MaxError)
    returns (sent': seq<seq<real>>, posErr: real, stableSteps': nat, prevRelPos': seq<real>, stop: bool)
    requires ServoOk(s) && i < s.maxSteps
    requires u.Length == ActuatorCount && prevErrL.Length == 7 && prevErrR.Length == 7
    requires u != prevErrL && u != prevErrR && prevErrL != prevErrR
    requires Progress(s, i, sent, stableSteps, prevRelPos, prevErrL[..], prevErrR[..], maxPosErr, false)
    modifies u, prevErrL, prevErrR
    ensures Progress(s, i + 1, sent', stableSteps', prevRelPos', prevErrL[..], prevErrR[..], Finite(posErr), stop)
  {
    var command, converged;
    command, posErr, converged, stableSteps', prevRelPos', stop :=
      Iteration(u, prevErrL, prevErrR, s.readings[i], s.leftTarget, s.rightTarget, s.yawL, s.yawR, s.k, s.dt,
                s.leftGrp, s.rightGrp, s.low, s.high, s.posThreshold, s.rotThreshold, s.countStableSteps,
                i, stableSteps, prevRelPos);
    ProgressNext(s, i, sent, stableSteps, prevRelPos, old(prevErrL[..]), old(prevErrR[..]), maxPosErr,
                 command, posErr, converged, stableSteps', prevRelPos', stop, prevErrL[..], prevErrR[..]);
    sent' := sent + [command];
  }

  /** Before the first step nothing is sent, nothing counted and the controller's errors are zero. */
  lemma ProgressStart(s: Servo)
    requires ServoOk(s)
    ensures Progress(s, 0, [], 0, Zeros(3), Zeros(7), Zeros(7), NegInfinity, false)
  {
  }

  /** Once the loop has ended, `Progress` gives the totals `StepsTaken` and `StableRun` describe. */
  lemma ProgressDone(s: Servo, i: nat, sent: seq<seq<real>>, stableSteps: nat, prevRelPos: seq<real>,
                     prevL: seq<real>, prevR: seq<real>, maxPosErr: MaxError, stop: bool)
    requires ServoOk(s) && (i >= s.maxSteps || stop)
    requires Progress(s, i, sent, stableSteps, prevRelPos, prevL, prevR, maxPosErr, stop)
    ensures |sent| <= s.maxSteps && sent == Commands(s.readings, |sent|, s.k, s.dt, s.low, s.high, s.leftGrp, s.rightGrp)
    ensures stableSteps <= |sent|
    ensures |sent| == 0 ==> maxPosErr == NegInfinity
    ensures |sent| > 0 ==> maxPosErr == Finite(StepPosErr(s.readings[|sent| - 1], s.leftTarget, s.rightTarget))
    ensures !s.countStableSteps ==>
      |sent| == StepsTaken(ServoViews(s), s.maxSteps, 0)
    ensures s.countStableSteps ==>
      (|sent|, stableSteps)
      == StableRun(ServoViews(s), s.maxSteps, 0, 0, Zeros(3))
  {
    assert |sent| == i;
    LastPosErr(s, i, sent, maxPosErr);
    if !stop {
      assert i == s.maxSteps;
      if s.countStableSteps {
        assert StableRun(ServoViews(s), s.maxSteps, i, stableSteps, prevRelPos)
            == (i, stableSteps);
      } else {
        assert StepsTaken(ServoViews(s), s.maxSteps, i) == i;
      }
    }
  }

  /** The error reported after `i` steps is the last sent step's. */
  lemma LastPosErr(s: Servo, i: nat, sent: seq<seq<real>>, maxPosErr: MaxError)
    requires ServoOk(s) && i <= s.maxSteps && |sent| == i
    requires i > 0 ==> maxPosErr == Finite(StepPosErr(s.readings[i - 1], s.leftTarget, s.rightTarget))
    ensures |sent| > 0 ==> maxPosErr == Finite(StepPosErr(s.readings[|sent| - 1], s.leftTarget, s.rightTarget))
  {
  }

  /**
   * The loop of `_move_arms` on its own: the commands sent, the stable-step
   * count and the last step's position error, as `StepsTaken` and
   * `StableRun` describe them.
   */
  method ServoLoop(s: Servo) returns (sent: seq<seq<real>>, stableSteps: nat, maxPosErr: MaxError)
    requires ServoOk(s)
    ensures |sent| <= s.maxSteps && sent == Commands(s.readings, |sent|, s.k, s.dt, s.low, s.high, s.leftGrp, s.rightGrp)
    ensures stableSteps <= |sent|
    ensures |sent| == 0 ==> maxPosErr == NegInfinity
    ensures |sent| > 0 ==> maxPosErr == Finite(StepPosErr(s.readings[|sent| - 1], s.leftTarget, s.rightTarget))
    ensures !s.countStableSteps ==>
      |sent| == StepsTaken(ServoViews(s), s.maxSteps, 0)
    ensures s.countStableSteps ==>
      (|sent|, stableSteps)
      == StableRun(ServoViews(s), s.maxSteps, 0, 0, Zeros(3))
  {
    var u := new real[ActuatorCount](_ => 0.0);
    var prevErrL := new real[7](_ => 0.0);
    var prevErrR := new real[7](_ => 0.0);
    assert prevErrL[..] == Zeros(7) && prevErrR[..] == Zeros(7);
    ProgressStart(s);
    stableSteps := 0;
    var prevRelPos := Zeros(3);
    maxPosErr := NegInfinity;
    sent := [];
    var i := 0;
    var stop := false;
    while i < s.maxSteps && !stop
      invariant Progress(s, i, sent, stableSteps, prevRelPos, prevErrL[..], prevErrR[..], maxPosErr, stop)
      decreases s.maxSteps - i, !stop
    {
      var posErr;
      sent, posErr, stableSteps, prevRelPos, stop := MoveStep(s, u, prevErrL, prevErrR, i, sent, stableSteps, prevRelPos, maxPosErr);
      maxPosErr := Finite(posErr);
      i := i + 1;
    }
    ProgressDone(s, i, sent, stableSteps, prevRelPos, prevErrL[..], prevErrR[..], maxPosErr, stop);
  }

  /**
   * `_move_arms`: at most `maxSteps` servo steps. Each step commands both
   * arms with the PD law, sets the gripper slots, clips the command and
   * sends it (the sent commands are returned in order); it stops once both
   * errors are below their thresholds, and in counting mode also once a
   * step after the eleventh is not stable. `readings` are what the
   * simulator shows at successive steps.
   */
  method MoveArms(leftTarget: seq<real>, rightTarget: seq<real>, yawL: Quat, yawR: Quat,
                  posThreshold: real, rotThreshold: real, k: real, maxSteps: nat, countStableSteps: bool,
                  leftGrp: real, rightGrp: real, low: seq<real>, high: seq<real>, dt: real,
                  readings: seq<StepReading>) returns (result: MoveResult, sent: seq<seq<real>>)
    requires |leftTarget| == 3 && |rightTarget| == 3
    requires |low| == ActuatorCount && |high| == ActuatorCount
    requires forall i :: 0 <= i < ActuatorCount ==> low[i] <= high[i]
    requires dt != 0.0
    requires maxSteps <= |readings|
    requires ReadingsFit(readings)
    ensures |sent| <= maxSteps
    ensures forall t :: 0 <= t < |sent| ==> CommandOk(sent[t], low, high, leftGrp, rightGrp)
    ensures countStableSteps <==> result.StableSteps?
    ensures result.StableSteps? ==> result.count <= |sent|
    ensures !countStableSteps ==> |sent| == StepsTaken(Views(readings, leftTarget, rightTarget, posThreshold, rotThreshold), maxSteps, 0)
    ensures !countStableSteps && |sent| == 0 ==> result == MaxPosError(NegInfinity)
    ensures !countStableSteps && |sent| > 0 ==>
      result == MaxPosError(Finite(StepPosErr(readings[|sent| - 1], leftTarget, rightTarget)))
    ensures countStableSteps ==>
      (|sent|, result.count)
      == StableRun(Views(readings, leftTarget, rightTarget, posThreshold, rotThreshold), maxSteps, 0, 0, Zeros(3))
    ensures forall t :: 0 <= t < |sent| ==>
      PdCommand(sent[t], readings[t], PrevError(readings, t, true), PrevError(readings, t, false), k, dt, low, high)
    ensures sent == Commands(readings, |sent|, k, dt, low, high, leftGrp, rightGrp)
  {
    var stableSteps, maxPosErr;
    sent, stableSteps, maxPosErr := ServoLoop(Servo(leftTarget, rightTarget, yawL, yawR, posThreshold, rotThreshold, k, maxSteps,
                                                    countStableSteps, leftGrp, rightGrp, low, high, dt, readings));
    forall t | 0 <= t < |sent|
      ensures CommandOk(sent[t], low, high, leftGrp, rightGrp)
      ensures PdCommand(sent[t], readings[t], PrevError(readings, t, true), PrevError(readings, t, false), k, dt, low, high)
    {
      CommandsAt(readings, |sent|, k, dt, low, high, leftGrp, rightGrp, t);
      CommandMeaning(sent[t], readings[t], PrevError(readings, t, true), PrevError(readings, t, false),
                     k, dt, low, high, leftGrp, rightGrp);
    }
    if countStableSteps {
      return StableSteps(stableSteps), sent;
    }
    return MaxPosError(maxPosErr), sent;
  }

  /**
   * The servo part of `step`: the gripper targets of `StepTargets`, then
   * `_move_arms` with the finger commands, at most `StepMaxSteps` steps and
   * its default thresholds and gain, without stable counting. The yaw
   * quaternions, which `step` computes with `arctan2`, are inputs.
   */
  method StepServo(cfg: Config, action: seq<real>, gripperL: seq<real>, gripperR: seq<real>, yawL: Quat, yawR: Quat,
                   low: seq<real>, high: seq<real>, dt: real, readings: seq<StepReading>)
    returns (r: Result<(MoveResult, seq<seq<real>>)>)
    requires |action| == NActions(cfg)
    requires |gripperL| == 3 && |gripperR| == 3
    requires |low| == ActuatorCount && |high| == ActuatorCount
    requires forall i :: 0 <= i < ActuatorCount ==> low[i] <= high[i]
    requires dt != 0.0
    requires StepMaxSteps <= |readings|
    requires ReadingsFit(readings)
    ensures r.Err? <==> cfg.rotationCtrl
    ensures r.Err? ==> r.error == NotImplementedError
    ensures r.Ok? ==>
      var t := StepTargets(cfg, action, gripperL, gripperR).value;
      var sent := r.value.1;
      && |sent| <= StepMaxSteps
      && |sent| == StepsTaken(Views(readings, t.left, t.right, DefaultPosThreshold, DefaultRotThreshold), StepMaxSteps, 0)
      && sent == Commands(readings, |sent|, DefaultGain, dt, low, high, t.leftFingers, t.rightFingers)
      && r.value.0 == (if |sent| == 0 then MaxPosError(NegInfinity)
                       else MaxPosError(Finite(StepPosErr(readings[|sent| - 1], t.left, t.right))))
  {
    var targets := StepTargets(cfg, action, gripperL, gripperR);
    if targets.Err? {
      return Err(targets.error);
    }
    var t := targets.value;
    var result, sent := MoveArms(t.left, t.right, yawL, yawR, DefaultPosThreshold, DefaultRotThreshold, DefaultGain,
                                 StepMaxSteps, false, t.leftFingers, t.rightFingers, low, high, dt, readings);
    return Ok((result, sent));
  }
}
