/**
 * The goal logic of the hand pick-and-place environment
 * (`_PickAndPlaceEnv` in `gym/envs/robotics/hand/pick_and_place.py`): the
 * hand carries an object to a goal pose; target rotation is never ignored,
 * success needs no grasp, and rewards take no weights.
 */
module HandPickAndPlace {
  import opened Outcomes
  import opened Vectors
  import opened Metrics
  import opened Quaternions
  import opened Transformations
  import HandMove

  const DefaultDistanceThreshold: real := 0.01
  const DefaultRotationThreshold: real := 0.1
  /** Half-width of the box around the arm's initial position where goals are sampled. */
  const TargetRange: real := 0.15
  const MaxLift: real := 0.45
  /** Probability of lifting a sampled goal into the air. */
  const AirProbability: real := 0.5

  datatype Config = Config(
    rewardType: string,
    distanceThreshold: real,
    rotationThreshold: real,
    hasObject: bool,
    targetInTheAir: bool)

  /** The constructor's settings: an object, goals in the air, the given thresholds. */
  function NewPickAndPlace(rewardType: string, distanceThreshold: real, rotationThreshold: real): (cfg: Config)
    ensures cfg.hasObject && cfg.targetInTheAir
    ensures cfg.rewardType == rewardType
    ensures cfg.distanceThreshold == distanceThreshold && cfg.rotationThreshold == rotationThreshold
  {
    Config(rewardType, distanceThreshold, rotationThreshold, true, true)
  }

  /** The constructor with its default thresholds: 1 cm and 0.1 rad. */
  function NewPickAndPlaceDefault(rewardType: string): (cfg: Config)
    ensures cfg.hasObject && cfg.targetInTheAir
    ensures cfg.rewardType == rewardType
    ensures cfg.distanceThreshold == 0.01 && cfg.rotationThreshold == 0.1
  {
    NewPickAndPlace(rewardType, DefaultDistanceThreshold, DefaultRotationThreshold)
  }

  /** `_goal_distance` with `ignore_target_rotation` fixed to False. */
  function GoalDistance(goalA: seq<real>, goalB: seq<real>, m: Metric): (d: HandMove.Distance)
    requires |goalA| == |goalB| == 7
    ensures d.pos == m.norm(Sub(Position(goalA), Position(goalB)))
    ensures d.rot == HandMove.AngleBetween(Orientation(goalA), Orientation(goalB), m)
  {
    HandMove.GoalDistance(goalA, goalB, false, m)
  }

  /** `_is_success`: both distances strictly below their thresholds. */
  function IsSuccess(cfg: Config, achieved: seq<real>, desired: seq<real>, m: Metric): (r: real)
    requires |achieved| == |desired| == 7
    ensures r == 0.0 || r == 1.0
    ensures r == 1.0 <==>
      GoalDistance(achieved, desired, m).pos < cfg.distanceThreshold && GoalDistance(achieved, desired, m).rot < cfg.rotationThreshold
  {
    var d := GoalDistance(achieved, desired, m);
    HandMove.Indicator(d.pos < cfg.distanceThreshold) * HandMove.Indicator(d.rot < cfg.rotationThreshold)
  }

  /** `compute_reward`: `success - 1` when sparse, `-(10 d_pos + d_rot)` otherwise. */
  function ComputeReward(cfg: Config, achieved: seq<real>, desired: seq<real>, m: Metric): (r: real)
    requires |achieved| == |desired| == 7
    ensures cfg.rewardType == "sparse" ==> (r == 0.0 || r == -1.0)
    ensures cfg.rewardType == "sparse" ==> (r == 0.0 <==> IsSuccess(cfg, achieved, desired, m) == 1.0)
    ensures cfg.rewardType != "sparse" ==>
      r == -(10.0 * m.norm(Sub(Position(achieved), Position(desired)))
             + HandMove.AngleBetween(Orientation(achieved), Orientation(desired), m))
  {
    if cfg.rewardType == "sparse" then
      IsSuccess(cfg, achieved, desired, m) - 1.0
    else
      var d := GoalDistance(achieved, desired, m);
      -(10.0 * d.pos + d.rot)
  }

  /** The moving-hand configuration that behaves like this environment. */
  function AsMovingHand(cfg: Config): (hand: HandMove.Config)
    ensures hand.rewardType == cfg.rewardType && hand.hasObject == cfg.hasObject
    ensures hand.distanceThreshold == cfg.distanceThreshold && hand.rotationThreshold == cfg.rotationThreshold
    ensures !hand.ignoreTargetRotation && !hand.successOnGraspOnly
  {
    HandMove.Config(cfg.rewardType, cfg.hasObject, false, false, false, HandMove.NoGraspState, 0.0,
                    cfg.distanceThreshold, cfg.rotationThreshold, 0.0, false, false, "original")
  }

  /**
   * Success and reward are the moving hand's with rotation not ignored, no
   * grasp requirement and no weights, so goals relabelled by either agree.
   */
  lemma AgreesWithMovingHand(cfg: Config, achieved: seq<real>, desired: seq<real>, m: Metric)
    requires |achieved| == |desired| == 7
    ensures IsSuccess(cfg, achieved, desired, m) == HandMove.IsSuccess(AsMovingHand(cfg), achieved, desired, m)
    ensures ComputeReward(cfg, achieved, desired, m) == HandMove.ComputeReward(AsMovingHand(cfg), achieved, desired, None, m)
  {
    assert achieved[..7] == achieved && desired[..7] == desired;
  }

  /** The dense reward is never positive and is zero at a unit-quaternion goal itself. */
  lemma DenseRewardBounds(cfg: Config, achieved: seq<real>, desired: seq<real>, m: Metric)
    requires cfg.rewardType != "sparse" && |achieved| == |desired| == 7
    requires Valid(m)
    ensures ComputeReward(cfg, achieved, desired, m) <= 0.0
    ensures achieved == desired && IsUnit(Orientation(desired)) ==> ComputeReward(cfg, achieved, desired, m) == 0.0
  {
    AgreesWithMovingHand(cfg, achieved, desired, m);
    HandMove.DenseRewardBounds(AsMovingHand(cfg), achieved, desired, None, m);
  }

  /** `_get_achieved_goal`: a copy of the object's (or the wall mount's) 7-element joint position. */
  function AchievedGoal(cfg: Config, objectQpos: seq<real>, mountQpos: seq<real>): (g: seq<real>)
    requires cfg.hasObject ==> |objectQpos| == 7
    requires !cfg.hasObject ==> |mountQpos| == 7
    ensures |g| == 7
    ensures g == if cfg.hasObject then objectQpos else mountQpos
  {
    if cfg.hasObject then objectQpos else mountQpos
  }

  /** Unit draws for `_sample_goal`: the offset box, the in-the-air coin and the lift. */
  datatype GoalDraws = GoalDraws(offset: seq<real>, air: real, lift: real)

  predicate GoalDrawsOk(d: GoalDraws)
  {
    |d.offset| == 3 && UnitDraws(d.offset) && 0.0 <= d.air < 1.0 && 0.0 <= d.lift < 1.0
  }

  /**
   * `_sample_goal`: the arm's initial position plus a uniform offset in
   * [-0.15, 0.15] per axis; with an object z is the object's resting height,
   * lifted by up to 0.45 when goals may be in the air and the coin is below
   * 0.5; then a zero quaternion.
   */
  function SampleGoal(cfg: Config, initialArmXpos: seq<real>, heightOffset: real, d: GoalDraws): (g: seq<real>)
    requires |initialArmXpos| >= 3 && |d.offset| == 3
    ensures |g| == 7
    ensures forall i :: 3 <= i < 7 ==> g[i] == 0.0
    ensures GoalDrawsOk(d) ==> forall i :: 0 <= i < 2 ==> initialArmXpos[i] - TargetRange <= g[i] <= initialArmXpos[i] + TargetRange
    ensures !cfg.hasObject && GoalDrawsOk(d) ==> initialArmXpos[2] - TargetRange <= g[2] <= initialArmXpos[2] + TargetRange
    ensures cfg.hasObject && !(cfg.targetInTheAir && d.air < AirProbability) ==> g[2] == heightOffset
    ensures cfg.hasObject && GoalDrawsOk(d) ==> heightOffset <= g[2] < heightOffset + MaxLift
  {
    var offset := UniformVec([-TargetRange, -TargetRange, -TargetRange], [TargetRange, TargetRange, TargetRange], d.offset);
    var xyz := Add(initialArmXpos[..3], offset);
    var z := if !cfg.hasObject then xyz[2]
             else if cfg.targetInTheAir && d.air < AirProbability then heightOffset + Uniform(0.0, MaxLift, d.lift)
             else heightOffset;
    [xyz[0], xyz[1], z] + Zeros(4)
  }

  /** `_get_obs`: robot joint positions and velocities, the object's velocity, then the achieved goal. */
  function Observation(cfg: Config, robotQpos: seq<real>, robotQvel: seq<real>, objectQvel: seq<real>, achieved: seq<real>): (obs: seq<real>)
    requires |achieved| == 7
    ensures |obs| == |robotQpos| + |robotQvel| + (if cfg.hasObject then |objectQvel| else 0) + 7
    ensures obs[..|robotQpos|] == robotQpos
    ensures obs[|robotQpos|..|robotQpos| + |robotQvel|] == robotQvel
    ensures cfg.hasObject ==>
      obs[|robotQpos| + |robotQvel|..|robotQpos| + |robotQvel| + |objectQvel|] == objectQvel
    ensures obs[|obs| - 7..] == achieved
  {
    var objectPart := if cfg.hasObject then objectQvel else [];
    var obs := robotQpos + robotQvel + objectPart + achieved;
    assert obs == ((robotQpos + robotQvel) + objectPart) + achieved;
    assert obs[..|robotQpos|] == robotQpos;
    assert obs[|robotQpos|..|robotQpos| + |robotQvel|] == robotQvel;
    obs
  }

  /** The achieved goal is the observation's last 7 entries; the object part is empty without an object. */
  lemma ObservationEndsWithGoal(cfg: Config, robotQpos: seq<real>, robotQvel: seq<real>, objectQvel: seq<real>, achieved: seq<real>)
    requires |achieved| == 7
    ensures var obs := Observation(cfg, robotQpos, robotQvel, objectQvel, achieved);
            obs[|obs| - 7..] == achieved
    ensures !cfg.hasObject ==> Observation(cfg, robotQpos, robotQvel, objectQvel, achieved) == robotQpos + robotQvel + achieved
  {
    var obs := Observation(cfg, robotQpos, robotQvel, objectQvel, achieved);
    var objectPart := if cfg.hasObject then objectQvel else [];
    assert obs == (robotQpos + robotQvel + objectPart) + achieved;
  }
}
