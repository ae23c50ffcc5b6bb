/**
 * The goal, reward, action and reset logic of the moving-hand environments
 * (`MovingHandEnv` in `gym/envs/robotics/hand/move.py`): a Shadow hand on a
 * mocap-driven forearm that reaches for, or carries an object to, a goal
 * pose `[x, y, z, qw, qx, qy, qz]`, optionally followed by the palm-object
 * distance when success requires a grasp.
 *
 * Simulator reads are parameters, `norm`/`arccos` come in a `Metric`, and
 * random draws are unit draws in [0, 1) supplied by the caller.
 */
module HandMove {
  import opened Outcomes
  import opened Vectors
  import opened Metrics
  import opened Quaternions
  import opened Transformations

  /** Box that the forearm mocap position is clipped to. */
  const ForearmLow: seq<real> := [0.65, 0.3, 0.42]
  const ForearmHigh: seq<real> := [1.75, 1.2, 1.0]
  /** Box on the table where objects are placed and goals are sampled (x, y). */
  const TableLow: seq<real> := [1.10, 0.43]
  const TableHigh: seq<real> := [1.49, 1.05]
  const DefaultMass: real := 0.2
  /** Palm-object distance below which the object counts as held. */
  const GraspDistance: real := 0.08
  /** Object speed below which a reset is accepted. */
  const StillSpeed: real := 0.8
  const MaxLift: real := 0.45
  const ForearmScale: real := 0.1
  const HandActuators: nat := 20
  /** 20 hand actuators, a 3-element position delta and a 4-element quaternion delta. */
  const ActionLength: nat := 27

  // ---------------------------------------------------------------------
  // Goal distance, success and reward

  datatype Distance = Distance(pos: real, rot: real)

  /** Twice the arccos of the scalar part of `qa * conj(qb)`, clipped to [-1, 1]. */
  function AngleBetween(qa: Quat, qb: Quat, m: Metric): (angle: real)
    ensures Valid(m) ==> 0.0 <= angle
  {
    2.0 * m.arccos(Clip(Mul(qa, Conjugate(qb)).w, -1.0, 1.0))
  }

  /** `_goal_distance`: Euclidean position distance and, unless ignored, the rotation angle. */
  function GoalDistance(goalA: seq<real>, goalB: seq<real>, ignoreTargetRotation: bool, m: Metric): (d: Distance)
    requires |goalA| == |goalB| == 7
    ensures d.pos == m.norm(Sub(Position(goalA), Position(goalB)))
    ensures ignoreTargetRotation ==> d.rot == 0.0
    ensures !ignoreTargetRotation ==> d.rot == AngleBetween(Orientation(goalA), Orientation(goalB), m)
  {
    var dPos := m.norm(Sub(Position(goalA), Position(goalB)));
    if ignoreTargetRotation then
      Distance(dPos, 0.0)
    else
      Distance(dPos, AngleBetween(Orientation(goalA), Orientation(goalB), m))
  }

  /** The position distance reads components 0-2 only; with rotation ignored, so does all of it. */
  lemma GoalDistanceReadsPosition(a: seq<real>, b: seq<real>, a2: seq<real>, b2: seq<real>, ignoreTargetRotation: bool, m: Metric)
    requires |a| == |b| == |a2| == |b2| == 7
    requires a[..3] == a2[..3] && b[..3] == b2[..3]
    ensures GoalDistance(a, b, ignoreTargetRotation, m).pos == GoalDistance(a2, b2, ignoreTargetRotation, m).pos
    ensures ignoreTargetRotation ==> GoalDistance(a, b, true, m) == GoalDistance(a2, b2, true, m)
  {
  }

  lemma GoalDistanceNonNegative(a: seq<real>, b: seq<real>, ignoreTargetRotation: bool, m: Metric)
    requires |a| == |b| == 7
    requires Valid(m)
    ensures GoalDistance(a, b, ignoreTargetRotation, m).pos >= 0.0
    ensures GoalDistance(a, b, ignoreTargetRotation, m).rot >= 0.0
  {
    var t := Clip(Mul(Orientation(a), Conjugate(Orientation(b))).w, -1.0, 1.0);
    assert -1.0 <= t <= 1.0;
    assert m.arccos(t) >= 0.0;
  }

  /** A goal is at distance zero from itself when its quaternion is a unit or rotation is ignored. */
  lemma GoalDistanceToSelf(g: seq<real>, ignoreTargetRotation: bool, m: Metric)
    requires |g| == 7
    requires Valid(m)
    requires !ignoreTargetRotation ==> IsUnit(Orientation(g))
    ensures GoalDistance(g, g, ignoreTargetRotation, m) == Distance(0.0, 0.0)
  {
    var delta := Sub(Position(g), Position(g));
    assert AllZero(delta);
    NormZero(m, delta);
    if !ignoreTargetRotation {
      MulConjugate(Orientation(g));
      assert Clip(1.0, -1.0, 1.0) == 1.0;
    }
  }

  lemma {:induction false} SumSqSubSwap(x: seq<real>, y: seq<real>)
    requires |x| == |y|
    ensures SumSq(Sub(x, y)) == SumSq(Sub(y, x))
  {
    if x != [] {
      var d, e := Sub(x, y), Sub(y, x);
      assert d[1..] == Sub(x[1..], y[1..]);
      assert e[1..] == Sub(y[1..], x[1..]);
      SumSqSubSwap(x[1..], y[1..]);
      assert e[0] == -d[0];
      assert e[0] * e[0] == d[0] * d[0];
    }
  }

  /** The distance is symmetric, so relabelling goals in either order gives the same reward. */
  lemma GoalDistanceSymmetric(a: seq<real>, b: seq<real>, ignoreTargetRotation: bool, m: Metric)
    requires |a| == |b| == 7
    requires Valid(m)
    ensures GoalDistance(a, b, ignoreTargetRotation, m) == GoalDistance(b, a, ignoreTargetRotation, m)
  {
    var u, v := Sub(Position(a), Position(b)), Sub(Position(b), Position(a));
    SumSqSubSwap(Position(a), Position(b));
    SqrtUnique(m.norm(u), m.norm(v));
    assert Mul(Orientation(a), Conjugate(Orientation(b))).w == Mul(Orientation(b), Conjugate(Orientation(a))).w;
  }

  /**
   * `q` and `-q` describe the same rotation, but the code does not identify
   * them: their angle is `2 * arccos(-1)`, not zero.
   */
  lemma GoalDistanceOppositeQuaternion(a: seq<real>, b: seq<real>, m: Metric)
    requires |a| == |b| == 7
    requires IsUnit(Orientation(a))
    requires Orientation(b) == Times(-1.0, Orientation(a))
    ensures GoalDistance(a, b, false, m).rot == 2.0 * m.arccos(-1.0)
  {
    var q := Orientation(a);
    MulConjugate(q);
    assert Mul(q, Conjugate(Times(-1.0, q))).w == -Mul(q, Conjugate(q)).w;
  }

  /** Against a goal whose quaternion slots are zero the angle is always `2 * arccos(0)`. */
  lemma GoalDistanceToZeroQuaternion(a: seq<real>, b: seq<real>, m: Metric)
    requires |a| == |b| == 7
    requires Orientation(b) == Quat(0.0, 0.0, 0.0, 0.0)
    ensures GoalDistance(a, b, false, m).rot == 2.0 * m.arccos(0.0)
  {
    var zero := Quat(0.0, 0.0, 0.0, 0.0);
    assert Conjugate(Orientation(b)) == zero;
    MulZeroRight(Orientation(a));
    assert Clip(0.0, -1.0, 1.0) == 0.0;
  }

  /** numpy's boolean-to-float32 cast. */
  function Indicator(b: bool): (r: real)
    ensures r == 1.0 <==> b
    ensures r == 0.0 <==> !b
  {
    if b then 1.0 else 0.0
  }

  datatype Config = Config(
    rewardType: string,
    hasObject: bool,
    ignoreRotationCtrl: bool,
    ignoreTargetRotation: bool,
    successOnGraspOnly: bool,
    graspState: GraspStateArg,
    graspStateResetP: real,
    distanceThreshold: real,
    rotationThreshold: real,
    targetInTheAirP: real,
    randomizeInitialArmPos: bool,
    randomizeInitialObjectPos: bool,
    objectId: string)

  /** The `grasp_state` argument: absent, a boolean flag, or a simulator state given directly. */
  datatype GraspStateArg = NoGraspState | GraspFlag(load: bool) | GivenGraspState(state: nat)

  /** Arguments `_is_success` accepts: at least 7 components, 8 when a grasp is also required. */
  predicate SuccessArgs(cfg: Config, achieved: seq<real>, desired: seq<real>)
  {
    |achieved| >= 7 && |desired| >= 7 && (cfg.successOnGraspOnly ==> |achieved| == 8)
  }

  /** `_is_success`: 1 when position and rotation are within their thresholds (and the object is held). */
  function IsSuccess(cfg: Config, achieved: seq<real>, desired: seq<real>, m: Metric): (r: real)
    requires SuccessArgs(cfg, achieved, desired)
    ensures r == 0.0 || r == 1.0
    ensures r == 1.0 <==>
      && GoalDistance(achieved[..7], desired[..7], cfg.ignoreTargetRotation, m).pos < cfg.distanceThreshold
      && GoalDistance(achieved[..7], desired[..7], cfg.ignoreTargetRotation, m).rot < cfg.rotationThreshold
      && (cfg.successOnGraspOnly ==> achieved[7] < GraspDistance)
  {
    var d := GoalDistance(achieved[..7], desired[..7], cfg.ignoreTargetRotation, m);
    var achievedAll := Indicator(d.pos < cfg.distanceThreshold) * Indicator(d.rot < cfg.rotationThreshold);
    if cfg.successOnGraspOnly then
      achievedAll * Indicator(achieved[7] < GraspDistance)
    else
      achievedAll
  }

  /** Success reads only the first 7 components of the desired goal. */
  lemma IsSuccessReadsSevenComponents(cfg: Config, achieved: seq<real>, desired: seq<real>, desired2: seq<real>, m: Metric)
    requires SuccessArgs(cfg, achieved, desired) && SuccessArgs(cfg, achieved, desired2)
    requires desired[..7] == desired2[..7]
    ensures IsSuccess(cfg, achieved, desired, m) == IsSuccess(cfg, achieved, desired2, m)
  {
  }

  /** Arguments `compute_reward` accepts for a single sample. */
  predicate RewardArgs(cfg: Config, achieved: seq<real>, desired: seq<real>)
  {
    if cfg.rewardType == "sparse" then SuccessArgs(cfg, achieved, desired) else |achieved| == |desired| == 7
  }

  /**
   * `compute_reward` for one sample: `success * weight - 1` for sparse
   * rewards (weight 1 when none is given), `-(10 d_pos + d_rot)` otherwise.
   */
  function ComputeReward(cfg: Config, achieved: seq<real>, desired: seq<real>, weight: Option<real>, m: Metric): (r: real)
    requires RewardArgs(cfg, achieved, desired)
    ensures cfg.rewardType == "sparse" && weight.None? ==> (r == 0.0 || r == -1.0)
    ensures cfg.rewardType == "sparse" && weight.None? ==> (r == 0.0 <==> IsSuccess(cfg, achieved, desired, m) == 1.0)
    ensures cfg.rewardType == "sparse" && IsSuccess(cfg, achieved, desired, m) == 0.0 ==> r == -1.0
    ensures cfg.rewardType == "sparse" && weight.Some? && IsSuccess(cfg, achieved, desired, m) == 1.0 ==> r == weight.value - 1.0
    ensures cfg.rewardType != "sparse" ==>
      r == -(10.0 * m.norm(Sub(Position(achieved), Position(desired)))
             + (if cfg.ignoreTargetRotation then 0.0 else AngleBetween(Orientation(achieved), Orientation(desired), m)))
  {
    if cfg.rewardType == "sparse" then
      var success := IsSuccess(cfg, achieved, desired, m);
      var weighted := if weight.Some? then success * weight.value else success;
      weighted - 1.0
    else
      var d := GoalDistance(achieved, desired, cfg.ignoreTargetRotation, m);
      -(10.0 * d.pos + d.rot)
  }

  /** The dense reward is never positive, and is zero at the goal itself. */
  lemma DenseRewardBounds(cfg: Config, achieved: seq<real>, desired: seq<real>, weight: Option<real>, m: Metric)
    requires cfg.rewardType != "sparse" && |achieved| == |desired| == 7
    requires Valid(m)
    ensures ComputeReward(cfg, achieved, desired, weight, m) <= 0.0
    ensures achieved == desired && (!cfg.ignoreTargetRotation ==> IsUnit(Orientation(desired))) ==>
              ComputeReward(cfg, achieved, desired, weight, m) == 0.0
  {
    GoalDistanceNonNegative(achieved, desired, cfg.ignoreTargetRotation, m);
    if achieved == desired && (!cfg.ignoreTargetRotation ==> IsUnit(Orientation(desired))) {
      GoalDistanceToSelf(desired, cfg.ignoreTargetRotation, m);
    }
  }

  /** Batched `compute_reward` over goal pairs, with optional per-sample weights. */
  function ComputeRewards(cfg: Config, achieved: seq<seq<real>>, desired: seq<seq<real>>, weights: Option<seq<real>>, m: Metric): (r: seq<real>)
    requires |achieved| == |desired|
    requires weights.Some? ==> |weights.value| == |achieved|
    requires forall i :: 0 <= i < |achieved| ==> RewardArgs(cfg, achieved[i], desired[i])
    ensures |r| == |achieved|
    ensures forall i :: 0 <= i < |r| ==>
      r[i] == ComputeReward(cfg, achieved[i], desired[i], if weights.Some? then Some(weights.value[i]) else None, m)
  {
    seq(|achieved|, i requires 0 <= i < |achieved| =>
      ComputeReward(cfg, achieved[i], desired[i], if weights.Some? then Some(weights.value[i]) else None, m))
  }

  /** Without weights, sparse batch rewards are all in {-1, 0}; weights never lift a failure above -1. */
  lemma SparseRewardsRange(cfg: Config, achieved: seq<seq<real>>, desired: seq<seq<real>>, weights: Option<seq<real>>, m: Metric)
    requires cfg.rewardType == "sparse"
    requires |achieved| == |desired|
    requires weights.Some? ==> |weights.value| == |achieved|
    requires forall i :: 0 <= i < |achieved| ==> SuccessArgs(cfg, achieved[i], desired[i])
    ensures weights.None? ==> forall i :: 0 <= i < |achieved| ==>
      ComputeRewards(cfg, achieved, desired, weights, m)[i] in {-1.0, 0.0}
    ensures forall i :: 0 <= i < |achieved| && IsSuccess(cfg, achieved[i], desired[i], m) == 0.0 ==>
      ComputeRewards(cfg, achieved, desired, weights, m)[i] == -1.0
  {
  }

  // ---------------------------------------------------------------------
  // Constructor checks and the object table

  const GraspStateResetMessage := "grasp_state_reset_p must be greater than zero if grasp_state is specified!"
  const RotationCtrlMessage := "Target rotation must be ignored if arm cannot rotate! Set ignore_target_rotation=True"
  const GraspSparseMessage := "Parameter success_on_grasp_only requires sparse rewards!"
  const GraspObjectMessage := "Parameter success_on_grasp_only requires object to be grasped!"

  /** The pickled grasp state file, relative to the environment's directory. */
  function GraspStatePath(objectId: string): (path: string)
    ensures objectId == "original" ==> path == "../assets/states/grasp_state.pkl"
    ensures objectId != "original" ==> path == "../assets/states/grasp_state_" + objectId + ".pkl"
  {
    var suffix := if objectId == "original" then "" else "_" + objectId;
    "../assets/states/grasp_state" + suffix + ".pkl"
  }

  /** The conditions the constructor checks, in order. */
  predicate ConfigAccepted(cfg: Config, graspFileExists: bool)
  {
    && (cfg.graspState == GraspFlag(true) ==> graspFileExists)
    && (cfg.graspState != NoGraspState ==> cfg.graspStateResetP > 0.0)
    && (cfg.ignoreRotationCtrl ==> cfg.ignoreTargetRotation)
    && (cfg.successOnGraspOnly ==> cfg.rewardType == "sparse" && cfg.hasObject)
  }

  /**
   * The checks of `MovingHandEnv.__init__`: a missing grasp-state file is an
   * `IOError`; a grasp state (even `False`) with a non-positive reset
   * probability, rotation control ignored without ignoring the target
   * rotation, and grasp-only success without sparse rewards or without an
   * object are `ValueError`s.
   */
  function Validate(cfg: Config, graspFileExists: bool): (r: Result<()>)
    ensures r.Ok? <==> ConfigAccepted(cfg, graspFileExists)
    ensures cfg.graspState == GraspFlag(true) && !graspFileExists ==> r == Err(IOError(GraspStatePath(cfg.objectId)))
    ensures r.Err? && !(cfg.graspState == GraspFlag(true) && !graspFileExists) ==> r.error.ValueError?
    ensures ((cfg.graspState == GraspFlag(true) ==> graspFileExists) && cfg.graspState != NoGraspState && cfg.graspStateResetP <= 0.0)
              ==> r == Err(ValueError(GraspStateResetMessage))
  {
    if cfg.graspState == GraspFlag(true) && !graspFileExists then
      Err(IOError(GraspStatePath(cfg.objectId)))
    else if cfg.graspState != NoGraspState && cfg.graspStateResetP <= 0.0 then
      Err(ValueError(GraspStateResetMessage))
    else if cfg.ignoreRotationCtrl && !cfg.ignoreTargetRotation then
      Err(ValueError(RotationCtrlMessage))
    else if cfg.successOnGraspOnly && cfg.rewardType != "sparse" then
      Err(ValueError(GraspSparseMessage))
    else if cfg.successOnGraspOnly && !cfg.hasObject then
      Err(ValueError(GraspObjectMessage))
    else
      Ok(())
  }

  datatype Mass = Scalar(value: real) | PerPart(values: seq<real>)

  /** An entry of the `OBJECTS` table: the geom attributes it sets. */
  datatype ObjectSpec = ObjectSpec(geomType: string, size: Option<string>, mesh: Option<string>, meshParts: Option<nat>, mass: Option<Mass>)

  /** A generated object or target geom: its name and attributes. */
  datatype Geom = Geom(name: string, geomType: string, size: Option<string>, mesh: Option<string>, mass: Mass)

  datatype ObjectGeoms = ObjectGeoms(objects: seq<Geom>, targets: seq<Geom>)

  /** The `OBJECTS` table: six objects, `original` among them; only the teapot is a mesh in parts. */
  function Objects(): (objects: map<string, ObjectSpec>)
    ensures |objects.Keys| == 6 && "original" in objects
    ensures forall id :: id in objects && objects[id].meshParts.Some? ==> id == "teapot"
  {
    map[
      "original" := ObjectSpec("ellipsoid", Some("0.03 0.03 0.04"), None, None, None),
      "small_box" := ObjectSpec("box", Some("0.022 0.022 0.022"), None, None, None),
      "box" := ObjectSpec("box", Some("0.03 0.03 0.03"), None, None, None),
      "sphere" := ObjectSpec("ellipsoid", Some("0.028 0.028 0.028"), None, None, None),
      "small_sphere" := ObjectSpec("ellipsoid", Some("0.024 0.024 0.024"), None, None, None),
      "teapot" := ObjectSpec("mesh", None, Some("object_mesh:teapot_vhacd_m"), Some(6), Some(PerPart([0.01, 0.01, 0.01, 0.5, 0.01, 0.01])))
    ]
  }

  /** The listed mass, or the default mass when none is listed. */
  function MassOrDefault(spec: ObjectSpec): (m: Mass)
    ensures spec.mass.None? ==> m == Scalar(DefaultMass)
    ensures spec.mass.Some? ==> m == spec.mass.value
  {
    if spec.mass.Some? then spec.mass.value else Scalar(DefaultMass)
  }

  /** What the mesh-part loop needs: a mesh name, and one mass per part when masses are listed. */
  predicate Expandable(spec: ObjectSpec)
  {
    spec.meshParts.Some? ==>
      && spec.mesh.Some?
      && (MassOrDefault(spec).PerPart? ==> |MassOrDefault(spec).values| == spec.meshParts.value)
  }

  lemma ObjectsExpandable()
    ensures forall id :: id in Objects() ==> Expandable(Objects()[id])
  {
  }

  /** The decimal digits of `n`, as Python's `f'{n}'` prints them. */
  function Decimal(n: nat): (s: string)
    ensures |s| >= 1
    ensures forall i :: 0 <= i < |s| ==> '0' <= s[i] <= '9'
    decreases n
  {
    var digit := "0123456789"[n % 10];
    if n < 10 then [digit] else Decimal(n / 10) + [digit]
  }

  /** The number that a string of decimal digits denotes; the inverse of `Decimal`. */
  function ParseDecimal(s: string): (n: nat)
    requires forall i :: 0 <= i < |s| ==> '0' <= s[i] <= '9'
  {
    if s == [] then 0 else ParseDecimal(s[..|s| - 1]) * 10 + (s[|s| - 1] as int - '0' as int)
  }

  lemma {:induction false} ParseDecimalOfDecimal(n: nat)
    ensures ParseDecimal(Decimal(n)) == n
    decreases n
  {
    var s := Decimal(n);
    var last := s[|s| - 1];
    assert last == "0123456789"[n % 10];
    assert last as int - '0' as int == n % 10;
    if n >= 10 {
      assert s[..|s| - 1] == Decimal(n / 10);
      ParseDecimalOfDecimal(n / 10);
    }
  }

  /** Distinct part indices give distinct name suffixes. */
  lemma DecimalInjective(i: nat, j: nat)
    ensures Decimal(i) == Decimal(j) ==> i == j
  {
    ParseDecimalOfDecimal(i);
    ParseDecimalOfDecimal(j);
  }

  /** The mass of part `i`: the scalar mass for every part, or the part's own listed mass. */
  function PartMass(mass: Mass, i: nat): (m: real)
    requires mass.PerPart? ==> i < |mass.values|
    ensures mass.Scalar? ==> m == mass.value
    ensures mass.PerPart? ==> m == mass.values[i]
  {
    match mass
    case Scalar(v) => v
    case PerPart(vs) => vs[i]
  }

  /** Geom `i` of a mesh split into parts: mesh `<mesh>_part<i>`, its own mass, and the given name. */
  function PartGeom(spec: ObjectSpec, name: string, i: nat): (g: Geom)
    requires Expandable(spec) && spec.meshParts.Some? && i < spec.meshParts.value
    ensures g.name == name && g.geomType == spec.geomType && g.size == spec.size
    ensures g.mesh == Some(spec.mesh.value + "_part" + Decimal(i))
    ensures g.mass == Scalar(PartMass(MassOrDefault(spec), i))
  {
    Geom(name, spec.geomType, spec.size, Some(spec.mesh.value + "_part" + Decimal(i)), Scalar(PartMass(MassOrDefault(spec), i)))
  }

  /** One geom per mesh part, part `i` named `<prefix><i>`. */
  function Parts(spec: ObjectSpec, prefix: string): (parts: seq<Geom>)
    requires Expandable(spec) && spec.meshParts.Some?
    ensures |parts| == spec.meshParts.value
    ensures forall i :: 0 <= i < |parts| ==> parts[i] == PartGeom(spec, prefix + Decimal(i), i)
  {
    var n := spec.meshParts.value;
    seq(n, i requires 0 <= i < n => PartGeom(spec, prefix + Decimal(i), i))
  }

  /** The object and target geoms that the constructor generates for an object. */
  function ObjectGeomsOf(spec: ObjectSpec): (geoms: ObjectGeoms)
    requires Expandable(spec)
    ensures |geoms.objects| == |geoms.targets| == (if spec.meshParts.Some? then spec.meshParts.value else 1)
    ensures spec.meshParts.None? ==> geoms.objects[0].name == "object" && geoms.targets[0].name == "target"
    ensures forall i :: 0 <= i < |geoms.objects| ==> geoms.objects[i].geomType == spec.geomType
  {
    match spec.meshParts
    case Some(n) =>
      ObjectGeoms(Parts(spec, "object_part"), Parts(spec, "target_part"))
    case None =>
      var g := Geom("", spec.geomType, spec.size, spec.mesh, MassOrDefault(spec));
      ObjectGeoms([g.(name := "object")], [g.(name := "target")])
  }

  /**
   * Mesh-mass expansion: `n` parts give `n` object and `n` target geoms
   * with distinct names, mesh `<mesh>_part<i>`, the listed mass of part
   * `i`, or the scalar mass (0.2 when absent) replicated.
   */
  lemma MeshExpansion(spec: ObjectSpec, i: nat, j: nat)
    requires Expandable(spec) && spec.meshParts.Some?
    requires i < spec.meshParts.value && j < spec.meshParts.value
    ensures |ObjectGeomsOf(spec).objects| == |ObjectGeomsOf(spec).targets| == spec.meshParts.value
    ensures ObjectGeomsOf(spec).objects[i].mesh == Some(spec.mesh.value + "_part" + Decimal(i))
    ensures ObjectGeomsOf(spec).objects[i].mass == ObjectGeomsOf(spec).targets[i].mass
    ensures spec.mass.None? ==> ObjectGeomsOf(spec).objects[i].mass == Scalar(0.2)
    ensures spec.mass.Some? && spec.mass.value.Scalar? ==> ObjectGeomsOf(spec).objects[i].mass == spec.mass.value
    ensures spec.mass.Some? && spec.mass.value.PerPart? ==> ObjectGeomsOf(spec).objects[i].mass == Scalar(spec.mass.value.values[i])
    ensures i != j ==> ObjectGeomsOf(spec).objects[i].name != ObjectGeomsOf(spec).objects[j].name
    ensures i != j ==> ObjectGeomsOf(spec).targets[i].name != ObjectGeomsOf(spec).targets[j].name
    ensures ObjectGeomsOf(spec).objects[i].name != ObjectGeomsOf(spec).targets[j].name
  {
    var g := ObjectGeomsOf(spec);
    var si, sj := Decimal(i), Decimal(j);
    if i != j {
      DecimalInjective(i, j);
      PrefixCancel("object_part", si, sj);
      PrefixCancel("target_part", si, sj);
    }
    assert g.objects[i].name[0] == 'o' && g.targets[j].name[0] == 't';
  }

  lemma PrefixCancel(p: string, s: string, t: string)
    ensures p + s == p + t ==> s == t
  {
    if p + s == p + t {
      assert s == (p + s)[|p|..];
      assert t == (p + t)[|p|..];
    }
  }

  /** The per-part properties: the object's with mesh `<mesh>_part<i>` and the mass of part `i`. */
  method PartProps(spec: ObjectSpec, masses: seq<real>, i: nat) returns (part: Geom)
    requires Expandable(spec) && spec.meshParts.Some? && i < spec.meshParts.value
    requires i < |masses| && masses[i] == PartMass(MassOrDefault(spec), i)
    ensures forall name :: part.(name := name) == PartGeom(spec, name, i)
  {
    part := Geom("", spec.geomType, spec.size, Some(spec.mesh.value + "_part" + Decimal(i)), Scalar(masses[i]));
  }

  /** The mesh-part loop of the constructor, accumulating one object and one target geom per part. */
  method ExpandParts(spec: ObjectSpec, n: nat) returns (objectGeom: seq<Geom>, targetGeom: seq<Geom>)
    requires Expandable(spec) && spec.meshParts == Some(n)
    ensures objectGeom == Parts(spec, "object_part")
    ensures targetGeom == Parts(spec, "target_part")
  {
    var mass := MassOrDefault(spec);
    var masses: seq<real> := if mass.PerPart? then mass.values else seq(n, _ => mass.value);
    var objectPrefix, targetPrefix := "object_part", "target_part";
    ghost var objects, targets := Parts(spec, objectPrefix), Parts(spec, targetPrefix);
    objectGeom, targetGeom := [], [];
    for i := 0 to n
      invariant objectGeom == objects[..i]
      invariant targetGeom == targets[..i]
    {
      var part := PartProps(spec, masses, i);
      var objectName, targetName := objectPrefix + Decimal(i), targetPrefix + Decimal(i);
      assert part.(name := objectName) == objects[i];
      assert part.(name := targetName) == targets[i];
      objectGeom := objectGeom + [part.(name := objectName)];
      targetGeom := targetGeom + [part.(name := targetName)];
    }
    assert objects[..n] == objects && targets[..n] == targets;
  }

  /** The geoms the constructor generates: the expanded parts, or one object and one target geom. */
  method ExpandObject(spec: ObjectSpec) returns (g: ObjectGeoms)
    requires Expandable(spec)
    ensures g == ObjectGeomsOf(spec)
  {
    if spec.meshParts.Some? {
      var objectGeom, targetGeom := ExpandParts(spec, spec.meshParts.value);
      g := ObjectGeoms(objectGeom, targetGeom);
    } else {
      var props := Geom("", spec.geomType, spec.size, spec.mesh, MassOrDefault(spec));
      g := ObjectGeoms([props.(name := "object")], [props.(name := "target")]);
    }
  }

  datatype MovingHand = MovingHand(cfg: Config, geoms: Option<ObjectGeoms>)

  /**
   * `MovingHandEnv.__init__` up to the model XML: the checks, then the
   * object table lookup (`KeyError` for an unknown object) and the geoms.
   * Without an object there are no geoms and construction succeeds, as
   * the object-less reach environment needs; `NewMovingHandAsWritten`
   * below is the code as it stands.
   */
  method NewMovingHand(cfg: Config, graspFileExists: bool) returns (r: Result<MovingHand>)
    ensures Validate(cfg, graspFileExists).Err? ==> r == Err(Validate(cfg, graspFileExists).error)
    ensures Validate(cfg, graspFileExists).Ok? && cfg.hasObject && cfg.objectId !in Objects() ==> r == Err(KeyError(cfg.objectId))
    ensures r.Ok? <==> ConfigAccepted(cfg, graspFileExists) && (cfg.hasObject ==> cfg.objectId in Objects())
    ensures r.Ok? ==> r.value.cfg == cfg
    ensures r.Ok? && !cfg.hasObject ==> r.value.geoms == None
    ensures r.Ok? && cfg.hasObject ==> r.value.geoms == Some(ObjectGeomsOf(Objects()[cfg.objectId]))
  {
    var v := Validate(cfg, graspFileExists);
    if v.Err? {
      return Err(v.error);
    }
    if !cfg.hasObject {
      return Ok(MovingHand(cfg, None));
    }
    if cfg.objectId !in Objects() {
      return Err(KeyError(cfg.objectId));
    }
    ObjectsExpandable();
    var g := ExpandObject(Objects()[cfg.objectId]);
    return Ok(MovingHand(cfg, Some(g)));
  }

  const NoneItemAssignment := "'NoneType' object does not support item assignment"

  /**
   * The constructor as written: without an object `xml_format` is still
   * `None` when the finger-weld entries are assigned into it, so every
   * object-less configuration that passes the checks raises a `TypeError`.
   */
  method NewMovingHandAsWritten(cfg: Config, graspFileExists: bool) returns (r: Result<MovingHand>)
    ensures ConfigAccepted(cfg, graspFileExists) && !cfg.hasObject ==> r == Err(TypeError(NoneItemAssignment))
    ensures r.Ok? <==> ConfigAccepted(cfg, graspFileExists) && cfg.hasObject && cfg.objectId in Objects()
    ensures r.Ok? ==> r.value.geoms == Some(ObjectGeomsOf(Objects()[cfg.objectId]))
  {
    r := NewMovingHand(cfg, graspFileExists);
    if r.Ok? && !cfg.hasObject {
      r := Err(TypeError(NoneItemAssignment));
    }
  }

  /** `HandPickAndPlaceEnv`: the moving hand with an object, every other argument at its default. */
  function PickAndPlaceConfig(rewardType: string): (cfg: Config)
    ensures cfg.hasObject && cfg.rewardType == rewardType
    ensures ConfigAccepted(cfg, false) && cfg.objectId in Objects()
  {
    Config(rewardType, true, false, false, false, NoGraspState, 0.0, 0.05, 0.1, 0.5, false, true, "original")
  }

  /**
   * `MovingHandReachEnv`: the moving hand without an object, every other
   * argument at its default. Its configuration passes every check, which
   * is what makes the constructor's `TypeError` reachable.
   */
  function ReachConfig(rewardType: string): (cfg: Config)
    ensures !cfg.hasObject && cfg.rewardType == rewardType
    ensures ConfigAccepted(cfg, false)
  {
    Config(rewardType, false, false, false, false, NoGraspState, 0.0, 0.05, 0.1, 0.5, false, true, "original")
  }

  // ---------------------------------------------------------------------
  // Achieved and sampled goals

  /**
   * `_get_achieved_goal`: the object pose (or the palm pose without an
   * object), with the quaternion slots zeroed in place when target rotation
   * is ignored, followed by the palm-object distance for grasp-only success.
   * The palm quaternion is only read when rotation matters.
   */
  method AchievedGoal(cfg: Config, palmPos: seq<real>, palmQuat: seq<real>, objectPose: seq<real>, m: Metric) returns (goal: seq<real>)
    requires |palmPos| == 3 && |palmQuat| == 4 && |objectPose| == 7
    ensures |goal| == (if cfg.successOnGraspOnly then 8 else 7)
    ensures goal[..3] == (if cfg.hasObject then objectPose[..3] else palmPos)
    ensures cfg.ignoreTargetRotation ==> forall i :: 3 <= i < 7 ==> goal[i] == 0.0
    ensures !cfg.ignoreTargetRotation ==> goal[3..7] == (if cfg.hasObject then objectPose[3..] else palmQuat)
    ensures cfg.successOnGraspOnly ==> goal[7] == m.norm(Sub(palmPos, goal[..3]))
  {
    var palmRot := if cfg.ignoreTargetRotation then Zeros(4) else palmQuat;
    var palmPose := palmPos + palmRot;
    var palm := new real[7](i requires 0 <= i < 7 => palmPose[i]);
    var pose: array<real>;
    if cfg.hasObject {
      pose := new real[7](i requires 0 <= i < 7 => objectPose[i]);
    } else {
      pose := palm;
    }
    ghost var before := pose[..];
    if cfg.ignoreTargetRotation {
      for i := 3 to 7
        invariant pose[..3] == before[..3]
        invariant forall k :: 3 <= k < i ==> pose[k] == 0.0
        invariant forall k :: i <= k < 7 ==> pose[k] == before[k]
      {
        pose[i] := 0.0;
      }
    }
    assert before[..3] == (if cfg.hasObject then objectPose[..3] else palmPos);
    assert !cfg.ignoreTargetRotation ==> pose[3..7] == before[3..7];
    if cfg.successOnGraspOnly {
      var d := m.norm(Sub(palmPos, pose[..3]));
      goal := pose[..] + [d];
      assert goal[..3] == pose[..3];
      assert goal[3..7] == pose[3..7];
    } else {
      goal := pose[..];
    }
  }

  /** Unit draws for `_sample_goal`: the table position, the in-the-air coin and the lift. */
  datatype GoalDraws = GoalDraws(table: seq<real>, air: real, lift: real)

  predicate GoalDrawsOk(d: GoalDraws)
  {
    |d.table| == 2 && UnitDraws(d.table) && 0.0 <= d.air < 1.0 && 0.0 <= d.lift < 1.0
  }

  /**
   * `_sample_goal`: x and y uniform over the table box, z the object's
   * resting height (0 without an object) lifted by up to 0.45 with
   * probability `target_in_the_air_p`, a zero quaternion, and a trailing 0
   * for grasp-only success.
   */
  function SampleGoal(cfg: Config, heightOffset: real, d: GoalDraws): (g: seq<real>)
    requires |d.table| == 2
    ensures |g| == (if cfg.successOnGraspOnly then 8 else 7)
    ensures forall i :: 3 <= i < |g| ==> g[i] == 0.0
    ensures GoalDrawsOk(d) ==> Within(g[..2], TableLow, TableHigh)
    ensures var base := if cfg.hasObject then heightOffset else 0.0;
            && (d.air >= cfg.targetInTheAirP ==> g[2] == base)
            && (GoalDrawsOk(d) ==> base <= g[2] < base + MaxLift)
  {
    var xy := UniformVec(TableLow, TableHigh, d.table);
    var z0 := if cfg.hasObject then heightOffset else 0.0;
    var z := if d.air < cfg.targetInTheAirP then z0 + Uniform(0.0, MaxLift, d.lift) else z0;
    var goal := xy + [z] + Zeros(4);
    TableDrawWithin(d);
    assert goal[..2] == xy;
    if cfg.successOnGraspOnly then goal + [0.0] else goal
  }

  lemma TableDrawWithin(d: GoalDraws)
    requires |d.table| == 2
    ensures GoalDrawsOk(d) ==> Within(UniformVec(TableLow, TableHigh, d.table), TableLow, TableHigh)
  {
    if GoalDrawsOk(d) {
      UniformVecWithin(TableLow, TableHigh, d.table);
    }
  }

  /**
   * Sampled goals have a zero quaternion, so unless target rotation is
   * ignored their angle to any achieved goal is `2 * arccos(0)` and success
   * needs `rotation_threshold` above it.
   */
  lemma SampledGoalAngle(cfg: Config, heightOffset: real, d: GoalDraws, achieved: seq<real>, m: Metric)
    requires |d.table| == 2 && SuccessArgs(cfg, achieved, SampleGoal(cfg, heightOffset, d))
    requires !cfg.ignoreTargetRotation
    ensures GoalDistance(achieved[..7], SampleGoal(cfg, heightOffset, d)[..7], false, m).rot == 2.0 * m.arccos(0.0)
    ensures IsSuccess(cfg, achieved, SampleGoal(cfg, heightOffset, d), m) == 1.0 ==> 2.0 * m.arccos(0.0) < cfg.rotationThreshold
  {
    var g := SampleGoal(cfg, heightOffset, d)[..7];
    assert Orientation(g) == Quat(0.0, 0.0, 0.0, 0.0);
    GoalDistanceToZeroQuaternion(achieved[..7], g, m);
  }

  // ---------------------------------------------------------------------
  // Reset

  /** What the simulator shows after one reset attempt. */
  datatype ResetAttempt = ResetAttempt(objectPos: seq<real>, objectVel: seq<real>, palmPos: seq<real>)

  predicate AttemptShaped(a: ResetAttempt)
  {
    |a.objectPos| == 3 && |a.palmPos| == 3
  }

  /** The exit test of the reset loop. */
  predicate Accepted(cfg: Config, toGrasp: bool, a: ResetAttempt, m: Metric)
    requires AttemptShaped(a)
  {
    !cfg.hasObject ||
      (m.norm(a.objectVel) < StillSpeed &&
       if toGrasp then m.norm(Sub(a.objectPos, a.palmPos)) < GraspDistance
       else CheckRange(a.objectPos[..2], TableLow, TableHigh, true))
  }

  /**
   * `_reset_sim`: decide once whether to start from the grasp state, then
   * retry until the simulator settles in an acceptable state. `attempts`
   * are the outcomes of successive tries; the result is the index of the
   * accepted one, or `None` when all of them are rejected.
   */
  method ResetSim(cfg: Config, uGrasp: real, attempts: seq<ResetAttempt>, m: Metric) returns (toGrasp: bool, accepted: Option<nat>)
    requires forall k :: 0 <= k < |attempts| ==> AttemptShaped(attempts[k])
    requires cfg.graspStateResetP > uGrasp ==> cfg.hasObject
    ensures toGrasp <==> cfg.graspStateResetP > uGrasp
    ensures accepted.Some? ==> accepted.value < |attempts| && Accepted(cfg, toGrasp, attempts[accepted.value], m)
    ensures accepted.Some? ==> forall k :: 0 <= k < accepted.value ==> !Accepted(cfg, toGrasp, attempts[k], m)
    ensures accepted.None? ==> forall k :: 0 <= k < |attempts| ==> !Accepted(cfg, toGrasp, attempts[k], m)
    ensures !cfg.hasObject && |attempts| > 0 ==> accepted == Some(0)
    ensures accepted.Some? && accepted.value < |attempts| && cfg.hasObject ==>
      && AttemptShaped(attempts[accepted.value])
      && m.norm(attempts[accepted.value].objectVel) < StillSpeed
      && (|| Within(attempts[accepted.value].objectPos[..2], TableLow, TableHigh)
          || m.norm(Sub(attempts[accepted.value].objectPos, attempts[accepted.value].palmPos)) < GraspDistance)
  {
    toGrasp := cfg.graspStateResetP > uGrasp;
    var k := 0;
    while k < |attempts|
      invariant 0 <= k <= |attempts|
      invariant forall j :: 0 <= j < k ==> !Accepted(cfg, toGrasp, attempts[j], m)
      invariant !cfg.hasObject ==> k == 0
    {
      if Accepted(cfg, toGrasp, attempts[k], m) {
        return toGrasp, Some(k);
      }
      k := k + 1;
    }
    return toGrasp, None;
  }

  // ---------------------------------------------------------------------
  // Forearm control

  /** The forearm mocap body: position and quaternion, written in place. */
  class Mocap {
    var pos: seq<real>
    var quat: seq<real>

    ghost predicate Valid()
      reads this
    {
      |pos| == 3 && |quat| == 4
    }

    constructor (pos0: seq<real>, quat0: seq<real>)
      requires |pos0| == 3 && |quat0| == 4
      ensures Valid() && pos == pos0 && quat == quat0
    {
      pos := pos0;
      quat := quat0;
    }

    /**
     * `_set_arm_pose`: the mocap first snaps to the welded body's pose, then
     * takes the clipped position and, for a 7-element pose, its quaternion.
     */
    method SetArmPose(pose: seq<real>, bodyPos: seq<real>, bodyQuat: seq<real>)
      requires |pose| == 7 || |pose| == 3
      requires |bodyPos| == 3 && |bodyQuat| == 4
      modifies this
      ensures Valid()
      ensures pos == ClipVec(pose[..3], ForearmLow, ForearmHigh)
      ensures quat == if |pose| == 7 then pose[3..] else bodyQuat
      ensures Within(pos, ForearmLow, ForearmHigh)
      ensures Within(pose[..3], ForearmLow, ForearmHigh) ==> pos == pose[..3]
    {
      pos, quat := bodyPos, bodyQuat;
      ClipVecWithin(pose[..3], ForearmLow, ForearmHigh);
      pos := ClipVec(pose[..3], ForearmLow, ForearmHigh);
      if |pose| == 7 {
        quat := pose[3..];
      }
    }

    /**
     * `_set_action`: the first 20 entries go to the hand; the rest, scaled
     * by 0.1, move the mocap position (then clipped) and quaternion. With
     * rotation control ignored the quaternion delta is zeroed.
     */
    method SetAction(action: seq<real>, ignoreRotationCtrl: bool, bodyPos: seq<real>, bodyQuat: seq<real>) returns (handCtrl: seq<real>)
      requires Valid()
      requires |action| == ActionLength
      requires |bodyPos| == 3 && |bodyQuat| == 4
      modifies this
      ensures Valid()
      ensures handCtrl == action[..HandActuators]
      ensures pos == ClipVec(Add(old(pos), Scale(ForearmScale, action[20..23])), ForearmLow, ForearmHigh)
      ensures !ignoreRotationCtrl ==> quat == Add(old(quat), Scale(ForearmScale, action[23..27]))
      ensures ignoreRotationCtrl ==> quat == old(quat)
      ensures Within(pos, ForearmLow, ForearmHigh)
    {
      handCtrl := action[..HandActuators];
      var forearmCtrl := Scale(ForearmScale, action[HandActuators..]);
      var posDelta := forearmCtrl[..3];
      var quatDelta := forearmCtrl[3..];
      if ignoreRotationCtrl {
        quatDelta := Scale(0.0, quatDelta);
      }
      var newPos := Add(pos, posDelta);
      var newQuat := Add(quat, quatDelta);
      assert posDelta == Scale(ForearmScale, action[20..23]);
      assert !ignoreRotationCtrl ==> quatDelta == Scale(ForearmScale, action[23..27]);
      assert ignoreRotationCtrl ==> newQuat == quat;
      var newPose := newPos + newQuat;
      assert newPose[..3] == newPos && newPose[3..] == newQuat;
      SetArmPose(newPose, bodyPos, bodyQuat);
    }
  }

  // ---------------------------------------------------------------------
  // Observation

  /**
   * `_get_obs`'s observation vector: forearm pose (position and Euler
   * angles), forearm velocity, palm position, then with an object its
   * position relative to the palm, then the robot joints, then with an
   * object its pose and velocity.
   */
  function Observation(cfg: Config, forearmPose: seq<real>, forearmVelp: seq<real>, palmPos: seq<real>,
                       robotQpos: seq<real>, robotQvel: seq<real>, objectPose: seq<real>, objectVel: seq<real>): (obs: seq<real>)
    requires |forearmPose| == 6 && |forearmVelp| == 3 && |palmPos| == 3
    requires |objectPose| == 6 && |objectVel| == 6
    ensures |obs| == 12 + |robotQpos| + |robotQvel| + (if cfg.hasObject then 15 else 0)
    ensures obs[..6] == forearmPose && obs[9..12] == palmPos
    ensures cfg.hasObject ==> Add(obs[9..12], obs[12..15]) == objectPose[..3]
    ensures obs[6..9] == forearmVelp
    ensures var q := if cfg.hasObject then 15 else 12;
            obs[q..q + |robotQpos|] == robotQpos
    ensures var v := (if cfg.hasObject then 15 else 12) + |robotQpos|;
            obs[v..v + |robotQvel|] == robotQvel
    ensures cfg.hasObject ==> obs[|obs| - 12..] == objectPose + objectVel
  {
    var objectRelPos := if cfg.hasObject then Sub(objectPose[..3], palmPos) else [];
    var objectPart := if cfg.hasObject then objectPose + objectVel else [];
    var head := forearmPose + forearmVelp + palmPos + objectRelPos;
    var obs := forearmPose + forearmVelp + palmPos + objectRelPos + robotQpos + robotQvel + objectPart;
    assert obs == (head + robotQpos) + robotQvel + objectPart;
    assert obs[6..9] == forearmVelp;
    assert obs[9..12] == palmPos;
    assert cfg.hasObject ==> obs[12..15] == objectRelPos;
    SubAddCancel(palmPos, objectPose[..3]);
    Concat3(head + robotQpos, robotQvel, objectPart);
    Concat3(head, robotQpos, robotQvel + objectPart);
    assert obs == head + robotQpos + (robotQvel + objectPart);
    obs
  }
}
