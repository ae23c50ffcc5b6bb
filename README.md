# Goal-conditioned MuJoCo robot environments, modelled in Dafny

This project models the decision logic of a set of goal-conditioned robot
environments built on the MuJoCo simulator:

- the Shadow hand on a mocap-driven forearm that reaches for, or carries an
  object to, a goal pose (`MovingHandEnv`, module `HandMove`);
- the hand pick-and-place environment (`_PickAndPlaceEnv`, module
  `HandPickAndPlace`);
- the ABB YuMi dual-arm reaching environment (`YumiEnv`, module `YumiEnv`);
- the constrained YuMi environment, where the agent commands the distance
  between the two grippers and the motion of their common centre and a PD
  servo loop drives the arms (`YumiConstrainedEnv`, module
  `YumiConstrained`);
- the pose composition helpers `apply_tf`, `get_tf`, `pose_to_mat` and
  `mat_to_pose` (module `Transformations`), over the Hamilton quaternion
  product (module `Quaternions`).

Goals, poses and observations are `seq<real>`; every quantity is an exact
real, so floating-point rounding is not modelled. The simulator, random
draws, `np.linalg.norm` and `np.arccos` are inputs: readings are
parameters, random draws are unit draws in `[0, 1)` supplied by the caller
(`numpy.uniform(low, high)` is `low + (high - low) * u`), and norm and
arccos travel in a `Metrics.Metric` value. The only facts assumed about
them are stated in `Metrics.Valid`: the norm is the Euclidean norm, and
arccos is non-negative on `[-1, 1]` with `arccos(1) = 0`. Lemmas use them
only where they list `Valid(m)` among their preconditions. A Python
`assert` is a caller obligation (`requires`); a `raise` is an `Err` of
`Outcomes.Result` carrying the exception class.

Where the code state changes in place, the model does too:

- the forearm mocap body is the class `HandMove.Mocap`;
- the achieved-goal pose is zeroed in an `array`;
- the YuMi simulator's joint positions are the class `YumiEnv.Sim`, and its
  kept initial state is `YumiEnv.InitialState`;
- the goal being filled by rejection sampling is an `array`;
- the PD controller overwrites its previous-error `array`;
- the servo loop writes its command `array`.

The `while True` retry loops run over finite sequences of attempts. They
return `None` when every attempt is rejected, and their postconditions say
what holds when they exit.

## Model

| member | source | states |
|---|---|---|
| Vectors.CheckRange | gym/envs/robotics/hand/move.py:57-61 | `_check_range` (the same in gym/envs/yumi/yumi_env.py:11-15) is true exactly when every component lies in `[min, max]` with bounds included, or in `(min, max)` without |
| Vectors.ClipVecWithin | gym/envs/robotics/hand/move.py:260 | componentwise clipping to ordered bounds lands inside them and leaves a point already inside unchanged |
| Vectors.UniformVecWithin | gym/envs/robotics/hand/move.py:377 | unit draws scaled into an ordered box land inside it, inclusively |
| Quaternions.Assoc | gym/utils/transformations.py:58 | the Hamilton product that composes orientations is associative |
| Quaternions.MulConjugate | gym/utils/transformations.py:34-36 | a quaternion times its conjugate, in either order, is the real quaternion `(NormSq(q), 0, 0, 0)`, so the identity for a unit quaternion |
| Quaternions.RotVecCompose | gym/utils/transformations.py:56-58 | rotating by a product is rotating by each factor in turn |
| Quaternions.RotVecInverse | gym/utils/transformations.py:35 | rotating by the conjugate of a unit quaternion undoes rotating by it |
| Transformations.Pad | gym/utils/transformations.py:51-55 | a 3-element input is padded with the identity quaternion `(1, 0, 0, 0)`; a 7-element pose is kept |
| Transformations.ApplyTf | gym/utils/transformations.py:48-61 | the result has 3 components exactly when `world_to_a` had 3, otherwise 7 |
| Transformations.ApplyTfPadding | gym/utils/transformations.py:50-60 | a position-only `a_to_b` behaves as the pose with identity orientation; a position-only `world_to_a` gives the position part of the padded result |
| Transformations.ApplyTfIdentityOrientation | gym/utils/transformations.py:52-58 | with identity orientation on `world_to_a`, the result is `(w.pos + p.pos, p.q)` |
| Transformations.ApplyTfFullPose | gym/utils/transformations.py:56-58 | the position is `w.pos + rot(w.q, p.pos)` and the orientation is `w.q * p.q`, in that order |
| Transformations.ApplyTfPositionOnly | gym/utils/transformations.py:51-60 | a position-only `world_to_a` yields `w.pos + p.pos` |
| Transformations.ApplyTfRotation | gym/utils/transformations.py:56-58 | rotating by the composed orientation is rotating by `p.q`, then by `w.q` |
| Transformations.ApplyTfCompose | gym/utils/transformations.py:48-61 | composing transforms is associative: `apply_tf(apply_tf(c, b), a) == apply_tf(c, apply_tf(b, a))` |
| Transformations.GetTf | gym/utils/transformations.py:31-37 | `get_tf` as written returns a 7-element pose |
| Transformations.GetTfIdentityOrientation | gym/utils/transformations.py:31-37 | with identity orientation on `world_to_a`, `get_tf(b, a) == (b.pos - a.pos, b.q)` |
| Transformations.GetTfApplyTfIdentity | gym/utils/transformations.py:31-61 | with identity orientation on `world_to_a`, `get_tf(apply_tf(p, w), w) == p` |
| Transformations.PositionRoundTrip | gym/utils/transformations.py:31-56 | for a unit `world_to_a` quaternion, the position parts of `get_tf` and `apply_tf` undo each other in both orders |
| Transformations.RoundTripOrientation | gym/utils/transformations.py:36 | the orientation after `apply_tf(get_tf(b, a), a)` is `a.q * b.q * conj(a.q)` |
| Transformations.RoundTripWhenCommuting | gym/utils/transformations.py:31-61 | the round trip through `get_tf` returns `b` when the two orientations commute |
| Transformations.RoundTripIffCommute | gym/utils/transformations.py:31-61 | for a unit `world_to_a`, the round trip returns `b` exactly when the orientations commute |
| Transformations.GetTfRoundTripCounterexample | gym/utils/transformations.py:32-36 | two unit orientations on which the round trip through `get_tf` as written fails |
| Transformations.GetTfInverse | gym/utils/transformations.py:31-37 | `get_tf` with the orientation `conj(a.q) * b.q` returns a 7-element pose |
| Transformations.ApplyTfGetTfInverse | gym/utils/transformations.py:32 | `apply_tf(get_tf(b, a), a) == b` for every unit `a.q`, with the corrected `get_tf` |
| Transformations.GetTfInverseApplyTf | gym/utils/transformations.py:49 | the corrected `get_tf(apply_tf(p, a), a) == p` for every unit `a.q` |
| Transformations.PoseToMat | gym/utils/transformations.py:15-21 | a 4x4 matrix with the rotation block from the quaternion, the position in column 3 of rows 0-2, and bottom row `(0, 0, 0, 1)` |
| Transformations.RotationBlock | gym/utils/transformations.py:25 | the upper-left 3x3 block of the matrix |
| Transformations.MatToPose | gym/utils/transformations.py:24-28 | a 7-element pose whose position is column 3 of rows 0-2 and whose quaternion is converted from the rotation block |
| Transformations.MatToPoseOfPoseToMat | gym/utils/transformations.py:15-28 | `mat_to_pose(pose_to_mat(p))` keeps the position, and the whole pose when the two conversions are inverse |
| HandMove.GoalDistance | gym/envs/robotics/hand/move.py:39-54 | equal 7-element goals are required; `d_pos` is the norm of the position difference; `d_rot` is 0 when the target rotation is ignored and otherwise the angle between the two quaternions |
| HandMove.AngleBetween | gym/envs/robotics/hand/move.py:48-51 | the rotation angle `2 arccos(clip(w, -1, 1))` of `qa * conj(qb)` is never negative |
| HandMove.GoalDistanceReadsPosition | gym/envs/robotics/hand/move.py:43-44 | `d_pos` depends only on components 0-2, and so does the whole distance when rotation is ignored |
| HandMove.GoalDistanceNonNegative | gym/envs/robotics/hand/move.py:44-51 | both distances are non-negative |
| HandMove.GoalDistanceToSelf | gym/envs/robotics/hand/move.py:43-52 | a goal is at distance `(0, 0)` from itself when its quaternion is a unit quaternion or rotation is ignored |
| HandMove.GoalDistanceSymmetric | gym/envs/robotics/hand/move.py:43-51 | the distance is symmetric in its two goals |
| HandMove.GoalDistanceOppositeQuaternion | gym/envs/robotics/hand/move.py:50-51 | `q` and `-q` are not identified: their angle is `2 arccos(-1)` |
| HandMove.GoalDistanceToZeroQuaternion | gym/envs/robotics/hand/move.py:50-51 | against a zero quaternion the angle is always `2 arccos(0)` |
| HandMove.Indicator | gym/envs/robotics/hand/move.py:316-317 | the float cast of a boolean is 1 exactly when it is true and 0 exactly when it is false |
| HandMove.IsSuccess | gym/envs/robotics/hand/move.py:314-324 | success is 0 or 1, and 1 exactly when `d_pos < distance_threshold` and `d_rot < rotation_threshold`, plus palm distance `< 0.08` under grasp-only success (which needs 8 components) |
| HandMove.IsSuccessReadsSevenComponents | gym/envs/robotics/hand/move.py:315 | success reads only the first 7 components of the desired goal |
| HandMove.ComputeReward | gym/envs/robotics/hand/move.py:277-288 | sparse without weights is in {-1, 0} and 0 exactly on success; a failure is -1 whatever the weight; a weighted success is `weight - 1`; dense is `-(10 d_pos + d_rot)`, with no rotation term when rotation is ignored |
| HandMove.DenseRewardBounds | gym/envs/robotics/hand/move.py:284-288 | the dense reward `-(10 d_pos + d_rot)` is never positive, and is 0 at the goal itself |
| HandMove.ComputeRewards | gym/envs/robotics/hand/move.py:277-283 | the batched reward is the per-sample reward with that sample's weight |
| HandMove.SparseRewardsRange | gym/envs/robotics/hand/move.py:278-283 | unweighted sparse batch rewards are in {-1, 0}; weights never lift a failure above -1 |
| HandMove.Validate | gym/envs/robotics/hand/move.py:86-106 | accepted exactly when the checks pass; a missing grasp file is an `IOError` with its path; every other rejection is a `ValueError`, and a non-positive reset probability with a grasp state gives that message |
| HandMove.GraspStatePath | gym/envs/robotics/hand/move.py:87-88 | the grasp file is `grasp_state.pkl` for the original object and `grasp_state_<id>.pkl` otherwise, under `../assets/states/` |
| HandMove.Objects | gym/envs/robotics/hand/move.py:29-36 | six objects including `original`; only the teapot is split into mesh parts |
| HandMove.MassOrDefault | gym/envs/robotics/hand/move.py:119-120 | an absent mass defaults to 0.2, a given one is kept |
| HandMove.PartMass | gym/envs/robotics/hand/move.py:125-134 | part `i` gets entry `i` of a listed mass, or the scalar mass |
| HandMove.PartGeom | gym/envs/robotics/hand/move.py:131-135 | a part geom keeps the object's type and size, with mesh `<mesh>_part<i>` and the part's mass |
| HandMove.ObjectGeomsOf | gym/envs/robotics/hand/move.py:118-144 | one object and one target geom per part, or one each named `object` and `target` without parts; every object geom keeps the object's type |
| HandMove.ObjectsExpandable | gym/envs/robotics/hand/move.py:29-36 | every entry of the object table has a mesh when it has parts, and one mass per part when masses are listed |
| HandMove.DecimalInjective | gym/envs/robotics/hand/move.py:133-137 | distinct part indices print as distinct decimal suffixes |
| HandMove.Parts | gym/envs/robotics/hand/move.py:131-137 | one geom per mesh part, part `i` named `<prefix><i>` with mesh `<mesh>_part<i>` and mass of part `i` |
| HandMove.MeshExpansion | gym/envs/robotics/hand/move.py:118-137 | `n` parts give `n` object and `n` target geoms with distinct names, mesh suffix `_part<i>`, the listed mass of part `i` or the scalar mass (0.2 when absent) replicated |
| HandMove.PartProps | gym/envs/robotics/hand/move.py:132-135 | the per-part properties are the object's with the part's mesh and mass |
| HandMove.ExpandParts | gym/envs/robotics/hand/move.py:124-138 | the accumulating loop yields exactly the object-part and target-part geoms |
| HandMove.ExpandObject | gym/envs/robotics/hand/move.py:118-144 | the generated geoms: the expanded parts, or one object and one target geom |
| HandMove.NewMovingHand | gym/envs/robotics/hand/move.py:86-144 | corrected constructor: the validation error if any, else `KeyError` for an unknown object, else the configuration with its geoms (none without an object) |
| HandMove.NewMovingHandAsWritten | gym/envs/robotics/hand/move.py:108-171 | the constructor as written: every accepted configuration without an object raises `TypeError` |
| HandMove.PickAndPlaceConfig | gym/envs/robotics/hand/move.py:450-456 | `HandPickAndPlaceEnv` has an object and its defaults pass every check |
| HandMove.ReachConfig | gym/envs/robotics/hand/move.py:459-465 | `MovingHandReachEnv` has no object and its defaults pass every check |
| HandMove.AchievedGoal | gym/envs/robotics/hand/move.py:240-255 | length 8 exactly under grasp-only success, else 7; position of the object (or palm); rotation slots zero when rotation is ignored, else the object (or palm) quaternion; the palm-object distance last |
| HandMove.SampleGoal | gym/envs/robotics/hand/move.py:403-412 | length 8 exactly under grasp-only success, else 7; slots from 3 on zero; x and y inside the table bounds; z the resting height, lifted by less than 0.45 only when the coin falls below `target_in_the_air_p` |
| HandMove.SampledGoalAngle | gym/envs/robotics/hand/move.py:403-412 | against a sampled goal the angle is `2 arccos(0)` unless rotation is ignored, so success then needs `rotation_threshold` above it |
| HandMove.ResetSim | gym/envs/robotics/hand/move.py:349-401 | the grasp coin is tossed once; the accepted attempt is the first that passes the exit test; with an object it is still (speed < 0.8) and inside the table bounds or within 0.08 of the palm; without an object the first attempt is accepted |
| HandMove.Mocap.SetArmPose | gym/envs/robotics/hand/move.py:257-262 | the mocap position is the pose's clipped into the forearm box; the quaternion is written only for a 7-element pose |
| HandMove.Mocap.SetAction | gym/envs/robotics/hand/move.py:293-312 | the first 20 entries go to the hand; the rest, scaled by 0.1, move the mocap position (clipped into the forearm box) and quaternion; the quaternion stays put when rotation control is ignored |
| HandMove.Observation | gym/envs/robotics/hand/move.py:423-442 | forearm pose (6), forearm velocity (3) and palm position (3) first; with an object its position relative to the palm next, which added to the palm position gives back the object position; then the robot joint positions and velocities; with an object its pose and velocity (12) last; the length is the sum |
| HandPickAndPlace.NewPickAndPlace | gym/envs/robotics/hand/pick_and_place.py:28-41 | an object, goals in the air, and the given reward type and thresholds |
| HandPickAndPlace.NewPickAndPlaceDefault | gym/envs/robotics/hand/pick_and_place.py:26-28 | the constructor with its default thresholds: distance 0.01 and rotation 0.1 |
| HandPickAndPlace.AsMovingHand | gym/envs/robotics/hand/pick_and_place.py:64-102 | the moving-hand configuration with the same reward type, object flag and thresholds, rotation not ignored and no grasp-only success |
| HandPickAndPlace.GoalDistance | gym/envs/robotics/hand/pick_and_place.py:64-79 | the position distance and the quaternion angle, always computed since rotation is never ignored |
| HandPickAndPlace.IsSuccess | gym/envs/robotics/hand/pick_and_place.py:97-102 | 0 or 1, and 1 exactly when both distances are strictly below their thresholds |
| HandPickAndPlace.ComputeReward | gym/envs/robotics/hand/pick_and_place.py:84-92 | the sparse reward is in {-1, 0} and 0 exactly on success; dense is `-(10 d_pos + d_rot)` |
| HandPickAndPlace.AgreesWithMovingHand | gym/envs/robotics/hand/pick_and_place.py:64-102 | success and reward equal the moving hand's with rotation not ignored, no grasp requirement and no weights |
| HandPickAndPlace.DenseRewardBounds | gym/envs/robotics/hand/pick_and_place.py:88-92 | the dense reward is never positive, and 0 at a unit-quaternion goal itself |
| HandPickAndPlace.AchievedGoal | gym/envs/robotics/hand/pick_and_place.py:55-62 | a 7-element copy of the object's (or the wall mount's) joint position |
| HandPickAndPlace.SampleGoal | gym/envs/robotics/hand/pick_and_place.py:143-150 | length 7 with the last 4 slots zero; x and y within 0.15 of the arm's initial position; with an object z is the resting height, lifted by less than 0.45 only on the in-the-air branch; without one z is within 0.15 of the arm's height |
| HandPickAndPlace.Observation | gym/envs/robotics/hand/pick_and_place.py:165-176 | robot joint positions, then joint velocities, then with an object its joint velocity, then the 7-element achieved goal last; the length is the sum |
| HandPickAndPlace.ObservationEndsWithGoal | gym/envs/robotics/hand/pick_and_place.py:165-171 | the achieved goal is the last 7 entries; without an object the object part is empty |
| YumiEnv.ArmPredicates | gym/envs/yumi/yumi_env.py:263-273 | two arms exactly when both a left and a right arm; there is always an arm |
| YumiEnv.ArmCount | gym/envs/yumi/yumi_env.py:69-72 | the number of arms subtracted by the sparse reward: 2 exactly for two arms, else 1 |
| YumiEnv.ParseArm | gym/envs/yumi/yumi_env.py:22-24 | accepted exactly for right, left and both; otherwise `ValueError` |
| YumiEnv.ParseRewardType | gym/envs/yumi/yumi_env.py:26-28 | accepted exactly for sparse and dense; otherwise `ValueError` |
| YumiEnv.CtrlHigh | gym/envs/yumi/yumi_env.py:43-51 | length `(7 + (blocked ? 0 : 1)) * (both ? 2 : 1)`, the seven arm limits first, the gripper limit 0.02 next when free, both halves equal for two arms, all positive |
| YumiEnv.NewYumi | gym/envs/yumi/yumi_env.py:20-51 | `ValueError` unless arm and reward type are valid; the limit vector has the stated length and `ctrl_low == -ctrl_high` |
| YumiEnv.IsSuccess | gym/envs/yumi/yumi_env.py:180-182 | 0 or 1, and 1 exactly when the distance is strictly below the threshold |
| YumiEnv.ComputeReward | gym/envs/yumi/yumi_env.py:60-75 | sparse with an object is `NotImplementedError`; sparse is in {-2, -1, 0} for two arms and {-1, 0} for one, 0 exactly when every present arm succeeds and minus the arm count exactly when none does; dense is minus the norm of the goal difference |
| YumiEnv.DenseRewardBounds | gym/envs/yumi/yumi_env.py:73-75 | the dense reward is minus a norm: never positive, 0 when the goal is reached exactly |
| YumiEnv.ScaledAction | gym/envs/yumi/yumi_env.py:160-161 | each component clipped to the action space and scaled by its actuator limit |
| YumiEnv.SetAction | gym/envs/yumi/yumi_env.py:159-178 | 9 entries per arm in arm order; a free gripper's command is duplicated for both fingers; a blocked gripper gets 0.02 twice |
| YumiEnv.FreeGripperCommand | gym/envs/yumi/yumi_env.py:163-168 | each arm's 7 joint commands followed by its gripper command twice |
| YumiEnv.BlockedGripperCommand | gym/envs/yumi/yumi_env.py:169-175 | each arm's 7 joint commands followed by 0.02 twice |
| YumiEnv.ScaledActionWithin | gym/envs/yumi/yumi_env.py:160-161 | with the action space `[-1, 1]` each scaled component lies within its actuator limit |
| YumiEnv.SetActionWithinLimits | gym/envs/yumi/yumi_env.py:159-178 | every joint command of either arm lies within its joint limit and every finger command within 0.02 |
| YumiEnv.SampleSafeQpos | gym/envs/yumi/yumi_env.py:294-299 | each joint range is shrunk by pi/6 at both ends before sampling, so a draw lies in the shrunk range |
| YumiEnv.WriteJoints | gym/envs/yumi/yumi_env.py:308 | writing joints by address leaves every other address unchanged |
| YumiEnv.WriteJointsLast | gym/envs/yumi/yumi_env.py:308 | an address written by entry `i` and not later holds entry `i` |
| YumiEnv.RandomizedAtRest | gym/envs/yumi/yumi_env.py:80-101 | after a reset every written joint's velocity is zero, the right fingers are at zero, and all other joints keep their state |
| YumiEnv.RandomizedRightArmWithin | gym/envs/yumi/yumi_env.py:95-97 | a right-arm joint written once holds its draw, inside the reset bounds |
| YumiEnv.InitialState.ResetSimAsWritten | gym/envs/yumi/yumi_env.py:80-104 | as written: the simulator receives the state as it was before the draws, and the draws go into the kept initial state |
| YumiEnv.InitialState.ResetSim | gym/envs/yumi/yumi_env.py:80-104 | corrected: the simulator receives the randomized state, and the kept initial state is unchanged |
| YumiEnv.ResetShowsStaleState | gym/envs/yumi/yumi_env.py:84-103 | a concrete reset whose randomized joint differs from what the code as written hands to the simulator |
| YumiEnv.FkPosition | gym/envs/yumi/yumi_env.py:301-316 | forward kinematics without restoring the state: the arm's joints are written and the gripper position is read |
| YumiEnv.Attempt | gym/envs/yumi/yumi_env.py:193-195 | one sampling attempt advances the joint state by one attempt and returns that attempt's gripper position |
| YumiEnv.Attempts | gym/envs/yumi/yumi_env.py:193-195 | after `n` attempts the joint state keeps its length |
| YumiEnv.FirstAccepted | gym/envs/yumi/yumi_env.py:193-198 | the index of the first attempt from `from` whose position is inside the box, with every earlier one outside; `None` exactly when all are outside |
| YumiEnv.FirstAcceptedStep | gym/envs/yumi/yumi_env.py:193-198 | an accepted attempt `k` is the first from `k`; a rejected one passes the search on to `k + 1` |
| YumiEnv.SamplingAccepts | gym/envs/yumi/yumi_env.py:196-198 | when attempt `k` is accepted and none before it, the search yields `k` and the joint state is the one after `k + 1` attempts |
| YumiEnv.SamplingExhausted | gym/envs/yumi/yumi_env.py:193-198 | when no attempt is accepted, the search yields `None` and the joint state is the one after all attempts |
| YumiEnv.SampledHalf | gym/envs/yumi/yumi_env.py:193-205 | a sampled half has 3 entries inside the box, and exists exactly when some attempt is accepted |
| YumiEnv.AfterSampling | gym/envs/yumi/yumi_env.py:193-198 | the joint state after sampling keeps its length |
| YumiEnv.WriteHalf | gym/envs/yumi/yumi_env.py:197-204 | writing a half replaces exactly those 3 entries of the goal |
| YumiEnv.SampleArmTarget | gym/envs/yumi/yumi_env.py:193-198 | the accepted attempt is `FirstAccepted`: the first whose position lies inside the inclusive target box, earlier ones all outside; `None` means every attempt was outside; the joint state afterwards is the one left by the attempts made (`AfterSampling`) |
| YumiEnv.FillArmTarget | gym/envs/yumi/yumi_env.py:193-205 | the accepted position, the arm's `SampledHalf`, is written into its arm's half of the goal and the rest of the goal is untouched; with no accepted attempt the goal is unchanged; the joint state is `AfterSampling` |
| YumiEnv.FillGoal | gym/envs/yumi/yumi_env.py:190-205 | complete exactly when `SampledGoal` is defined, and then the goal is it: the left half sampled from the initial state, the right half from the state the left sampling left behind; each present half inside its box, an absent half zero |
| YumiEnv.SampledGoal | gym/envs/yumi/yumi_env.py:184-205 | a sampled goal lies within each present arm's box, with an absent arm's half zero |
| YumiEnv.SampledGoalFacts | gym/envs/yumi/yumi_env.py:184-205 | a sampled goal is in bounds, its left half is the first accepted attempt, and with no right arm a missing goal means every left attempt was rejected |
| YumiEnv.GoalFromHalves | gym/envs/yumi/yumi_env.py:184-205 | the goal is the left half followed by the right half sampled from the state the left sampling left behind |
| YumiEnv.LeftExhausted | gym/envs/yumi/yumi_env.py:190-198 | if no left attempt is accepted there is no goal |
| YumiEnv.RightExhausted | gym/envs/yumi/yumi_env.py:199-205 | if no right attempt from the post-left state is accepted there is no goal |
| YumiEnv.SampleGoal | gym/envs/yumi/yumi_env.py:184-208 | `NotImplementedError` exactly with an object; otherwise the result is `SampledGoal`, in bounds with the left half the first accepted attempt, and the joint state saved at the start is restored |
| YumiEnv.AchievedGoal | gym/envs/yumi/yumi_env.py:136-145 | 6 entries, each half the present arm's gripper position or zero |
| YumiEnv.ObservationVector | gym/envs/yumi/yumi_env.py:106-151 | length `(arms) * (blocked ? 17 : 19)`; each present arm contributes its block (7 joint positions, 7 velocities clipped to `[-10, 10]`, and 2 finger positions unless blocked), left before right; the present arms' gripper positions follow, left before right |
| YumiEnv.ArmObservation | gym/envs/yumi/yumi_env.py:118-134 | an absent arm contributes nothing; a present arm its 7 joint positions, its velocities clipped to `[-10, 10]`, and its 2 finger positions unless the gripper is blocked |
| YumiEnv.ObservationParts | gym/envs/yumi/yumi_env.py:147-151 | the concatenation of the arm blocks and the gripper positions has the layout stated for the observation vector |
| YumiEnv.ArmsLayout | gym/envs/yumi/yumi_env.py:147-151 | in `left + right + tail` each present block sits at its offset and the tail follows both |
| YumiEnv.ArmBlockAt | gym/envs/yumi/yumi_env.py:118-130 | an arm block found at offset `o` starts with the joint positions and has its velocities within `[-10, 10]` |
| YumiEnv.Observe | gym/envs/yumi/yumi_env.py:106-157 | `NotImplementedError` exactly with an object; otherwise the observation vector and the achieved goal |
| YumiConstrained.GoalDistanceProperties | gym/envs/yumi/yumi_constrained.py:10-15 | the distance between 3-element goals is non-negative and zero from a goal to itself |
| YumiConstrained.GoalDistance | gym/envs/yumi/yumi_constrained.py:10-15 | the Euclidean norm of the difference of two 3-element goals |
| YumiConstrained.IsSuccess | gym/envs/yumi/yumi_constrained.py:260-262 | 0 or 1, and 1 exactly when the distance is strictly below the threshold |
| YumiConstrained.ComputeReward | gym/envs/yumi/yumi_constrained.py:252-258 | the sparse reward is in {-1, 0} and 0 exactly when the distance is below the threshold; dense is `-d` |
| YumiConstrained.DenseRewardBounds | gym/envs/yumi/yumi_constrained.py:256-258 | the dense reward `-d` is never positive, and 0 at the goal |
| YumiConstrained.IsObjectUnreachable | gym/envs/yumi/yumi_constrained.py:124-130 | not unreachable means strictly inside the box in x and y |
| YumiConstrained.UnreachableIsOutsideBox | gym/envs/yumi/yumi_constrained.py:124-130 | unreachable exactly when the object fails the exclusive box test on (-0.15, 0.15) x (-0.15, 0.15) x (-0.01, 0.45) |
| YumiConstrained.GraspCenter | gym/envs/yumi/yumi_constrained.py:103-104 | the grasp centre has the grippers' dimension |
| YumiConstrained.GraspCenterMidpoint | gym/envs/yumi/yumi_constrained.py:103-104 | the centre is equally far from both grippers, and is the gripper position when they coincide |
| YumiConstrained.NActions | gym/envs/yumi/yumi_constrained.py:36-40 | 4, plus 4 with rotation control, plus 2 with finger control |
| YumiConstrained.UnpackAction | gym/envs/yumi/yumi_constrained.py:142-161 | separation at 0 and delta at 1-3; the quaternion in the next 4 slots only with rotation control, else `(1, 0, 0, 0)`; the fingers in the next 2 only with finger control, else -1 |
| YumiConstrained.PackUnpack | gym/envs/yumi/yumi_constrained.py:142-161 | unpacking reads every slot exactly once: packing the parts gives the action back |
| YumiConstrained.UnpackPack | gym/envs/yumi/yumi_constrained.py:142-161 | parts with the defaults in their disabled fields survive packing and unpacking |
| YumiConstrained.Interp | gym/envs/yumi/yumi_constrained.py:193 | the separation lies in [0.05, 0.30] and holds the end values outside [-1, 1] |
| YumiConstrained.InterpMonotone | gym/envs/yumi/yumi_constrained.py:193 | the separation map is monotone |
| YumiConstrained.InterpLinear | gym/envs/yumi/yumi_constrained.py:193 | on [-1, 1] the separation is the linear map of [-1, 1] onto [0.05, 0.30] |
| YumiConstrained.ClipAction | gym/envs/yumi/yumi_constrained.py:188 | every entry lies in [-1, 1], and entries already there are kept |
| YumiConstrained.CenterPose | gym/envs/yumi/yumi_constrained.py:196-198 | the target centre pose is the centre with the identity orientation |
| YumiConstrained.OffsetPose | gym/envs/yumi/yumi_constrained.py:204-205 | a gripper offset is a pose along y with the identity orientation |
| YumiConstrained.GripperTargetShift | gym/envs/yumi/yumi_constrained.py:203-206 | `apply_tf` of the offset onto the centre pose is the centre shifted along y |
| YumiConstrained.StepTargets | gym/envs/yumi/yumi_constrained.py:186-206 | rotation control raises `NotImplementedError`; otherwise the separation is the interpolation of the clipped action's first entry, in [0.05, 0.30]; the centre is the grasp centre plus 0.2 times the clipped delta; the targets are the centre plus and minus half the separation along y; the fingers are the clipped finger entries |
| YumiConstrained.StepFingers | gym/envs/yumi/yumi_constrained.py:186-191 | finger commands reach the servo loop inside [-1, 1], and as -1 without finger control |
| YumiConstrained.GraspRadius | gym/envs/yumi/yumi_constrained.py:208-213 | half the planar distance between the targets equals half the separation, as `step` asserts |
| YumiConstrained.ControlLaw | gym/envs/yumi/yumi_constrained.py:295-301 | the PD command has the error's length |
| YumiConstrained.ControlLawSteady | gym/envs/yumi/yumi_constrained.py:296-301 | when the error has not changed the derivative term vanishes and the command is `-k * error` |
| YumiConstrained.Controller | gym/envs/yumi/yumi_constrained.py:295-301 | the command is the PD law of the error and the old previous error, which is then overwritten by the error |
| YumiConstrained.MaxAbsDiff | gym/envs/yumi/yumi_constrained.py:349 | the largest absolute difference is non-negative |
| YumiConstrained.MaxAbsDiffIsMaximum | gym/envs/yumi/yumi_constrained.py:349 | it bounds every component's difference and is attained by one of them |
| YumiConstrained.TargetPose | gym/envs/yumi/yumi_constrained.py:345-346 | the arm's target pose is a 7-element pose |
| YumiConstrained.TargetPosePosition | gym/envs/yumi/yumi_constrained.py:345-346 | turning the target about its own origin does not move it |
| YumiConstrained.ArmStep | gym/envs/yumi/yumi_constrained.py:327-353 | one arm's step writes the PD command into its 7 slots only and reports its position error |
| YumiConstrained.JointError | gym/envs/yumi/yumi_constrained.py:327-353 | the joint error is the current joint position minus the inverse-kinematics target, joint by joint |
| YumiConstrained.ClippedLaw | gym/envs/yumi/yumi_constrained.py:353-364 | each of an arm's 7 commands is the PD law of its joint error, clipped to that actuator's bounds |
| YumiConstrained.Command | gym/envs/yumi/yumi_constrained.py:318-364 | one step's command has one entry per actuator |
| YumiConstrained.CommandMeaning | gym/envs/yumi/yumi_constrained.py:318-364 | a command equals `Command` exactly when it is within bounds with the gripper slots set and each arm's slots hold the clipped PD law |
| YumiConstrained.PrevError | gym/envs/yumi/yumi_constrained.py:310-311 | the previous error at step `t` has 7 entries and is zero before the first step |
| YumiConstrained.Commands | gym/envs/yumi/yumi_constrained.py:316-364 | the commands of the first `n` steps, one per step |
| YumiConstrained.CommandsAt | gym/envs/yumi/yumi_constrained.py:316-364 | step `t`'s command is `Command` of reading `t` with the joint errors of step `t - 1` as previous errors |
| YumiConstrained.ServoStep | gym/envs/yumi/yumi_constrained.py:318-374 | the sent command is both arms' PD commands with the gripper slots set, clipped; the break test is both errors below their thresholds |
| YumiConstrained.Iteration | gym/envs/yumi/yumi_constrained.py:316-386 | the command is `Command` of the reading and the previous errors, which are then overwritten by the joint errors; one iteration stops on convergence; in counting mode a stable step increments the count, and a non-stable step at loop index above 10 stops the loop |
| YumiConstrained.StepsTakenIsFirstConvergence | gym/envs/yumi/yumi_constrained.py:316-375 | outside counting mode the loop stops at the first converged step, or after `max_steps` |
| YumiConstrained.Views | gym/envs/yumi/yumi_constrained.py:316-386 | one view per reading, each holding what the loop's tests read |
| YumiConstrained.ViewAt | gym/envs/yumi/yumi_constrained.py:340-386 | view `t` holds reading `t`'s convergence test, object position relative to the grasp centre and table-contact flag |
| YumiConstrained.StepsTakenAdvance | gym/envs/yumi/yumi_constrained.py:316-375 | a converged step `i` ends the loop after `i + 1` steps; otherwise the count continues from `i + 1` |
| YumiConstrained.StableRun | gym/envs/yumi/yumi_constrained.py:377-389 | in counting mode the loop runs at least one step and at most `max_steps`, and the stable count grows by at most one per step |
| YumiConstrained.StableRunStops | gym/envs/yumi/yumi_constrained.py:374-386 | in counting mode no step before the last converged, and a stop before `max_steps` within the first 11 steps is a convergence |
| YumiConstrained.StableRunPassed | gym/envs/yumi/yumi_constrained.py:374-375 | every step before the last in counting mode was not converged |
| YumiConstrained.StableRunEarlyStop | gym/envs/yumi/yumi_constrained.py:374-386 | a counting-mode stop before `max_steps` at index at most 10 is a convergence, since the stability break needs index above 10 |
| YumiConstrained.StableRunAdvance | gym/envs/yumi/yumi_constrained.py:374-386 | one iteration's update of the count and the stop flag advances the counting-mode run by one step |
| YumiConstrained.ProgressNext | gym/envs/yumi/yumi_constrained.py:316-386 | one iteration keeps the loop invariant: the command, the error, the count and the stop flag match the specification after one more step |
| YumiConstrained.ProgressStart | gym/envs/yumi/yumi_constrained.py:306-312 | the initial state (no commands, zero count, zero previous errors, `-inf` error) satisfies the loop invariant |
| YumiConstrained.ProgressDone | gym/envs/yumi/yumi_constrained.py:316-391 | when the loop ends its commands, step count, stable count and last error are the specified ones |
| YumiConstrained.LastPosErr | gym/envs/yumi/yumi_constrained.py:321-347 | the reported error is that of the last step run |
| YumiConstrained.MoveStep | gym/envs/yumi/yumi_constrained.py:316-386 | one loop iteration over the arrays keeps the loop invariant |
| YumiConstrained.ServoLoop | gym/envs/yumi/yumi_constrained.py:316-391 | the loop sends `Commands` of its step count; the count and stable count are `StepsTaken` or `StableRun`; the error is the last step's |
| YumiConstrained.MoveArms | gym/envs/yumi/yumi_constrained.py:303-391 | at most `max_steps` commands, the sequence `Commands` of PD commands (each the clipped PD law of the joint error and the previous error, gripper slots set); without counting the number of steps is `StepsTaken` (the first converged step) and the result is the last step's position error, or `-inf` after no step; with counting the steps and the stable count are `StableRun` |
| YumiConstrained.StepServo | gym/envs/yumi/yumi_constrained.py:186-222 | `step` raises `NotImplementedError` with rotation control; otherwise it runs the servo loop on its targets with `max_steps = 5` and the defaults 0.02, 0.1 and `k = 2.0`: at most 5 commands, the first converged step ends it, the commands are `Commands` with the finger entries, and the error is the last step's |

## Left out

- MuJoCo calls (`sim.step`, `forward`, `set_state`, site and body reads, `mj_contactForce`) are not modelled. Their results are inputs: readings, a `Sim` holding joint positions, and forward kinematics as a function.
- `get_object_contact_points` is not modelled: the contact scan needs the simulator's contact array. In the servo loop its outcome is the reading `objectAboveTable`.
- `sim_env.mocap_ik` is not modelled: its answer is the reading `ikQ`.
- `quat_angle_diff` (with `normalize_angles`) is not modelled: it is transcendental. The rotation error of each arm is the reading `rotErr`.
- `np.linalg.norm` and `np.arccos` are function parameters. Only the properties in `Metrics.Valid` are assumed of them.
- `np.arctan2`, `euler2quat`, `quat2euler`, `quat2mat` and `mat2quat` are not modelled. The yaw and pitch quaternions of the servo loop are inputs, the forearm's Euler angles are an input to `HandMove.Observation`, and the matrix conversions are parameters of `PoseToMat` and `MatToPose`.
- `quat_from_angle_and_axis` is not modelled, because it is transcendental.
- `apply_tf_old` is not modelled: nothing calls it, and it needs the matrix conversions.
- Random draws are caller-supplied unit draws in `[0, 1)`. The random source itself is not modelled.
- HandMove.ResetSim: the retry loop runs over a finite sequence of attempts. It returns `None` when all are rejected, where the code would keep retrying. The simulator writes inside each attempt are not modelled; only what the attempt shows is.
- YumiEnv.SampleArmTarget: the `while True` loop runs over a finite sequence of draws and returns `None` when all are rejected. YumiEnv.FillGoal and YumiEnv.SampleGoal inherit this.
- YumiConstrained.MoveArms: what the simulator shows at each step is a sequence of readings supplied in advance. The `targets_relative_to` callback is not modelled.
- The grasp-state pickle, the URDF loading and the XML cage and finger-weld templates are not modelled. They are file I/O and data. A grasp state is a flag or an opaque handle, and the geoms are names and attributes rather than XML text.
- Rendering is not modelled: `render_pose`, `render_box`, `render`, `_viewer_setup`, `_render_callback` and the `TFDebugger` with its class-level state and random colours.
- `HandEnv._set_action`, the `RobotEnv` action space and `robot_get_obs` are not part of this model. The hand's 20 commands are returned rather than applied, and the action space bounds are parameters.
- `HandPickAndPlace`'s `_reset_sim` is not modelled: it only writes the unchanged object position back. `_env_setup` is not modelled either, because it only reads the simulator.
- `YumiConstrainedEnv`'s `_get_obs`, `_reset`, `reset` and the object getters are not modelled. They are simulator reads. The constructor passes arguments (`task`, `object_id`, `randomize_initial_object_pos`) that `YumiEnv.__init__` does not accept, so only its action-count logic is modelled.
- `HandMove.GoalDistance` does not identify `q` with `-q`, because the code has no absolute value there; `HandMove.GoalDistanceOppositeQuaternion` states what the code gives.
- `np.pi` is the decimal `3.141592653589793`, not the real number pi.
- Numpy's batched leading axes (`...`) are not modelled. Goals are single vectors, and the batched reward is a sequence of them.
- YumiConstrained.StepTargets computes the gripper targets as the centre shifted along y. `YumiConstrained.GripperTargetShift` proves this equal to what `apply_tf` gives there.
- `_fk_position` with `restore_state=True` is not modelled, because `_sample_goal` calls it only with `restore_state=False` and restores the state itself. YumiEnv.FkPosition models that call.
- YumiEnv.InitialState.ResetSim and ResetSimAsWritten take the joint addresses as given. How `_env_setup` obtains them from joint names is not part of this model.
- `_table_safe_bounds` (gym/envs/yumi/yumi_env.py:34) is not modelled: it is assigned but never read.
- YumiConstrained.StepServo takes the two yaw quaternions as inputs, since `np.arctan2` and `euler2quat` are not modelled. It ends with the servo loop's result: the observation, reward and `info` that `step` builds afterwards come from `_get_obs`, which is not modelled.

## Findings

| source | as written | input that shows it | evidently intended | confidence | as-written member | corrected member |
|---|---|---|---|---|---|---|
| gym/utils/transformations.py:31-37 | the orientation of `get_tf` is `b.q * conj(a.q)`, but `apply_tf` composes `a.q * t.q`, so `apply_tf(get_tf(b, a), a)` has orientation `a.q * b.q * conj(a.q)` | `a.q = (0.5, 0.5, 0.5, 0.5)`, `b.q = (0.5, 0.5, 0.5, -0.5)`, any positions: the round trip does not return `b` | `get_tf` returns `a_to_b` (its docstring), i.e. the orientation `conj(a.q) * b.q`, so that `apply_tf(get_tf(b, a), a) == b` | high; not executed | Transformations.GetTf (Transformations.RoundTripIffCommute, Transformations.GetTfRoundTripCounterexample) | Transformations.GetTfInverse (Transformations.ApplyTfGetTfInverse, Transformations.GetTfInverseApplyTf) |
| gym/envs/robotics/hand/move.py:108-171 | without an object `xml_format` stays `None`, and lines 167 and 170-171 assign into it, raising `TypeError` | `MovingHandReachEnv()` with its defaults (`has_object=False`, no grasp state), which passes every check | an object-less hand builds without object geoms | high; not executed | HandMove.NewMovingHandAsWritten (with HandMove.ReachConfig) | HandMove.NewMovingHand |
| gym/envs/yumi/yumi_env.py:84-103 | `qpos` and `qvel` are copied from `init_qpos` and `init_qvel` before the draws; the draws are written into `init_qpos` and `init_qvel`, and the simulator is set from the copies | an environment whose left arm occupies joints 0-6, all zero, with draws of 0.5: joint 0 should reset to -0.3 but is set to 0 | the drawn joint positions and zero velocities go into the state given to the simulator | medium; not executed | YumiEnv.InitialState.ResetSimAsWritten (YumiEnv.ResetShowsStaleState) | YumiEnv.InitialState.ResetSim (YumiEnv.RandomizedAtRest, YumiEnv.RandomizedRightArmWithin) |
