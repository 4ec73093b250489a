/** The two layouts the controller reconciles.

    The estimator sends a 19-number state message laid out as
      [0..3)   end-effector position
      [3..7)   object orientation (unit quaternion, scalar first)
      [7..10)  object position
      [10..13) end-effector velocity
      [13..16) object angular velocity
      [16..19) object linear velocity
    and 10-number target messages laid out as the first ten of these.

    The planner wants positions before orientations and linear before
    angular velocities: an object pose is [position, quaternion] and an
    object twist is [linear, angular].  Every conversion here is an exact
    copy of the scalars; nothing is renormalised. */
module Convention {

  /** Number of values the current-state handler reads. */
  const StateLength: nat := 19
  /** Number of values a target handler reads. */
  const TargetLength: nat := 10

  /** Lengths of the planner-side vectors. */
  const PoseLength: nat := 7
  const TwistLength: nat := 6
  const PositionLength: nat := 3
  const QuaternionLength: nat := 4

  /** Index table of the object-pose remap: planner slot i is read from
      message slot PoseSource(i). */
  function PoseSource(i: nat): (j: nat)
    requires i < PoseLength
    ensures 3 <= j < TargetLength
  {
    if i < 3 then 7 + i else i
  }

  /** Index table of the object-twist remap: planner slot i is read from
      message slot TwistSource(i). */
  function TwistSource(i: nat): (j: nat)
    requires i < TwistLength
    ensures 13 <= j < StateLength
  {
    if i < 3 then 16 + i else 10 + i
  }

  /** The object pose in the planner's order: position, then quaternion. */
  function ObjectPose(msg: seq<real>): (r: seq<real>)
    requires |msg| >= TargetLength
    ensures |r| == PoseLength
    ensures forall i :: 0 <= i < PoseLength ==> r[i] == msg[PoseSource(i)]
  {
    msg[7..10] + msg[3..7]
  }

  /** The object twist in the planner's order: linear, then angular. */
  function ObjectTwist(msg: seq<real>): (r: seq<real>)
    requires |msg| >= StateLength
    ensures |r| == TwistLength
    ensures forall i :: 0 <= i < TwistLength ==> r[i] == msg[TwistSource(i)]
  {
    msg[16..19] + msg[13..16]
  }

  /** The end-effector position (same place in both layouts). */
  function ActorPosition(msg: seq<real>): (r: seq<real>)
    requires |msg| >= PositionLength
    ensures |r| == PositionLength
    ensures forall i :: 0 <= i < PositionLength ==> r[i] == msg[i]
  {
    msg[..3]
  }

  /** The end-effector velocity. */
  function ActorVelocity(msg: seq<real>): (r: seq<real>)
    requires |msg| >= 13
    ensures |r| == PositionLength
    ensures forall i :: 0 <= i < PositionLength ==> r[i] == msg[10 + i]
  {
    msg[10..13]
  }

  // ---------------------------------------------------------------------
  // The conversion on its own, between the estimator's pose slice
  // [quaternion, position] and the planner's [position, quaternion], and
  // between [angular, linear] and [linear, angular] twists.

  /** Estimator pose slice (quaternion, position) to planner pose. */
  function ToPlannerPose(e: seq<real>): (p: seq<real>)
    requires |e| == PoseLength
    ensures |p| == PoseLength
    ensures p[..3] == e[4..] && p[3..] == e[..4]
  {
    e[4..] + e[..4]
  }

  /** Planner pose (position, quaternion) to estimator pose slice. */
  function ToExternalPose(p: seq<real>): (e: seq<real>)
    requires |p| == PoseLength
    ensures |e| == PoseLength
    ensures e[..4] == p[3..] && e[4..] == p[..3]
  {
    p[3..] + p[..3]
  }

  /** Swaps the two 3-vector halves of a twist (either direction). */
  function SwapTwist(v: seq<real>): (w: seq<real>)
    requires |v| == TwistLength
    ensures |w| == TwistLength
    ensures w[..3] == v[3..] && w[3..] == v[..3]
  {
    v[3..] + v[..3]
  }

  /** Estimator pose to planner pose and back is the identity. */
  lemma PoseRoundTripToPlanner(e: seq<real>)
    requires |e| == PoseLength
    ensures ToExternalPose(ToPlannerPose(e)) == e
  {
  }

  /** Planner pose to estimator pose and back is the identity. */
  lemma PoseRoundTripToExternal(p: seq<real>)
    requires |p| == PoseLength
    ensures ToPlannerPose(ToExternalPose(p)) == p
  {
  }

  /** The twist swap is its own inverse. */
  lemma SwapTwistInvolution(v: seq<real>)
    requires |v| == TwistLength
    ensures SwapTwist(SwapTwist(v)) == v
  {
  }

  /** The remap a handler performs on the pose slice of a message is the
      pose conversion applied to msg[3..10]. */
  lemma ObjectPoseIsConversion(msg: seq<real>)
    requires |msg| >= TargetLength
    ensures ObjectPose(msg) == ToPlannerPose(msg[3..10])
  {
  }

  /** The remap a handler performs on the twist slice of a message is the
      twist swap applied to msg[13..19]. */
  lemma ObjectTwistIsConversion(msg: seq<real>)
    requires |msg| >= StateLength
    ensures ObjectTwist(msg) == SwapTwist(msg[13..19])
  {
  }

  // ---------------------------------------------------------------------
  // The whole state: the 19 estimator numbers become the planner's
  // configuration (10) and velocity (9) and nothing is lost.

  /** The planner configuration assembled from a state message. */
  function PlannerQpos(msg: seq<real>): (q: seq<real>)
    requires |msg| >= StateLength
    ensures |q| == PoseLength + PositionLength
  {
    ObjectPose(msg) + ActorPosition(msg)
  }

  /** The planner velocity assembled from a state message. */
  function PlannerQvel(msg: seq<real>): (v: seq<real>)
    requires |msg| >= StateLength
    ensures |v| == TwistLength + PositionLength
  {
    ObjectTwist(msg) + ActorVelocity(msg)
  }

  /** The estimator state message rebuilt from a planner configuration and
      velocity. */
  function ExternalState(qpos: seq<real>, qvel: seq<real>): (msg: seq<real>)
    requires |qpos| == PoseLength + PositionLength
    requires |qvel| == TwistLength + PositionLength
    ensures |msg| == StateLength
  {
    qpos[7..10] + ToExternalPose(qpos[..7]) + qvel[6..9] + SwapTwist(qvel[..6])
  }

  /** Translating a state message to the planner and back gives it back. */
  lemma StateRoundTripToPlanner(msg: seq<real>)
    requires |msg| == StateLength
    ensures ExternalState(PlannerQpos(msg), PlannerQvel(msg)) == msg
  {
  }

  /** Translating a planner configuration and velocity to the estimator
      layout and back gives them back. */
  lemma StateRoundTripToExternal(qpos: seq<real>, qvel: seq<real>)
    requires |qpos| == PoseLength + PositionLength
    requires |qvel| == TwistLength + PositionLength
    ensures PlannerQpos(ExternalState(qpos, qvel)) == qpos
    ensures PlannerQvel(ExternalState(qpos, qvel)) == qvel
  {
  }

  /** A state message with the object at (0.4, 0.5, 0.6), identity
      orientation and the end effector at (0.1, 0.2, 0.3) reaches the planner
      with the object position first, the quaternion unchanged and the end
      effector last. */
  lemma ScenarioRestingObject()
    ensures var msg := [0.1, 0.2, 0.3, 1.0, 0.0, 0.0, 0.0, 0.4, 0.5, 0.6,
                        0.0, 0.0, 0.0, 0.0, 0.0, 0.0, 0.0, 0.0, 0.0];
            PlannerQpos(msg) == [0.4, 0.5, 0.6, 1.0, 0.0, 0.0, 0.0, 0.1, 0.2, 0.3]
  {
  }
}
