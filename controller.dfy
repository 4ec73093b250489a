/** The control loop's own state and its body, less the transport and the
    planner: each iteration copies the latest snapshot into the planner's
    input buffers, feeds the previous force forward as the action, and
    slices the planner's best trajectory into the four output blocks and
    their two bundles. */
module ControlLoop {
  import opened Convention
  import opened StateHandler
  import opened Trajectories

  /** Offsets of the sliced quantities inside one trajectory state. */
  const ActorPosStart: nat := 7
  const ObjectPosStart: nat := 0
  const ObjectQuatStart: nat := 3

  const ForceName := "end_effector_force_target"
  const ActorPosName := "end_effector_position_target"
  const ObjectPosName := "object_position_target"
  const ObjectQuatName := "object_orientation_target"

  /** Copies `n` numbers from `src` at `srcStart` into `dst` at `dstStart`
      (the engine's `mju_copy` on raw buffers); the rest of `dst` is kept. */
  method Copy(dst: array<real>, dstStart: nat, src: seq<real>, srcStart: nat, n: nat)
    requires dstStart + n <= dst.Length && srcStart + n <= |src|
    modifies dst
    ensures dst[..] == old(dst[..dstStart]) + src[srcStart..srcStart + n] + old(dst[dstStart + n..])
  {
    ghost var was := dst[..];
    var i := 0;
    while i < n
      invariant 0 <= i <= n
      invariant forall j :: 0 <= j < dst.Length ==>
                  dst[j] == if dstStart <= j < dstStart + i then src[srcStart + j - dstStart] else was[j]
    {
      dst[dstStart + i] := src[srcStart + i];
      i := i + 1;
    }
    ghost var want := was[..dstStart] + src[srcStart..srcStart + n] + was[dstStart + n..];
    assert |want| == dst.Length;
    forall j | 0 <= j < dst.Length
      ensures dst[..][j] == want[j]
    {
      if j < dstStart {
      } else if j < dstStart + n {
        assert want[j] == src[srcStart..srcStart + n][j - dstStart];
      } else {
        assert want[j] == was[dstStart + n..][j - dstStart - n];
      }
    }
  }

  /** A fresh buffer holding `values`, as a vector built from an
      initialiser list. */
  method NewBuffer(values: seq<real>) returns (a: array<real>)
    ensures fresh(a) && a[..] == values
  {
    a := new real[|values|](i requires 0 <= i < |values| => values[i]);
  }

  class Controller {
    /** Number of points of every output block, fixed at startup. */
    const horizon: nat
    /** The planner's input buffers. */
    const qpos: array<real>
    const qvel: array<real>
    const mocapPos: array<real>
    const mocapQuat: array<real>
    const action: array<real>
    /** The four output blocks; they persist across iterations. */
    const actorForceTraj: Block
    const actorPosTraj: Block
    const objectPosTraj: Block
    const objectQuatTraj: Block
    var time: real
    /** The two bundles handed to the transport. */
    var rawActorTraj: SavedTraj
    var rawObjectTraj: SavedTraj

    ghost predicate BuffersDisjoint() {
      qpos != qvel && qpos != mocapPos && qpos != mocapQuat && qpos != action &&
      qvel != mocapPos && qvel != mocapQuat && qvel != action &&
      mocapPos != mocapQuat && mocapPos != action &&
      mocapQuat != action
    }

    ghost predicate BlocksDisjoint() {
      actorForceTraj != actorPosTraj && actorForceTraj != objectPosTraj &&
      actorForceTraj != objectQuatTraj && actorPosTraj != objectPosTraj &&
      actorPosTraj != objectQuatTraj && objectPosTraj != objectQuatTraj &&
      actorForceTraj.datapoints != actorPosTraj.datapoints &&
      actorForceTraj.datapoints != objectPosTraj.datapoints &&
      actorForceTraj.datapoints != objectQuatTraj.datapoints &&
      actorPosTraj.datapoints != objectPosTraj.datapoints &&
      actorPosTraj.datapoints != objectQuatTraj.datapoints &&
      objectPosTraj.datapoints != objectQuatTraj.datapoints
    }

    /** A block set up with `name`, `rows` data rows and `horizon` points. */
    ghost predicate Shaped(b: Block, name: string, rows: nat) {
      b.Valid() && b.trajectoryName == name && b.numDatatypes == rows && b.numPoints == horizon &&
        b.datatypes == seq(rows, _ => "")
    }

    ghost predicate Valid()
      reads this, mocapQuat
    {
      1 <= horizon &&
      qpos.Length == PoseLength + PositionLength &&
      qvel.Length == TwistLength + PositionLength &&
      mocapPos.Length == 3 * PositionLength &&
      mocapQuat.Length == 3 * QuaternionLength &&
      action.Length == PositionLength &&
      BuffersDisjoint() && BlocksDisjoint() &&
      // the end-effector goal's orientation is never written
      mocapQuat[8..] == [1.0, 0.0, 0.0, 0.0] &&
      Shaped(actorForceTraj, ForceName, 3) &&
      Shaped(actorPosTraj, ActorPosName, 3) &&
      Shaped(objectPosTraj, ObjectPosName, 3) &&
      Shaped(objectQuatTraj, ObjectQuatName, 4) &&
      rawActorTraj.numTrajectories == 2 && |rawActorTraj.trajectories| == 2 &&
      rawActorTraj.trajectoryNames == [ForceName, ActorPosName] &&
      rawObjectTraj.numTrajectories == 2 && |rawObjectTraj.trajectories| == 2 &&
      rawObjectTraj.trajectoryNames == [ObjectPosName, ObjectQuatName]
    }

    /** The force block's first point, which the next iteration feeds
        forward as the action. */
    ghost function ForceAtFirstPoint(): seq<real>
      reads actorForceTraj.datapoints
      requires actorForceTraj.datapoints.Length0 == 3 && 1 <= actorForceTraj.datapoints.Length1
    {
      [actorForceTraj.datapoints[0, 0], actorForceTraj.datapoints[1, 0], actorForceTraj.datapoints[2, 0]]
    }

    /** The planner's input buffers hold the snapshot `h` in the planner's
        layout: configuration = object pose + end-effector position,
        velocity = object twist + end-effector velocity, mocap positions =
        intermediate goal, final goal and end-effector goal positions, mocap
        quaternions = intermediate and final goal orientations followed by
        the end-effector goal's, which is never written. */
    ghost predicate InputFrom(h: Handler)
      reads h, qpos, qvel, mocapPos, mocapQuat
      requires h.Valid()
    {
      qpos[..] == h.jackPositions + h.frankaPositions &&
      qvel[..] == h.jackVelocities + h.frankaVelocities &&
      mocapPos[..] == h.jackTarget[..3] + h.jackFinalTarget[..3] + h.frankaTarget &&
      mocapQuat[..] == h.jackTarget[3..] + h.jackFinalTarget[3..] + [1.0, 0.0, 0.0, 0.0]
    }

    /** Setup before the loop: the buffers hold their initial literals, the
        blocks are shaped and zero-filled, the bundles are named. */
    constructor (horizon: nat)
      requires 1 <= horizon
      ensures Valid() && this.horizon == horizon
      ensures time == 0.0
      ensures action[..] == [-0.1, 0.1, 0.0]
      ensures qpos[..] == [0.7, 0.0, 0.485, 1.0, 0.0, 0.0, 0.0, 0.55, 0.0, 0.45]
      ensures qvel[..] == [0.0, 0.0, 0.0, 0.0, 0.0, 0.0, 0.0, 0.0, 0.0]
      ensures mocapPos[..] == [0.45, 0.1, 0.032, 0.45, 0.2, 0.032, 0.45, 0.0, 0.132]
      ensures mocapQuat[..] == [1.0, 0.0, 0.0, 0.0, 1.0, 0.0, 0.0, 0.0, 1.0, 0.0, 0.0, 0.0]
      ensures ForceAtFirstPoint() == [0.0, 0.0, 0.0]
      ensures forall n, k :: 0 <= n < 3 && 0 <= k < horizon ==> actorForceTraj.datapoints[n, k] == 0.0
      ensures forall n, k :: 0 <= n < 3 && 0 <= k < horizon ==> actorPosTraj.datapoints[n, k] == 0.0
      ensures forall n, k :: 0 <= n < 3 && 0 <= k < horizon ==> objectPosTraj.datapoints[n, k] == 0.0
      ensures forall n, k :: 0 <= n < 4 && 0 <= k < horizon ==> objectQuatTraj.datapoints[n, k] == 0.0
      ensures actorForceTraj.timeVec == actorPosTraj.timeVec == seq(horizon, _ => 0.0)
      ensures objectPosTraj.timeVec == objectQuatTraj.timeVec == seq(horizon, _ => 0.0)
      ensures actorForceTraj.datatypes == actorPosTraj.datatypes == objectPosTraj.datatypes == ["", "", ""]
      ensures objectQuatTraj.datatypes == ["", "", "", ""]
      ensures rawActorTraj.trajectories == rawObjectTraj.trajectories == [EmptyBlock, EmptyBlock]
      ensures fresh(qpos) && fresh(qvel) && fresh(mocapPos) && fresh(mocapQuat) && fresh(action)
      ensures fresh(actorForceTraj) && fresh(actorForceTraj.datapoints)
      ensures fresh(actorPosTraj) && fresh(actorPosTraj.datapoints)
      ensures fresh(objectPosTraj) && fresh(objectPosTraj.datapoints)
      ensures fresh(objectQuatTraj) && fresh(objectQuatTraj.datapoints)
    {
      this.horizon := horizon;
      var initialAction := NewBuffer([-0.1, 0.1, 0.0]);
      action := initialAction;
      var initialQpos := NewBuffer([0.7, 0.0, 0.485, 1.0, 0.0, 0.0, 0.0, 0.55, 0.0, 0.45]);
      qpos := initialQpos;
      var initialQvel := NewBuffer([0.0, 0.0, 0.0, 0.0, 0.0, 0.0, 0.0, 0.0, 0.0]);
      qvel := initialQvel;
      var initialMocapPos := NewBuffer([0.45, 0.1, 0.032, 0.45, 0.2, 0.032, 0.45, 0.0, 0.132]);
      mocapPos := initialMocapPos;
      var initialMocapQuat := NewBuffer([1.0, 0.0, 0.0, 0.0, 1.0, 0.0, 0.0, 0.0, 1.0, 0.0, 0.0, 0.0]);
      mocapQuat := initialMocapQuat;
      time := 0.0;
      actorForceTraj := new Block(ForceName, 3, horizon);
      actorPosTraj := new Block(ActorPosName, 3, horizon);
      objectPosTraj := new Block(ObjectPosName, 3, horizon);
      objectQuatTraj := new Block(ObjectQuatName, 4, horizon);
      rawActorTraj := SavedTraj(2, [ForceName, ActorPosName], [EmptyBlock, EmptyBlock]);
      rawObjectTraj := SavedTraj(2, [ObjectPosName, ObjectQuatName], [EmptyBlock, EmptyBlock]);
      new;
      assert mocapQuat[8..] == [1.0, 0.0, 0.0, 0.0];
    }

    /** Copies the object pose and end-effector position into the
        configuration, and the object twist and end-effector velocity into
        the velocity. */
    method AssembleState(h: Handler)
      requires Valid() && h.Valid()
      modifies qpos, qvel
      ensures Valid()
      ensures qpos[..] == h.jackPositions + h.frankaPositions
      ensures qvel[..] == h.jackVelocities + h.frankaVelocities
    {
      Copy(qpos, 0, h.jackPositions, 0, 7);
      Copy(qpos, 7, h.frankaPositions, 0, 3);
      Copy(qvel, 0, h.jackVelocities, 0, 6);
      Copy(qvel, 6, h.frankaVelocities, 0, 3);
    }

    /** Copies the intermediate goal, final goal and end-effector goal
        positions, and the two goal orientations, into the mocap buffers; the
        end-effector goal's orientation is left as it is. */
    method AssembleTargets(h: Handler)
      requires Valid() && h.Valid()
      modifies mocapPos, mocapQuat
      ensures Valid()
      ensures mocapPos[..] == h.jackTarget[..3] + h.jackFinalTarget[..3] + h.frankaTarget
      ensures mocapQuat[..] == h.jackTarget[3..] + h.jackFinalTarget[3..] + [1.0, 0.0, 0.0, 0.0]
    {
      Copy(mocapPos, 0, h.jackTarget, 0, 3);
      Copy(mocapPos, 3, h.jackFinalTarget, 0, 3);
      Copy(mocapPos, 6, h.frankaTarget, 0, 3);
      ghost var goalQuat := mocapQuat[8..];
      Copy(mocapQuat, 0, h.jackTarget, 3, 4);
      assert mocapQuat[..4] == h.jackTarget[3..];
      Copy(mocapQuat, 4, h.jackFinalTarget, 3, 4);
      assert mocapQuat[..4] == h.jackTarget[3..] && mocapQuat[4..8] == h.jackFinalTarget[3..];
      assert mocapQuat[8..] == goalQuat;
      assert mocapQuat[..] == mocapQuat[..4] + mocapQuat[4..8] + mocapQuat[8..];
    }

    /** First half of an iteration: the planner's input is copied from the
        snapshot, and the action is the force block's first point. */
    method Assemble(h: Handler)
      requires Valid() && h.Valid()
      modifies this, qpos, qvel, mocapPos, mocapQuat, action
      ensures Valid()
      ensures time == h.time
      ensures InputFrom(h)
      ensures action[..] == ForceAtFirstPoint()
      ensures rawActorTraj == old(rawActorTraj) && rawObjectTraj == old(rawObjectTraj)
    {
      time := h.time;
      AssembleState(h);
      AssembleTargets(h);
      action[0] := actorForceTraj.datapoints[0, 0];
      action[1] := actorForceTraj.datapoints[1, 0];
      action[2] := actorForceTraj.datapoints[2, 0];
    }

    /** The four packing loops: each block takes the trajectory's times,
        the force block the scaled actions and the three state blocks the
        state entries from their offsets. */
    method PackBlocks(tr: Trajectory)
      requires Valid() && WellFormed(tr) && tr.horizon <= horizon
      modifies actorForceTraj, actorForceTraj.datapoints, actorPosTraj, actorPosTraj.datapoints
      modifies objectPosTraj, objectPosTraj.datapoints, objectQuatTraj, objectQuatTraj.datapoints
      ensures Valid()
      ensures actorForceTraj.timeVec == actorPosTraj.timeVec == tr.times
      ensures objectPosTraj.timeVec == objectQuatTraj.timeVec == tr.times
      ensures forall n, k :: 0 <= n < 3 && 0 <= k < horizon ==>
                actorForceTraj.datapoints[n, k] ==
                  if k < tr.horizon then ForceGain * ActionAt(tr, n, k)
                  else old(actorForceTraj.datapoints[n, k])
      ensures forall n, k :: 0 <= n < 3 && 0 <= k < horizon ==>
                actorPosTraj.datapoints[n, k] ==
                  if k < tr.horizon then StateAt(tr, ActorPosStart + n, k)
                  else old(actorPosTraj.datapoints[n, k])
      ensures forall n, k :: 0 <= n < 3 && 0 <= k < horizon ==>
                objectPosTraj.datapoints[n, k] ==
                  if k < tr.horizon then StateAt(tr, ObjectPosStart + n, k)
                  else old(objectPosTraj.datapoints[n, k])
      ensures forall n, k :: 0 <= n < 4 && 0 <= k < horizon ==>
                objectQuatTraj.datapoints[n, k] ==
                  if k < tr.horizon then StateAt(tr, ObjectQuatStart + n, k)
                  else old(objectQuatTraj.datapoints[n, k])
      ensures ForceAtFirstPoint() ==
                if tr.horizon == 0 then old(ForceAtFirstPoint())
                else [ForceGain * ActionAt(tr, 0, 0), ForceGain * ActionAt(tr, 1, 0), ForceGain * ActionAt(tr, 2, 0)]
    {
      actorForceTraj.PackForce(tr);
      actorPosTraj.PackStates(tr, ActorPosStart);
      objectPosTraj.PackStates(tr, ObjectPosStart);
      objectQuatTraj.PackStates(tr, ObjectQuatStart);
    }

    /** The blocks are copied into the bundles: actor is [force, position],
        object is [position, quaternion]; the names set up before the loop
        stay. */
    method GroupBundles()
      requires Valid()
      modifies this
      ensures Valid()
      ensures time == old(time)
      ensures rawActorTraj.trajectories == [actorForceTraj.Value(), actorPosTraj.Value()]
      ensures rawObjectTraj.trajectories == [objectPosTraj.Value(), objectQuatTraj.Value()]
    {
      rawActorTraj := rawActorTraj.(trajectories := rawActorTraj.trajectories[0 := actorForceTraj.Value()]);
      rawActorTraj := rawActorTraj.(trajectories := rawActorTraj.trajectories[1 := actorPosTraj.Value()]);
      rawObjectTraj := rawObjectTraj.(trajectories := rawObjectTraj.trajectories[0 := objectPosTraj.Value()]);
      rawObjectTraj := rawObjectTraj.(trajectories := rawObjectTraj.trajectories[1 := objectQuatTraj.Value()]);
    }

    /** One iteration of the loop, the planner's best trajectory `tr` given:
        the planner input is assembled from the snapshot with the previous
        iteration's first force as the action, then `tr` is packed. */
    method Step(h: Handler, tr: Trajectory)
      requires Valid() && h.Valid()
      requires WellFormed(tr) && tr.horizon <= horizon
      modifies this, qpos, qvel, mocapPos, mocapQuat, action
      modifies actorForceTraj, actorForceTraj.datapoints, actorPosTraj, actorPosTraj.datapoints
      modifies objectPosTraj, objectPosTraj.datapoints, objectQuatTraj, objectQuatTraj.datapoints
      ensures Valid()
      ensures time == h.time
      ensures InputFrom(h)
      ensures action[..] == old(ForceAtFirstPoint())
      ensures actorForceTraj.timeVec == actorPosTraj.timeVec == tr.times
      ensures objectPosTraj.timeVec == objectQuatTraj.timeVec == tr.times
      ensures forall n, k :: 0 <= n < 3 && 0 <= k < horizon ==>
                actorForceTraj.datapoints[n, k] ==
                  if k < tr.horizon then ForceGain * ActionAt(tr, n, k)
                  else old(actorForceTraj.datapoints[n, k])
      ensures forall n, k :: 0 <= n < 3 && 0 <= k < horizon ==>
                actorPosTraj.datapoints[n, k] ==
                  if k < tr.horizon then StateAt(tr, ActorPosStart + n, k)
                  else old(actorPosTraj.datapoints[n, k])
      ensures forall n, k :: 0 <= n < 3 && 0 <= k < horizon ==>
                objectPosTraj.datapoints[n, k] ==
                  if k < tr.horizon then StateAt(tr, ObjectPosStart + n, k)
                  else old(objectPosTraj.datapoints[n, k])
      ensures forall n, k :: 0 <= n < 4 && 0 <= k < horizon ==>
                objectQuatTraj.datapoints[n, k] ==
                  if k < tr.horizon then StateAt(tr, ObjectQuatStart + n, k)
                  else old(objectQuatTraj.datapoints[n, k])
      ensures ForceAtFirstPoint() ==
                if tr.horizon == 0 then old(ForceAtFirstPoint())
                else [ForceGain * ActionAt(tr, 0, 0), ForceGain * ActionAt(tr, 1, 0), ForceGain * ActionAt(tr, 2, 0)]
      ensures rawActorTraj.trajectories == [actorForceTraj.Value(), actorPosTraj.Value()]
      ensures rawObjectTraj.trajectories == [objectPosTraj.Value(), objectQuatTraj.Value()]
    {
      Assemble(h);
      PackBlocks(tr);
      GroupBundles();
    }
  }

  /** Two iterations of the loop after one current-state message, with
      `tr1` and `tr2` the planner's best trajectories: the planner sees the
      message in its own layout, the first action is zero (the force block
      starts zero-filled and overwrites the initial literal action), and the
      second action is the first trajectory's first action times the gain. */
  method FeedForwardTwoIterations(horizon: nat, msg: C3State, tr1: Trajectory, tr2: Trajectory)
    returns (qpos: seq<real>, qvel: seq<real>, first: seq<real>, second: seq<real>)
    requires 1 <= horizon && |msg.state| >= StateLength
    requires WellFormed(tr1) && tr1.horizon <= horizon
    requires WellFormed(tr2) && tr2.horizon <= horizon
    ensures qpos == PlannerQpos(msg.state) && qvel == PlannerQvel(msg.state)
    ensures first == [0.0, 0.0, 0.0]
    ensures second ==
              if tr1.horizon == 0 then [0.0, 0.0, 0.0]
              else [ForceGain * ActionAt(tr1, 0, 0), ForceGain * ActionAt(tr1, 1, 0), ForceGain * ActionAt(tr1, 2, 0)]
  {
    var h := new Handler();
    var c := new Controller(horizon);
    h.HandleMpcState(msg);
    c.Step(h, tr1);
    first := c.action[..];
    qpos := c.qpos[..];
    qvel := c.qvel[..];
    c.Step(h, tr2);
    second := c.action[..];
  }
}
