/** The latest-known state, target and final target, overwritten by the
    three message callbacks.  Each field is a fixed-length vector that the
    callbacks overwrite in the planner's layout. */
module StateHandler {
  import opened Convention

  /** A message on any of the three inbound channels: a microsecond
      timestamp and a flat vector of numbers in the estimator's layout. */
  datatype C3State = C3State(utime: int, state: seq<real>)

  /** Seconds from the message's microsecond timestamp. */
  function Seconds(utime: int): (t: real)
    ensures t * 1000000.0 == utime as real
  {
    0.000001 * utime as real
  }

  class Handler {
    var time: real
    var frankaPositions: seq<real>
    var frankaVelocities: seq<real>
    var jackPositions: seq<real>
    var jackVelocities: seq<real>
    var frankaTarget: seq<real>
    var jackTarget: seq<real>
    var jackFinalTarget: seq<real>

    /** Every field keeps the length it is constructed with. */
    ghost predicate Valid()
      reads this
    {
      |frankaPositions| == PositionLength &&
      |frankaVelocities| == PositionLength &&
      |jackPositions| == PoseLength &&
      |jackVelocities| == TwistLength &&
      |frankaTarget| == PositionLength &&
      |jackTarget| == PoseLength &&
      |jackFinalTarget| == PoseLength
    }

    /** All vectors start zero-filled; the time is left uninitialised. */
    constructor ()
      ensures Valid()
      ensures frankaPositions == frankaVelocities == frankaTarget == [0.0, 0.0, 0.0]
      ensures jackPositions == jackTarget == jackFinalTarget == [0.0, 0.0, 0.0, 0.0, 0.0, 0.0, 0.0]
      ensures jackVelocities == [0.0, 0.0, 0.0, 0.0, 0.0, 0.0]
    {
      frankaPositions := [0.0, 0.0, 0.0];
      frankaVelocities := [0.0, 0.0, 0.0];
      jackPositions := [0.0, 0.0, 0.0, 0.0, 0.0, 0.0, 0.0];
      jackVelocities := [0.0, 0.0, 0.0, 0.0, 0.0, 0.0];
      frankaTarget := [0.0, 0.0, 0.0];
      jackTarget := [0.0, 0.0, 0.0, 0.0, 0.0, 0.0, 0.0];
      jackFinalTarget := [0.0, 0.0, 0.0, 0.0, 0.0, 0.0, 0.0];
    }

    /** Callback of the current-state channel: stores the time, the
        end-effector position and velocity as they come, the object pose
        position-first and the object twist linear-first. */
    method HandleMpcState(msg: C3State)
      requires Valid()
      requires |msg.state| >= StateLength
      modifies this
      ensures Valid()
      ensures time == Seconds(msg.utime)
      ensures frankaPositions == msg.state[0..3]
      ensures frankaVelocities == msg.state[10..13]
      ensures jackPositions == ObjectPose(msg.state) && jackVelocities == ObjectTwist(msg.state)
      ensures frankaTarget == old(frankaTarget)
      ensures jackTarget == old(jackTarget)
      ensures jackFinalTarget == old(jackFinalTarget)
    {
      var s := msg.state;
      time := Seconds(msg.utime);
      frankaPositions := s[0..3];
      frankaVelocities := s[10..10 + 3];
      var pose := jackPositions;
      pose := pose[0 := s[7]];
      pose := pose[1 := s[8]];
      pose := pose[2 := s[9]];
      pose := pose[3 := s[3]];
      pose := pose[4 := s[4]];
      pose := pose[5 := s[5]];
      pose := pose[6 := s[6]];
      jackPositions := pose;
      var twist := jackVelocities;
      twist := twist[0 := s[16]];
      twist := twist[1 := s[17]];
      twist := twist[2 := s[18]];
      twist := twist[3 := s[13]];
      twist := twist[4 := s[14]];
      twist := twist[5 := s[15]];
      jackVelocities := twist;
    }

    /** Callback of the near-term target channel: stores the end-effector
        target and the object target pose position-first. */
    method HandleMpcTarget(msg: C3State)
      requires Valid()
      requires |msg.state| >= TargetLength
      modifies this
      ensures Valid()
      ensures frankaTarget == msg.state[0..3]
      ensures jackTarget == ObjectPose(msg.state)
      ensures time == old(time)
      ensures frankaPositions == old(frankaPositions) && frankaVelocities == old(frankaVelocities)
      ensures jackPositions == old(jackPositions) && jackVelocities == old(jackVelocities)
      ensures jackFinalTarget == old(jackFinalTarget)
    {
      var s := msg.state;
      frankaTarget := s[0..3];
      var pose := jackTarget;
      pose := pose[0 := s[7]];
      pose := pose[1 := s[8]];
      pose := pose[2 := s[9]];
      pose := pose[3 := s[3]];
      pose := pose[4 := s[4]];
      pose := pose[5 := s[5]];
      pose := pose[6 := s[6]];
      jackTarget := pose;
    }

    /** Callback of the final-target channel: stores only the final object
        target pose, position-first. */
    method HandleMpcFinalTarget(msg: C3State)
      requires Valid()
      requires |msg.state| >= TargetLength
      modifies this
      ensures Valid()
      ensures jackFinalTarget == ObjectPose(msg.state)
      ensures time == old(time)
      ensures frankaPositions == old(frankaPositions) && frankaVelocities == old(frankaVelocities)
      ensures jackPositions == old(jackPositions) && jackVelocities == old(jackVelocities)
      ensures frankaTarget == old(frankaTarget) && jackTarget == old(jackTarget)
    {
      var s := msg.state;
      var pose := jackFinalTarget;
      pose := pose[0 := s[7]];
      pose := pose[1 := s[8]];
      pose := pose[2 := s[9]];
      pose := pose[3 := s[3]];
      pose := pose[4 := s[4]];
      pose := pose[5 := s[5]];
      pose := pose[6 := s[6]];
      jackFinalTarget := pose;
    }
  }
}
