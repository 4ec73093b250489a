/** The planner's best trajectory as the controller reads it, and the named
    output blocks the controller slices it into. */
module Trajectories {

  /** The planner's best trajectory: `horizon` points, each with a state of
      `dimState` numbers and an action of `dimAction` numbers, stored flat
      (point k's state starts at k * dimState). */
  datatype Trajectory = Trajectory(
    horizon: int,
    dimState: int,
    dimAction: int,
    times: seq<real>,
    states: seq<real>,
    actions: seq<real>)

  /** What the controller relies on: a state holds at least the object pose
      (7) and the end-effector position (3), an action at least a force (3),
      and the flat arrays hold `horizon` points. */
  predicate WellFormed(tr: Trajectory) {
    0 <= tr.horizon && 10 <= tr.dimState && 3 <= tr.dimAction &&
    tr.horizon * tr.dimState <= |tr.states| &&
    tr.horizon * tr.dimAction <= |tr.actions|
  }

  /** A flat array read as `count` consecutive points of `dim` numbers
      each. */
  function Points(flat: seq<real>, dim: nat, count: nat): (r: seq<seq<real>>)
    requires count * dim <= |flat|
    ensures |r| == count
    ensures forall k :: 0 <= k < count ==> |r[k]| == dim
  {
    if count == 0 then []
    else
      MulSucc(count - 1, dim);
      [flat[..dim]] + Points(flat[dim..], dim, count - 1)
  }

  /** Entry `i` of point `k` is the flat array's entry `i + k * dim`, and
      that index lies inside the array. */
  lemma {:induction false} PointsAt(flat: seq<real>, dim: nat, count: nat, k: nat, i: nat)
    requires count * dim <= |flat| && k < count && i < dim
    ensures i + k * dim < |flat|
    ensures Points(flat, dim, count)[k][i] == flat[i + k * dim]
  {
    MulSucc(count - 1, dim);
    var rest := flat[dim..];
    assert Points(flat, dim, count) == [flat[..dim]] + Points(rest, dim, count - 1);
    if k > 0 {
      PointsAt(rest, dim, count - 1, k - 1, i);
      MulSucc(k - 1, dim);
      assert rest[i + (k - 1) * dim] == flat[i + k * dim];
    }
  }

  lemma MulSucc(a: nat, b: nat)
    ensures (a + 1) * b == a * b + b
  {
  }

  /** The force gain that turns the planner's normalised action into a
      force. */
  const ForceGain: real := 1.5

  /** Entry `n` of point `k`'s state. */
  function StateAt(tr: Trajectory, n: nat, k: nat): real
    requires WellFormed(tr) && k < tr.horizon && n < tr.dimState
  {
    Points(tr.states, tr.dimState, tr.horizon)[k][n]
  }

  /** Entry `i` of point `k`'s action. */
  function ActionAt(tr: Trajectory, i: nat, k: nat): real
    requires WellFormed(tr) && k < tr.horizon && i < tr.dimAction
  {
    Points(tr.actions, tr.dimAction, tr.horizon)[k][i]
  }

  /** A published trajectory block: a name, the number of points and of
      data rows, one time per point and a rows-by-points table. */
  datatype TrajectoryBlock = TrajectoryBlock(
    trajectoryName: string,
    numPoints: int,
    numDatatypes: int,
    timeVec: seq<real>,
    datapoints: seq<seq<real>>,
    datatypes: seq<string>)

  /** A default-constructed block, as a bundle holds before it is filled. */
  const EmptyBlock := TrajectoryBlock("", 0, 0, [], [], [])

  /** A bundle of named blocks. */
  datatype SavedTraj = SavedTraj(
    numTrajectories: int,
    trajectoryNames: seq<string>,
    trajectories: seq<TrajectoryBlock>)

  /** A block the controller keeps across loop iterations: its shape and
      name are fixed at setup, its times and its table are rewritten by the
      packing loops. */
  class Block {
    const trajectoryName: string
    const numPoints: int
    const numDatatypes: int
    const datatypes: seq<string>
    const datapoints: array2<real>
    var timeVec: seq<real>

    predicate Valid() {
      datapoints.Length0 == numDatatypes == |datatypes| &&
      datapoints.Length1 == numPoints
    }

    /** A block of `rows` unnamed rows by `horizon` zero points. */
    constructor (name: string, rows: nat, horizon: nat)
      ensures Valid()
      ensures trajectoryName == name && numDatatypes == rows && numPoints == horizon
      ensures datatypes == seq(rows, _ => "")
      ensures timeVec == seq(horizon, _ => 0.0)
      ensures forall n, k :: 0 <= n < rows && 0 <= k < horizon ==> datapoints[n, k] == 0.0
      ensures fresh(datapoints)
    {
      trajectoryName := name;
      numPoints := horizon;
      numDatatypes := rows;
      datatypes := seq(rows, _ => "");
      datapoints := new real[rows, horizon]((_, _) => 0.0);
      timeVec := seq(horizon, _ => 0.0);
    }

    /** The block as a value, as it is copied into a bundle. */
    function Value(): (b: TrajectoryBlock)
      reads this, datapoints
      requires Valid()
      ensures b.trajectoryName == trajectoryName && b.numPoints == numPoints
      ensures b.numDatatypes == numDatatypes && b.datatypes == datatypes
      ensures b.timeVec == timeVec
      ensures |b.datapoints| == numDatatypes
      ensures forall n :: 0 <= n < numDatatypes ==> |b.datapoints[n]| == numPoints
      ensures forall n, k :: 0 <= n < numDatatypes && 0 <= k < numPoints ==>
                b.datapoints[n][k] == datapoints[n, k]
    {
      TrajectoryBlock(
        trajectoryName, numPoints, numDatatypes, timeVec,
        seq(numDatatypes, (n: int) reads datapoints requires 0 <= n < numDatatypes =>
          seq(numPoints, (k: int) reads datapoints requires 0 <= k < numPoints => datapoints[n, k])),
        datatypes)
    }

    /** The force loop: rows 0..3 of the first `tr.horizon` points become the
        scaled action; later points keep their values. */
    method PackForce(tr: Trajectory)
      requires Valid() && WellFormed(tr)
      requires numDatatypes == 3 && tr.horizon <= numPoints
      modifies this, datapoints
      ensures timeVec == tr.times
      ensures forall n, k :: 0 <= n < 3 && 0 <= k < numPoints ==>
                datapoints[n, k] == if k < tr.horizon then ForceGain * ActionAt(tr, n, k)
                                    else old(datapoints[n, k])
    {
      timeVec := tr.times;
      var k := 0;
      while k < tr.horizon
        invariant 0 <= k <= tr.horizon && timeVec == tr.times
        invariant forall n, j :: 0 <= n < 3 && 0 <= j < numPoints ==>
                    datapoints[n, j] == if j < k then ForceGain * ActionAt(tr, n, j)
                                        else old(datapoints[n, j])
      {
        PointsAt(tr.actions, tr.dimAction, tr.horizon, k, 0);
        PointsAt(tr.actions, tr.dimAction, tr.horizon, k, 1);
        PointsAt(tr.actions, tr.dimAction, tr.horizon, k, 2);
        datapoints[0, k] := ForceGain * tr.actions[0 + k * tr.dimAction];
        datapoints[1, k] := ForceGain * tr.actions[1 + k * tr.dimAction];
        datapoints[2, k] := ForceGain * tr.actions[2 + k * tr.dimAction];
        k := k + 1;
      }
    }

    /** A state loop: row n of the first `tr.horizon` points becomes entry
        `start + n` of that point's state; later points keep their values. */
    method PackStates(tr: Trajectory, start: nat)
      requires Valid() && WellFormed(tr)
      requires tr.horizon <= numPoints && start + numDatatypes <= tr.dimState
      modifies this, datapoints
      ensures timeVec == tr.times
      ensures forall n, k :: 0 <= n < numDatatypes && 0 <= k < numPoints ==>
                datapoints[n, k] == if k < tr.horizon then StateAt(tr, start + n, k)
                                    else old(datapoints[n, k])
    {
      timeVec := tr.times;
      var k := 0;
      while k < tr.horizon
        invariant 0 <= k <= tr.horizon && timeVec == tr.times
        invariant forall n, j :: 0 <= n < numDatatypes && 0 <= j < numPoints ==>
                    datapoints[n, j] == if j < k then StateAt(tr, start + n, j)
                                        else old(datapoints[n, j])
      {
        var n := 0;
        while n < |datatypes|
          invariant 0 <= n <= numDatatypes && timeVec == tr.times
          invariant forall m, j :: 0 <= m < numDatatypes && 0 <= j < numPoints ==>
                      datapoints[m, j] == if j < k || (j == k && m < n) then StateAt(tr, start + m, j)
                                          else old(datapoints[m, j])
        {
          PointsAt(tr.states, tr.dimState, tr.horizon, k, n + start);
          datapoints[n, k] := tr.states[(n + start) + k * tr.dimState];
          n := n + 1;
        }
        k := k + 1;
      }
    }
  }

  /** A one-point trajectory whose action is (1, 2, 3) gives the force
      (1.5, 3, 4.5). */
  lemma ScenarioForceGain()
    ensures var tr := Trajectory(1, 10, 3, [0.0], seq(10, _ => 0.0), [1.0, 2.0, 3.0]);
            WellFormed(tr) &&
            [ForceGain * ActionAt(tr, 0, 0), ForceGain * ActionAt(tr, 1, 0), ForceGain * ActionAt(tr, 2, 0)]
              == [1.5, 3.0, 4.5]
  {
  }

  /** The packed force is linear in the planner's actions. */
  lemma ForceIsLinear(tr: Trajectory, scale: real, i: nat, k: nat)
    requires WellFormed(tr) && k < tr.horizon && i < tr.dimAction
    ensures var scaled := tr.(actions := seq(|tr.actions|, j requires 0 <= j < |tr.actions| => scale * tr.actions[j]));
            WellFormed(scaled) && ForceGain * ActionAt(scaled, i, k) == scale * (ForceGain * ActionAt(tr, i, k))
  {
    var scaled := tr.(actions := seq(|tr.actions|, j requires 0 <= j < |tr.actions| => scale * tr.actions[j]));
    PointsAt(tr.actions, tr.dimAction, tr.horizon, k, i);
    PointsAt(scaled.actions, tr.dimAction, tr.horizon, k, i);
  }
}
