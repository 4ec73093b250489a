# Standalone jack controller: layout translation and trajectory packing

This project models the part of `mjpc/standalone_jack_controller.cc` that works
without the transport or the planner. That part is the bridge between a state
estimator and an MPC planner that pushes an object (the "jack")
with a robot end effector (the "franka"). It covers three pieces:

- **Inbound translation (`StateHandler.Handler`).** Three callbacks overwrite
  fixed-length vectors from a 19-number state message or a 10-number target
  message. The estimator sends `[ee_xyz, obj_quat, obj_xyz, ee_vel, obj_ang,
  obj_lin]`. The planner wants the object pose position-first and the object
  twist linear-first. The index tables and their inverses are in
  `Convention`.
- **Planner-input assembly (`ControlLoop.Controller.Assemble`).** The
  configuration (10), velocity (9), mocap positions (9), mocap quaternions (12)
  and action (3) buffers are overwritten in place by block copies from the
  handler. The action is fed forward from the force block's first point, as
  packed in the previous iteration.
- **Trajectory packing (`Trajectories.Block`, `ControlLoop.Controller.PackBlocks`,
  `ControlLoop.Controller.GroupBundles`).**
  Nested loops slice the planner's flat per-point `states` and `actions` arrays
  into four named blocks: force is 1.5 × the action, the end-effector position
  is the state from offset 7, the object position is from offset 0, and the
  object quaternion is from offset 3. The blocks are then grouped into an
  actor bundle and an object bundle.

The planner's best trajectory is an input (`Trajectories.Trajectory`) whose
shape is stated by `WellFormed`: `dimState >= 10`, `dimAction >= 3`, and flat
arrays long enough for `horizon` points. The block length `horizon` is a
constructor parameter (`>= 1`). `ControlLoop.Controller.Step` is one loop
iteration with the planner call replaced by that input.
`FeedForwardTwoIterations` runs two iterations after one state message.

Numbers are `real`. Every copy is exact, and the force gain is real
multiplication.

## Notes on the code's behaviour

- When the transport has a file descriptor other than 0, each loop iteration
  first waits for and dispatches two messages. Nothing requires either of them
  to come from the current-state channel. Before the first *state* message
  the loop assembles zero state vectors and the handler's `time_`, which is
  never initialised; so the constructor promises nothing about `time`.
- A block's `time_vec` is replaced by the trajectory's whole `times` vector.
  Its length is that vector's length, which need not equal `num_points`.
- `mocap_quat` holds three quaternions (12 numbers). The third quaternion, the
  end-effector goal's orientation, is never written, and it stays
  `[1, 0, 0, 0]` (an invariant of `Controller.Valid`).
- The blocks' dimension labels (`datatypes`) are empty strings. Only their
  count is used, as the row count of the state loops.

## Model

| member | source | states |
|---|---|---|
| `Convention.ObjectPose` | mjpc/standalone_jack_controller.cc:55-61 | object pose slot i equals message slot `PoseSource(i)`: 7,8,9 then 3,4,5,6 (position first, quaternion unchanged) |
| `Convention.ObjectTwist` | mjpc/standalone_jack_controller.cc:65-70 | object twist slot i equals message slot `TwistSource(i)`: 16,17,18 then 13,14,15 (linear first) |
| `Convention.ActorPosition` | mjpc/standalone_jack_controller.cc:52 | end-effector position is message slots 0..3 |
| `Convention.ActorVelocity` | mjpc/standalone_jack_controller.cc:53 | end-effector velocity is message slots 10..13 |
| `Convention.PoseRoundTripToPlanner` | mjpc/standalone_jack_controller.cc:55-61 | converting an estimator pose slice to the planner's order and back gives it back exactly |
| `Convention.PoseRoundTripToExternal` | mjpc/standalone_jack_controller.cc:55-61 | converting a planner pose to the estimator's order and back gives it back exactly |
| `Convention.SwapTwistInvolution` | mjpc/standalone_jack_controller.cc:65-70 | swapping the angular and linear halves twice is the identity |
| `Convention.ObjectPoseIsConversion` | mjpc/standalone_jack_controller.cc:55-61 | the handler's pose remap is the pose conversion applied to message slots 3..10 |
| `Convention.ObjectTwistIsConversion` | mjpc/standalone_jack_controller.cc:65-70 | the handler's twist remap is the half swap applied to message slots 13..19 |
| `Convention.StateRoundTripToPlanner` | mjpc/standalone_jack_controller.cc:52-70 | the 19 state numbers can be rebuilt exactly from the planner configuration and velocity: nothing is lost or duplicated |
| `Convention.StateRoundTripToExternal` | mjpc/standalone_jack_controller.cc:248-251 | every planner configuration (10) and velocity (9) are `PlannerQpos`/`PlannerQvel` of the state message `ExternalState(qpos, qvel)`; with `StateRoundTripToPlanner` the mapping is a bijection |
| `Convention.ScenarioRestingObject` | mjpc/standalone_jack_controller.cc:248-249 | object at (0.4,0.5,0.6), identity quaternion, end effector at (0.1,0.2,0.3) give the configuration [0.4,0.5,0.6,1,0,0,0,0.1,0.2,0.3] |
| `StateHandler.Seconds` | mjpc/standalone_jack_controller.cc:47 | the stored time is the message's microseconds divided by 10^6 |
| `StateHandler.Handler.constructor` | mjpc/standalone_jack_controller.cc:35-43 | all seven vectors start zero-filled with lengths 3,3,7,6,3,7,7; the time is unconstrained |
| `StateHandler.Handler.HandleMpcState` | mjpc/standalone_jack_controller.cc:45-71 | sets time to `Seconds(utime)`, end-effector position and velocity from slots 0..3 and 10..13, object pose to `ObjectPose(state)` and object twist to `ObjectTwist(state)`; leaves the three targets unchanged; lengths kept |
| `StateHandler.Handler.HandleMpcTarget` | mjpc/standalone_jack_controller.cc:72-84 | sets the end-effector target to `msg[0..3]` and the object target to `ObjectPose(msg)`; time, state fields and final target unchanged |
| `StateHandler.Handler.HandleMpcFinalTarget` | mjpc/standalone_jack_controller.cc:85-96 | sets only the final object target to `ObjectPose(msg)`; every other field unchanged |
| `Trajectories.Points` | mjpc/standalone_jack_controller.cc:289-311 | a flat array of `count * dim` numbers read as `count` points of exactly `dim` numbers each |
| `Trajectories.PointsAt` | mjpc/standalone_jack_controller.cc:281-309 | entry i of point k is the flat entry `i + k*dim` the loops read, and that index is in range whenever `k < count` and `i < dim` |
| `Trajectories.Block.constructor` | mjpc/standalone_jack_controller.cc:177-207 | a block has the given name, `num_datatypes` rows with empty labels, `num_points == horizon`, zero data and `horizon` zero times |
| `Trajectories.Block.Value` | mjpc/standalone_jack_controller.cc:313-316 | the copy put in a bundle has the block's name, shape, times and every data entry |
| `Trajectories.Block.PackForce` | mjpc/standalone_jack_controller.cc:279-287 | times become the trajectory's times; `[i][k] == 1.5 * actions[i + k*dimAction]` for i < 3, k < trajectory horizon; later points unchanged |
| `Trajectories.Block.PackStates` | mjpc/standalone_jack_controller.cc:288-311 | times become the trajectory's times; `[n][k] == states[start + n + k*dimState]` for every row n, k < trajectory horizon; later points unchanged |
| `Trajectories.ScenarioForceGain` | mjpc/standalone_jack_controller.cc:281-286 | a one-point trajectory with action (1,2,3) gives the force (1.5,3,4.5) |
| `Trajectories.ForceIsLinear` | mjpc/standalone_jack_controller.cc:281-286 | scaling all actions by s scales every packed force by s |
| `ControlLoop.Copy` | mjpc/standalone_jack_controller.cc:248-261 | the destination equals its old prefix, the copied source slice, and its old suffix |
| `ControlLoop.Controller.constructor` | mjpc/standalone_jack_controller.cc:139-214 | the buffers hold the initial literals; the four blocks are named and shaped (3/3/3/4 rows, `horizon` points), every data entry is zero and every `timeVec` is `horizon` zeros and every block's dimension labels are empty strings (an invariant of `Valid`); the bundles are named [force, position] and [position, quaternion] and hold default blocks |
| `ControlLoop.Controller.AssembleState` | mjpc/standalone_jack_controller.cc:248-251 | `qpos == jack_positions + franka_positions`, `qvel == jack_velocities + franka_velocities` |
| `ControlLoop.Controller.AssembleTargets` | mjpc/standalone_jack_controller.cc:255-261 | `mocap_pos == jack_target[..3] + jack_final_target[..3] + franka_target`; `mocap_quat == jack_target[3..] + jack_final_target[3..] + [1,0,0,0]` |
| `ControlLoop.Controller.Assemble` | mjpc/standalone_jack_controller.cc:244-265 | the time comes from the snapshot; the four buffers hold the snapshot in the planner's layout (`InputFrom`); the action equals the force block's first point; the bundles are unchanged |
| `ControlLoop.Controller.PackBlocks` | mjpc/standalone_jack_controller.cc:279-311 | the four blocks are packed from the scaled actions and from state offsets 7, 0 and 3, each with the trajectory's times; points past the trajectory's horizon are unchanged; the force block's first point is 1.5 × the trajectory's first action |
| `ControlLoop.Controller.GroupBundles` | mjpc/standalone_jack_controller.cc:313-316 | the actor bundle holds copies of `[force, position]` and the object bundle of `[position, quaternion]`, under the names set up before the loop |
| `ControlLoop.Controller.Step` | mjpc/standalone_jack_controller.cc:244-316 | one iteration: the planner input comes from the snapshot, the action is the previous iteration's first force point; every block's times are the trajectory's, the force block holds 1.5 × the actions and the other three the state entries from offsets 7, 0 and 3 for every point before the trajectory's horizon, later points are unchanged; the bundles hold copies of the packed blocks |
| `ControlLoop.FeedForwardTwoIterations` | mjpc/standalone_jack_controller.cc:263-286 | after one state message the planner sees `PlannerQpos`/`PlannerQvel` of it; the first action is [0,0,0]; the second is 1.5 × the first trajectory's step-0 action ([0,0,0] if that trajectory is empty) |

## Left out

- The publish/subscribe transport is not modelled: initialisation check, subscriptions, `handle`, `publish` and the file-descriptor poll. Callbacks are methods called in sequence, and the bundles are fields of the controller.
- The planner and the physics engine are not modelled: model loading, task lookup, `Agent`, `State::Set`, `SetState`, `OptimizePolicy` with its thread pool, and `BestTrajectory`. The best trajectory is an input assumed non-null and `WellFormed`.
- The global residual function object and the sensor callback are engine hooks and are not modelled.
- `StateHandler.Seconds`: multiplies by 10^-6 in exact reals; the rounding of the double product is not modelled.
- The outbound `utime = time * 1e6` (a double-to-integer conversion) and the `actor_traj`/`object_traj` wrappers that carry it are not modelled; the bundles `rawActorTraj`/`rawObjectTraj` are.
- The horizon computation (`agent_horizon / agent_timestep + 1`, truncated to an int) is not modelled; the horizon is a constructor parameter of at least 1.
- `Trajectories.Block.PackForce`: the gain is exact real multiplication; the rounding of `1.5 * a` in doubles is not modelled.
- Console output, command-line flag parsing and the load-error message trimming are not modelled.
- `ControlLoop.FeedForwardTwoIterations`: the model's message loop does not block, so it runs one message and then two steps; the source waits for two messages before every step and never runs this exact sequence. It shows the feed-forward of the action, not a trace of the program.
- Interleaving of callbacks with the loop is not modelled. The callbacks run inside the loop's own message pump, so the model runs each handler and each loop step to completion.
