# NUC_F4_MainCtrl main controller, modelled in Dafny

This project models the main controller board of a basketball robot. The
board runs FreeRTOS tasks that talk to each other through one-slot and
five-slot queues:

- **chassis**: a command dispatcher, the remote-key handler, aiming, the
  manual joystick mapping, the ring-point generator and the auto task that
  drives the point-to-point navigator and counts arrivals;
- **go_path**: the point-to-point navigator, with its three strategies
  (direct, linear, x-then-y-then-yaw) built on a PID pair per channel;
- **dribble**: the cylinder sequences, the ball-sensor waits, and the
  catch motor that seeks, latches and holds an end switch;
- **shoot**: the flywheel state machine, with its fitted speed curves and
  ramps;
- **main_ctrl**: the orchestrator that picks a shooting ring and tells the
  chassis and the shooter what to do;
- **remote_ctrl**: the operator's key-edge detector and its callback table;
- **remote_report**: the status frames sent back to the operator;
- **odometry_string**: the odometry line framer;
- **my_math**: epsilon comparisons and planar geometry.

## How it is modelled

Each C file is one Dafny module. Code that mutates statics and queues is a
`class` whose methods are proved equal to value-level functions of the old
state; the properties of those functions are proved as lemmas.

| firmware concept | model |
|---|---|
| float | `real` |
| `HAL_GetTick()` | `Tick`, arithmetic modulo 2^32; absolute time is a `nat` |
| `uint8_t` | `U8` |
| libm (`sqrtf`, `acosf`, `atanf`, `sinf`, `cosf`) | a `Libm` record of functions passed as a parameter |
| `pid_calc` | a `PidLaw` over the history of calls made on the controller instance |
| sensors | functions from time to a reading |
| effects on another controller's queue | an `Effect` trace (`ToChassis`, `ToShoot`, `ToReport`, `Wait`) |
| a registered callback | an `Invocation` value |

Numbering of the point and location types (go_path.h) is an assumption: that
header is not part of this model, and the numbering used follows how
chassis.c and go_path.c use the values.

## Model

| member | source | states |
|---|---|---|
| Base.TickAt | User/Application/Src/chassis.c:371-377 | the tick is the absolute time modulo 2^32, and equal to it before the first wrap |
| Base.Elapsed | User/Application/Src/chassis.c:371-377 | `now - stamp` in uint32_t: below 2^32, and adding it to the stamp gives `now` modulo 2^32 |
| Base.ElapsedOfSpan | User/Application/Src/shoot.c:232-236 | the unsigned tick difference equals the true span for any span shorter than one wrap, including across a wrap |
| Base.WrapU8 | User/Application/Src/main_ctrl.c:74-88 | assignment to uint8_t reduces modulo 256; -1 becomes 255 |
| Base.AsInt8 | User/Application/Src/main_ctrl.c:89-95 | the (int8_t) cast is negative exactly for values from 128 and agrees with the byte modulo 256 |
| Includes.RadiusIncreasing | User/Application/Src/main_ctrl.c:37-43 | the radius column of radium_speed is strictly increasing |
| Includes.KeyEventIndex | User/Modules/remote_ctrl/remote_ctrl.h:18-23 | the event numbers lie below REMOTE_KEY_EVENT_NUM |
| Includes.WaitTimeAppend | User/Application/Src/main_ctrl.c:125-153 | the delay of a concatenated trace is the sum of the delays of its parts |
| Includes.ChassisSlotAfter | User/Application/Src/chassis.c:129-135 | the one-slot chassis queue after a trace holds the last request, or what it held when there was none |
| Includes.RequestsAppend | User/Application/Src/main_ctrl.c:125-153 | the shoot and chassis requests of a concatenated trace are those of its parts, in order |
| Includes.WaitTime | User/Application/Src/main_ctrl.c:125-153 | the total delay of a trace: zero for the empty trace; reference for `WaitTimeAppend` and the main-control lemmas |
| Includes.ShootRequests | User/Application/Src/main_ctrl.c:125-153 | the shoot requests of a trace in order: never more than its effects, and led by the first effect when that is a shoot request |
| Includes.ChassisRequests | User/Application/Src/main_ctrl.c:125-153 | the chassis requests of a trace in order: never more than its effects, and led by the first effect when that is a chassis request |
| Includes.ShootRequestsMembers | User/Application/Src/main_ctrl.c:125-153 | a message is a shoot request of a trace exactly when the trace sends it to the shooter |
| Includes.ChassisRequestsMembers | User/Application/Src/main_ctrl.c:125-153 | a message is a chassis request of a trace exactly when the trace sends it to the chassis |
| Includes.ShootRequestsAppend | User/Application/Src/main_ctrl.c:125-153 | the shoot requests of a concatenated trace are those of its parts, in order |
| Includes.ChassisRequestsAppend | User/Application/Src/main_ctrl.c:125-153 | the chassis requests of a concatenated trace are those of its parts, in order |
| MyMath.Abs | User/Modules/go_path/go_path.c:64 | the magnitude is non-negative and equals x or -x |
| MyMath.Rad2Deg | User/Application/Src/chassis.c:526-527 | degrees times pi equals radians times 180 |
| MyMath.CompareFloat | User/Utils/my_math/my_math.c:21-29 | MORETHAN iff x exceeds y by more than FLT_EPSILON, LESSTHAN iff below by more, EQUATION iff within FLT_EPSILON |
| MyMath.CompareDouble | User/Utils/my_math/my_math.c:38-46 | the same three cases with DBL_EPSILON |
| MyMath.CompareWithin | User/Utils/my_math/my_math.c:21-46 | the shared three-way comparison within a band eps: MORETHAN iff x-y > eps, LESSTHAN iff x-y < -eps, EQUATION iff within the band |
| MyMath.CompareAntisymmetric | User/Utils/my_math/my_math.c:21-46 | swapping the operands swaps MORETHAN and LESSTHAN, keeps EQUATION, and x compares equal to itself |
| MyMath.CompareFloatBand | User/Utils/my_math/my_math.c:21-29 | one epsilon apart is still equal; two epsilons apart is not |
| MyMath.TwoDimensionsMetric | User/Utils/my_math/my_math.c:72-74 | with an exact square root the distance is non-negative, squares to dx²+dy², and is symmetric |
| MyMath.TwoDimensions | User/Utils/my_math/my_math.c:72-74 | reference definition of the planar distance, the square root of dx²+dy²; its properties are `TwoDimensionsMetric` |
| MyMath.SquareNonNegative | User/Utils/my_math/my_math.c:72-74 | a square is non-negative, so sqrtf always gets a valid argument |
| MyMath.TriangleCosineLaw | User/Utils/my_math/my_math.c:56-59 | when a·b ≠ 0 the result times 2ab equals a²+b²-c²; a degenerate side gives no value |
| Pid.Step | User/Modules/go_path/go_path.c:150-152 | a pid_calc call returns the law's output for the history so far and appends exactly that call to the history |
| Pid.Fed | User/Modules/go_path/go_path.c:150-152 | reference definition: a pid_calc call with feedback and target appends that record to the history; `Step` and `RepeatAppends` state what this means |
| Pid.ResetIntegral | User/Modules/go_path/go_path.c:170 | reference definition: clearing iout appends a clearing record; `Pid.Pid.ClearIntegral` is proved to follow it |
| Pid.Repeat | User/Application/Src/chassis.c:268-273 | reference definition of n identical calls; `RepeatAppends` and `RepeatFirst` state its shape |
| Pid.RepeatAppends | User/Application/Src/chassis.c:268-273 | n identical calls keep the old history as a prefix and append exactly n records of that call |
| Pid.RepeatFirst | User/Application/Src/chassis.c:268-273 | n+1 identical calls are one call followed by n |
| Pid.Pid.constructor | User/Application/Src/chassis.c:497-518 | a fresh controller has no history and the given law |
| Pid.Pid.Calc | User/Modules/go_path/go_path.c:150-152 | the output and the new state are those of `Step` |
| Pid.Pid.ClearIntegral | User/Modules/go_path/go_path.c:170 | `iout = 0` records a clearing and nothing else |
| SubPub.PubToSlave.ChassisSpeed | User/Application/Src/sub_pub.c:58-62 | stores the three speeds; every other field is unchanged |
| SubPub.PubToSlave.ChassisHalt | User/Application/Src/sub_pub.c:69-71 | stores the halt flag; every other field is unchanged |
| SubPub.PubToSlave.FrictionData | User/Application/Src/sub_pub.c:89-91 | stores the flywheel speed; every other field is unchanged |
| SubPub.PubToSlave.FrictionFlag | User/Application/Src/sub_pub.c:99-101 | stores the shoot flag; every other field is unchanged |
| SubPub.PubToSlave.constructor | User/Application/Src/sub_pub.c:38-47 | the static record starts zeroed and not halted |
| GoPath.AngleTransWraps | User/Modules/go_path/go_path.c:59-66 | the heading error is the raw error or one turn off it (only when that is strictly smaller), never larger, unchanged within ±180, and within [-180, 180] when the raw error is within ±540 |
| GoPath.AngleTrans | User/Modules/go_path/go_path.c:59-66 | reference definition of angle_trans: of the raw error and the raw error one turn off, the one of smaller magnitude; its properties are `AngleTransWraps` |
| GoPath.Bearing | User/Modules/go_path/go_path.c:153-165 | reference definition of the bearing from acosf of dx over the distance, negated when the target is not above; its range is `BearingHalfPlane` |
| GoPath.YawStep | User/Modules/go_path/go_path.c:174-188 | yaw has arrived iff the heading error is not beyond the angle deadband; then the output is 0 and the integral is cleared, otherwise the angle PID is run on the error |
| GoPath.BearingHalfPlane | User/Modules/go_path/go_path.c:153-165 | with acos in [0, pi], the bearing lies in [0, pi] when the target is above and in [-pi, 0] otherwise |
| GoPath.ActionControl | User/Modules/go_path/go_path.c:140-200 | ARRIVE iff within the distance and angle deadbands, ARRIVE_XY_NOT_YAW iff within distance but not angle, NO_ARRIVE iff outside the distance deadband; outside the distance deadband the speed output is one speed-PID call on the distance and the bearing is `Bearing`; inside it the speed integral is cleared and the output is 0; the turning output and the angle PID are always `YawStep` on the wrapped heading error |
| GoPath.LinearControl | User/Modules/go_path/go_path.c:411-493 | never ARRIVE_XY_NOT_YAW; while travelling the speed is one speed-PID call on the distance, the heading is the bearing and the turning output is `YawStep` towards it; in the deadband it stops translating, clears the speed integral, turns by `YawStep` to the target yaw and arrives iff the yaw is in its deadband |
| GoPath.SequenceControl | User/Modules/go_path/go_path.c:500-554 | ARRIVE iff x, y and yaw are all in their deadbands; x is driven first (bearing 0 or pi, speed one speed-PID call on the x distance), then y (±pi/2, on the y distance) with the turning output and angle PID left as they were, then yaw by `YawStep` with translation stopped |
| GoPath.Control | User/Modules/go_path/go_path.c:268-290 | a DT35-bound direct channel changes nothing; the linear and sequence types never report ARRIVE_XY_NOT_YAW; no strategy reports POINT_TYPE_ERR |
| GoPath.Drives | User/Modules/go_path/go_path.c:268-290 | which point and location types go_path_by_point runs a strategy for: everything except a DT35-bound direct channel |
| GoPath.Compensate | User/Modules/go_path/go_path.c:298-299 | rotation within ±20 is kept, beyond it pushed 240 further out with its sign kept, so no magnitude lies in (20, 260] |
| GoPath.Command | User/Modules/go_path/go_path.c:293-318 | NO_ARRIVE sends no rotation, ARRIVE_XY_NOT_YAW sends no translation, otherwise the polar velocity in Cartesian form with the compensated rotation |
| GoPath.ArrivedStandsStill | User/Modules/go_path/go_path.c:254-321 | once a strategy reports ARRIVE, the chassis is commanded the zero speed |
| GoPath.LinearAndSequenceNeverTurn | User/Modules/go_path/go_path.c:293-313 | the linear and sequence strategies never send a rotation: their turning output is masked or zero |
| GoPath.ActionTurnsOnlyInPlace | User/Modules/go_path/go_path.c:140-200 | the direct strategy sends a rotation only with zero translation and within the distance deadband |
| GoPath.Position.constructor | User/Modules/go_path/go_path.c:86-94 | a pose source holds the given x, y and yaw |
| GoPath.GoPath.constructor | User/Modules/go_path/go_path.c:50 | the static tables start zeroed and unbound |
| GoPath.GoPath.ChassisCtrlInit | User/Modules/go_path/go_path.c:74-76 | binds the speed sink and changes nothing else |
| GoPath.GoPath.LocationInit | User/Modules/go_path/go_path.c:86-94 | an out-of-range location type changes nothing; otherwise exactly that pose source is bound |
| GoPath.GoPath.PidpointInit | User/Modules/go_path/go_path.c:106-133 | an out-of-range point or location type changes nothing; otherwise exactly that channel is set, with a zero target and the pose source registered at the time of the call |
| GoPath.GoPath.ActionPidControl | User/Modules/go_path/go_path.c:140-200 | the new result and PID states are `ActionControl` of the old ones |
| GoPath.GoPath.TurnToward | User/Modules/go_path/go_path.c:177-188 | the turning output, the angle PID and the yaw flag are `YawStep`'s; the speed PID and the translation fields are untouched |
| GoPath.GoPath.LinearPidControl | User/Modules/go_path/go_path.c:411-493 | the new result and PID states are `LinearControl` of the old ones |
| GoPath.GoPath.SequencePidControl | User/Modules/go_path/go_path.c:500-554 | the new result and PID states are `SequenceControl` of the old ones |
| GoPath.GoPath.ByPoint | User/Modules/go_path/go_path.c:254-321 | an out-of-range type returns POINT_TYPE_ERR and changes nothing; otherwise only that channel's target changes, the solver follows `Control`, the sink receives exactly `Command` of the result, and the returned status is the result's |
| Chassis.Post | User/Application/Src/chassis.c:129-135 | the reset-then-send leaves exactly the new stamped request in the slot; nothing else changes |
| Chassis.TrySend | User/Application/Src/chassis.c:297-316 | a send without timeout is dropped when the slot is full and posted otherwise |
| Chassis.HaltOutputs | User/Application/Src/chassis.c:102-107 | halting publishes the flag and a zero speed; unhalting keeps the speed; the shooter fields are untouched |
| Chassis.Aiming | User/Application/Src/chassis.c:173-197 | reference definition of chassis_set_aiming on the mode; `Chassis.Chassis.SetAiming` is proved to follow it |
| Chassis.Stale | User/Application/Src/chassis.c:371-377 | a message is dropped when more than 100 ms passed since its stamp, in uint32_t arithmetic; `TimelyMessageHandled` and `StaleMessageIgnored` state its effect |
| Chassis.Dispatch | User/Application/Src/chassis.c:362-377 | reference definition of one dispatcher pass on the mode: stale messages only consumed, timely ones passed to `Handle`; `DispatchRequeuesOnlyRunPoint` states its effect on the queue |
| Chassis.Handle | User/Application/Src/chassis.c:378-432 | reference definition of the dispatcher switch on the mode; `MinRadiumStartsRingRun` and `DispatchRequeuesOnlyRunPoint` state what it does |
| Chassis.DispatchOutputs | User/Application/Src/chassis.c:378-432 | reference definition of what one dispatcher pass publishes: nothing for a stale message, `HandleOutputs` for a timely one |
| Chassis.HandleOutputs | User/Application/Src/chassis.c:378-432 | reference definition of what the dispatcher switch publishes: SET_HALT and SET_UNHALT go through `HaltOutputs`, SET_NO_TASK zeroes the speed, every other event publishes nothing |
| Chassis.StaleMessageIgnored | User/Application/Src/chassis.c:371-377 | a message older than 100 ms is consumed without any other effect |
| Chassis.DispatchRequeuesOnlyRunPoint | User/Application/Src/chassis.c:378-432 | after taking a message the queue stays empty, except SET_MIN_RADIUM, which queues SET_POINT stamped now |
| Chassis.TimelyMessageHandled | User/Application/Src/chassis.c:371-377 | a message received at most 100 ms after it was sent is handled, also across a tick wrap |
| Chassis.MinRadiumStartsRingRun | User/Application/Src/chassis.c:159-167 | SET_MIN_RADIUM selects the ring point and queues SET_POINT; handling that within 100 ms resumes the auto task and suspends the manual one |
| Chassis.HaltKeyToggles | User/Application/Src/chassis.c:290-293 | the halt key flips and publishes the halt flag, two presses restore it, and halting sends a zero speed |
| Chassis.KeyMode | User/Application/Src/chassis.c:287-346 | reference definition of chassis_remote_key on the mode; `HaltKeyToggles`, `SpinKeyAlternates` and `RunPointKeyDoesNotOverwrite` state what each key does |
| Chassis.KeyOutputs | User/Application/Src/chassis.c:290-293 | reference definition of what chassis_remote_key publishes: the halt key goes through `HaltOutputs`, the spin key unhalts |
| Chassis.SpinKeyAlternates | User/Application/Src/chassis.c:328-340 | the spin key unhalts, queues RESET_AIMING, alternates the factor between 1 and 0.12 in step with the flag, and two presses restore the state |
| Chassis.RunPointKeyDoesNotOverwrite | User/Application/Src/chassis.c:297-316 | pressing the run-point key queues SET_POINT only into a free slot; holding it does nothing |
| Chassis.AxisCurveShape | User/Application/Src/chassis.c:450-460 | the stick curve is odd, zero below 3, and continuous at 15 (2800 at 14, 3000 at 15, slope 800 beyond) |
| Chassis.AxisCurve | User/Application/Src/chassis.c:450-460 | reference definition of one stick axis curve; `AxisCurveShape` and `AxisCurveMonotone` state its shape |
| Chassis.AxisCurveMonotone | User/Application/Src/chassis.c:450-460 | the stick curve never decreases with the deflection |
| Chassis.SpinCommand | User/Application/Src/chassis.c:462-468 | no rotation inside the dead zone, otherwise 100 times the stick times the spin factor |
| Chassis.AimAngleRange | User/Application/Src/chassis.c:208-223 | with atan in its range the aim angle lies in (-pi, pi], within ±pi/2 exactly when the point is not below |
| Chassis.AimAngle | User/Application/Src/chassis.c:208-223 | reference definition of the aim angle from atanf of the offset to the basket; its range is `AimAngleRange` |
| Chassis.HeadingBranches | User/Application/Src/chassis.c:237-261 | with exact trigonometry three of the four angle ranges move straight away from the aimed point along (sin a, -cos a); the range [-pi, -pi/2) moves along (-sin a, -cos a) |
| Chassis.Heading | User/Application/Src/chassis.c:237-261 | reference definition of the four-way direction away from the basket; `HeadingBranches` states what each branch means |
| Chassis.SightBasket | User/Application/Src/chassis.c:208-261 | reference definition of what one chassis_overwrite_pointarray call sees: the aim angle, its heading and the distance to the basket |
| Chassis.RingPoint | User/Application/Src/chassis.c:262-266 | reference definition of ring i's point: the pose moved along the heading by the distance minus the ring radius |
| Chassis.OnFieldSide | User/Application/Src/chassis.c:268 | a ring point is usable when its x lies within [-SITH_WIDTH, 400] |
| Chassis.RingFits | User/Application/Src/chassis.c:268-273 | ring i fits when its point is on the field side; `FittingRingIsLargestFit` is stated with it |
| Chassis.SetRingPoint | User/Application/Src/chassis.c:263-266 | only pos_array[5] changes: it takes the point and the heading and keeps its point type |
| Chassis.SetRingPointTwice | User/Application/Src/chassis.c:263-273 | a later write of the ring point replaces an earlier one |
| Chassis.FittingRing | User/Application/Src/chassis.c:268-273 | the retry settles at or below the requested ring |
| Chassis.FittingRingIsLargestFit | User/Application/Src/chassis.c:231-275 | the retry settles on the largest ring at or below the requested one whose point stays on the field side, and finds none exactly when no such ring fits |
| Chassis.FittingRingSkips | User/Application/Src/chassis.c:268-273 | rings that do not fit are skipped: from above them the retry settles where it would from below |
| Chassis.CounterCountsArrivals | User/Application/Src/chassis.c:536-548 | the arrival counter is the number of ARRIVE results modulo 5, and the runs finished are that number divided by 5 |
| Chassis.CountArrival | User/Application/Src/chassis.c:541-547 | reference definition of one step of the arrival counter; `CounterCountsArrivals` states what it counts |
| Chassis.Arrival | User/Application/Src/chassis.c:528-548 | a stop reports POINT_ARRIVED and queues manual control, changing nothing else |
| Chassis.LeftLoadingBand | User/Application/Src/chassis.c:529-530 | a loading run whose vision x is outside [-7000, -800]; `Chassis.Chassis.LeaveLoadingBand` stops exactly then |
| Chassis.ArrivalTwice | User/Application/Src/chassis.c:528-548 | the loading-band stop and the fifth arrival in one cycle together leave the same state as one stop |
| Chassis.NewNav | User/Application/Src/chassis.c:490-520 | the navigator is bound to the sink and both pose sources; the flat, ring and loading channels are on the vision pose with deadbands 3, 20 and 20 mm, 0.5°, and two distinct fresh PIDs each |
| Chassis.AddNucChannel | User/Application/Src/chassis.c:497-502 | exactly one channel is set up, on the vision pose, with two distinct PIDs |
| Chassis.Chassis.constructor | User/Application/Src/chassis.c:562-630 | the initial state is halted, world frame, fast spin, point 0 and manual task running; pos_array is its initialiser, and the halt is published |
| Chassis.Chassis.SetHalt | User/Application/Src/chassis.c:102-107 | the sink ends as `HaltOutputs` of what it held |
| Chassis.Chassis.SetStatus | User/Application/Src/chassis.c:115-121 | the status slot holds exactly the new stamped status |
| Chassis.Chassis.SetCtrl | User/Application/Src/chassis.c:129-135 | the state is `Post` of the old one |
| Chassis.Chassis.SetPointRun | User/Application/Src/chassis.c:159-167 | the point index is set and SET_POINT posted |
| Chassis.Chassis.SetAiming | User/Application/Src/chassis.c:173-197 | shoot-aiming toggles aim-lock at the basket; left and right lock onto (-8000, y) and (-10, y) with y the current vision y; reset unlocks |
| Chassis.Chassis.OrientationResolve | User/Application/Src/chassis.c:208-223 | the aim angle is `AimAngle` of the pose, and the rotation and PID state are one PID call on the heading error towards it |
| Chassis.Chassis.OverwritePointArray | User/Application/Src/chassis.c:231-275 | the ring returned is `FittingRing` of the request (`hung` when none fits, ring 0); pos_array[5] holds that ring's point; the orientation PID ran once per attempt |
| Chassis.Chassis.TryRing | User/Application/Src/chassis.c:233-273 | one attempt writes ring i's point, runs the orientation PID once, and reports whether the point is on the field side |
| Chassis.Chassis.RemoteKey | User/Application/Src/chassis.c:287-346 | the mode follows `KeyMode`, the sink follows `KeyOutputs`, the spin flag and factor stay consistent, and a position report is always requested |
| Chassis.Chassis.SpinKey | User/Application/Src/chassis.c:328-340 | the spin-key branch: unhalt and the `KeyMode` step for key 6 |
| Chassis.Chassis.CtrlTaskStep | User/Application/Src/chassis.c:362-434 | with an empty queue nothing changes; otherwise the message is taken and the state and sink follow `Dispatch` |
| Chassis.Chassis.HandleEvent | User/Application/Src/chassis.c:378-432 | the state and sink follow `Handle` on the event |
| Chassis.Chassis.ManualStep | User/Application/Src/chassis.c:441-474 | x and y follow the stick curve; without aim-lock the rotation follows `SpinCommand` and the PID is untouched; with aim-lock it is 12 times one orientation PID call |
| Chassis.Chassis.AutoStep | User/Application/Src/chassis.c:485-551 | the ring yaw is refreshed with one orientation PID call; only the chosen channel's target and its two PIDs change, the other channels, their PIDs and the pose sources are untouched; the navigator follows the direct strategy and the sink gets its command with halt, flywheel speed and shoot flag kept; the counter steps and the loading-band or fifth-arrival stop happens as `Arrival` says |
| Chassis.Chassis.Prepare | User/Application/Src/chassis.c:525-535 | the ring yaw is refreshed with one orientation PID call, the loading-band stop is applied (zeroing only the sink's speed), the sink is otherwise unchanged, and the navigator is untouched |
| Chassis.Chassis.Advance | User/Application/Src/chassis.c:536-548 | go_path towards the node as `Drive` says, with every other channel, PID, pose source and sink field unchanged; then the arrival counter as `CountArrival` says |
| Chassis.Chassis.RefreshRingYaw | User/Application/Src/chassis.c:525-527 | only pos_array[5]'s yaw changes, to the new aim angle in degrees |
| Chassis.Chassis.LeaveLoadingBand | User/Application/Src/chassis.c:528-535 | a loading run outside x ∈ [-7000, -800] reports POINT_ARRIVED, zeroes the speed and queues manual; otherwise nothing changes |
| Chassis.Chassis.Drive | User/Application/Src/chassis.c:536-540 | only the node's channel target, its two PIDs and the sink's speeds change: the navigator follows the direct strategy, the sink gets its command, and the other channels, their PIDs, the pose sources and the sink's halt, flywheel speed and shoot flag are unchanged |
| Chassis.Chassis.CountArrivalStep | User/Application/Src/chassis.c:541-547 | the counter stays below 5; the fifth ARRIVE resets it, reports and queues manual |
| MainCtrl.Distance | User/Application/Src/main_ctrl.c:62-72 | the distance to a ring is non-negative |
| MainCtrl.NearestAmong | User/Application/Src/main_ctrl.c:62-72 | the nearest among the first n rings is one of them |
| MainCtrl.NearestRing | User/Application/Src/main_ctrl.c:62-72 | the nearest ring is a table index |
| MainCtrl.NearestAmongIsFirstMinimum | User/Application/Src/main_ctrl.c:62-72 | the chosen ring is no farther than any other and strictly nearer than every earlier one |
| MainCtrl.ScanNearest | User/Application/Src/main_ctrl.c:62-72 | the loop returns the first nearest ring and its distance |
| MainCtrl.Nudge | User/Application/Src/main_ctrl.c:74-88 | stick below -5 moves one ring out when the radius is at least the nearest distance; above 5 moves one ring in otherwise; in uint8_t arithmetic |
| MainCtrl.CapIndex | User/Application/Src/main_ctrl.c:89-91 | anything from 17 up becomes 17 |
| MainCtrl.FloorInt8 | User/Application/Src/main_ctrl.c:92-95 | an index negative as int8_t becomes 0 |
| MainCtrl.ClampIndex | User/Application/Src/main_ctrl.c:89-95 | with the upper check first, the result is always 0..17 and 255 becomes 17 |
| MainCtrl.SelectRing | User/Application/Src/main_ctrl.c:62-97 | the selected ring is a table index |
| MainCtrl.SelectRingMoves | User/Application/Src/main_ctrl.c:62-97 | the stick moves the choice by at most one ring; a move in from ring 0 wraps to the largest ring |
| MainCtrl.CloseBasketWrapsToLargestRing | User/Application/Src/main_ctrl.c:62-97 | a basket nearer than 1000 mm is nearest ring 0, and pushing the stick then selects ring 17 |
| MainCtrl.BigLoopIndex | User/Application/Src/main_ctrl.c:154-158 | one ring out, capped at 17 |
| MainCtrl.SmallLoopIndex | User/Application/Src/main_ctrl.c:167-171 | one ring in, floored at 0 |
| MainCtrl.RingTarget | User/Application/Src/main_ctrl.c:113-172 | exactly the RADIUM, BIG_LOOP and SMALL_LOOP requests ask for a ring, and it is a table index |
| MainCtrl.KeyRequest | User/Application/Src/main_ctrl.c:195-219 | keys 4, 18, 17, 5 and 11 send RADIUM, RIGHT_BALL, LEFT_BALL, SMALL_LOOP and BIG_LOOP; any other key sends the uninitialised value, read as `FromRaw` |
| MainCtrl.FromRaw | User/Application/Src/main_ctrl.c:24-30 | a raw slot value 0..4 is the enumerator with that number, in declaration order; any other value is one the switch ignores |
| MainCtrl.RequestEffects | User/Application/Src/main_ctrl.c:113-181 | reference definition of the effects of one handled request; `AimThenStopRequests`, `SettleThenLoadRequests` and `LoadingOverwritesManual` state what the loading requests do |
| MainCtrl.SettledOn | User/Application/Src/chassis.c:231-275 | what settling on a ring leaves: pos_array[5] at the fitting ring's point aimed at the basket, one orientation PID call per attempt, and `hung` exactly when no ring fits |
| MainCtrl.AimThenStopRequests | User/Application/Src/main_ctrl.c:125-136 | manual then aiming at once, flywheel disabled, 500 ms, then aiming cancelled |
| MainCtrl.SettleThenLoadRequests | User/Application/Src/main_ctrl.c:136-152 | no chassis request; after the settle time the flywheel reverses to -2800 |
| MainCtrl.LoadingOverwritesManual | User/Application/Src/main_ctrl.c:125-153 | the aiming request overwrites the manual one in the chassis slot before the delay; the slot ends with RESET_AIMING; the pass waits 501 ms plus the settle time |
| MainCtrl.MainCtrl.constructor | User/Application/Src/main_ctrl.c:107-108 | index 0, empty queue |
| MainCtrl.MainCtrl.MinIndexReturn | User/Application/Src/main_ctrl.c:62-97 | the result is `SelectRing` |
| MainCtrl.MainCtrl.SetMainCtrlKey | User/Application/Src/main_ctrl.c:195-219 | the slot is overwritten with `KeyRequest`; the index is kept |
| MainCtrl.MainCtrl.RequestedRing | User/Application/Src/main_ctrl.c:113-172 | the ring the request asks for is `RingTarget`: the nearest selected ring for RADIUM, one out or in from the index for BIG_LOOP and SMALL_LOOP |
| MainCtrl.MainCtrl.SettleRing | User/Application/Src/main_ctrl.c:117 | the chassis settles as `SettledOn` says; the index becomes the fitting ring, or stays at the target when the chassis hangs; nothing else of the chassis changes |
| MainCtrl.MainCtrl.TaskStep | User/Application/Src/main_ctrl.c:105-186 | exactly the ring requests (`RingTarget`) end on the ring the chassis settles on (`SettledOn`: pos_array[5], the aim angle and one orientation PID call per attempt), emit its speed and SET_MIN_RADIUM, or hang on the target when none fits, with the rest of the chassis unchanged; other requests change nothing of the chassis or the index and emit `RequestEffects` |
| Shoot.FitSwitchesAtThreePointLine | User/Application/Src/shoot.c:49-57 | the line takes the outer fit, and the fits jump down by more than 390 there |
| Shoot.FrictionSpeed | User/Application/Src/shoot.c:49-57 | reference definition of get_friction_speed: the inner quadratic fit below 3125 mm, the outer one from there; `FitSwitchesAtThreePointLine` and `FrictionSpeedGrows` state its shape |
| Shoot.FitDifference | User/Application/Src/shoot.c:49-57 | a fit changes by (r2-r1)·(a(r1+r2)+b) |
| Shoot.FrictionSpeedGrows | User/Application/Src/shoot.c:49-57 | each fit is non-decreasing over its ring distances (1810 mm to the line, the line to 14000 mm) |
| Shoot.FribeltSpeedCalSlope | User/Application/Src/shoot.c:201-208 | slope 1.8877 per mm, strictly increasing, 10406.43 at 100 mm |
| Shoot.FribeltSpeedCal | User/Application/Src/shoot.c:201-208 | reference definition of the straight-line flywheel fit; `FribeltSpeedCalSlope` states its slope and anchor |
| Shoot.PreRampValues | User/Application/Src/shoot.c:274-277 | the preset ramp writes k·s/10 for k = 1..10, ending on s |
| Shoot.PreRamp | User/Application/Src/shoot.c:274-277 | reference definition of the preset ramp's values; `PreRampValues` and `PreRampClimbs` state them |
| Shoot.PreRampClimbs | User/Application/Src/shoot.c:274-277 | for a non-negative target the ramp never goes down |
| Shoot.CalculateRampValues | User/Application/Src/shoot.c:312-315 | the calculate ramp writes 1000..10000, strictly climbing and below the 13000 held next |
| Shoot.CalculateRamp | User/Application/Src/shoot.c:312-315 | reference definition of the calculate ramp's values; `CalculateRampValues` states them |
| Shoot.AcceptKeepsFlag | User/Application/Src/shoot.c:243-333 | the flag stays 0, 1 or 2, and the sink ends holding exactly the new speed and flag |
| Shoot.Apply | User/Application/Src/shoot.c:243-331 | reference definition of what one fresh event does to the shooter record and what it sends; `AcceptEffects` states each case |
| Shoot.Accept | User/Application/Src/shoot.c:243-333 | reference definition of a fresh event followed by the publication of speed and flag; `AcceptKeepsFlag` and `RampsOfAccept` state what it does |
| Shoot.Stale | User/Application/Src/shoot.c:232-236 | an event is dropped when more than 1000 ms passed since its stamp, in uint32_t arithmetic |
| Shoot.AcceptEffects | User/Application/Src/shoot.c:245-331 | what each event does to flag and speed, including that LOAD_BALL and the zero event change nothing |
| Shoot.RampsOfAccept | User/Application/Src/shoot.c:270-325 | the full sequence of values sent for the preset and calculate events |
| Shoot.AddDecreaseUndo | User/Application/Src/shoot.c:294-305 | add and decrease change the speed by exactly ±100 with no bound and undo each other |
| Shoot.Offer | User/Application/Src/shoot.c:193-195 | a five-slot queue appends while there is room and drops otherwise |
| Shoot.FribeltRequest | User/Application/Src/shoot.c:75-111 | the event and speed each key queues |
| Shoot.FribeltKeysOnTask | User/Application/Src/shoot.c:75-111 | the sanction and small-speed keys end enabled at 30000 and 3500; the preset key sets the fitted speed and keeps the flag |
| Shoot.EnableCycleToggles | User/Application/Src/shoot.c:124-144 | the enable key goes 0→2, 1→2, 2→1: it never disables, and two presses from enabled return |
| Shoot.EnableCycle | User/Application/Src/shoot.c:124-144 | reference definition of the enable key on the flag; `EnableCycleToggles` states the cycle |
| Shoot.Shooter.constructor | User/Application/Src/shoot.c:170-196 | zero record, empty queues, status stamped at start |
| Shoot.Shooter.Send | User/Application/Src/shoot.c:216 | the event queue is `Offer` of the message |
| Shoot.Shooter.SetCtrl | User/Application/Src/shoot.c:210-217 | queues the stamped event with its speed |
| Shoot.Shooter.FribeltSpeedCtrl | User/Application/Src/shoot.c:75-111 | queues `FribeltRequest` of the key |
| Shoot.Shooter.PushBallCtrl | User/Application/Src/shoot.c:119-164 | enable steps the flag by `EnableCycle` and publishes it; disable zeroes and publishes flag and speed and queues DISABLE; other keys change nothing but queue the zero event |
| Shoot.Shooter.RampPre | User/Application/Src/shoot.c:274-277 | the loop writes `PreRamp` and ends at the target |
| Shoot.Shooter.RampCalculate | User/Application/Src/shoot.c:312-315 | the loop writes `CalculateRamp(10)` and ends at 10000 |
| Shoot.Shooter.ApplyEvent | User/Application/Src/shoot.c:243-331 | the record and the values sent follow `Apply`; the chassis fields are untouched |
| Shoot.Shooter.TaskStep | User/Application/Src/shoot.c:224-341 | the oldest event is taken; an event more than 1000 ms old changes nothing else; otherwise the record follows `Accept`, the status is queued and a shooter report requested |
| Dribble.PollUntil | User/Application/Src/dribble.c:317-320 | the unbounded poll ends at the first later millisecond the sensor reads the wanted value |
| Dribble.AwaitRebound | User/Application/Src/dribble.c:323-331 | the rebound wait ends at the first touch within 3000 ms, or at 3001 |
| Dribble.AwaitDrop | User/Application/Src/dribble.c:204-211 | the drop wait ends at the first free reading within 2000 ms, or at 2001 |
| Dribble.KeyCommandToggles | User/Application/Src/dribble.c:51-115 | the clamp and push keys alternate their two requests, each touching only its own toggle; unknown keys request nothing |
| Dribble.KeyCommand | User/Application/Src/dribble.c:51-115 | reference definition of the request and toggles each key gives; `KeyCommandToggles` and `ClampPressParity` state them |
| Dribble.ClampPressParity | User/Application/Src/dribble.c:67-76 | after power-up the even presses of the clamp key open and the odd ones close |
| Dribble.CatchSeekLatchHold | User/Application/Src/dribble.c:258-289 | away from the switch the drawer runs at ±5000 and unlatches; the first touch latches the angle; later touches hold it with the angle PID |
| Dribble.CatchDecision | User/Application/Src/dribble.c:256-289 | reference definition of one catch-motor decision; `CatchSeekLatchHold` and `LatchAtZeroNeverHolds` state it |
| Dribble.LatchAtZeroNeverHolds | User/Application/Src/dribble.c:265-271 | a switch met at rotor angle 0 is latched as "not latched", so the drawer never holds |
| Dribble.Dribble.constructor | User/Application/Src/dribble.c:477-515 | cylinders in, clamp closed, hammer up, drawer towards shoot, toggles clear, empty queues |
| Dribble.Dribble.KeyDribbleBall | User/Application/Src/dribble.c:51-115 | the slot holds `KeyCommand`'s request stamped now, the toggles follow it, and the hand-over key first asks for the 16000 preset |
| Dribble.Dribble.ClampOpen | User/Application/Src/dribble.c:121-125 | drawer cylinder out, clamp open, 500 ms later |
| Dribble.Dribble.Hammer | User/Application/Src/dribble.c:139-143 | the hammer ends up, 100 ms later |
| Dribble.Dribble.PushInCylinders | User/Application/Src/dribble.c:157-160 | the drawer cylinder goes in and the clamp closes |
| Dribble.Dribble.WholeProcessRun | User/Application/Src/dribble.c:310-333 | the clamp ends closed with the drawer out; the ball left at the first free reading after the hammer, and the rebound wait started 30 ms later |
| Dribble.Dribble.CatchToShoot | User/Application/Src/dribble.c:197-221 | the drawer reaches its switch, the drop wait starts 500 ms later, the sequence ends 500 ms after it with the drawer in, clamp closed and requested back |
| Dribble.Dribble.Handle | User/Application/Src/dribble.c:399-468 | each request does what `Runs` says: cylinders, status reported, time taken, shooter requests |
| Dribble.Runs | User/Application/Src/dribble.c:399-468 | reference relation for one handled request: cylinders, status, time taken and shooter requests of each request |
| Dribble.Dribble.TaskStep | User/Application/Src/dribble.c:376-470 | the slot is emptied; a request is handled iff fresh (≤ 2000 ms) and known, and then follows `Runs`; otherwise nothing changes |
| Dribble.Dribble.CatchMotorStep | User/Application/Src/dribble.c:242-299 | the drawer state follows `CatchDecision` for the requested end's switch, the angle PID is called only when holding, and the motor command is one speed PID call |
| RemoteCtrl.EmptyTable | User/Modules/remote_ctrl/remote_ctrl.c:18 | every slot of the 18×3 table starts empty |
| RemoteCtrl.Decode | User/Modules/remote_ctrl/remote_ctrl.c:40-42 | byte 0 is the key; bytes 1..4 are the sticks as int8_t |
| RemoteCtrl.Edges | User/Modules/remote_ctrl/remote_ctrl.c:50-67 | at most two events, none for key 0 |
| RemoteCtrl.EdgesDetect | User/Modules/remote_ctrl/remote_ctrl.c:50-67 | release iff the previous key changed, hold iff it stayed, press iff the new key changed; a release comes before a press; no key means no event |
| RemoteCtrl.EdgeTrace | User/Modules/remote_ctrl/remote_ctrl.c:50-69 | no event of a frame sequence names key 0 |
| RemoteCtrl.TapOfKeyFive | User/Modules/remote_ctrl/remote_ctrl.c:50-69 | the frames 0, 5, 5, 0 give press, hold, release of key 5 |
| RemoteCtrl.HoldingKey | User/Modules/remote_ctrl/remote_ctrl.c:50-69 | holding a key for n more frames gives one press and n holds |
| RemoteCtrl.Invoke | User/Modules/remote_ctrl/remote_ctrl.c:20-25 | the registered callback of a key up to 18 is called once with the key and event; otherwise nothing |
| RemoteCtrl.Dispatch | User/Modules/remote_ctrl/remote_ctrl.c:20-25 | no more calls than events |
| RemoteCtrl.DispatchSound | User/Modules/remote_ctrl/remote_ctrl.c:20-25 | every call is of a registered slot of a key 1..18 that an event names |
| RemoteCtrl.DispatchComplete | User/Modules/remote_ctrl/remote_ctrl.c:20-25 | every registered slot of a key 1..18 that an event names is called |
| RemoteCtrl.DispatchAppend | User/Modules/remote_ctrl/remote_ctrl.c:58-60 | the calls of two batches of events are those of each, in order |
| RemoteCtrl.Assign | User/Modules/remote_ctrl/remote_ctrl.c:79-109 | a key above 18 or an event from 3 on changes nothing; otherwise exactly one slot changes |
| RemoteCtrl.LastRegistrationWins | User/Modules/remote_ctrl/remote_ctrl.c:79-89 | the last registration of a slot wins |
| RemoteCtrl.AssignCommutes | User/Modules/remote_ctrl/remote_ctrl.c:79-89 | writes of distinct slots commute |
| RemoteCtrl.UnregisteredSlotIsSilent | User/Modules/remote_ctrl/remote_ctrl.c:99-109 | after unregistering, an event for that slot calls nothing |
| RemoteCtrl.RemoteCtrl.constructor | User/Modules/remote_ctrl/remote_ctrl.c:15-18 | empty table, no previous key |
| RemoteCtrl.RemoteCtrl.Receive | User/Modules/remote_ctrl/remote_ctrl.c:34-70 | a frame not of five MSG_DATA_UINT8 bytes is ignored; otherwise the data is decoded, `Dispatch` of `Edges` is called, and the key remembered |
| RemoteCtrl.RemoteCtrl.KeyEventCb | User/Modules/remote_ctrl/remote_ctrl.c:20-25 | the calls are `Dispatch` of that one event |
| RemoteCtrl.RemoteCtrl.Register | User/Modules/remote_ctrl/remote_ctrl.c:79-89 | the table is `Assign` of the callback |
| RemoteCtrl.RemoteCtrl.Unregister | User/Modules/remote_ctrl/remote_ctrl.c:99-109 | the table is `Assign` of the empty slot |
| RemoteReport.ChassisBits | User/Application/Src/remote_report.c:92-106 | bit 2 is halt, bit 1 aiming, bit 0 world frame; bits 7..3 are kept |
| RemoteReport.SetOrClear | User/Application/Src/remote_report.c:92-124 | reference definition of setting or clearing the masked bits; `ChassisBits` and `ShootBits` state which bits change |
| RemoteReport.ShootBits | User/Application/Src/remote_report.c:115-124 | bit 1 iff the flag is 1, bit 0 iff it is not 0; bits 7..2 are kept |
| RemoteReport.ShootByteOfFlag | User/Application/Src/remote_report.c:115-124 | flags 0, 1, 2 give 0b00, 0b11, 0b01 |
| RemoteReport.ShootReportForgetsHistory | User/Application/Src/remote_report.c:112-128 | the shooter byte depends on the current flag alone |
| RemoteReport.Reporter.constructor | User/Application/Src/remote_report.c:17-46 | both records start zeroed |
| RemoteReport.Reporter.Report | User/Application/Src/remote_report.c:72-136 | a position request refreshes and sends only the position record; a shooter request does the same for the shooter record; any other value sends nothing and changes nothing; reserved bits stay 0 |
| OdometryString.Scanned | User/Modules/odometry_string/odometry_string.c:46-47 | three values, the unconverted ones kept |
| OdometryString.Feed | User/Modules/odometry_string/odometry_string.c:44-57 | one byte keeps the buffer shaped |
| OdometryString.FeedAll | User/Modules/odometry_string/odometry_string.c:43-58 | a chunk whose bytes all fit in the buffer keeps the buffer shaped |
| OdometryString.StoreRun | User/Modules/odometry_string/odometry_string.c:56-57 | bytes without a newline are written from recv_len on and extend it; nothing else changes |
| OdometryString.FeedAllSplits | User/Modules/odometry_string/odometry_string.c:37-60 | a chunk fed in two calls gives the same state as in one: a partial line carries over |
| OdometryString.LineIsScanned | User/Modules/odometry_string/odometry_string.c:44-54 | a line ending in a newline is scanned from the line plus the stale rest of the buffer; x and y are scaled by 1000, the deltas are taken against the Action position, and recv_len restarts at 0 |
| OdometryString.OdometryParser.constructor | User/Modules/odometry_string/odometry_string.c:39-41 | zeroed statics |
| OdometryString.OdometryParser.EndLine | User/Modules/odometry_string/odometry_string.c:44-54 | the newline branch is `Feed` of a newline |
| OdometryString.OdometryParser.ParseData | User/Modules/odometry_string/odometry_string.c:37-60 | the state is `FeedAll` of the chunk, the chunk is zeroed, the rest of the input untouched |
| RtosTasks.ChassisInit | User/Application/Src/chassis.c:610-626 | the chassis registrations keep the callback table well formed |
| RtosTasks.DribbleInit | User/Application/Src/dribble.c:488-503 | the dribble registrations keep the callback table well formed |
| RtosTasks.ShootCtrlInit | User/Application/Src/shoot.c:170-188 | the shooter registrations keep the callback table well formed |
| RtosTasks.MainCtrlInit | User/Application/Src/main_ctrl.c:229-238 | the main-control registrations keep the callback table well formed |
| RtosTasks.BootTable | User/Application/Src/rtos_tasks.c:53-61 | the table after the four initialisers is well formed |
| RtosTasks.BootTableIsExpected | User/Application/Src/rtos_tasks.c:53-61 | every slot after boot holds the handler the later registration leaves there, e.g. key 4 press belongs to main control |
| RtosTasks.RunPointKey | User/Application/Src/main_ctrl.c:229-230 | pressing key 4 reaches only set_main_ctrl_key; releasing it reaches only chassis_remote_key |
| RtosTasks.UnreachableRegistrations | User/Application/Src/shoot.c:175-188 | the keys 27, 35 and 38 reach no callback |
| RtosTasks.Boot | User/Application/Src/rtos_tasks.c:53-61 | the 24 registrations in source order build `BootTable` |

## Left out

- pid_calc arithmetic: its source is not part of this model. A PID instance is the history of calls made on it, and the output is a `PidLaw` of that history. The gains given to pid_init are therefore only named by which law is used.
- sqrtf, acosf, atanf, sinf, cosf: these are the `Libm` parameter. Their ranges are stated as named hypotheses (`SqrtSound`, `AcosRange`, `AtanRange`), not assumed.
- Floating-point rounding: floats are reals. FLT_EPSILON and DBL_EPSILON appear only as the comparison bands the code uses.
- FreeRTOS scheduling and concurrency: each task is a step method. The catch-motor task, which runs beside catch_to_shoot, is a separate step.
- Shoot.Offer: the 5 ms timeout of xQueueSend (shoot.c:107, 160, 216, 334) is not modelled. A full five-slot queue drops the message at once, where the firmware first waits up to 5 ms for the shooter task to make room; the model has no task running during that wait. The chassis sends with the same timeout (chassis.c:120, 134, 152, 166) follow a queue reset, so their slot is always free and they never wait.
- Blocking receives: the dribble task's 5000 ms receive timeout, and the shooter task blocking on an empty queue, are modelled as "nothing happens" steps.
- vTaskDelay: it becomes time advancing in the dribble waits, and `Wait` effects in the main-control trace.
- Dribble.Dribble.WholeProcessRun: the wait for the ball to leave the clamp has no bound in the firmware. It requires that the ball sensor eventually reads free.
- Dribble.Dribble.CatchToShoot: the wait for the drawer switch has no bound in the firmware. It requires that the switch is eventually touched.
- Dribble.Dribble.TaskStep: it requires those two sensor conditions only for a fresh request that waits.
- OdometryString.OdometryParser.ParseData: requires `len <= 255`, because the firmware's uint8_t loop counter never reaches a larger length. It also requires `Fits`, because char_buf is written without a bound check.
- The int16_t casts of the position report are the `toInt16` parameter, and sscanf is the `Scanner` parameter.
- Chassis.Chassis.OverwritePointArray: when no ring fits, the firmware retries ring 0 forever. The model stops and returns `hung` instead.
- MainCtrl.MainCtrl.MinIndexReturn: takes the ring table as the parameter `t`. The firmware always passes radium_speed.
- RemoteCtrl.RemoteCtrl.Register: requires key ≥ 1, because key 0 would write before the callback table. Unregister and KeyEventCb have the same requirement.
- main_ctrl's uninitialised local: a key main control does not know sends it as a queued value. It is the parameter `indeterminate`. A value 0..4 is taken as the request with that number; any other value falls to the switch's default case and only the 1 ms delay follows.
- Dribble.Dribble.CatchMotorStep: the (int16_t) cast of the speed PID output is not modelled; the motor command is the PID output itself, because pid_calc's arithmetic is not part of this model and its range is unknown.
- MyMath.TriangleCosineLaw: where a·b is 0 the C code divides by zero and returns inf or NaN; the model returns no value instead, because reals have neither.
- The shooter task drops an event older than 1000 ms; this model follows the code.
- sub_chassis_world_yaw and sub_pub_task are not modelled: they do UART framing and transmission. The published record is the `PubToSlave` class.
- msg_polling_task, the vision and Action receive callbacks, logging, LEDs, the beeper and GPIO: they are drivers. Sensor readings enter as parameters.
- The commented-out earlier versions of go_path_by_point and linear_pid_control, and the `#if HANDOVER_DEBUG` paths, are not modelled.
- dt35_pid_control: its body is empty, and it is modelled as a strategy that changes nothing.
- go_path.h is not part of this model. The point-type and location-type numbering is inferred from chassis.c and go_path.c.
