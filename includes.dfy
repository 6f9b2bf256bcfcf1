/** Shared vocabulary of the controllers (User/Application/Inc/includes.h and
    the enums local to the .c files): queue messages, event and status codes,
    the report selector, and the record of effects a handler has on other
    controllers' queues. */
module Includes {
  import opened Base

  /** BASKET_POINT_X / BASKET_POINT_Y: the basket after its offsets. */
  const BasketX: real := 3624.3744 - 16.0
  const BasketY: real := 13439.3975 + 20.0

  /** SITH_WIDTH: the width of the field side the ring points must stay in. */
  const SithWidth: real := 7400.0

  /** LOOP_NUM: the number of shooting rings. */
  const LoopCount: nat := 18

  /** One row of radium_speed: a ring radius (mm) and the flywheel speed for it. */
  datatype Ring = Ring(radius: real, speed: real)

  /** radium_speed[LOOP_NUM][2] (defined in main_ctrl.c). */
  const RadiumSpeed: seq<Ring> := [
    Ring(2000.0, 13600.0), Ring(2100.0, 13450.0), Ring(2200.0, 13600.0),
    Ring(2400.0, 13800.0), Ring(2550.0, 14100.0), Ring(2700.0, 14300.0),
    Ring(2850.0, 14500.0), Ring(3000.0, 14900.0), Ring(3400.0, 15400.0),
    Ring(3600.0, 15800.0), Ring(3900.0, 16300.0), Ring(4200.0, 17200.0),
    Ring(4500.0, 17500.0), Ring(4800.0, 18200.0), Ring(5100.0, 18500.0),
    Ring(5400.0, 19300.0), Ring(5700.0, 19700.0), Ring(6000.0, 20200.0)]

  /** The radius column of the table grows strictly with the index, so a
      larger index always means a larger ring. */
  lemma {:induction false} RadiusIncreasing(i: nat, j: nat)
    requires i < j < LoopCount
    ensures |RadiumSpeed| == LoopCount
    ensures RadiumSpeed[i].radius < RadiumSpeed[j].radius
  {
    assert forall k :: 0 <= k < LoopCount - 1 ==> RadiumSpeed[k].radius < RadiumSpeed[k + 1].radius;
    if j > i + 1 {
      RadiusIncreasing(i, j - 1);
    }
  }

  /** chassis_event_t, including the aiming requests that chassis.c handles. */
  datatype ChassisEvent =
    | SetHalt | SetUnhalt | SetPoint | SetManual | SetMinRadium | SetNoTask
    | ShootAiming | LeftAiming | RightAiming | ResetAiming

  /** chassis_status_t. */
  datatype ChassisStatus = StatusHalt | StatusAuto | StatusPointArrived | StatusManual

  /** chassis_ctrl_queue_t: a stamped chassis request. */
  datatype ChassisCtrlMsg = ChassisCtrlMsg(stamp: Tick, event: ChassisEvent)

  /** chassis_status_queue_t. */
  datatype ChassisStatusMsg = ChassisStatusMsg(stamp: Tick, status: ChassisStatus)

  /** shoot_machine_event_t; `NoShootEvent` is the value 0 of a zero-initialised message. */
  datatype ShootEvent =
    | NoShootEvent | Enable | Disable | Ready | Push | LoadBall
    | FribeltPre | FribeltDirect | FribeltZero | FribeltAdd | FribeltDec | Calculate

  /** shoot_machine_status_t; `NoShootStatus` is the value 0 of a zero-initialised record. */
  datatype ShootStatus =
    | NoShootStatus | PassDone | PushDone | FribeltDone | FribeltZeroed | Enabled | Disabled

  /** shoot_machine_event_msg_t. */
  datatype ShootEventMsg = ShootEventMsg(stamp: Tick, event: ShootEvent, speed: real)

  /** shoot_machine_status_msg_t. */
  datatype ShootStatusMsg = ShootStatusMsg(stamp: Tick, fribelt: ShootStatus, push: ShootStatus, able: ShootStatus)

  /** dribble_event_t, with the two process requests dribble.c uses. */
  datatype DribbleEvent =
    | WholeProcess | PartProcess | Process | ClampAndHit
    | OpenClamp | CloseClamp | HitBall | PushOut | PushIn | ClampPushOut | ClampPushIn
    | GetStatues | MoveToCatch | MoveToShoot | HandleoverBall | DribbleNoTask

  /** dribble_status_t. */
  datatype DribbleStatus = Successful | Unsuccessful | NoBall | HaveBall | ClampOpened

  datatype DribbleCtrlMsg = DribbleCtrlMsg(stamp: Tick, event: DribbleEvent)
  datatype DribbleStatusMsg = DribbleStatusMsg(stamp: Tick, status: DribbleStatus)

  /** remote_report_data_t. */
  datatype ReportKind = ReportPosition | ReportShoot

  /** remote_key_event_t (its last member, the count, is `KeyEventCount`). */
  datatype KeyEvent = PressDown | Pressing | PressUp

  const KeyEventCount: nat := 3

  function KeyEventIndex(e: KeyEvent): (i: nat)
    ensures i < KeyEventCount
  {
    match e
    case PressDown => 0
    case Pressing => 1
    case PressUp => 2
  }

  /** What a handler does to a queue that belongs to another controller, in
      the order it does it. `Wait` is a vTaskDelay. */
  datatype Effect =
    | ToChassis(chassisMsg: ChassisCtrlMsg)   // chassis_set_ctrl: reset, then send
    | ToShoot(shootMsg: ShootEventMsg)        // shoot_machine_set_ctrl: send, dropped when full
    | ToReport(kind: ReportKind)              // xQueueOverwrite on the report queue
    | Wait(ms: nat)

  /** Total time a sequence of effects spends in vTaskDelay. */
  function WaitTime(effects: seq<Effect>): (t: nat)
    ensures effects == [] ==> t == 0
  {
    if effects == [] then 0
    else (if effects[0].Wait? then effects[0].ms else 0) + WaitTime(effects[1..])
  }

  lemma {:induction false} WaitTimeAppend(a: seq<Effect>, b: seq<Effect>)
    ensures WaitTime(a + b) == WaitTime(a) + WaitTime(b)
  {
    if a == [] {
      assert a + b == b;
    } else {
      assert (a + b)[1..] == a[1..] + b;
      WaitTimeAppend(a[1..], b);
    }
  }

  /** The shoot requests of an effect trace, in order. */
  function ShootRequests(effects: seq<Effect>): (r: seq<ShootEventMsg>)
    ensures |r| <= |effects|
    ensures effects != [] && effects[0].ToShoot? ==> r != [] && r[0] == effects[0].shootMsg
  {
    if effects == [] then []
    else (if effects[0].ToShoot? then [effects[0].shootMsg] else []) + ShootRequests(effects[1..])
  }

  /** The chassis requests of an effect trace, in order. */
  function ChassisRequests(effects: seq<Effect>): (r: seq<ChassisCtrlMsg>)
    ensures |r| <= |effects|
    ensures effects != [] && effects[0].ToChassis? ==> r != [] && r[0] == effects[0].chassisMsg
  {
    if effects == [] then []
    else (if effects[0].ToChassis? then [effects[0].chassisMsg] else []) + ChassisRequests(effects[1..])
  }

  /** A message is among the shoot requests of a trace exactly when the
      trace sends it to the shoot task. */
  lemma {:induction false} ShootRequestsMembers(effects: seq<Effect>, m: ShootEventMsg)
    ensures m in ShootRequests(effects) <==> ToShoot(m) in effects
    decreases |effects|
  {
    if effects != [] {
      ShootRequestsMembers(effects[1..], m);
      assert effects == [effects[0]] + effects[1..];
    }
  }

  /** A message is among the chassis requests of a trace exactly when the
      trace sends it to the chassis task. */
  lemma {:induction false} ChassisRequestsMembers(effects: seq<Effect>, m: ChassisCtrlMsg)
    ensures m in ChassisRequests(effects) <==> ToChassis(m) in effects
    decreases |effects|
  {
    if effects != [] {
      ChassisRequestsMembers(effects[1..], m);
      assert effects == [effects[0]] + effects[1..];
    }
  }

  /** The one-slot chassis queue after a trace: each request resets the
      slot and then fills it, so the last request wins. */
  function ChassisSlotAfter(slot: Option<ChassisCtrlMsg>, effects: seq<Effect>): (r: Option<ChassisCtrlMsg>)
    ensures ChassisRequests(effects) == [] ==> r == slot
    ensures ChassisRequests(effects) != [] ==> r == Some(ChassisRequests(effects)[|ChassisRequests(effects)| - 1])
    decreases |effects|
  {
    if effects == [] then slot
    else ChassisSlotAfter(if effects[0].ToChassis? then Some(effects[0].chassisMsg) else slot, effects[1..])
  }

  /** The shoot requests of a concatenated trace are those of its parts. */
  lemma {:induction false} ShootRequestsAppend(a: seq<Effect>, b: seq<Effect>)
    ensures ShootRequests(a + b) == ShootRequests(a) + ShootRequests(b)
  {
    if a == [] {
      assert a + b == b;
    } else {
      var h := if a[0].ToShoot? then [a[0].shootMsg] else [];
      assert (a + b)[0] == a[0];
      assert (a + b)[1..] == a[1..] + b;
      ShootRequestsAppend(a[1..], b);
      calc {
        ShootRequests(a + b);
        h + ShootRequests(a[1..] + b);
        h + (ShootRequests(a[1..]) + ShootRequests(b));
        (h + ShootRequests(a[1..])) + ShootRequests(b);
      }
    }
  }

  /** The chassis requests of a concatenated trace are those of its parts. */
  lemma {:induction false} ChassisRequestsAppend(a: seq<Effect>, b: seq<Effect>)
    ensures ChassisRequests(a + b) == ChassisRequests(a) + ChassisRequests(b)
  {
    if a == [] {
      assert a + b == b;
    } else {
      var h := if a[0].ToChassis? then [a[0].chassisMsg] else [];
      assert (a + b)[0] == a[0];
      assert (a + b)[1..] == a[1..] + b;
      ChassisRequestsAppend(a[1..], b);
      calc {
        ChassisRequests(a + b);
        h + ChassisRequests(a[1..] + b);
        h + (ChassisRequests(a[1..]) + ChassisRequests(b));
        (h + ChassisRequests(a[1..])) + ChassisRequests(b);
      }
    }
  }

  /** The requests of a concatenated trace are those of its parts. */
  lemma RequestsAppend(a: seq<Effect>, b: seq<Effect>)
    ensures ShootRequests(a + b) == ShootRequests(a) + ShootRequests(b)
    ensures ChassisRequests(a + b) == ChassisRequests(a) + ChassisRequests(b)
  {
    ShootRequestsAppend(a, b);
    ChassisRequestsAppend(a, b);
  }
}
