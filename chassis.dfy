/** The chassis controller (User/Application/Src/chassis.c): the command
    dispatcher fed by a one-slot queue, the remote-key handler, the aiming
    state, the manual joystick mapping, the ring-point generator with its
    retry loop, and the auto task that drives go_path and counts arrivals.

    The discrete state of the controller is snapshotted as a `Mode` value;
    the dispatcher, the key handler and the aiming update are specified by
    functions on `Mode`, and the methods of `Chassis` are proved to follow
    them. Task suspension is the pair of flags `manualRunning`/`autoRunning`. */
module Chassis {
  import opened Base
  import opened MyMath
  import opened Pid
  import opened SubPub
  import opened Includes
  import opened GoPath

  /** POS_NUM, and the index of the ring point POS_NUM + EX_NODE_TARGET_RADIUM. */
  const PosNum: nat := 5
  const RingIndex: nat := 5
  const PosCount: nat := 8

  /** Key numbers of chassis.c. */
  const HaltKey: nat := 1
  const WorldKey: nat := 2
  const AimingKey: nat := 3
  const RunPointKey: nat := 4
  const SpdzKey: nat := 6

  /** Oldest accepted control message, in milliseconds. */
  const MaxAge: nat := 100

  /** Arrivals the auto task waits for before it reports the point reached. */
  const ArrivalsToFinish: nat := 5

  /** Rotation scale factors of the spin key. */
  const FastSpin: real := 1.0
  const SlowSpin: real := 0.12

  /** pos_node_t. */
  datatype PosNode = PosNode(x: real, y: real, yaw: real, pointType: nat)

  /** pos_array[] as initialised; entry 4 is zero-initialised. */
  const InitialPosArray: seq<PosNode> := [
    PosNode(-0.12, 0.59, 0.0, PointNucFlat),
    PosNode(3656.11, 3314.07, 0.0, PointNucFlat),
    PosNode(2614.78, 3600.57, 88.09, PointNucFlat),
    PosNode(0.0, 0.0, 0.0, PointNucFlat),
    PosNode(0.0, 0.0, 0.0, PointNucFlat),
    PosNode(0.0, 0.1, 0.2, PointTargetRadium),
    PosNode(-7000.0, 0.0, 0.0, PointLoadBall),
    PosNode(-800.0, 0.0, 0.0, PointLoadBall)]

  /** The discrete state of the controller: chassis_state, spdz_ctr_flag, the
      aiming target point, the two queues, and which of the manual and auto
      tasks is resumed. */
  datatype Mode = Mode(
    halt: bool, collimation: bool, yawFlag: bool, spdZ: bool, spdzFactor: real, pointIndex: U8,
    aimX: real, aimY: real,
    ctrlQueue: Option<ChassisCtrlMsg>, statusQueue: Option<ChassisStatusMsg>,
    manualRunning: bool, autoRunning: bool)

  /** The spin factor always matches the spin flag. */
  predicate SpinConsistent(m: Mode)
  {
    m.spdzFactor == (if m.spdZ then SlowSpin else FastSpin)
  }

  /** chassis_set_ctrl and its variants: reset the one-slot queue, then send. */
  function Post(m: Mode, now: Tick, e: ChassisEvent): (r: Mode)
    ensures r.ctrlQueue == Some(ChassisCtrlMsg(now, e))
    ensures r.(ctrlQueue := m.ctrlQueue) == m
  {
    m.(ctrlQueue := Some(ChassisCtrlMsg(now, e)))
  }

  /** xQueueSend with no timeout onto the one-slot queue: dropped when full. */
  function TrySend(m: Mode, now: Tick, e: ChassisEvent): (r: Mode)
    ensures m.ctrlQueue.Some? ==> r == m
    ensures m.ctrlQueue.None? ==> r == Post(m, now, e)
  {
    if m.ctrlQueue.None? then Post(m, now, e) else m
  }

  /** chassis_set_aiming. `nucY` is the current y of the vision pose. */
  function Aiming(m: Mode, e: ChassisEvent, nucY: real): Mode
  {
    match e
    case ShootAiming => m.(collimation := !m.collimation, aimX := BasketX, aimY := BasketY)
    case LeftAiming => m.(collimation := true, aimX := -8000.0, aimY := nucY)
    case RightAiming => m.(collimation := true, aimX := -10.0, aimY := nucY)
    case ResetAiming => m.(collimation := false)
    case _ => m
  }

  /** chassis_set_halt on the published record: halting also zeroes the speed. */
  function HaltOutputs(p: Published, halt: bool): (r: Published)
    ensures r.halt == halt
    ensures halt ==> r.speedX == 0.0 && r.speedY == 0.0 && r.speedW == 0.0
    ensures !halt ==> r.speedX == p.speedX && r.speedY == p.speedY && r.speedW == p.speedW
    ensures r.frictionSpeed == p.frictionSpeed && r.shootFlag == p.shootFlag
  {
    if halt then p.(halt := true, speedX := 0.0, speedY := 0.0, speedW := 0.0) else p.(halt := false)
  }

  /** Whether the dispatcher drops a message received at `now`. */
  predicate Stale(now: Tick, msg: ChassisCtrlMsg)
  {
    Elapsed(now, msg.stamp) > MaxAge
  }

  /** One pass of chassis_ctrl_task on the received message `msg` (already
      taken out of the queue in `m`). */
  function Dispatch(m: Mode, now: Tick, msg: ChassisCtrlMsg, nucY: real): (r: Mode)
  {
    if Stale(now, msg) then m else Handle(m, now, msg.event, nucY)
  }

  /** The dispatcher's switch on a timely event. */
  function Handle(m: Mode, now: Tick, e: ChassisEvent, nucY: real): (r: Mode)
  {
    match e
    case SetPoint => m.(manualRunning := false, autoRunning := true)
    case SetManual => m.(manualRunning := true, autoRunning := false)
    case SetNoTask => m.(manualRunning := false, autoRunning := false)
    case SetMinRadium => Post(m.(pointIndex := RingIndex), now, SetPoint)
    case LeftAiming => Aiming(m, LeftAiming, nucY)
    case RightAiming => Aiming(m, RightAiming, nucY)
    case ResetAiming => Aiming(m, ResetAiming, nucY)
    case _ => m
  }

  /** What the dispatcher publishes. */
  function DispatchOutputs(p: Published, now: Tick, msg: ChassisCtrlMsg): (r: Published)
  {
    if Stale(now, msg) then p else HandleOutputs(p, msg.event)
  }

  function HandleOutputs(p: Published, e: ChassisEvent): (r: Published)
  {
    match e
    case SetHalt => HaltOutputs(p, true)
    case SetUnhalt => HaltOutputs(p, false)
    case SetNoTask => p.(speedX := 0.0, speedY := 0.0, speedW := 0.0)
    case _ => p
  }

  /** A stale message is consumed without any other effect. */
  lemma StaleMessageIgnored(m: Mode, p: Published, now: Tick, msg: ChassisCtrlMsg, nucY: real)
    requires Stale(now, msg)
    ensures Dispatch(m, now, msg, nucY) == m && DispatchOutputs(p, now, msg) == p
  {
  }

  /** Taking a message empties the queue; only SET_MIN_RADIUM refills it, with
      SET_POINT stamped at the time of handling. */
  lemma DispatchRequeuesOnlyRunPoint(m: Mode, now: Tick, msg: ChassisCtrlMsg, nucY: real)
    requires m.ctrlQueue.None?
    ensures var r := Dispatch(m, now, msg, nucY);
            r.ctrlQueue.None? || (msg.event == SetMinRadium && r.ctrlQueue == Some(ChassisCtrlMsg(now, SetPoint)))
  {
    if !Stale(now, msg) && !msg.event.SetMinRadium? {
      assert Handle(m, now, msg.event, nucY).ctrlQueue == m.ctrlQueue;
    }
  }

  /** A message sent at absolute time `sent` and received at most 100 ms later
      is handled, also across a wrap of the tick counter. */
  lemma TimelyMessageHandled(sent: nat, age: nat, e: ChassisEvent)
    requires age <= MaxAge
    ensures !Stale(TickAt(sent + age), ChassisCtrlMsg(TickAt(sent), e))
  {
    ElapsedOfSpan(sent, age);
  }

  /** SET_MIN_RADIUM selects the ring point and queues SET_POINT; handling that
      within 100 ms switches from the manual to the auto task. */
  lemma MinRadiumStartsRingRun(m: Mode, now: Tick, later: nat, nucY: real)
    requires m.ctrlQueue.None? && later <= MaxAge
    requires !Stale(now, ChassisCtrlMsg(now, SetMinRadium))
    ensures var m1 := Dispatch(m, now, ChassisCtrlMsg(now, SetMinRadium), nucY);
            && m1.pointIndex == RingIndex
            && m1.ctrlQueue == Some(ChassisCtrlMsg(now, SetPoint))
            && var m2 := Dispatch(m1.(ctrlQueue := None), TickAt(now + later), m1.ctrlQueue.value, nucY);
               m2.autoRunning && !m2.manualRunning && m2.pointIndex == RingIndex && m2.ctrlQueue.None?
  {
    ElapsedOfSpan(now, later);
    assert TickAt(now) == now;
  }

  /** chassis_remote_key on the discrete state. */
  function KeyMode(m: Mode, now: Tick, key: nat, event: KeyEvent): (r: Mode)
  {
    if key == HaltKey then m.(halt := !m.halt)
    else if key == AimingKey then Aiming(m, ShootAiming, 0.0)
    else if key == RunPointKey then
      (match event
       case PressDown => TrySend(m, now, SetPoint)
       case PressUp => TrySend(m, now, SetManual)
       case Pressing => m)
    else if key == WorldKey then Post(m, now, SetManual)
    else if key == SpdzKey then
      Post(m, now, ResetAiming).(spdZ := !m.spdZ, spdzFactor := if m.spdZ then FastSpin else SlowSpin)
    else m
  }

  /** chassis_remote_key on the published record. */
  function KeyOutputs(p: Published, m: Mode, key: nat): (r: Published)
  {
    if key == HaltKey then HaltOutputs(p, !m.halt)
    else if key == SpdzKey then HaltOutputs(p, false)
    else p
  }

  /** The halt key toggles the halt flag and publishes it; pressing it twice
      restores the flag, and a halted chassis is sent a zero speed. */
  lemma HaltKeyToggles(m: Mode, p: Published, now: Tick, e1: KeyEvent, e2: KeyEvent)
    ensures KeyMode(m, now, HaltKey, e1).halt == !m.halt
    ensures KeyOutputs(p, m, HaltKey).halt == !m.halt
    ensures KeyMode(KeyMode(m, now, HaltKey, e1), now, HaltKey, e2) == m
    ensures !m.halt ==> KeyOutputs(p, m, HaltKey).speedX == 0.0 && KeyOutputs(p, m, HaltKey).speedW == 0.0
  {
  }

  /** The spin key unhalts, cancels aiming through the queue and alternates
      between full-speed and 0.12 rotation, keeping flag and factor in step. */
  lemma SpinKeyAlternates(m: Mode, p: Published, now: Tick, e1: KeyEvent, e2: KeyEvent)
    requires SpinConsistent(m)
    ensures var m1 := KeyMode(m, now, SpdzKey, e1);
            && SpinConsistent(m1) && m1.spdZ == !m.spdZ
            && m1.ctrlQueue == Some(ChassisCtrlMsg(now, ResetAiming))
            && KeyMode(m1, now, SpdzKey, e2).(ctrlQueue := m.ctrlQueue) == m
    ensures !KeyOutputs(p, m, SpdzKey).halt
  {
  }

  /** Pressing the run-point key only queues SET_POINT when the slot is free. */
  lemma RunPointKeyDoesNotOverwrite(m: Mode, now: Tick)
    ensures m.ctrlQueue.Some? ==> KeyMode(m, now, RunPointKey, PressDown) == m
    ensures m.ctrlQueue.None? ==> KeyMode(m, now, RunPointKey, PressDown).ctrlQueue == Some(ChassisCtrlMsg(now, SetPoint))
    ensures KeyMode(m, now, RunPointKey, Pressing) == m
  {
  }

  /** One joystick axis: a dead zone below 3, slope 200 up to 15, then slope
      800 shifted so the two pieces meet at 3000. */
  function AxisCurve(rs: int): (v: real)
  {
    var a := if rs < 0 then -rs else rs;
    if a < 3 then 0.0
    else if a < 15 then rs as real * 200.0
    else rs as real * 800.0 - (if rs > 0 then 1.0 else -1.0) * 9000.0
  }

  /** The curve is odd, zero in the dead zone, and continuous where the two
      sloped pieces meet. */
  lemma AxisCurveShape(rs: int)
    ensures AxisCurve(-rs) == -AxisCurve(rs)
    ensures -3 < rs < 3 ==> AxisCurve(rs) == 0.0
    ensures AxisCurve(14) == 2800.0 && AxisCurve(15) == 3000.0 && AxisCurve(-15) == -3000.0
    ensures rs >= 15 ==> AxisCurve(rs) == 3000.0 + (rs - 15) as real * 800.0
  {
  }

  /** The curve never decreases with the stick deflection. */
  lemma AxisCurveMonotone(a: int, b: int)
    requires a <= b
    ensures AxisCurve(a) <= AxisCurve(b)
    decreases if a < 0 then 1 else 0
  {
    if a < 0 && b < 0 {
      AxisCurveMonotone(-b, -a);
    } else if a < 0 {
      AxisCurveShape(a);
      assert AxisCurve(-a) >= 0.0;
    }
  }

  /** The rotation command without aim-lock. */
  function SpinCommand(rs2: int, factor: real): (w: real)
    ensures -3 < rs2 < 3 ==> w == 0.0
    ensures rs2 >= 3 || rs2 <= -3 ==> w == rs2 as real * 100.0 * factor
  {
    if -3 < rs2 < 3 then 0.0 else rs2 as real * 100.0 * factor
  }

  /** The aim angle of constant_orientation_resolve (radians): minus the arc
      tangent of the x over the y offset to the point, moved by a half turn
      when the point lies below. */
  function AimAngle(lib: Libm, px: real, py: real, nx: real, ny: real): real
  {
    var t := -lib.atanDiv(px - nx, py - ny);
    if py - ny < 0.0 then (if t > 0.0 then t - Pi else t + Pi) else t
  }

  /** atanf returns a value in [-pi/2, pi/2]. */
  ghost predicate AtanRange(lib: Libm)
  {
    forall n: real, d: real {:trigger lib.atanDiv(n, d)} :: -Pi / 2.0 <= lib.atanDiv(n, d) <= Pi / 2.0
  }

  /** With atan in its range the aim angle lies in (-pi, pi]: in
      [-pi/2, pi/2] when the point is not below, outside it otherwise. */
  lemma AimAngleRange(lib: Libm, px: real, py: real, nx: real, ny: real)
    requires AtanRange(lib)
    ensures -Pi < AimAngle(lib, px, py, nx, ny) <= Pi
    ensures py - ny >= 0.0 ==> -Pi / 2.0 <= AimAngle(lib, px, py, nx, ny) <= Pi / 2.0
    ensures py - ny < 0.0 ==> AimAngle(lib, px, py, nx, ny) <= -Pi / 2.0 || AimAngle(lib, px, py, nx, ny) >= Pi / 2.0
  {
    var t := lib.atanDiv(px - nx, py - ny);
    assert -Pi / 2.0 <= t <= Pi / 2.0;
  }

  /** A planar offset or point, in millimetres. */
  datatype Vec = Vec(x: real, y: real)

  /** The direction from the current pose to the ring point of
      chassis_overwrite_pointarray, one branch per range of the aim angle `a`
      (the sines and cosines the firmware multiplies by the radius change). */
  function Heading(lib: Libm, a: real): Vec
  {
    if 0.0 <= a < Pi / 2.0 then Vec(lib.sin(a), -lib.cos(a))
    else if Pi / 2.0 <= a < Pi then Vec(lib.sin(Pi - a), lib.cos(Pi - a))
    else if -Pi <= a < -Pi / 2.0 then Vec(-lib.sin(Pi - a), lib.cos(Pi - a))
    else Vec(-lib.sin(-a), -lib.cos(-a))
  }

  /** With exact trigonometry three of the four branches head along
      (sin a, -cos a), straight away from the aimed point; the branch for
      [-pi, -pi/2) yields the mirrored x component -sin a. */
  lemma HeadingBranches(lib: Libm, a: real)
    requires lib.sin(Pi - a) == lib.sin(a) && lib.cos(Pi - a) == -lib.cos(a)
    requires lib.sin(-a) == -lib.sin(a) && lib.cos(-a) == lib.cos(a)
    ensures -Pi <= a < -Pi / 2.0 ==> Heading(lib, a) == Vec(-lib.sin(a), -lib.cos(a))
    ensures !(-Pi <= a < -Pi / 2.0) ==> Heading(lib, a) == Vec(lib.sin(a), -lib.cos(a))
  {
  }

  /** What one call of chassis_overwrite_pointarray sees: the pose (x, y) and
      the heading derived from the angle towards the basket. */
  datatype Sighting = Sighting(x: real, y: real, heading: Vec)

  /** The sighting from pose (nx, ny) towards the basket. */
  function SightBasket(lib: Libm, nx: real, ny: real): Sighting
  {
    Sighting(nx, ny, Heading(lib, AimAngle(lib, BasketX, BasketY, nx, ny)))
  }

  /** The ring point for ring `i`: the pose moved along the heading by the
      ring's radius minus the current radius. */
  function RingPoint(s: Sighting, basketRadius: real, i: nat): Vec
    requires i < LoopCount
  {
    var k := RadiumSpeed[i].radius - basketRadius;
    Vec(s.x + k * s.heading.x, s.y + k * s.heading.y)
  }

  /** A ring point is usable when its x lies within [-SITH_WIDTH, 400]. */
  predicate OnFieldSide(p: Vec)
  {
    !(p.x < -SithWidth || p.x > 400.0)
  }

  /** The ring point for ring `i` stays on the field side. */
  predicate RingFits(s: Sighting, basketRadius: real, i: nat)
    requires i < LoopCount
  {
    OnFieldSide(RingPoint(s, basketRadius, i))
  }

  /** pos_array after the ring point is written: entry 5 takes the point and
      heading, keeping its point type; every other entry is kept. */
  function SetRingPoint(s: seq<PosNode>, p: Vec, yaw: real): (r: seq<PosNode>)
    requires |s| == PosCount
    ensures |r| == PosCount && r[RingIndex] == PosNode(p.x, p.y, yaw, s[RingIndex].pointType)
    ensures forall j :: 0 <= j < PosCount && j != RingIndex ==> r[j] == s[j]
  {
    s[RingIndex := s[RingIndex].(x := p.x, y := p.y, yaw := yaw)]
  }

  /** Writing the ring point twice leaves only the second write. */
  lemma SetRingPointTwice(s: seq<PosNode>, p1: Vec, y1: real, p2: Vec, y2: real)
    requires |s| == PosCount
    ensures SetRingPoint(SetRingPoint(s, p1, y1), p2, y2) == SetRingPoint(s, p2, y2)
  {
    assert SetRingPoint(s, p1, y1)[RingIndex].pointType == s[RingIndex].pointType;
  }

  /** The retry of chassis_overwrite_pointarray: the ring it settles on from
      ring `i`, or None when no ring from `i` down fits (the firmware then
      retries ring 0 forever). */
  function FittingRing(s: Sighting, basketRadius: real, i: nat): (r: Option<nat>)
    requires i < LoopCount
    ensures r.Some? ==> r.value <= i
    decreases i
  {
    if RingFits(s, basketRadius, i) then Some(i)
    else if i == 0 then None
    else FittingRing(s, basketRadius, i - 1)
  }

  /** The retry settles on the largest ring at or below `i` whose point fits,
      never below ring 0, and finds none exactly when no such ring fits. */
  lemma {:induction false} FittingRingIsLargestFit(s: Sighting, basketRadius: real, i: nat)
    requires i < LoopCount
    ensures var r := FittingRing(s, basketRadius, i);
            && (r.Some? ==> r.value <= i && RingFits(s, basketRadius, r.value))
            && (r.Some? ==> forall j :: r.value < j <= i ==> !RingFits(s, basketRadius, j))
            && (r.None? ==> forall j :: 0 <= j <= i ==> !RingFits(s, basketRadius, j))
    decreases i
  {
    if !RingFits(s, basketRadius, i) && i > 0 {
      FittingRingIsLargestFit(s, basketRadius, i - 1);
    }
  }

  /** No ring in (lo, hi] fits. */
  predicate NoneFitAbove(s: Sighting, basketRadius: real, lo: nat, hi: nat)
    requires hi < LoopCount
    decreases hi - lo
  {
    lo >= hi || (!RingFits(s, basketRadius, lo + 1) && NoneFitAbove(s, basketRadius, lo + 1, hi))
  }

  /** Rings that do not fit are skipped: from above them the retry settles
      where it would from below them. */
  lemma {:induction false} FittingRingSkips(s: Sighting, basketRadius: real, i: nat, j: nat)
    requires j <= i < LoopCount && NoneFitAbove(s, basketRadius, j, i)
    ensures FittingRing(s, basketRadius, i) == FittingRing(s, basketRadius, j)
    decreases i - j
  {
    if j < i {
      FittingRingSkips(s, basketRadius, i, j + 1);
    }
  }

  /** The auto-task arrival counter: (new counter, whether this call finishes
      the run by reporting POINT_ARRIVED and switching to manual). */
  function CountArrival(timeouts: nat, a: Arrive): (r: (nat, bool))
  {
    if a == Arrived then
      if timeouts + 1 >= ArrivalsToFinish then (0, true) else (timeouts + 1, false)
    else (timeouts, false)
  }

  function Arrivals(trace: seq<Arrive>): nat
  {
    if trace == [] then 0
    else Arrivals(trace[..|trace| - 1]) + (if trace[|trace| - 1] == Arrived then 1 else 0)
  }

  /** The counter after a trace of go_path results, starting from 0. */
  function CounterAfter(trace: seq<Arrive>): nat
  {
    if trace == [] then 0 else CountArrival(CounterAfter(trace[..|trace| - 1]), trace[|trace| - 1]).0
  }

  /** The number of runs finished by a trace of go_path results. */
  function FinishedAfter(trace: seq<Arrive>): nat
  {
    if trace == [] then 0
    else FinishedAfter(trace[..|trace| - 1])
         + (if CountArrival(CounterAfter(trace[..|trace| - 1]), trace[|trace| - 1]).1 then 1 else 0)
  }

  /** The counter is never reset by a non-arrival: it counts the arrivals
      modulo 5, and every fifth arrival finishes one run. */
  lemma {:induction false} CounterCountsArrivals(trace: seq<Arrive>)
    ensures CounterAfter(trace) == Arrivals(trace) % ArrivalsToFinish
    ensures FinishedAfter(trace) == Arrivals(trace) / ArrivalsToFinish
  {
    if trace != [] {
      CounterCountsArrivals(trace[..|trace| - 1]);
    }
  }

  /** A go_path channel of the chassis: bound to the vision pose and solvable,
      with PIDs other than the orientation PID. */
  predicate NucChannel(pt: nat, ch: Channel, pose: Position, orientation: Pid)
  {
    && ch.locationType == LocationNuc
    && ChannelReady(pt, ch)
    && ch.position == pose
    && ch.speedPid != orientation && ch.anglePid != orientation
  }

  /** pos_array holds the six point nodes, each aimed at one of the three
      vision-bound channels. */
  predicate PointsValid(ps: seq<PosNode>)
  {
    |ps| == PosCount && forall i :: 0 <= i < PosCount ==> ps[i].pointType < PointLinear
  }

  /** A loading run whose vision x has left [-7000, -800]. */
  predicate LeftLoadingBand(node: PosNode, x: real)
  {
    node.pointType == PointLoadBall && (x < -7000.0 || x > -800.0)
  }

  /** The mode after an auto step that `stop`s the run: POINT_ARRIVED is
      reported and manual control queued; otherwise nothing changes. */
  function Arrival(m: Mode, now: Tick, stop: bool): (r: Mode)
    ensures stop ==> r.statusQueue == Some(ChassisStatusMsg(now, StatusPointArrived))
                     && r.ctrlQueue == Some(ChassisCtrlMsg(now, SetManual))
                     && r.(statusQueue := m.statusQueue, ctrlQueue := m.ctrlQueue) == m
    ensures !stop ==> r == m
  {
    if stop then Post(m, now, SetManual).(statusQueue := Some(ChassisStatusMsg(now, StatusPointArrived))) else m
  }

  /** Stopping twice in one cycle reports and queues once. */
  lemma ArrivalTwice(m: Mode, now: Tick, first: bool, second: bool)
    ensures Arrival(Arrival(m, now, first), now, second) == Arrival(m, now, first || second)
  {
  }

  /** A channel as the set-up leaves it: on the vision pose with the given
      distance deadband, a 0.5 degree angle deadband, no target yet, and two
      distinct PIDs with the given laws. */
  ghost predicate NewChannel(ch: Channel, pose: Position?, deadband: real, speed: PidLaw, angle: PidLaw)
  {
    && ch.locationType == LocationNuc && ch.position == pose
    && ch.distanceDeadband == deadband && ch.angleDeadband == 0.5 && ch.target == Pose(0.0, 0.0, 0.0)
    && ch.speedPid != null && ch.anglePid != null && ch.speedPid != ch.anglePid
    && ch.speedPid.law == speed && ch.anglePid.law == angle
  }

  /** The go_path set-up of chassis_init and of the auto task's prologue:
      the speed sink, the two pose sources, and the fixed, ring and loading
      channels on the vision pose (distance deadbands 3, 20 and 20 mm, angle
      deadband 0.5 degrees), each with two fresh PIDs. */
  method NewNav(flatSpeed: PidLaw, flatAngle: PidLaw, ringSpeed: PidLaw, ringAngle: PidLaw,
                loadSpeed: PidLaw, loadAngle: PidLaw, nucPose: Position, actionPose: Position,
                sink: PubToSlave) returns (g: GoPath)
    ensures fresh(g) && g.Valid() && g.chassisCtrl == sink
    ensures g.locations == [actionPose, null, nucPose]
    ensures NewChannel(g.channels[PointNucFlat], nucPose, 3.0, flatSpeed, flatAngle)
    ensures NewChannel(g.channels[PointTargetRadium], nucPose, 20.0, ringSpeed, ringAngle)
    ensures NewChannel(g.channels[PointLoadBall], nucPose, 20.0, loadSpeed, loadAngle)
  {
    g := new GoPath();
    g.ChassisCtrlInit(sink);
    g.LocationInit(LocationAction, actionPose);
    g.LocationInit(LocationNuc, nucPose);
    AddNucChannel(g, flatSpeed, flatAngle, 3.0, PointNucFlat);
    AddNucChannel(g, ringSpeed, ringAngle, 20.0, PointTargetRadium);
    AddNucChannel(g, loadSpeed, loadAngle, 20.0, PointLoadBall);
  }

  /** pid_init of two fresh PIDs and go_path_pidpoint_init of channel `pt`
      on the vision pose with them. */
  method AddNucChannel(g: GoPath, speedLaw: PidLaw, angleLaw: PidLaw, deadband: real, pt: nat)
    requires g.Valid() && pt < PointTypeCount
    modifies g
    ensures g.Valid() && g.locations == old(g.locations) && g.chassisCtrl == old(g.chassisCtrl)
    ensures |g.channels| == |old(g.channels)|
    ensures forall i :: 0 <= i < |g.channels| && i != pt ==> g.channels[i] == old(g.channels[i])
    ensures NewChannel(g.channels[pt], g.locations[LocationNuc], deadband, speedLaw, angleLaw)
  {
    var speed := new Pid(speedLaw);
    var angle := new Pid(angleLaw);
    g.PidpointInit(speed, angle, deadband, 0.5, pt, LocationNuc);
  }

  class Chassis {
    var halt: bool
    var collimation: bool
    var yawFlag: bool
    var spdZ: bool
    var spdzFactor: real
    var pointIndex: U8
    var aimX: real
    var aimY: real
    var ctrlQueue: Option<ChassisCtrlMsg>
    var statusQueue: Option<ChassisStatusMsg>
    var manualRunning: bool
    var autoRunning: bool
    /** pos_array[] */
    var posArray: seq<PosNode>
    /** orientation_aim_angle (radians) */
    var aimAngle: real
    /** the static `timeouts` counter of the auto task */
    var timeouts: nat

    const orientationPid: Pid
    const nav: GoPath
    const sink: PubToSlave
    /** g_nuc_pos_data, written by the vision link */
    const nucPose: Position

    function State(): Mode
      reads this
    {
      Mode(halt, collimation, yawFlag, spdZ, spdzFactor, pointIndex, aimX, aimY,
           ctrlQueue, statusQueue, manualRunning, autoRunning)
    }

    /** The go_path channels for the fixed, ring and loading points are bound
        to the vision pose with two distinct PIDs each, none of them the
        orientation PID, and publish to this controller's sink. */
    predicate Valid()
      reads this, nav
    {
      && PointsValid(posArray)
      && SpinConsistent(State())
      && timeouts < ArrivalsToFinish
      && NavValid()
    }

    /** The go_path part of `Valid`, which only the go_path calls affect. */
    predicate NavValid()
      reads nav
    {
      && nav.Valid() && nav.chassisCtrl == sink
      && NucChannel(PointNucFlat, nav.channels[PointNucFlat], nucPose, orientationPid)
      && NucChannel(PointTargetRadium, nav.channels[PointTargetRadium], nucPose, orientationPid)
      && NucChannel(PointLoadBall, nav.channels[PointLoadBall], nucPose, orientationPid)
    }

    /** The PIDs of the three channels the auto task uses. */
    function NavPids(): set<Pid?>
      reads nav
      requires nav.Valid()
    {
      {nav.channels[PointNucFlat].speedPid, nav.channels[PointNucFlat].anglePid,
       nav.channels[PointTargetRadium].speedPid, nav.channels[PointTargetRadium].anglePid,
       nav.channels[PointLoadBall].speedPid, nav.channels[PointLoadBall].anglePid}
    }

    /** chassis_init together with the set-up prologue of the auto task. The
        pid_init gains are the laws handed in. */
    constructor (orientationLaw: PidLaw, flatSpeed: PidLaw, flatAngle: PidLaw, ringSpeed: PidLaw,
                 ringAngle: PidLaw, loadSpeed: PidLaw, loadAngle: PidLaw,
                 nucPose: Position, actionPose: Position, sink: PubToSlave)
      modifies sink
      ensures Valid()
      ensures State() == Mode(true, false, true, false, FastSpin, 0, 0.0, 0.0, None, None, true, false)
      ensures posArray == InitialPosArray && timeouts == 0
      ensures this.sink == sink && this.nucPose == nucPose
      ensures sink.Snapshot() == HaltOutputs(old(sink.Snapshot()), true)
    {
      var g := NewNav(flatSpeed, flatAngle, ringSpeed, ringAngle, loadSpeed, loadAngle, nucPose, actionPose, sink);
      var o := new Pid(orientationLaw);
      halt, collimation, yawFlag, spdZ, spdzFactor, pointIndex := true, false, true, false, FastSpin, 0;
      aimX, aimY := 0.0, 0.0;
      ctrlQueue, statusQueue := None, None;
      manualRunning, autoRunning := true, false;
      posArray := InitialPosArray;
      aimAngle := 0.0;
      timeouts := 0;
      orientationPid := o;
      nav := g;
      this.sink := sink;
      this.nucPose := nucPose;
      new;
      SetHalt(true);
    }

    /** chassis_set_halt. */
    method SetHalt(h: bool)
      modifies sink
      ensures sink.Snapshot() == HaltOutputs(old(sink.Snapshot()), h)
    {
      sink.ChassisHalt(h);
      if h {
        sink.ChassisSpeed(0.0, 0.0, 0.0);
      }
    }

    /** chassis_set_status: reset the status slot, then send. */
    method SetStatus(now: Tick, status: ChassisStatus)
      modifies this`statusQueue
      ensures statusQueue == Some(ChassisStatusMsg(now, status))
      ensures State() == old(State()).(statusQueue := statusQueue)
    {
      statusQueue := Some(ChassisStatusMsg(now, status));
    }

    /** chassis_set_ctrl; chassis_set_manual_ctrl is SetCtrl(now, SetManual). */
    method SetCtrl(now: Tick, e: ChassisEvent)
      modifies this`ctrlQueue
      ensures State() == Post(old(State()), now, e)
    {
      ctrlQueue := Some(ChassisCtrlMsg(now, e));
    }

    /** chassis_set_point_run. */
    method SetPointRun(now: Tick, index: U8)
      modifies this`pointIndex, this`ctrlQueue
      ensures State() == Post(old(State()).(pointIndex := index), now, SetPoint)
    {
      pointIndex := index;
      SetCtrl(now, SetPoint);
    }

    /** chassis_set_aiming. */
    method SetAiming(e: ChassisEvent)
      modifies this`collimation, this`aimX, this`aimY
      ensures State() == Aiming(old(State()), e, nucPose.y)
    {
      match e {
        case ShootAiming =>
          collimation := !collimation;
          aimX, aimY := BasketX, BasketY;
        case LeftAiming =>
          collimation := true;
          aimX, aimY := -8000.0, nucPose.y;
        case RightAiming =>
          collimation := true;
          aimX, aimY := -10.0, nucPose.y;
        case ResetAiming =>
          collimation := false;
        case _ =>
      }
    }

    /** constant_orientation_resolve: the rotation that turns the chassis to
        face (px, py). Updates the aim angle and the orientation PID. */
    method OrientationResolve(lib: Libm, px: real, py: real) returns (w: real)
      modifies this`aimAngle, orientationPid
      ensures aimAngle == AimAngle(lib, px, py, nucPose.x, nucPose.y)
      ensures (w, orientationPid.State())
              == Step(orientationPid.law, old(orientationPid.State()), AngleTrans(nucPose.yaw, Rad2Deg(aimAngle)), 0.0)
    {
      aimAngle := AimAngle(lib, px, py, nucPose.x, nucPose.y);
      var delta := AngleTrans(nucPose.yaw, Rad2Deg(aimAngle));
      w := orientationPid.Calc(delta, 0.0);
    }

    /** chassis_overwrite_pointarray: compute the ring point for ring
        `targetIndex`; while it leaves the field side, retry with the next
        smaller ring. Returns the ring used; `hung` when even ring 0 does not
        fit, where the firmware retries ring 0 forever. Only pos_array[5] is
        written; each attempt runs the orientation PID once. */
    method OverwritePointArray(lib: Libm, basketRadius: real, targetIndex: nat) returns (ring: nat, hung: bool)
      requires targetIndex < LoopCount && |posArray| == PosCount
      modifies this`posArray, this`aimAngle, orientationPid
      ensures ring <= targetIndex && (hung ==> ring == 0)
      ensures FittingRing(SightBasket(lib, nucPose.x, nucPose.y), basketRadius, targetIndex) == if hung then None else Some(ring)
      ensures aimAngle == AimAngle(lib, BasketX, BasketY, nucPose.x, nucPose.y)
      ensures posArray == SetRingPoint(old(posArray), RingPoint(SightBasket(lib, nucPose.x, nucPose.y), basketRadius, ring), Rad2Deg(aimAngle))
      ensures orientationPid.State()
              == Repeat(old(orientationPid.State()), AngleTrans(nucPose.yaw, Rad2Deg(aimAngle)), 0.0,
                        targetIndex - ring + 1)
    {
      ghost var s := SightBasket(lib, nucPose.x, nucPose.y);
      ghost var pid0 := orientationPid.State();
      ghost var pos0 := posArray;
      ghost var aim := AimAngle(lib, BasketX, BasketY, nucPose.x, nucPose.y);
      ghost var yaw := Rad2Deg(aim);
      ghost var delta := AngleTrans(nucPose.yaw, yaw);
      ring := targetIndex;
      ghost var calls := 1;
      var fits := TryRing(lib, basketRadius, ring, s, yaw, delta);
      while !fits && ring > 0
        invariant ring <= targetIndex && fits == RingFits(s, basketRadius, ring)
        invariant aimAngle == aim
        invariant NoneFitAbove(s, basketRadius, ring, targetIndex)
        invariant calls == targetIndex - ring + 1 && orientationPid.State() == Repeat(pid0, delta, 0.0, calls)
        invariant posArray == SetRingPoint(pos0, RingPoint(s, basketRadius, ring), yaw)
        decreases ring
      {
        ring := ring - 1;
        calls := calls + 1;
        fits := TryRing(lib, basketRadius, ring, s, yaw, delta);
        SetRingPointTwice(pos0, RingPoint(s, basketRadius, ring + 1), yaw, RingPoint(s, basketRadius, ring), yaw);
      }
      hung := !fits;
      FittingRingSkips(s, basketRadius, targetIndex, ring);
    }

    /** One attempt of the retry loop: aim at the basket, write the ring point
        of ring `i` into pos_array[5], and tell whether it is on the field side.
        The ghost `s`, `yaw` and `delta` name the sighting, heading and PID
        input that the current pose determines. */
    method TryRing(lib: Libm, basketRadius: real, i: nat, ghost s: Sighting, ghost yaw: real, ghost delta: real) returns (fits: bool)
      requires i < LoopCount && |posArray| == PosCount
      requires s == SightBasket(lib, nucPose.x, nucPose.y)
      requires yaw == Rad2Deg(AimAngle(lib, BasketX, BasketY, nucPose.x, nucPose.y)) && delta == AngleTrans(nucPose.yaw, yaw)
      modifies this`posArray, this`aimAngle, orientationPid
      ensures fits == RingFits(s, basketRadius, i)
      ensures aimAngle == AimAngle(lib, BasketX, BasketY, nucPose.x, nucPose.y) && Rad2Deg(aimAngle) == yaw
      ensures posArray == SetRingPoint(old(posArray), RingPoint(s, basketRadius, i), yaw)
      ensures orientationPid.State() == Fed(old(orientationPid.State()), delta, 0.0)
    {
      var _ := OrientationResolve(lib, BasketX, BasketY);
      var p := RingPoint(SightBasket(lib, nucPose.x, nucPose.y), basketRadius, i);
      posArray := SetRingPoint(posArray, p, Rad2Deg(aimAngle));
      fits := !(p.x < -SithWidth || p.x > 400.0);
    }

    /** chassis_remote_key. Every key ends by requesting a position report. */
    method RemoteKey(now: Tick, key: nat, event: KeyEvent) returns (effects: seq<Effect>)
      requires SpinConsistent(State())
      modifies this`halt, this`aimX, this`aimY, this`collimation, this`ctrlQueue, this`spdzFactor, this`spdZ, sink
      ensures State() == KeyMode(old(State()), now, key, event)
      ensures sink.Snapshot() == KeyOutputs(old(sink.Snapshot()), old(State()), key)
      ensures effects == [ToReport(ReportPosition)]
      ensures SpinConsistent(State())
    {
      if key == HaltKey {
        halt := !halt;
        SetHalt(halt);
      } else if key == AimingKey {
        aimX, aimY := BasketX, BasketY;
        collimation := !collimation;
      } else if key == RunPointKey {
        match event {
          case PressDown =>
            if ctrlQueue.None? {
              ctrlQueue := Some(ChassisCtrlMsg(now, SetPoint));
            }
          case PressUp =>
            if ctrlQueue.None? {
              ctrlQueue := Some(ChassisCtrlMsg(now, SetManual));
            }
          case Pressing =>
        }
      } else if key == WorldKey {
        SetCtrl(now, SetManual);
      } else if key == SpdzKey {
        SpinKey(now, event);
      }
      effects := [ToReport(ReportPosition)];
    }

    /** The spin key of chassis_remote_key: unhalt, queue RESET_AIMING and
        switch between the two rotation factors. */
    method SpinKey(now: Tick, event: KeyEvent)
      modifies this`ctrlQueue, this`spdzFactor, this`spdZ, sink
      ensures State() == KeyMode(old(State()), now, SpdzKey, event)
      ensures sink.Snapshot() == HaltOutputs(old(sink.Snapshot()), false)
    {
      SetHalt(false);
      SetCtrl(now, ResetAiming);
      if spdZ {
        spdzFactor := FastSpin;
        spdZ := false;
      } else {
        spdzFactor := SlowSpin;
        spdZ := true;
      }
    }

    /** One pass of chassis_ctrl_task: take the queued message, if any, and
        handle it unless it is older than 100 ms. */
    method CtrlTaskStep(now: Tick)
      modifies this`ctrlQueue, this`manualRunning, this`autoRunning, this`pointIndex
      modifies this`collimation, this`aimX, this`aimY, sink
      ensures old(ctrlQueue).None? ==> State() == old(State()) && unchanged(sink)
      ensures old(ctrlQueue).Some? ==>
                && State() == Dispatch(old(State()).(ctrlQueue := None), now, old(ctrlQueue).value, nucPose.y)
                && sink.Snapshot() == DispatchOutputs(old(sink.Snapshot()), now, old(ctrlQueue).value)
    {
      if ctrlQueue.None? {
        return;
      }
      var msg := ctrlQueue.value;
      ctrlQueue := None;
      if !Stale(now, msg) {
        HandleEvent(now, msg.event);
      }
    }

    /** The switch of chassis_ctrl_task on a timely event. */
    method HandleEvent(now: Tick, e: ChassisEvent)
      modifies this`ctrlQueue, this`manualRunning, this`autoRunning, this`pointIndex
      modifies this`collimation, this`aimX, this`aimY, sink
      ensures State() == Handle(old(State()), now, e, nucPose.y)
      ensures sink.Snapshot() == HandleOutputs(old(sink.Snapshot()), e)
    {
      match e {
        case SetPoint =>
          manualRunning, autoRunning := false, true;
        case SetManual =>
          manualRunning, autoRunning := true, false;
        case SetHalt =>
          SetHalt(true);
        case SetUnhalt =>
          SetHalt(false);
        case SetNoTask =>
          manualRunning, autoRunning := false, false;
          sink.ChassisSpeed(0.0, 0.0, 0.0);
        case SetMinRadium =>
          SetPointRun(now, RingIndex);
        case LeftAiming =>
          SetAiming(LeftAiming);
        case RightAiming =>
          SetAiming(RightAiming);
        case ResetAiming =>
          SetAiming(ResetAiming);
        case ShootAiming =>
      }
    }

    /** One cycle of chassis_manual_ctrl_task: map the sticks to a chassis
        speed; with aim-lock on, the rotation comes from the orientation PID
        (times 12) instead of the stick. `rs` are the four stick bytes. */
    method ManualStep(lib: Libm, rs: seq<int>)
      requires |rs| == 4
      modifies this, orientationPid, sink
      ensures sink.speedX == AxisCurve(rs[0]) && sink.speedY == AxisCurve(rs[1])
      ensures !old(collimation) ==>
                sink.speedW == SpinCommand(rs[2], spdzFactor) && orientationPid.State() == old(orientationPid.State())
                && aimAngle == old(aimAngle)
      ensures old(collimation) ==>
                aimAngle == AimAngle(lib, aimX, aimY, nucPose.x, nucPose.y)
                && (sink.speedW / 12.0, orientationPid.State())
                   == Step(orientationPid.law, old(orientationPid.State()), AngleTrans(nucPose.yaw, Rad2Deg(aimAngle)), 0.0)
      ensures sink.halt == old(sink.halt) && sink.frictionSpeed == old(sink.frictionSpeed)
      ensures sink.shootFlag == old(sink.shootFlag)
      ensures State() == old(State()) && posArray == old(posArray) && timeouts == old(timeouts)
    {
      var speedY := AxisCurve(rs[1]);
      var speedX := AxisCurve(rs[0]);
      var speedZ: real;
      if collimation {
        var w := OrientationResolve(lib, aimX, aimY);
        speedZ := w * 12.0;
      } else {
        speedZ := SpinCommand(rs[2], spdzFactor);
      }
      sink.ChassisSpeed(speedX, speedY, speedZ);
    }

    /** One cycle of chassis_auto_ctrl_task: refresh the ring point's yaw, stop
        a loading run that has left the loading band, run go_path towards the
        selected point and count its arrivals; the fifth one reports
        POINT_ARRIVED and switches to manual. */
    method AutoStep(lib: Libm, now: Tick) returns (arrived: Arrive)
      requires Valid() && pointIndex < PosCount
      modifies this`posArray, this`aimAngle, this`timeouts, this`statusQueue, this`ctrlQueue
      modifies orientationPid, sink, nav, NavPids()
      ensures Valid() && pointIndex == old(pointIndex)
      ensures aimAngle == AimAngle(lib, BasketX, BasketY, nucPose.x, nucPose.y)
      ensures posArray == old(posArray)[RingIndex := old(posArray)[RingIndex].(yaw := Rad2Deg(aimAngle))]
      ensures var node := posArray[pointIndex];
              var ch := nav.channels[node.pointType];
              && ch == old(nav.channels)[node.pointType].(target := Pose(node.x, node.y, node.yaw))
              && nav.NavOf(node.pointType)
                 == ActionControl(lib, nav.TuningOf(ch), nucPose.Current(), ch.target,
                            old(nav.NavOf(node.pointType)))
              && arrived == nav.result.arrived
      ensures var pt := posArray[pointIndex].pointType;
              && nav.channels == old(nav.channels)[pt := nav.channels[pt]]
              && unchanged(old(NavPids()) - {old(nav.channels[pt].speedPid), old(nav.channels[pt].anglePid)})
      ensures nav.locations == old(nav.locations)
      ensures orientationPid.State() == Fed(old(orientationPid.State()), AngleTrans(nucPose.yaw, Rad2Deg(aimAngle)), 0.0)
      ensures Speed(sink.speedX, sink.speedY, sink.speedW) == Command(lib, nav.result)
      ensures sink.Snapshot() == old(sink.Snapshot()).(speedX := sink.speedX, speedY := sink.speedY, speedW := sink.speedW)
      ensures (timeouts, CountArrival(old(timeouts), arrived).1) == CountArrival(old(timeouts), arrived)
      ensures State() == Arrival(old(State()), now, LeftLoadingBand(old(posArray)[old(pointIndex)], nucPose.x)
                                                    || CountArrival(old(timeouts), arrived).1)
    {
      var node := Prepare(lib, now);
      arrived := Advance(lib, now, node);
      ArrivalTwice(old(State()), now, LeftLoadingBand(node, nucPose.x), CountArrival(old(timeouts), arrived).1);
    }

    /** The part of the auto cycle before go_path: refresh the ring point and
        stop a loading run that has left its band. */
    method Prepare(lib: Libm, now: Tick) returns (node: PosNode)
      requires PointsValid(posArray) && pointIndex < PosCount && NavValid()
      modifies this`posArray, this`aimAngle, this`statusQueue, this`ctrlQueue, orientationPid, sink
      ensures PointsValid(posArray) && node == posArray[pointIndex]
      ensures NavValid() && nav.NavOf(node.pointType) == old(nav.NavOf(node.pointType))
      ensures aimAngle == AimAngle(lib, BasketX, BasketY, nucPose.x, nucPose.y)
      ensures posArray == old(posArray)[RingIndex := old(posArray)[RingIndex].(yaw := Rad2Deg(aimAngle))]
      ensures orientationPid.State() == Fed(old(orientationPid.State()), AngleTrans(nucPose.yaw, Rad2Deg(aimAngle)), 0.0)
      ensures State() == Arrival(old(State()), now, LeftLoadingBand(node, nucPose.x))
      ensures LeftLoadingBand(node, nucPose.x) ==>
                sink.Snapshot() == old(sink.Snapshot()).(speedX := 0.0, speedY := 0.0, speedW := 0.0)
      ensures !LeftLoadingBand(node, nucPose.x) ==> sink.Snapshot() == old(sink.Snapshot())
    {
      RefreshRingYaw(lib);
      node := posArray[pointIndex];
      LeaveLoadingBand(now, node);
    }

    /** The part of the auto cycle from go_path on: drive towards the node and
        count the arrival. */
    method Advance(lib: Libm, now: Tick, node: PosNode) returns (arrived: Arrive)
      requires NavValid() && node.pointType < PointLinear && timeouts < ArrivalsToFinish
      modifies this`timeouts, this`statusQueue, this`ctrlQueue, sink, nav, NavPids()
      ensures NavValid()
      ensures var ch := nav.channels[node.pointType];
              && ch == old(nav.channels)[node.pointType].(target := Pose(node.x, node.y, node.yaw))
              && nav.NavOf(node.pointType)
                 == ActionControl(lib, nav.TuningOf(ch), nucPose.Current(), ch.target,
                            old(nav.NavOf(node.pointType)))
              && arrived == nav.result.arrived
      ensures nav.channels == old(nav.channels)[node.pointType := nav.channels[node.pointType]]
      ensures nav.locations == old(nav.locations)
      ensures unchanged(old(NavPids()) - {old(nav.channels[node.pointType].speedPid), old(nav.channels[node.pointType].anglePid)})
      ensures Speed(sink.speedX, sink.speedY, sink.speedW) == Command(lib, nav.result)
      ensures sink.Snapshot() == old(sink.Snapshot()).(speedX := sink.speedX, speedY := sink.speedY, speedW := sink.speedW)
      ensures timeouts == CountArrival(old(timeouts), arrived).0 && timeouts < ArrivalsToFinish
      ensures State() == Arrival(old(State()), now, CountArrival(old(timeouts), arrived).1)
    {
      arrived := Drive(lib, node);
      CountArrivalStep(now, arrived);
    }

    /** The first step of the auto cycle: re-aim at the basket and give the
        ring point the new heading. */
    method RefreshRingYaw(lib: Libm)
      requires |posArray| == PosCount
      modifies this`posArray, this`aimAngle, orientationPid
      ensures aimAngle == AimAngle(lib, BasketX, BasketY, nucPose.x, nucPose.y)
      ensures posArray == old(posArray)[RingIndex := old(posArray)[RingIndex].(yaw := Rad2Deg(aimAngle))]
      ensures orientationPid.State() == Fed(old(orientationPid.State()), AngleTrans(nucPose.yaw, Rad2Deg(aimAngle)), 0.0)
    {
      var _ := OrientationResolve(lib, BasketX, BasketY);
      posArray := posArray[RingIndex := posArray[RingIndex].(yaw := Rad2Deg(aimAngle))];
    }

    /** A loading run whose vision x has left [-7000, -800] is stopped:
        POINT_ARRIVED is reported, the chassis is stopped and manual is queued. */
    method LeaveLoadingBand(now: Tick, node: PosNode)
      modifies this`statusQueue, this`ctrlQueue, sink
      ensures State() == Arrival(old(State()), now, LeftLoadingBand(node, nucPose.x))
      ensures LeftLoadingBand(node, nucPose.x) ==>
                sink.Snapshot() == old(sink.Snapshot()).(speedX := 0.0, speedY := 0.0, speedW := 0.0)
      ensures !LeftLoadingBand(node, nucPose.x) ==> sink.Snapshot() == old(sink.Snapshot())
    {
      if node.pointType == PointLoadBall && (nucPose.x < -7000.0 || nucPose.x > -800.0) {
        SetStatus(now, StatusPointArrived);
        sink.ChassisSpeed(0.0, 0.0, 0.0);
        SetCtrl(now, SetManual);
      }
    }

    /** go_path_by_point towards a point node of a vision-bound channel: only
        that channel's target, its solver state and the speed sink change. */
    method Drive(lib: Libm, node: PosNode) returns (arrived: Arrive)
      requires NavValid() && node.pointType < PointLinear
      modifies sink, nav, NavPids()
      ensures NavValid()
      ensures var ch := nav.channels[node.pointType];
              && ch == old(nav.channels)[node.pointType].(target := Pose(node.x, node.y, node.yaw))
              && nav.NavOf(node.pointType)
                 == ActionControl(lib, nav.TuningOf(ch), nucPose.Current(), ch.target,
                            old(nav.NavOf(node.pointType)))
              && arrived == nav.result.arrived
      ensures nav.channels == old(nav.channels)[node.pointType := nav.channels[node.pointType]]
      ensures nav.locations == old(nav.locations)
      ensures unchanged(old(NavPids()) - {old(nav.channels[node.pointType].speedPid), old(nav.channels[node.pointType].anglePid)})
      ensures Speed(sink.speedX, sink.speedY, sink.speedW) == Command(lib, nav.result)
      ensures sink.Snapshot() == old(sink.Snapshot()).(speedX := sink.speedX, speedY := sink.speedY, speedW := sink.speedW)
    {
      arrived := nav.ByPoint(lib, node.x, node.y, node.yaw, node.pointType);
    }

    /** The arrival counter of the auto cycle (see `CountArrival`). */
    method CountArrivalStep(now: Tick, arrived: Arrive)
      requires timeouts < ArrivalsToFinish
      modifies this`timeouts, this`statusQueue, this`ctrlQueue
      ensures timeouts == CountArrival(old(timeouts), arrived).0 && timeouts < ArrivalsToFinish
      ensures State() == Arrival(old(State()), now, CountArrival(old(timeouts), arrived).1)
    {
      var (next, finished) := CountArrival(timeouts, arrived);
      timeouts := next;
      if finished {
        SetStatus(now, StatusPointArrived);
        SetCtrl(now, SetManual);
      }
    }
  }
}
