/** Ball handling (User/Application/Src/dribble.c): a key callback that turns
    keys into dribble requests on a one-slot queue, the dribble task that runs
    the requested cylinder sequence while it polls the ball sensors, and the
    catch-motor task that drives the hand-over drawer to one of its two end
    switches and holds it there.

    Time is absolute milliseconds; a sensor is a function from time to
    "touched". The cylinder outputs are booleans: the push cylinder out, the
    clamp open, the top hammer down. */
module Dribble {
  import opened Base
  import opened Includes
  import opened Pid

  /** Key numbers of dribble.c. */
  const WholeProcessKey: nat := 8
  const ClampKey: nat := 2
  const PushKey: nat := 27
  const HandoverKey: nat := 9
  const PartProcessKey: nat := 10
  const PushInKey: nat := 3
  const PushOutKey: nat := 4

  /** The flywheel preset the hand-over requests. */
  const HandoverSpeed: real := 16000.0

  /** A request older than this (ms) is dropped by the task. */
  const StaleAfter: nat := 2000

  /** The delays of clamp_open, of the hammer stroke, and the ones whole_process
      and catch_to_shoot insert between steps. */
  const ClampOpenDelay: nat := 500
  const HitDelay: nat := 100
  const SettleDelay: nat := 35
  const BounceDelay: nat := 30
  const ReleaseDelay: nat := 500

  /** The time whole_process spends before it starts waiting for the ball to
      leave: clamp_open, the settle delay and the hammer stroke. */
  const WholeLead: nat := ClampOpenDelay + SettleDelay + HitDelay

  /** The rebound wait gives up after more than 3000 ms, the drop wait in
      catch_to_shoot after more than 2000 ms. */
  const ReboundLimit: nat := 3000
  const DropLimit: nat := 2000

  /** CATCH_TARGET_SPEED: the drawer's speed while it seeks a switch. */
  const CatchSpeed: real := 5000.0

  /** The five switches: the three NPN ball sensors and the drawer's
      extended and retracted proximity switches. */
  datatype Sensors = Sensors(
    npn: nat -> bool, npn2: nat -> bool, npn3: nat -> bool,
    proximityOut: nat -> bool, proximityIn: nat -> bool)

  /** Any of the three ball sensors touched. */
  predicate AnyTouched(s: Sensors, t: nat)
  {
    s.npn(t) || s.npn2(t) || s.npn3(t)
  }

  /** catch_status_t. */
  datatype CatchStatus = TowardShoot | TowardCatch

  /** `t` is the first time after `from` at which `sensor` reads `want`. */
  predicate FirstAfter(sensor: nat -> bool, want: bool, from: nat, t: nat)
  {
    from < t && sensor(t) == want && forall v :: from < v < t ==> sensor(v) != want
  }

  /** `sensor` reads `want` at some time after `from`: what an unbounded
      polling loop needs in order to end. */
  ghost predicate Eventually(sensor: nat -> bool, want: bool, from: nat)
  {
    exists u :: from < u && sensor(u) == want
  }

  /** The rebound wait started at `from` ends at `t`: the first millisecond
      within 3001 at which a ball sensor is touched, or the 3001st. */
  predicate ReboundEnds(s: Sensors, from: nat, t: nat)
  {
    && from < t <= from + ReboundLimit + 1
    && (t <= from + ReboundLimit ==> AnyTouched(s, t))
    && forall v :: from < v < t ==> !AnyTouched(s, v)
  }

  /** The drop wait started at `from` ends at `t`: the first millisecond
      within 2000 at which the ball sensor is free, or the 2001st. */
  predicate DropEnds(s: Sensors, from: nat, t: nat)
  {
    && from < t <= from + DropLimit + 1
    && (t <= from + DropLimit ==> !s.npn(t))
    && forall v :: from < v < t ==> s.npn(v)
  }

  /** `do { vTaskDelay(1); } while (sensor != want)`: poll every millisecond
      until the sensor reads `want`. The firmware puts no bound on it. */
  method PollUntil(sensor: nat -> bool, want: bool, from: nat) returns (t: nat)
    requires Eventually(sensor, want, from)
    ensures FirstAfter(sensor, want, from, t)
  {
    ghost var w :| from < w && sensor(w) == want;
    t := from + 1;
    while sensor(t) != want
      invariant from < t <= w
      invariant forall v :: from < v < t ==> sensor(v) != want
      decreases w - t
    {
      t := t + 1;
    }
  }

  /** The rebound wait of whole_process: check the time, wait a millisecond,
      and stop once a ball sensor is touched. */
  method AwaitRebound(s: Sensors, from: nat) returns (t: nat)
    ensures ReboundEnds(s, from, t)
  {
    t := from;
    while true
      invariant from <= t <= from + ReboundLimit + 1
      invariant forall v :: from < v <= t ==> !AnyTouched(s, v)
      decreases from + ReboundLimit + 1 - t
    {
      if t - from > ReboundLimit {
        break;
      }
      t := t + 1;
      if AnyTouched(s, t) {
        break;
      }
    }
  }

  /** The drop wait of catch_to_shoot: wait a millisecond, give up after
      2000, and stop once the ball sensor is free. */
  method AwaitDrop(s: Sensors, from: nat) returns (t: nat)
    ensures DropEnds(s, from, t)
  {
    t := from;
    while true
      invariant from <= t <= from + DropLimit
      invariant forall v :: from < v <= t ==> s.npn(v)
      decreases from + DropLimit - t
    {
      t := t + 1;
      if t - from > DropLimit {
        break;
      }
      if !s.npn(t) {
        break;
      }
    }
  }

  /** What key_dribble_ball requests for a key, given its two toggles (clamp
      open, drawer out), and the toggles after it. */
  function KeyCommand(key: U8, clampFlag: bool, pushFlag: bool): (DribbleEvent, bool, bool)
  {
    if key == WholeProcessKey then (WholeProcess, clampFlag, pushFlag)
    else if key == PartProcessKey then (PartProcess, clampFlag, pushFlag)
    else if key == ClampKey then
      (if clampFlag then CloseClamp else OpenClamp, !clampFlag, pushFlag)
    else if key == PushKey then
      (if pushFlag then PushIn else PushOut, clampFlag, !pushFlag)
    else if key == PushInKey then (MoveToShoot, clampFlag, pushFlag)
    else if key == PushOutKey then (MoveToCatch, clampFlag, pushFlag)
    else if key == HandoverKey then (HandleoverBall, clampFlag, pushFlag)
    else (DribbleNoTask, clampFlag, pushFlag)
  }

  /** The clamp key alternates open and close and the push key out and in,
      each toggle touching only its own flag; every other key leaves both
      flags alone, and a key the callback does not know requests nothing. */
  lemma KeyCommandToggles(key: U8, c: bool, p: bool)
    ensures key == ClampKey ==>
              var (e1, c1, p1) := KeyCommand(key, c, p);
              var (e2, c2, p2) := KeyCommand(key, c1, p1);
              && {e1, e2} == {OpenClamp, CloseClamp} && (e1 == OpenClamp <==> !c)
              && c2 == c && p2 == p && c1 != c
    ensures key == PushKey ==>
              var (e1, c1, p1) := KeyCommand(key, c, p);
              var (e2, c2, p2) := KeyCommand(key, c1, p1);
              && {e1, e2} == {PushOut, PushIn} && (e1 == PushOut <==> !p)
              && c2 == c && p2 == p && p1 != p
    ensures key != ClampKey && key != PushKey ==> KeyCommand(key, c, p).1 == c && KeyCommand(key, c, p).2 == p
    ensures key !in {WholeProcessKey, PartProcessKey, ClampKey, PushKey, PushInKey, PushOutKey, HandoverKey} ==>
              KeyCommand(key, c, p).0 == DribbleNoTask
  {
  }

  /** The n-th press of the clamp key after power-up (flag false), counting
      from 0, opens the clamp when n is even and closes it when n is odd. */
  function ClampFlagAfter(n: nat): bool
  {
    if n == 0 then false else !ClampFlagAfter(n - 1)
  }

  lemma {:induction false} ClampPressParity(n: nat)
    ensures ClampFlagAfter(n) == (n % 2 == 1)
    ensures KeyCommand(ClampKey, ClampFlagAfter(n), false).0 == (if n % 2 == 0 then OpenClamp else CloseClamp)
  {
    if n > 0 {
      ClampPressParity(n - 1);
    }
  }

  /** The requests the dribble task acts on; the others make it skip to the
      next message without reporting. */
  predicate Handled(e: DribbleEvent)
  {
    e in {WholeProcess, PartProcess, OpenClamp, CloseClamp, HitBall, PushOut, PushIn,
          GetStatues, MoveToCatch, MoveToShoot, HandleoverBall}
  }

  /** The ball-sensor conditions a request's polling loops need to end, for
      a request taken at `now`. */
  ghost predicate WaitsEnd(s: Sensors, now: nat, e: DribbleEvent)
  {
    && (e == WholeProcess ==> Eventually(s.npn, false, now + WholeLead))
    && (e in {PartProcess, HandleoverBall} ==> Eventually(s.proximityOut, true, now))
  }

  /** The cylinders and the drawer request as a value. */
  datatype RigState = RigState(pushOut: bool, clampOpen: bool, topOn: bool, catchStatus: CatchStatus)

  /** The hand-over step's state between cycles: the speed target and the
      latched switch angle, 0 meaning "not latched". */
  datatype Catch = Catch(targetRpm: real, breakAngle: real)

  /** The decision of one catch-motor cycle, from the drawer request, whether
      the switch of that end is touched, the rotor angle, and the angle PID
      output the cycle would use. Returns the new state and whether the
      angle PID is called. */
  function CatchDecision(c: Catch, status: CatchStatus, touched: bool, rotor: real, hold: real): (Catch, bool)
  {
    if !touched then (Catch(if status == TowardCatch then CatchSpeed else -CatchSpeed, 0.0), false)
    else if c.breakAngle == 0.0 then (c.(breakAngle := rotor), false)
    else (c.(targetRpm := hold), true)
  }

  /** Seek, latch, hold: away from the switch the drawer runs at ±5000 and
      forgets any latch; on the first touched cycle it latches the rotor
      angle and keeps its speed target; on later touched cycles it follows
      the angle PID about the latched angle. */
  lemma CatchSeekLatchHold(status: CatchStatus, r0: real, r1: real, r2: real, hold1: real, hold2: real, c: Catch)
    requires r1 != 0.0
    ensures var (c1, pid1) := CatchDecision(c, status, false, r0, hold1);
            var (c2, pid2) := CatchDecision(c1, status, true, r1, hold1);
            var (c3, pid3) := CatchDecision(c2, status, true, r2, hold2);
            && c1 == Catch(if status == TowardCatch then 5000.0 else -5000.0, 0.0) && !pid1
            && c2 == Catch(c1.targetRpm, r1) && !pid2
            && c3 == Catch(hold2, r1) && pid3
  {
  }

  /** 0.0 doubles as "not latched": a switch met at rotor angle 0 is latched
      as 0, so every later touched cycle latches again and none holds; the
      speed target stays what it was. */
  lemma {:induction false} LatchAtZeroNeverHolds(c: Catch, status: CatchStatus, hold: real, n: nat)
    requires c.breakAngle == 0.0
    ensures CatchDecisions(c, status, hold, n) == (c, false)
  {
    if n > 0 {
      LatchAtZeroNeverHolds(c, status, hold, n - 1);
    }
  }

  /** `n` touched cycles at rotor angle 0, with the angle PID offering
      `hold` each time; the flag says whether any cycle used the PID. */
  function CatchDecisions(c: Catch, status: CatchStatus, hold: real, n: nat): (Catch, bool)
  {
    if n == 0 then (c, false)
    else
      var (c1, used) := CatchDecisions(c, status, hold, n - 1);
      var (c2, now) := CatchDecision(c1, status, true, 0.0, hold);
      (c2, used || now)
  }

  /** The one-slot status queue, which nothing in the firmware reads: the
      first status stays and later ones are lost. */
  function Offer1(q: Option<DribbleStatusMsg>, m: DribbleStatusMsg): Option<DribbleStatusMsg>
  {
    if q.None? then Some(m) else q
  }

  /** What the dribble task changes: the cylinders and drawer request, the
      status record and the status queue. */
  datatype BoardState = BoardState(rig: RigState, status: DribbleStatusMsg, statusQueue: Option<DribbleStatusMsg>)

  /** Running request `e` taken at `now` leads from `b` to `b2`, ends at `t`
      and asks `effects` of the shooter. For the whole process `m1` is when
      the ball left the clamp; for the hand-over requests `m1` is when the
      drawer met its extended switch and `m2` when the drop wait ended.
      - whole process: report success iff the ball sensor is touched when the
        sequence ends; the drawer cylinder stays out, the clamp closed;
      - part process and hand-over: the drawer ends requested in with cylinder
        in and clamp closed, and the part process then asks for the 16000
        preset;
      - the single cylinder requests switch their cylinders;
      - the status request reports the ball sensor at once;
      - the move requests set the drawer request, moving to shoot also asks
        for the 16000 preset. */
  predicate Runs(s: Sensors, now: nat, e: DribbleEvent, b: BoardState, b2: BoardState, t: nat, m1: nat, m2: nat, effects: seq<Effect>)
  {
    var keepsStatus := b2.status == b.status && b2.statusQueue == b.statusQueue;
    match e
    case WholeProcess =>
      && b2.rig == b.rig.(pushOut := true, clampOpen := false, topOn := false)
      && FirstAfter(s.npn, false, now + WholeLead, m1) && ReboundEnds(s, m1 + BounceDelay, t)
      && b2.status == DribbleStatusMsg(TickAt(t), if s.npn(t) then Successful else Unsuccessful)
      && b2.statusQueue == Offer1(b.statusQueue, b2.status) && effects == []
    case PartProcess =>
      && b2.rig == b.rig.(pushOut := false, clampOpen := false, catchStatus := TowardShoot) && keepsStatus
      && FirstAfter(s.proximityOut, true, now, m1)
      && DropEnds(s, m1 + ClampOpenDelay, m2) && t == m2 + ReleaseDelay
      && effects == [ToShoot(ShootEventMsg(TickAt(t), FribeltPre, HandoverSpeed))]
    case HandleoverBall =>
      && b2.rig == b.rig.(pushOut := false, clampOpen := false, catchStatus := TowardShoot) && keepsStatus
      && FirstAfter(s.proximityOut, true, now, m1)
      && DropEnds(s, m1 + ClampOpenDelay, m2) && t == m2 + ReleaseDelay && effects == []
    case OpenClamp =>
      b2.rig == b.rig.(pushOut := true, clampOpen := true) && keepsStatus && t == now + ClampOpenDelay && effects == []
    case CloseClamp => b2.rig == b.rig.(clampOpen := false) && keepsStatus && t == now && effects == []
    case HitBall => b2.rig == b.rig.(topOn := false) && keepsStatus && t == now + HitDelay && effects == []
    case PushOut => b2.rig == b.rig.(pushOut := true) && keepsStatus && t == now && effects == []
    case PushIn => b2.rig == b.rig.(pushOut := false, clampOpen := false) && keepsStatus && t == now && effects == []
    case GetStatues =>
      && b2.rig == b.rig && t == now && effects == []
      && b2.status == DribbleStatusMsg(TickAt(now), if s.npn(now) then HaveBall else ClampOpened)
      && b2.statusQueue == Offer1(b.statusQueue, b2.status)
    case MoveToCatch => b2.rig == b.rig.(catchStatus := TowardCatch) && keepsStatus && t == now && effects == []
    case MoveToShoot =>
      && b2.rig == b.rig.(catchStatus := TowardShoot) && keepsStatus && t == now
      && effects == [ToShoot(ShootEventMsg(TickAt(now), FribeltPre, HandoverSpeed))]
    case _ => b2 == b && t == now && effects == []
  }

  class Dribble {
    /** the statics `clamp_flag` and `push_flag` of key_dribble_ball */
    var clampFlag: bool
    var pushFlag: bool
    /** dribble_ctrl_queue (one slot) */
    var ctrlQueue: Option<DribbleCtrlMsg>
    /** dribble_status_queue (one slot) */
    var statusQueue: Option<DribbleStatusMsg>
    /** the static `dribble_status` record of the task */
    var status: DribbleStatusMsg
    /** the three cylinders */
    var pushOut: bool
    var clampOpen: bool
    var topOn: bool
    /** catch_status */
    var catchStatus: CatchStatus
    /** the statics `target_rpm` and `break_angle` of the catch-motor task */
    var targetRpm: real
    var breakAngle: real

    const anglePid: Pid
    const speedPid: Pid

    function Rig(): RigState
      reads this
    {
      RigState(pushOut, clampOpen, topOn, catchStatus)
    }

    function Board(): BoardState
      reads this
    {
      BoardState(Rig(), status, statusQueue)
    }

    function CatchState(): Catch
      reads this
    {
      Catch(targetRpm, breakAngle)
    }

    predicate Valid()
      reads this
    {
      anglePid != speedPid
    }

    /** dribble_init (drawer in, clamp closed, hammer up, drawer requested
        in) with the zero-initialised statics and the catch-motor PIDs. */
    constructor (angleLaw: PidLaw, speedLaw: PidLaw)
      ensures Valid() && fresh(anglePid) && fresh(speedPid)
      ensures anglePid.events == [] && anglePid.law == angleLaw
      ensures speedPid.events == [] && speedPid.law == speedLaw
      ensures Rig() == RigState(false, false, false, TowardShoot) && CatchState() == Catch(0.0, 0.0)
      ensures !clampFlag && !pushFlag && ctrlQueue.None? && statusQueue.None?
      ensures status == DribbleStatusMsg(0, Successful)
    {
      anglePid := new Pid(angleLaw);
      speedPid := new Pid(speedLaw);
      clampFlag, pushFlag := false, false;
      ctrlQueue, statusQueue := None, None;
      status := DribbleStatusMsg(0, Successful);
      pushOut, clampOpen, topOn := false, false, false;
      catchStatus := TowardShoot;
      targetRpm, breakAngle := 0.0, 0.0;
    }

    /** key_dribble_ball at time `now`: the request of the key replaces what
        the queue holds; the hand-over key also asks the shooter for a 16000
        preset first. */
    method KeyDribbleBall(key: U8, now: nat) returns (effects: seq<Effect>)
      modifies this`clampFlag, this`pushFlag, this`ctrlQueue
      ensures var (e, c, p) := KeyCommand(key, old(clampFlag), old(pushFlag));
              && ctrlQueue == Some(DribbleCtrlMsg(TickAt(now), e))
              && clampFlag == c && pushFlag == p
      ensures effects == if key == HandoverKey then [ToShoot(ShootEventMsg(TickAt(now), FribeltPre, HandoverSpeed))] else []
    {
      var event := DribbleNoTask;
      effects := [];
      if key == WholeProcessKey {
        event := WholeProcess;
      } else if key == PartProcessKey {
        event := PartProcess;
      } else if key == ClampKey {
        if clampFlag {
          event := CloseClamp;
          clampFlag := false;
        } else {
          event := OpenClamp;
          clampFlag := true;
        }
      } else if key == PushKey {
        if pushFlag {
          event := PushIn;
          pushFlag := false;
        } else {
          event := PushOut;
          pushFlag := true;
        }
      } else if key == PushInKey {
        event := MoveToShoot;
      } else if key == PushOutKey {
        event := MoveToCatch;
      } else if key == HandoverKey {
        event := HandleoverBall;
        effects := [ToShoot(ShootEventMsg(TickAt(now), FribeltPre, HandoverSpeed))];
      }
      ctrlQueue := Some(DribbleCtrlMsg(TickAt(now), event));
    }

    /** clamp_open: drawer cylinder out, 500 ms, clamp open. */
    method ClampOpen(now: nat) returns (t: nat)
      modifies this`pushOut, this`clampOpen
      ensures pushOut && clampOpen && t == now + ClampOpenDelay
    {
      pushOut := true;
      t := now + ClampOpenDelay;
      clampOpen := true;
    }

    /** hit_ball: hammer down for 100 ms, then up. */
    method Hammer(now: nat) returns (t: nat)
      modifies this`topOn
      ensures !topOn && t == now + HitDelay
    {
      topOn := true;
      t := now + HitDelay;
      topOn := false;
    }

    /** push_in: drawer cylinder in, which also closes the clamp. */
    method PushInCylinders()
      modifies this`pushOut, this`clampOpen
      ensures !pushOut && !clampOpen
    {
      pushOut := false;
      clampOpen := false;
    }

    /** whole_process from `now`: open the clamp, hit the ball, wait (without
        bound) for it to leave the clamp, wait 30 ms, wait at most 3001 ms for
        it to bounce back onto a sensor, close the clamp. `left` is when the
        ball left, `t` when the sequence ends. */
    method WholeProcessRun(s: Sensors, now: nat) returns (left: nat, t: nat)
      requires Eventually(s.npn, false, now + WholeLead)
      modifies this`pushOut, this`clampOpen, this`topOn
      ensures pushOut && !clampOpen && !topOn
      ensures FirstAfter(s.npn, false, now + WholeLead, left)
      ensures ReboundEnds(s, left + BounceDelay, t)
    {
      t := ClampOpen(now);
      t := t + SettleDelay;
      t := Hammer(t);
      left := PollUntil(s.npn, false, t);
      t := AwaitRebound(s, left + BounceDelay);
      clampOpen := false;
    }

    /** catch_to_shoot from `now`: send the drawer out and wait (without
        bound) for its extended switch, open the clamp, wait at most 2001 ms
        for the ball to drop, wait 500 ms, close the clamp, pull the drawer
        cylinder in and send the drawer back. `reached` is when the switch
        was met, `dropped` when the drop wait ended. */
    method CatchToShoot(s: Sensors, now: nat) returns (reached: nat, dropped: nat, t: nat)
      requires Eventually(s.proximityOut, true, now)
      modifies this`pushOut, this`clampOpen, this`catchStatus
      ensures Rig() == old(Rig()).(pushOut := false, clampOpen := false, catchStatus := TowardShoot)
      ensures FirstAfter(s.proximityOut, true, now, reached)
      ensures DropEnds(s, reached + ClampOpenDelay, dropped)
      ensures t == dropped + ReleaseDelay
    {
      catchStatus := TowardCatch;
      reached := PollUntil(s.proximityOut, true, now);
      t := ClampOpen(reached);
      dropped := AwaitDrop(s, t);
      t := dropped + ReleaseDelay;
      clampOpen := false;
      PushInCylinders();
      catchStatus := TowardShoot;
    }

    /** The switch of dribble_ctrl_task on one fresh request taken at `now`. */
    method Handle(s: Sensors, now: nat, e: DribbleEvent) returns (t: nat, m1: nat, m2: nat, effects: seq<Effect>)
      requires Handled(e) && WaitsEnd(s, now, e)
      modifies this`pushOut, this`clampOpen, this`topOn, this`catchStatus, this`status, this`statusQueue
      ensures Runs(s, now, e, old(Board()), Board(), t, m1, m2, effects)
    {
      t, m1, m2, effects := now, now, now, [];
      match e {
        case WholeProcess =>
          m1, t := WholeProcessRun(s, now);
          status := DribbleStatusMsg(TickAt(t), if s.npn(t) then Successful else Unsuccessful);
          statusQueue := Offer1(statusQueue, status);
        case PartProcess =>
          m1, m2, t := CatchToShoot(s, now);
          effects := [ToShoot(ShootEventMsg(TickAt(t), FribeltPre, HandoverSpeed))];
        case OpenClamp =>
          t := ClampOpen(now);
        case CloseClamp =>
          clampOpen := false;
        case HitBall =>
          t := Hammer(now);
        case PushOut =>
          pushOut := true;
        case PushIn =>
          PushInCylinders();
        case GetStatues =>
          status := DribbleStatusMsg(TickAt(now), if s.npn(now) then HaveBall else ClampOpened);
          statusQueue := Offer1(statusQueue, status);
        case MoveToCatch =>
          catchStatus := TowardCatch;
        case MoveToShoot =>
          catchStatus := TowardShoot;
          effects := [ToShoot(ShootEventMsg(TickAt(now), FribeltPre, HandoverSpeed))];
        case HandleoverBall =>
          m1, m2, t := CatchToShoot(s, now);
      }
    }

    /** One pass of dribble_ctrl_task at `now`: take the request in the slot
        (none: nothing happens); drop it when older than 2000 ms or not one
        the task handles; otherwise run it. */
    method TaskStep(s: Sensors, now: nat) returns (handled: bool, t: nat, m1: nat, m2: nat, effects: seq<Effect>)
      requires ctrlQueue.Some? && Elapsed(TickAt(now), ctrlQueue.value.stamp) <= StaleAfter ==>
                 WaitsEnd(s, now, ctrlQueue.value.event)
      modifies this`ctrlQueue, this`pushOut, this`clampOpen, this`topOn, this`catchStatus, this`status, this`statusQueue
      ensures ctrlQueue.None?
      ensures handled <==> && old(ctrlQueue).Some?
                           && Elapsed(TickAt(now), old(ctrlQueue).value.stamp) <= StaleAfter
                           && Handled(old(ctrlQueue).value.event)
      ensures handled ==> Runs(s, now, old(ctrlQueue).value.event, old(Board()), Board(), t, m1, m2, effects)
      ensures !handled ==> Board() == old(Board()) && t == now && effects == []
    {
      handled, t, m1, m2, effects := false, now, now, now, [];
      if ctrlQueue.None? {
        return;
      }
      var msg := ctrlQueue.value;
      ctrlQueue := None;
      if Elapsed(TickAt(now), msg.stamp) > StaleAfter || !Handled(msg.event) {
        return;
      }
      t, m1, m2, effects := Handle(s, now, msg.event);
      handled := true;
    }

    /** One cycle of catch_motor_ctrl_task: the drawer decision for the
        switch of the requested end, then the speed PID on the speed target
        and the measured speed; `current` is the motor command. */
    method CatchMotorStep(rotor: real, rpm: real, outTouched: bool, inTouched: bool) returns (current: real)
      requires Valid()
      modifies this`targetRpm, this`breakAngle, anglePid, speedPid
      ensures var touched := if catchStatus == TowardCatch then outTouched else inTouched;
              var (c, used) := CatchDecision(old(CatchState()), catchStatus, touched, rotor,
                                             anglePid.law.output(old(anglePid.State()), old(breakAngle), rotor));
              && CatchState() == c
              && anglePid.State() == (if used then Fed(old(anglePid.State()), old(breakAngle), rotor) else old(anglePid.State()))
      ensures (current, speedPid.State()) == Step(speedPid.law, old(speedPid.State()), targetRpm, rpm)
    {
      var touched := if catchStatus == TowardCatch then outTouched else inTouched;
      if !touched {
        targetRpm := if catchStatus == TowardCatch then CatchSpeed else -CatchSpeed;
        breakAngle := 0.0;
      } else if breakAngle == 0.0 {
        breakAngle := rotor;
      } else {
        targetRpm := anglePid.Calc(breakAngle, rotor);
      }
      current := speedPid.Calc(targetRpm, rpm);
    }
  }
}
