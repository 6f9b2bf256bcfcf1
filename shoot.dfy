/** The shooter (User/Application/Src/shoot.c): the two fitted speed curves,
    the key callbacks that queue shooter events, and the shooter task, which
    applies one event to the shared `shoot_sub` record (flywheel speed and
    push flag), republishes that record to the slave board, answers with a
    status message and asks for a report.

    A flag of 0 means disabled, 2 enabled and ready, 1 pushing the ball up. */
module Shoot {
  import opened Base
  import opened Includes
  import opened SubPub

  /** Key numbers of shoot.c (SPEED_ZERO_KEY is 0xFF). */
  const SpeedAddKey: nat := 5
  const SpeedDecKey: nat := 11
  const SpeedPreKey: nat := 38
  const EnableKey: nat := 6
  const DisableKey: nat := 12
  const SanctionKey: nat := 0
  const SmallSpeedKey: nat := 35
  const SpeedZeroKey: nat := 0xFF

  /** SHOOT_DIVIDE_SPEED: the step of the add and decrease events. */
  const SpeedStep: real := 100.0
  /** SANCTION_SPD and the low-speed preset of the small-speed key. */
  const SanctionSpeed: real := 30000.0
  const SmallSpeed: real := 3500.0
  /** The speed the calculate event holds before its fitted target. */
  const CalculateHold: real := 13000.0

  /** Both shooter queues are created with five slots. */
  const QueueLength: nat := 5

  /** An event older than this (ms) is dropped by the task. */
  const StaleAfter: nat := 1000

  /** The radius (mm) of the three-point line where the fits change. */
  const ThreePointRadius: real := 3125.0

  /** A quadratic fit a·r² + b·r + c. */
  datatype Fit = Fit(a: real, b: real, c: real)

  function Eval(f: Fit, r: real): real
  {
    f.a * r * r + f.b * r + f.c
  }

  /** FIT_A2, FIT_B2, FIT_C2: inside the three-point line. */
  const InnerFit: Fit := Fit(0.00099838, -3.6070, 16728.0)

  /** FIT_A, FIT_B, FIT_C: outside it. */
  const OuterFit: Fit := Fit(-0.000091348, 2.7080, 7240.0)

  /** get_friction_speed: the fitted flywheel speed for a basket distance. */
  function FrictionSpeed(radius: real): real
  {
    if radius < ThreePointRadius then Eval(InnerFit, radius) else Eval(OuterFit, radius)
  }

  /** The line itself takes the outer fit, and the two fits do not meet
      there: crossing the line outwards lowers the speed by more than 390. */
  lemma FitSwitchesAtThreePointLine()
    ensures FrictionSpeed(ThreePointRadius) == Eval(OuterFit, ThreePointRadius)
    ensures forall r :: r < ThreePointRadius ==> FrictionSpeed(r) == Eval(InnerFit, r)
    ensures Eval(InnerFit, ThreePointRadius) - FrictionSpeed(ThreePointRadius) > 390.0
  {
  }

  /** How a fit changes between two distances: (r2 - r1)·(a·(r1 + r2) + b). */
  lemma {:induction false} FitDifference(f: Fit, r1: real, r2: real)
    ensures Eval(f, r2) - Eval(f, r1) == (r2 - r1) * (f.a * (r1 + r2) + f.b)
  {
    calc {
      Eval(f, r2) - Eval(f, r1);
      f.a * (r2 * r2 - r1 * r1) + f.b * (r2 - r1);
      { assert r2 * r2 - r1 * r1 == (r2 - r1) * (r1 + r2); }
      f.a * ((r2 - r1) * (r1 + r2)) + f.b * (r2 - r1);
      (r2 - r1) * (f.a * (r1 + r2) + f.b);
    }
  }

  /** Each fit asks for more speed further out over the ring distances it
      serves: the inner one from 1810 mm to the line, the outer one from the
      line to 14000 mm. */
  lemma {:induction false} FrictionSpeedGrows(r1: real, r2: real)
    requires (1810.0 <= r1 <= r2 < ThreePointRadius) || (ThreePointRadius <= r1 <= r2 <= 14000.0)
    ensures FrictionSpeed(r1) <= FrictionSpeed(r2)
  {
    if r2 < ThreePointRadius {
      FitDifference(InnerFit, r1, r2);
      assert InnerFit.a * (r1 + r2) + InnerFit.b >= 0.0;
      MulNonNegative(r2 - r1, InnerFit.a * (r1 + r2) + InnerFit.b);
    } else {
      FitDifference(OuterFit, r1, r2);
      assert OuterFit.a * (r1 + r2) + OuterFit.b >= 0.0;
      MulNonNegative(r2 - r1, OuterFit.a * (r1 + r2) + OuterFit.b);
    }
  }

  lemma MulNonNegative(x: real, y: real)
    requires x >= 0.0 && y >= 0.0
    ensures x * y >= 0.0
  {
  }

  /** fribelt_speed_cal: the linear fit the calculate event aims at. */
  function FribeltSpeedCal(radius: real): real
  {
    1.8877 * (radius - 100.0) + 10406.43
  }

  /** The linear fit is strictly increasing with a slope of 1.8877 per mm
      and passes through 10406.43 at 100 mm. */
  lemma FribeltSpeedCalSlope(r1: real, r2: real)
    ensures FribeltSpeedCal(r2) - FribeltSpeedCal(r1) == 1.8877 * (r2 - r1)
    ensures r1 < r2 ==> FribeltSpeedCal(r1) < FribeltSpeedCal(r2)
    ensures FribeltSpeedCal(100.0) == 10406.43
  {
  }

  /** One value the task hands to the slave-board record, in call order:
      sub_friction_data or sub_friction_flag. */
  datatype Output = SpeedOut(speed: real) | FlagOut(flag: U8)

  /** The flags the firmware uses. */
  predicate FlagValid(f: U8)
  {
    f == 0 || f == 1 || f == 2
  }

  /** shoot_sub together with the status record the task keeps between events. */
  datatype Shot = Shot(speed: real, flag: U8, status: ShootStatusMsg)

  /** The speeds the preset ramp writes for target `s` in its first `n`
      steps: step k writes k·s/10. */
  function PreRamp(s: real, n: nat): seq<Output>
  {
    if n == 0 then [] else PreRamp(s, n - 1) + [SpeedOut((n as real) * s / 10.0)]
  }

  /** The ramp writes exactly `n` speeds, the k-th (from 0) being (k+1)·s/10,
      so ten steps end on the target itself. */
  lemma {:induction false} PreRampValues(s: real, n: nat)
    ensures |PreRamp(s, n)| == n
    ensures forall k :: 0 <= k < n ==> PreRamp(s, n)[k] == SpeedOut(((k + 1) as real) * s / 10.0)
    ensures n == 10 ==> PreRamp(s, n)[9] == SpeedOut(s)
  {
    if n > 0 {
      PreRampValues(s, n - 1);
      assert PreRamp(s, n)[n - 1] == SpeedOut((n as real) * s / 10.0);
    }
  }

  /** For a non-negative target the preset ramp never goes down. */
  lemma PreRampClimbs(s: real, n: nat, j: nat, k: nat)
    requires s >= 0.0 && j <= k < n
    ensures |PreRamp(s, n)| == n && PreRamp(s, n)[j].SpeedOut? && PreRamp(s, n)[k].SpeedOut?
    ensures PreRamp(s, n)[j].speed <= PreRamp(s, n)[k].speed
  {
    PreRampValues(s, n);
    var a, b := (j + 1) as real, (k + 1) as real;
    assert b * s - a * s == (b - a) * s;
    MulNonNegative(b - a, s);
  }

  /** The speeds the calculate ramp writes in its first `n` steps: 1000·i
      for i = 1..n. */
  function CalculateRamp(n: nat): seq<Output>
  {
    if n == 0 then [] else CalculateRamp(n - 1) + [SpeedOut(1000.0 * (n as real))]
  }

  /** The calculate ramp writes 1000, 2000, …, so it climbs strictly and its
      tenth step is 10000, below the 13000 the event holds next. */
  lemma {:induction false} CalculateRampValues(n: nat)
    ensures |CalculateRamp(n)| == n
    ensures forall k :: 0 <= k < n ==> CalculateRamp(n)[k] == SpeedOut(1000.0 * ((k + 1) as real))
    ensures forall j, k :: 0 <= j < k < n ==> CalculateRamp(n)[j].speed < CalculateRamp(n)[k].speed
    ensures n == 10 ==> CalculateRamp(n)[9].speed == 10000.0 < CalculateHold
  {
    if n > 0 {
      CalculateRampValues(n - 1);
      assert CalculateRamp(n)[n - 1] == SpeedOut(1000.0 * (n as real));
    }
  }

  /** The case analysis of shoot_machine_task for one fresh event: the new
      record and the values it hands to the slave board inside the case.
      `radius` is g_basket_radius when the calculate event reads it. */
  function Apply(s: Shot, e: ShootEventMsg, radius: real): (Shot, seq<Output>)
  {
    match e.event
    case Disable => (s.(speed := 0.0, flag := 0, status := s.status.(able := Disabled)), [])
    case Enable => (s.(flag := 2, status := s.status.(able := Enabled)), [])
    case Push => (s.(flag := 1, status := s.status.(push := PushDone)), [])
    case Ready => (s.(flag := 2, status := s.status.(push := PassDone)), [])
    case FribeltPre =>
      (s.(flag := 2, speed := e.speed, status := s.status.(fribelt := FribeltDone)),
       [FlagOut(2)] + PreRamp(e.speed, 10))
    case FribeltZero => (s.(speed := 0.0, status := s.status.(fribelt := FribeltZeroed)), [])
    case FribeltDirect => (s.(speed := e.speed), [SpeedOut(e.speed)])
    case FribeltAdd => (s.(speed := s.speed + SpeedStep, status := s.status.(fribelt := FribeltDone)), [])
    case FribeltDec => (s.(speed := s.speed - SpeedStep, status := s.status.(fribelt := FribeltDone)), [])
    case Calculate =>
      (s.(flag := 1, speed := FribeltSpeedCal(radius)),
       [FlagOut(2)] + CalculateRamp(10) + [SpeedOut(CalculateHold), SpeedOut(FribeltSpeedCal(radius))])
    case LoadBall => (s, [])
    case NoShootEvent => (s, [])
  }

  /** A fresh event in full: its case, then the record published again. */
  function Accept(s: Shot, e: ShootEventMsg, radius: real): (Shot, seq<Output>)
  {
    var (t, outs) := Apply(s, e, radius);
    (t, outs + [SpeedOut(t.speed), FlagOut(t.flag)])
  }

  /** The task's flag stays one of 0, 1, 2, and after every event the
      slave board is left holding exactly the new record. */
  lemma AcceptKeepsFlag(s: Shot, e: ShootEventMsg, radius: real)
    requires FlagValid(s.flag)
    ensures var (t, outs) := Accept(s, e, radius);
            && FlagValid(t.flag)
            && |outs| >= 2 && outs[|outs| - 2] == SpeedOut(t.speed) && outs[|outs| - 1] == FlagOut(t.flag)
  {
  }

  /** What each event does to the flag and the speed. */
  lemma AcceptEffects(s: Shot, e: ShootEventMsg, radius: real)
    ensures var t := Accept(s, e, radius).0;
            && (e.event == Disable ==> t.flag == 0 && t.speed == 0.0)
            && (e.event in {Enable, Ready, FribeltPre} ==> t.flag == 2)
            && (e.event == Push ==> t.flag == 1)
            && (e.event == Calculate ==> t.flag == 1 && t.speed == FribeltSpeedCal(radius))
            && (e.event == FribeltZero ==> t.speed == 0.0)
            && (e.event in {FribeltDirect, FribeltPre} ==> t.speed == e.speed)
            && (e.event in {Enable, Ready, Push} ==> t.speed == s.speed)
            && (e.event in {FribeltZero, FribeltDirect, FribeltAdd, FribeltDec} ==> t.flag == s.flag)
            && (e.event in {LoadBall, NoShootEvent} ==> t == s)
  {
  }

  /** The preset event hands the slave board the flag 2 and then the ten
      ramp speeds k·s/10, ending on s; the calculate event hands it 1000 to
      10000, then 13000, then the linear fit, and leaves the ball pushed. */
  lemma RampsOfAccept(s: Shot, e: ShootEventMsg, radius: real)
    ensures e.event == FribeltPre ==>
              var outs := Accept(s, e, radius).1;
              && |outs| == 13 && outs[0] == FlagOut(2)
              && (forall k :: 1 <= k <= 10 ==> outs[k] == SpeedOut((k as real) * e.speed / 10.0))
              && outs[10] == SpeedOut(e.speed)
    ensures e.event == Calculate ==>
              var outs := Accept(s, e, radius).1;
              && |outs| == 15 && outs[0] == FlagOut(2)
              && (forall k :: 1 <= k <= 10 ==> outs[k] == SpeedOut(1000.0 * (k as real)))
              && outs[11] == SpeedOut(CalculateHold) && outs[12] == SpeedOut(FribeltSpeedCal(radius))
              && outs[14] == FlagOut(1)
  {
    PreRampValues(e.speed, 10);
    CalculateRampValues(10);
  }

  /** Add and decrease move the speed by exactly 100 with no bound, so they
      undo each other and enough decreases make the speed negative. */
  lemma AddDecreaseUndo(s: Shot, add: ShootEventMsg, dec: ShootEventMsg, radius: real)
    requires add.event == FribeltAdd && dec.event == FribeltDec
    ensures Accept(s, add, radius).0.speed == s.speed + SpeedStep
    ensures Accept(s, dec, radius).0.speed == s.speed - SpeedStep
    ensures Accept(Accept(s, add, radius).0, dec, radius).0 == s.(status := s.status.(fribelt := FribeltDone))
    ensures Accept(Accept(s, dec, radius).0, add, radius).0 == s.(status := s.status.(fribelt := FribeltDone))
  {
  }

  /** A bounded queue that drops what does not fit. */
  function Offer<T>(q: seq<T>, x: T): (r: seq<T>)
    ensures |q| < QueueLength ==> r == q + [x]
    ensures |q| >= QueueLength ==> r == q
  {
    if |q| < QueueLength then q + [x] else q
  }

  /** Whether the task drops an event received at `now`. */
  predicate Stale(now: Tick, e: ShootEventMsg)
  {
    Elapsed(now, e.stamp) > StaleAfter
  }

  /** The request fribelt_speed_ctrl queues for a key: an event and a speed
      (zero for the events that carry none; no event for other keys). */
  function FribeltRequest(key: U8, basketRadius: real): (r: (ShootEvent, real))
    ensures key == SpeedPreKey ==> r == (FribeltDirect, FrictionSpeed(basketRadius))
    ensures key == SpeedZeroKey ==> r == (FribeltZero, 0.0)
    ensures key == SpeedAddKey ==> r == (FribeltAdd, 0.0)
    ensures key == SpeedDecKey ==> r == (FribeltDec, 0.0)
    ensures key == SanctionKey ==> r == (FribeltPre, SanctionSpeed)
    ensures key == SmallSpeedKey ==> r == (FribeltPre, SmallSpeed)
    ensures key !in {SpeedPreKey, SpeedZeroKey, SpeedAddKey, SpeedDecKey, SanctionKey, SmallSpeedKey} ==>
              r == (NoShootEvent, 0.0)
  {
    if key == SpeedPreKey then (FribeltDirect, FrictionSpeed(basketRadius))
    else if key == SpeedZeroKey then (FribeltZero, 0.0)
    else if key == SpeedAddKey then (FribeltAdd, 0.0)
    else if key == SpeedDecKey then (FribeltDec, 0.0)
    else if key == SanctionKey then (FribeltPre, SanctionSpeed)
    else if key == SmallSpeedKey then (FribeltPre, SmallSpeed)
    else (NoShootEvent, 0.0)
  }

  /** The sanction and small-speed keys ramp the flywheel to their preset
      and enable the shooter; the preset key sets the fitted speed at once
      and leaves the flag alone. */
  lemma FribeltKeysOnTask(s: Shot, key: U8, stamp: Tick, basketRadius: real, radius: real)
    ensures var (e, v) := FribeltRequest(key, basketRadius);
            var t := Accept(s, ShootEventMsg(stamp, e, v), radius).0;
            && (key == SanctionKey ==> t.speed == SanctionSpeed && t.flag == 2)
            && (key == SmallSpeedKey ==> t.speed == SmallSpeed && t.flag == 2)
            && (key == SpeedPreKey ==> t.speed == FrictionSpeed(basketRadius) && t.flag == s.flag)
  {
  }

  /** The enable key's step of the flag: 0 and 1 go to 2, 2 goes to 1. */
  function EnableCycle(f: U8): U8
  {
    if f == 0 then 2 else if f == 1 then 2 else if f == 2 then 1 else f
  }

  /** The enable key never disables: it keeps the flag valid, lands on 1 or
      2, and two presses from an enabled shooter come back to where they
      started. */
  lemma EnableCycleToggles(f: U8)
    requires FlagValid(f)
    ensures EnableCycle(f) == 1 || EnableCycle(f) == 2
    ensures f != 0 ==> EnableCycle(EnableCycle(f)) == f
    ensures f == 0 ==> EnableCycle(f) == 2 && EnableCycle(EnableCycle(f)) == 1
  {
  }

  class Shooter {
    /** shoot_sub.shoot_speed */
    var speed: real
    /** shoot_sub.flag */
    var flag: U8
    /** the task's status record `msg`, stamped once when the task starts */
    var status: ShootStatusMsg
    /** shoot_machine_event_queue, oldest first */
    var events: seq<ShootEventMsg>
    /** shoot_machine_status_queue, which nothing in the firmware reads */
    var statusQueue: seq<ShootStatusMsg>

    const sink: PubToSlave

    function State(): Shot
      reads this
    {
      Shot(speed, flag, status)
    }

    predicate Valid()
      reads this
    {
      FlagValid(flag) && |events| <= QueueLength && |statusQueue| <= QueueLength
    }

    /** shoot_sub = {0}, empty queues, and the task's record stamped at
        `start`. */
    constructor (sink: PubToSlave, start: Tick)
      ensures Valid() && this.sink == sink
      ensures State() == Shot(0.0, 0, ShootStatusMsg(start, NoShootStatus, NoShootStatus, NoShootStatus))
      ensures events == [] && statusQueue == []
    {
      this.sink := sink;
      speed, flag := 0.0, 0;
      status := ShootStatusMsg(start, NoShootStatus, NoShootStatus, NoShootStatus);
      events, statusQueue := [], [];
    }

    /** xQueueSend on the event queue; a message that finds the queue full
        is lost. */
    method Send(msg: ShootEventMsg)
      requires Valid()
      modifies this`events
      ensures Valid() && events == Offer(old(events), msg)
    {
      if |events| < QueueLength {
        events := events + [msg];
      }
    }

    /** shoot_machine_set_ctrl. */
    method SetCtrl(now: Tick, speed: real, event: ShootEvent)
      requires Valid()
      modifies this`events
      ensures Valid() && events == Offer(old(events), ShootEventMsg(now, event, speed))
    {
      Send(ShootEventMsg(now, event, speed));
    }

    /** fribelt_speed_ctrl: queue the request of the key, stamped `now`. */
    method FribeltSpeedCtrl(key: U8, now: Tick, basketRadius: real)
      requires Valid()
      modifies this`events
      ensures Valid()
      ensures var (e, v) := FribeltRequest(key, basketRadius);
              events == Offer(old(events), ShootEventMsg(now, e, v))
    {
      var r := FribeltRequest(key, basketRadius);
      Send(ShootEventMsg(now, r.0, r.1));
    }

    /** push_ball_ctrl. The enable key steps the flag with EnableCycle and
        publishes it; the disable key zeroes flag and speed and publishes
        both. Either way an event is queued: DISABLE for the disable key, the
        zero event otherwise. */
    method PushBallCtrl(key: U8, now: Tick) returns (outs: seq<Output>)
      requires Valid()
      modifies this`flag, this`speed, this`events, sink
      ensures Valid() && status == old(status) && statusQueue == old(statusQueue)
      ensures key == EnableKey ==>
                && flag == EnableCycle(old(flag)) && speed == old(speed)
                && outs == [FlagOut(flag)]
                && events == Offer(old(events), ShootEventMsg(now, NoShootEvent, 0.0))
      ensures key == DisableKey ==>
                && flag == 0 && speed == 0.0
                && outs == [SpeedOut(0.0), FlagOut(0)]
                && events == Offer(old(events), ShootEventMsg(now, Disable, 0.0))
      ensures key != EnableKey && key != DisableKey ==>
                && State() == old(State()) && outs == []
                && events == Offer(old(events), ShootEventMsg(now, NoShootEvent, 0.0))
      ensures sink.Snapshot() == old(sink.Snapshot()).(frictionSpeed := sink.frictionSpeed, shootFlag := sink.shootFlag)
      ensures outs != [] ==> sink.shootFlag == flag
      ensures key == DisableKey ==> sink.frictionSpeed == 0.0
      ensures key != DisableKey ==> sink.frictionSpeed == old(sink.frictionSpeed)
      ensures outs == [] ==> sink.shootFlag == old(sink.shootFlag)
    {
      outs := [];
      var event := NoShootEvent;
      if key == EnableKey {
        flag := EnableCycle(flag);
        sink.FrictionFlag(flag);
        outs := [FlagOut(flag)];
      } else if key == DisableKey {
        event := Disable;
        flag, speed := 0, 0.0;
        sink.FrictionData(speed);
        sink.FrictionFlag(flag);
        outs := [SpeedOut(0.0), FlagOut(0)];
      }
      Send(ShootEventMsg(now, event, 0.0));
    }

    /** The ramp loop of FRIBELT_PRE: ten writes of k·target/10. */
    method RampPre(target: real) returns (outs: seq<Output>)
      modifies this`speed, sink
      ensures outs == PreRamp(target, 10) && speed == target
      ensures sink.Snapshot() == old(sink.Snapshot()).(frictionSpeed := target)
    {
      outs := [];
      var i := 0;
      while i < 10
        invariant 0 <= i <= 10
        invariant outs == PreRamp(target, i)
        invariant i > 0 ==> speed == (i as real) * target / 10.0 && sink.frictionSpeed == speed
        invariant sink.Snapshot() == old(sink.Snapshot()).(frictionSpeed := sink.frictionSpeed)
      {
        var k := i + 1;
        speed := (k as real) * target / 10.0;
        sink.FrictionData(speed);
        outs := outs + [SpeedOut(speed)];
        i := k;
      }
      assert (10 as real) * target / 10.0 == target;
    }

    /** The ramp loop of CALCULATE: writes of 1000·i for i = 1..10. */
    method RampCalculate() returns (outs: seq<Output>)
      modifies this`speed, sink
      ensures outs == CalculateRamp(10) && speed == 10000.0
      ensures sink.Snapshot() == old(sink.Snapshot()).(frictionSpeed := 10000.0)
    {
      outs := [];
      var i := 1;
      while i < 11
        invariant 1 <= i <= 11
        invariant outs == CalculateRamp(i - 1)
        invariant i > 1 ==> speed == 1000.0 * ((i - 1) as real) && sink.frictionSpeed == speed
        invariant sink.Snapshot() == old(sink.Snapshot()).(frictionSpeed := sink.frictionSpeed)
      {
        speed := 1000.0 * (i as real);
        sink.FrictionData(speed);
        outs := outs + [SpeedOut(speed)];
        i := i + 1;
      }
    }

    /** The switch of shoot_machine_task on one fresh event. */
    method ApplyEvent(e: ShootEventMsg, radius: real) returns (outs: seq<Output>)
      modifies this`speed, this`flag, this`status, sink
      ensures (State(), outs) == Apply(old(State()), e, radius)
      ensures sink.speedX == old(sink.speedX) && sink.speedY == old(sink.speedY)
      ensures sink.speedW == old(sink.speedW) && sink.halt == old(sink.halt)
    {
      outs := [];
      match e.event {
        case Disable =>
          flag, speed := 0, 0.0;
          status := status.(able := Disabled);
        case Enable =>
          flag := 2;
          status := status.(able := Enabled);
        case Push =>
          flag := 1;
          status := status.(push := PushDone);
        case Ready =>
          flag := 2;
          status := status.(push := PassDone);
        case FribeltPre =>
          flag := 2;
          sink.FrictionFlag(flag);
          var ramp := RampPre(e.speed);
          outs := [FlagOut(2)] + ramp;
          status := status.(fribelt := FribeltDone);
        case FribeltZero =>
          speed := 0.0;
          status := status.(fribelt := FribeltZeroed);
        case FribeltDirect =>
          speed := e.speed;
          sink.FrictionData(speed);
          outs := [SpeedOut(speed)];
        case FribeltAdd =>
          speed := speed + SpeedStep;
          status := status.(fribelt := FribeltDone);
        case FribeltDec =>
          speed := speed - SpeedStep;
          status := status.(fribelt := FribeltDone);
        case Calculate =>
          flag := 2;
          sink.FrictionFlag(flag);
          var ramp := RampCalculate();
          speed := CalculateHold;
          sink.FrictionData(speed);
          speed := FribeltSpeedCal(radius);
          sink.FrictionData(speed);
          outs := [FlagOut(2)] + ramp + [SpeedOut(CalculateHold), SpeedOut(speed)];
          flag := 1;
        case LoadBall =>
        case NoShootEvent =>
      }
    }

    /** One pass of shoot_machine_task at tick `now`: take the oldest event
        (the task blocks while there is none); drop it when it is older than
        1000 ms; otherwise apply it, publish speed and flag, queue the status
        record and ask for a shooter report. */
    method TaskStep(now: Tick, radius: real) returns (handled: bool, outs: seq<Output>, effects: seq<Effect>)
      requires Valid()
      modifies this`speed, this`flag, this`status, this`events, this`statusQueue, sink
      ensures Valid()
      ensures events == if old(events) == [] then [] else old(events)[1..]
      ensures handled <==> old(events) != [] && !Stale(now, old(events)[0])
      ensures !handled ==>
                && State() == old(State()) && statusQueue == old(statusQueue)
                && outs == [] && effects == [] && sink.Snapshot() == old(sink.Snapshot())
      ensures handled ==>
                && (State(), outs) == Accept(old(State()), old(events)[0], radius)
                && statusQueue == Offer(old(statusQueue), status)
                && effects == [ToReport(ReportShoot)]
                && sink.Snapshot() == old(sink.Snapshot()).(frictionSpeed := speed, shootFlag := flag)
    {
      handled, outs, effects := false, [], [];
      if events == [] {
        return;
      }
      var e := events[0];
      events := events[1..];
      if Elapsed(now, e.stamp) > StaleAfter {
        return;
      }
      ghost var before := State();
      assert FlagValid(Accept(before, e, radius).0.flag) by {
        AcceptKeepsFlag(before, e, radius);
      }
      outs := ApplyEvent(e, radius);
      sink.FrictionData(speed);
      sink.FrictionFlag(flag);
      outs := outs + [SpeedOut(speed), FlagOut(flag)];
      statusQueue := Offer(statusQueue, status);
      effects := [ToReport(ReportShoot)];
      handled := true;
    }
  }
}
