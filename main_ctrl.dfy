/** The orchestrator (User/Application/Src/main_ctrl.c): key presses are
    turned into requests on a one-slot queue; its task picks the shooting
    ring nearest to the basket radius, lets the stick move the choice one ring
    in or out, has the chassis generate the ring point, and tells the chassis
    and the shooter what to do next. */
module MainCtrl {
  import opened Base
  import opened MyMath
  import opened Includes
  import opened Chassis
  import opened Pid
  import opened GoPath

  /** main_ctrl_queue_t. */
  datatype MainMsg = Radium | LeftBall | RightBall | SmallLoop | BigLoop

  /** What the queue slot holds: a request, or a value outside the enum,
      which the task's switch ignores. */
  datatype MainRequest = Known(msg: MainMsg) | Indeterminate(raw: int)

  /** The numeric value of a main_ctrl_queue_t enumerator (declared in
      order from 0). */
  function MainCode(m: MainMsg): nat
  {
    match m
    case Radium => 0
    case LeftBall => 1
    case RightBall => 2
    case SmallLoop => 3
    case BigLoop => 4
  }

  /** The request a raw slot value stands for: the enumerator with that
      value, or, outside 0..4, a value the switch ignores. */
  function FromRaw(raw: int): (r: MainRequest)
    ensures r.Known? <==> 0 <= raw <= 4
    ensures r.Known? ==> MainCode(r.msg) == raw
    ensures r.Indeterminate? ==> r.raw == raw
  {
    if raw == 0 then Known(Radium)
    else if raw == 1 then Known(LeftBall)
    else if raw == 2 then Known(RightBall)
    else if raw == 3 then Known(SmallLoop)
    else if raw == 4 then Known(BigLoop)
    else Indeterminate(raw)
  }

  /** Key numbers of main_ctrl.c. */
  const MinRadiumKey: nat := 4
  const RightPointKey: nat := 18
  const LeftPointKey: nat := 17
  const SmallLoopKey: nat := 5
  const BigLoopKey: nat := 11

  /** The index of the largest ring. */
  const LastRing: nat := LoopCount - 1

  /** How far radius `r` is from ring `g`. */
  function Distance(r: real, g: Ring): (d: real)
    ensures d >= 0.0
  {
    Abs(r - g.radius)
  }

  /** The ring among the first `n` of table `t` nearest to `r`, keeping the
      earlier ring on a tie. */
  function NearestAmong(t: seq<Ring>, r: real, n: nat): (k: nat)
    requires 1 <= n <= |t|
    ensures k < n
    decreases n
  {
    if n == 1 then 0
    else
      var k := NearestAmong(t, r, n - 1);
      if Distance(r, t[n - 1]) < Distance(r, t[k]) then n - 1 else k
  }

  /** The chosen ring is at least as near as every ring considered, and
      strictly nearer than every ring before it: the first minimum wins. */
  lemma {:induction false} NearestAmongIsFirstMinimum(t: seq<Ring>, r: real, n: nat)
    requires 1 <= n <= |t|
    ensures var k := NearestAmong(t, r, n);
            && (forall j :: 0 <= j < n ==> Distance(r, t[k]) <= Distance(r, t[j]))
            && (forall j :: 0 <= j < k ==> Distance(r, t[k]) < Distance(r, t[j]))
    decreases n
  {
    if n > 1 {
      NearestAmongIsFirstMinimum(t, r, n - 1);
    }
  }

  /** The ring of table `t` nearest to `r`. */
  function NearestRing(t: seq<Ring>, r: real): (k: nat)
    requires 1 <= |t|
    ensures k < |t|
  {
    NearestAmong(t, r, |t|)
  }

  /** The scan of min_index_return over a table: the first strict minimum of
      the distances wins. */
  method ScanNearest(t: seq<Ring>, r: real) returns (k: nat, d: real)
    requires 1 <= |t|
    ensures k == NearestAmong(t, r, |t|) && d == Distance(r, t[k])
  {
    d := Distance(r, t[0]);
    k := 0;
    var i: nat := 1;
    while i < |t|
      invariant 1 <= i <= |t|
      invariant k == NearestAmong(t, r, i) && d == Distance(r, t[k])
    {
      var current := Distance(r, t[i]);
      if current < d {
        d := current;
        k := i;
      }
      i := i + 1;
    }
  }

  /** The stick correction of min_index_return (RADIUM_CTRL): when the basket
      radius is at least the distance to the nearest ring, pulling the stick
      below -5 picks the next ring out; otherwise pushing it above 5 picks the
      next ring in. Arithmetic is on uint8_t. */
  function Nudge(nearest: U8, nearestDistance: real, basketRadius: real, rs3: int): (k: U8)
    ensures basketRadius >= nearestDistance && rs3 < -5 ==> k == WrapU8(nearest + 1)
    ensures basketRadius < nearestDistance && rs3 > 5 ==> k == WrapU8(nearest - 1)
    ensures !(basketRadius >= nearestDistance && rs3 < -5) && !(basketRadius < nearestDistance && rs3 > 5) ==>
              k == nearest
  {
    if basketRadius >= nearestDistance then
      if rs3 > 5 then nearest else if rs3 < -5 then WrapU8(nearest + 1) else nearest
    else
      if rs3 > 5 then WrapU8(nearest - 1) else nearest
  }

  /** The upper bound check of min_index_return: anything from 17 up,
      including the 255 of a decrement from 0, becomes 17. */
  function CapIndex(i: U8): (k: U8)
    ensures k <= LastRing
    ensures i <= LastRing ==> k == i
    ensures i > LastRing ==> k == LastRing
  {
    if i >= LastRing then LastRing else i
  }

  /** The lower bound check: an index negative as int8_t becomes 0. */
  function FloorInt8(i: U8): (k: U8)
    ensures i < 128 ==> k == i
    ensures i >= 128 ==> k == 0
  {
    if AsInt8(i) < 0 then 0 else i
  }

  /** The two bound checks in their order, upper first: the lower one then
      finds no index to change, so the result is always 0..17. */
  function ClampIndex(i: U8): (k: U8)
    ensures k <= LastRing
    ensures i <= LastRing ==> k == i
    ensures i > LastRing ==> k == LastRing
  {
    FloorInt8(CapIndex(i))
  }

  /** The ring min_index_return selects from table `t` (radium_speed). */
  function SelectRing(t: seq<Ring>, radium: real, basketRadius: real, rs3: int): (k: U8)
    requires |t| == LoopCount
    ensures k <= LastRing
  {
    var n := NearestRing(t, radium);
    ClampIndex(Nudge(n, Distance(radium, t[n]), basketRadius, rs3))
  }

  /** The stick moves the choice by at most one ring, within the table; a
      move in from ring 0 lands on the largest ring. */
  lemma SelectRingMoves(t: seq<Ring>, radium: real, basketRadius: real, rs3: int)
    requires |t| == LoopCount
    ensures var n := NearestRing(t, radium);
            var d := Distance(radium, t[n]);
            var k := SelectRing(t, radium, basketRadius, rs3);
            && (basketRadius >= d && rs3 < -5 ==> k == if n == LastRing then LastRing else n + 1)
            && (basketRadius < d && rs3 > 5 ==> k == if n == 0 then LastRing else n - 1)
            && (!(basketRadius >= d && rs3 < -5) && !(basketRadius < d && rs3 > 5) ==> k == n)
  {
  }

  /** A basket closer than 1000 mm is nearer to no ring than to ring 0, and
      pushing the stick then selects the largest ring. */
  lemma CloseBasketWrapsToLargestRing(r: real, rs3: int)
    requires 0.0 <= r < 1000.0 && rs3 > 5
    ensures NearestRing(RadiumSpeed, r) == 0
    ensures SelectRing(RadiumSpeed, r, r, rs3) == LastRing
  {
    var n := NearestRing(RadiumSpeed, r);
    NearestAmongIsFirstMinimum(RadiumSpeed, r, LoopCount);
    assert RadiumSpeed[0].radius == 2000.0;
    assert Distance(r, RadiumSpeed[0]) == 2000.0 - r;
    if n != 0 {
      Includes.RadiusIncreasing(0, n);
      assert false;
    }
    assert Nudge(0, Distance(r, RadiumSpeed[0]), r, rs3) == 255;
  }

  /** The ring a request asks the chassis for: the stick-corrected nearest
      ring for RADIUM, one ring out for BIG_LOOP, one ring in for
      SMALL_LOOP; the other requests ask for none. */
  function RingTarget(req: MainRequest, index: U8, basketRadius: real, rs3: int): (t: Option<U8>)
    requires index <= LastRing
    ensures t.Some? <==> req.Known? && req.msg in {Radium, BigLoop, SmallLoop}
    ensures t.Some? ==> t.value <= LastRing
  {
    match req
    case Known(Radium) => Some(SelectRing(RadiumSpeed, basketRadius, basketRadius, rs3))
    case Known(BigLoop) => Some(BigLoopIndex(index))
    case Known(SmallLoop) => Some(SmallLoopIndex(index))
    case _ => None
  }

  /** uint8_t index after BIG_LOOP: one ring out, capped at the largest. */
  function BigLoopIndex(index: U8): (k: U8)
    requires index <= LastRing
    ensures k == if index == LastRing then LastRing else index + 1
  {
    var i := WrapU8(index + 1);
    if i >= LastRing then LastRing else i
  }

  /** uint8_t index after SMALL_LOOP: one ring in, floored at 0 by the int8_t test. */
  function SmallLoopIndex(index: U8): (k: U8)
    requires index <= LastRing
    ensures k == if index == 0 then 0 else index - 1
  {
    var i := WrapU8(index - 1);
    if AsInt8(i) <= 0 then 0 else i
  }

  /** The request set_main_ctrl_key overwrites the slot with. */
  function KeyRequest(key: U8, indeterminate: int): (r: MainRequest)
    ensures key == MinRadiumKey ==> r == Known(Radium)
    ensures key == RightPointKey ==> r == Known(RightBall)
    ensures key == LeftPointKey ==> r == Known(LeftBall)
    ensures key == SmallLoopKey ==> r == Known(SmallLoop)
    ensures key == BigLoopKey ==> r == Known(BigLoop)
    ensures key !in {MinRadiumKey, RightPointKey, LeftPointKey, SmallLoopKey, BigLoopKey} ==>
              r == FromRaw(indeterminate)
  {
    if key == MinRadiumKey then Known(Radium)
    else if key == RightPointKey then Known(RightBall)
    else if key == LeftPointKey then Known(LeftBall)
    else if key == SmallLoopKey then Known(SmallLoop)
    else if key == BigLoopKey then Known(BigLoop)
    else FromRaw(indeterminate)
  }

  /** The effects of one handled request, with time advancing only in the
      delays: `now` is the absolute time the request is taken, `ring` the ring
      the chassis settled on for the ring requests. Every pass ends with a
      1 ms delay. */
  function RequestEffects(req: MainRequest, now: nat, ring: nat): (e: seq<Effect>)
    requires ring < LoopCount
  {
    match req
    case Known(Radium) =>
      [ToShoot(ShootEventMsg(TickAt(now), FribeltPre, RadiumSpeed[ring].speed)),
       ToChassis(ChassisCtrlMsg(TickAt(now), SetMinRadium)), Wait(1)]
    case Known(BigLoop) =>
      [ToShoot(ShootEventMsg(TickAt(now), FribeltDirect, RadiumSpeed[ring].speed)),
       ToChassis(ChassisCtrlMsg(TickAt(now), SetMinRadium)), Wait(1)]
    case Known(SmallLoop) =>
      [ToShoot(ShootEventMsg(TickAt(now), FribeltDirect, RadiumSpeed[ring].speed)),
       ToChassis(ChassisCtrlMsg(TickAt(now), SetMinRadium)), Wait(1)]
    case Known(LeftBall) => LoadingEffects(now, LeftAiming, 0)
    case Known(RightBall) => LoadingEffects(now, RightAiming, 500)
    case Indeterminate(_) => [Wait(1)]
  }

  /** The first part of a ball-loading request aiming with `aim`: manual
      control, aiming and a stopped flywheel at once, then after 500 ms the
      aiming is cancelled. */
  function AimThenStop(now: nat, aim: ChassisEvent): seq<Effect>
  {
    [ToChassis(ChassisCtrlMsg(TickAt(now), SetManual)),
     ToChassis(ChassisCtrlMsg(TickAt(now), aim)),
     ToShoot(ShootEventMsg(TickAt(now), Disable, 0.0)),
     Wait(500),
     ToChassis(ChassisCtrlMsg(TickAt(now + 500), ResetAiming))]
  }

  /** The second part: `settle` ms later (500 on the right side, none on the
      left) the flywheel is reversed to -2800 to take a ball. */
  function SettleThenLoad(now: nat, settle: nat): seq<Effect>
  {
    (if settle == 0 then [] else [Wait(settle)])
    + [ToShoot(ShootEventMsg(TickAt(now + 500 + settle), LoadBall, -2800.0)), Wait(1)]
  }

  /** The effects of a ball-loading request. */
  function LoadingEffects(now: nat, aim: ChassisEvent, settle: nat): seq<Effect>
  {
    AimThenStop(now, aim) + SettleThenLoad(now, settle)
  }

  lemma AimThenStopRequests(now: nat, aim: ChassisEvent)
    ensures var a := AimThenStop(now, aim);
            && ChassisRequests(a[..4]) == [ChassisCtrlMsg(TickAt(now), SetManual), ChassisCtrlMsg(TickAt(now), aim)]
            && ChassisRequests(a) == [ChassisCtrlMsg(TickAt(now), SetManual), ChassisCtrlMsg(TickAt(now), aim),
                                      ChassisCtrlMsg(TickAt(now + 500), ResetAiming)]
            && ShootRequests(a) == [ShootEventMsg(TickAt(now), Disable, 0.0)]
            && WaitTime(a) == 500
  {
    var a := AimThenStop(now, aim);
    var reset := ChassisCtrlMsg(TickAt(now + 500), ResetAiming);
    var disable := ShootEventMsg(TickAt(now), Disable, 0.0);
    assert ShootRequests(a[4..]) == [] && ChassisRequests(a[4..]) == [reset] && WaitTime(a[4..]) == 0;
    assert ShootRequests(a[3..]) == [] && ChassisRequests(a[3..]) == [reset] && WaitTime(a[3..]) == 500;
    assert ShootRequests(a[2..]) == [disable] && ChassisRequests(a[2..]) == [reset] && WaitTime(a[2..]) == 500;
    var p := a[..4];
    assert ChassisRequests(p[3..]) == [] && ChassisRequests(p[2..]) == [];
  }

  lemma SettleThenLoadRequests(now: nat, settle: nat)
    ensures var b := SettleThenLoad(now, settle);
            && ChassisRequests(b) == []
            && ShootRequests(b) == [ShootEventMsg(TickAt(now + 500 + settle), LoadBall, -2800.0)]
            && WaitTime(b) == settle + 1
  {
    var w: seq<Effect> := if settle == 0 then [] else [Wait(settle)];
    var c := [ToShoot(ShootEventMsg(TickAt(now + 500 + settle), LoadBall, -2800.0)), Wait(1)];
    assert ShootRequests(c[1..]) == [] && ChassisRequests(c[1..]) == [] && WaitTime(c[1..]) == 1;
    RequestsAppend(w, c);
    WaitTimeAppend(w, c);
  }

  /** A ball-loading request first asks the chassis for manual control and
      then for aiming with no delay between them, so the one-slot chassis
      queue holds the aiming request when the 500 ms delay starts; after the
      delay the aiming is cancelled and the flywheel reversed to -2800. The
      whole pass waits 501 ms plus the settling time. */
  lemma LoadingOverwritesManual(now: nat, aim: ChassisEvent, settle: nat, slot: Option<ChassisCtrlMsg>)
    ensures var e := LoadingEffects(now, aim, settle);
            && ChassisSlotAfter(slot, e[..4]) == Some(ChassisCtrlMsg(TickAt(now), aim))
            && ChassisSlotAfter(slot, e).value.event == ResetAiming
            && ShootRequests(e) == [ShootEventMsg(TickAt(now), Disable, 0.0),
                                    ShootEventMsg(TickAt(now + 500 + settle), LoadBall, -2800.0)]
            && WaitTime(e) == 501 + settle
  {
    var a, b := AimThenStop(now, aim), SettleThenLoad(now, settle);
    AimThenStopRequests(now, aim);
    SettleThenLoadRequests(now, settle);
    RequestsAppend(a, b);
    WaitTimeAppend(a, b);
    assert (a + b)[..4] == a[..4];
  }

  /** What chassis_overwrite_pointarray, asked for ring `target` with the
      vision pose at `pose`, does to the chassis: the aim angle is refreshed,
      pos_array[5] (`pos0` before, `pos` after) holds the ring the retry
      settled on (ring 0 when none fits, `hung`), and the orientation PID
      (`pid0` before, `pid` after) is called once per attempt. */
  predicate SettledOn(lib: Libm, basketRadius: real, target: nat, pose: Pose, hung: bool,
                      pos0: seq<PosNode>, pid0: PidState, pos: seq<PosNode>, aim: real, pid: PidState)
  {
    && target < LoopCount && |pos0| == PosCount
    && var sight := SightBasket(lib, pose.x, pose.y);
       var ring := FittingRing(sight, basketRadius, target);
       var settled := if ring.Some? then ring.value else 0;
       && hung == ring.None?
       && aim == AimAngle(lib, BasketX, BasketY, pose.x, pose.y)
       && pos == SetRingPoint(pos0, RingPoint(sight, basketRadius, settled), Rad2Deg(aim))
       && pid == Repeat(pid0, AngleTrans(pose.yaw, Rad2Deg(aim)), 0.0, target - settled + 1)
  }

  class MainCtrl {
    /** the static `index` of main_ctrl_task */
    var index: U8
    /** main_ctrl_queue (one slot, overwritten) */
    var queue: Option<MainRequest>
    const chassis: Chassis

    predicate Valid()
      reads this
    {
      index <= LastRing
    }

    constructor (chassis: Chassis)
      ensures Valid() && index == 0 && queue == None && this.chassis == chassis
    {
      index := 0;
      queue := None;
      this.chassis := chassis;
    }

    /** min_index_return over the ring table `t` (the firmware always passes
        radium_speed): the nearest ring by a scan that keeps the first strict
        minimum, then the stick correction and the clamps. */
    method MinIndexReturn(t: seq<Ring>, radium: real, basketRadius: real, rs3: int) returns (k: U8)
      requires |t| == LoopCount
      ensures k == SelectRing(t, radium, basketRadius, rs3)
    {
      var nearest, minAbs := ScanNearest(t, radium);
      var minIndex: U8 := nearest;
      if basketRadius >= minAbs {
        if rs3 > 5 {
        } else if rs3 < -5 {
          minIndex := WrapU8(minIndex + 1);
        }
      } else {
        if rs3 > 5 {
          minIndex := WrapU8(minIndex - 1);
        } else if rs3 < -5 {
        }
      }
      if minIndex >= LastRing {
        minIndex := LastRing;
      }
      k := FloorInt8(minIndex);
    }

    /** set_main_ctrl_key: overwrite the slot; any other key sends the
        uninitialised local, `indeterminate`, which reads as the enumerator
        with that value or as a value the task ignores. */
    method SetMainCtrlKey(key: U8, indeterminate: int)
      modifies this
      ensures queue == Some(KeyRequest(key, indeterminate)) && index == old(index)
    {
      var msg: MainRequest;
      if key == MinRadiumKey {
        msg := Known(Radium);
      } else if key == RightPointKey {
        msg := Known(RightBall);
      } else if key == LeftPointKey {
        msg := Known(LeftBall);
      } else if key == SmallLoopKey {
        msg := Known(SmallLoop);
      } else if key == BigLoopKey {
        msg := Known(BigLoop);
      } else {
        msg := FromRaw(indeterminate);
      }
      queue := Some(msg);
    }

    /** One pass of main_ctrl_task on the queued request, taken at absolute
        time `now`. For the ring requests the index is computed, handed to
        chassis_overwrite_pointarray, and replaced by the ring it returns;
        when no ring fits that call never returns (`hung`) and nothing after
        it happens. */
    method TaskStep(lib: Libm, now: nat, basketRadius: real, rs3: int) returns (effects: seq<Effect>, hung: bool)
      requires Valid() && queue.Some? && |chassis.posArray| == PosCount
      modifies this, chassis, chassis.orientationPid
      ensures Valid() && queue == None
      ensures var req := old(queue).value;
              var target := RingTarget(req, old(index), basketRadius, rs3);
              && (target.Some? ==>
                    var ring := FittingRing(SightBasket(lib, old(chassis.nucPose.x), old(chassis.nucPose.y)),
                                            basketRadius, target.value as nat);
                    && hung == ring.None?
                    && (hung ==> index == target.value && effects == [])
                    && (!hung ==> index as nat == ring.value && effects == RequestEffects(req, now, ring.value))
                    && SettledOn(lib, basketRadius, target.value as nat, old(chassis.nucPose.Current()), hung,
                                 old(chassis.posArray), old(chassis.orientationPid.State()),
                                 chassis.posArray, chassis.aimAngle, chassis.orientationPid.State())
                    && chassis.State() == old(chassis.State()) && chassis.timeouts == old(chassis.timeouts))
              && (target.None? ==>
                    && !hung && index == old(index) && effects == RequestEffects(req, now, 0)
                    && unchanged(chassis) && unchanged(chassis.orientationPid))
    {
      var req := queue.value;
      var target := RequestedRing(req, basketRadius, rs3);
      if target.None? {
        queue := None;
        effects := RequestEffects(req, now, 0);
        hung := false;
        return;
      }
      hung := SettleRing(lib, basketRadius, target.value);
      queue := None;
      effects := if hung then [] else RequestEffects(req, now, index);
    }

    /** The index computation of the RADIUM, BIG_LOOP and SMALL_LOOP cases,
        before the index is handed to the chassis. */
    method RequestedRing(req: MainRequest, basketRadius: real, rs3: int) returns (target: Option<U8>)
      requires Valid()
      ensures target == RingTarget(req, index, basketRadius, rs3)
    {
      match req {
        case Known(Radium) =>
          var k := MinIndexReturn(RadiumSpeed, basketRadius, basketRadius, rs3);
          target := Some(k);
        case Known(BigLoop) =>
          var k := WrapU8(index + 1);
          if k >= LastRing {
            k := LastRing;
          }
          target := Some(k);
        case Known(SmallLoop) =>
          var k := WrapU8(index - 1);
          if AsInt8(k) <= 0 {
            k := 0;
          }
          target := Some(k);
        case _ =>
          target := None;
      }
    }

    /** The ring half of a RADIUM, BIG_LOOP or SMALL_LOOP pass: hand the
        index to chassis_overwrite_pointarray and keep the ring it returns. */
    method SettleRing(lib: Libm, basketRadius: real, target: U8) returns (hung: bool)
      requires target <= LastRing && |chassis.posArray| == PosCount
      modifies this`index, chassis`posArray, chassis`aimAngle, chassis.orientationPid
      ensures Valid()
      ensures hung ==> index == target
      ensures !hung ==> Some(index as nat) == FittingRing(SightBasket(lib, old(chassis.nucPose.x), old(chassis.nucPose.y)), basketRadius, target as nat)
      ensures SettledOn(lib, basketRadius, target as nat, old(chassis.nucPose.Current()), hung,
                        old(chassis.posArray), old(chassis.orientationPid.State()),
                        chassis.posArray, chassis.aimAngle, chassis.orientationPid.State())
      ensures chassis.State() == old(chassis.State()) && chassis.timeouts == old(chassis.timeouts)
    {
      var ring;
      ring, hung := chassis.OverwritePointArray(lib, basketRadius, target);
      index := if hung then target else ring;
    }
  }
}
