/** The point-to-point navigation engine (User/Modules/go_path/go_path.c).
    A table of navigation channels, one per point type, each bound to a pose
    source, a translational and a rotational PID and two deadbands; each call
    of `go_path_by_point` runs the channel's strategy, which updates the shared
    result record and the PIDs' state, and then makes exactly one chassis
    speed call.

    The strategies are specified by value-level functions of the inputs and
    the previous state (`ActionControl`, `LinearControl`, `SequenceControl`);
    the class's methods are proved equal to them. */
module GoPath {
  import opened Base
  import opened MyMath
  import opened Pid
  import opened SubPub

  /** go_path_point_type_t (numbering as used by chassis.c and go_path.c). */
  const PointNucFlat: nat := 0
  const PointTargetRadium: nat := 1
  const PointLoadBall: nat := 2
  const PointLinear: nat := 3
  const PointSequence: nat := 4
  const PointTypeCount: nat := 5

  /** go_path_location_type_t. */
  const LocationAction: nat := 0
  const LocationDt35: nat := 1
  const LocationNuc: nat := 2
  const LocationTypeCount: nat := 3

  /** go_path_arrive_status_t. */
  datatype Arrive = NoArrive | Arrived | ArriveXyNotYaw | PointTypeErr

  /** go_path_result_t: the solver's last output. */
  datatype NavResult = NavResult(moving: real, speedAngle: real, turning: real, arrived: Arrive)

  datatype Pose = Pose(x: real, y: real, yaw: real)

  /** The solver state one call changes: the result record and the channel's two PIDs. */
  datatype Nav = Nav(result: NavResult, speed: PidState, angle: PidState)

  /** The constant part of a channel that a strategy reads. */
  datatype Tuning = Tuning(speedLaw: PidLaw, angleLaw: PidLaw, distanceDeadband: real, angleDeadband: real)

  /** angle_trans: the heading error self - target, taken the short way round.
      The error is wrapped by one turn toward zero only when that makes it
      strictly smaller, so an error of exactly +-180 is kept. */
  function AngleTrans(self: real, target: real): real
  {
    var d := self - target;
    var wrapped := if d > 0.0 then d - 360.0 else d + 360.0;
    if Abs(wrapped) < Abs(d) then wrapped else d
  }

  /** The wrapped error differs from self - target by at most one turn, is
      never larger, is the raw error within half a turn, and lies in
      [-180, 180] whenever the raw error is within one and a half turns. */
  lemma AngleTransWraps(self: real, target: real)
    ensures var r := AngleTrans(self, target);
            && (r == self - target || r == self - target - 360.0 || r == self - target + 360.0)
            && (r == self - target - 360.0 ==> self - target > 180.0)
            && (r == self - target + 360.0 ==> self - target < -180.0)
            && Abs(r) <= Abs(self - target)
            && (Abs(self - target) <= 180.0 ==> r == self - target)
            && (Abs(self - target) <= 540.0 ==> -180.0 <= r <= 180.0)
  {
  }

  /** The rotational half of a strategy: outside the angle deadband the PID is
      driven by the heading error; inside it the output is 0 and the integral
      term is cleared. Returns (turning output, new PID state, yaw arrived). */
  function YawStep(law: PidLaw, s: PidState, delta: real, deadband: real): (r: (real, PidState, bool))
    ensures r.2 <==> CompareFloat(Abs(delta), deadband) != MoreThan
    ensures r.2 ==> r.0 == 0.0 && r.1 == ResetIntegral(s)
    ensures !r.2 ==> (r.0, r.1) == Step(law, s, delta, 0.0)
  {
    if CompareFloat(Abs(delta), deadband) == MoreThan then
      var (out, s') := Step(law, s, delta, 0.0);
      (out, s', false)
    else
      (0.0, ResetIntegral(s), true)
  }

  /** The direction of travel: acos of the x offset over the distance, negated
      when the target is not above the current pose. */
  function Bearing(lib: Libm, pose: Pose, target: Pose, dist: real): (b: real)
    requires dist > 0.0
  {
    var c := lib.acos((target.x - pose.x) / dist);
    if target.y - pose.y > 0.0 then c else -c
  }

  /** acosf returns a value in [0, pi]. */
  ghost predicate AcosRange(lib: Libm)
  {
    forall v: real {:trigger lib.acos(v)} :: 0.0 <= lib.acos(v) <= Pi
  }

  /** With acos in [0, pi] the bearing points into the half plane of the target. */
  lemma BearingHalfPlane(lib: Libm, pose: Pose, target: Pose, dist: real)
    requires dist > 0.0 && AcosRange(lib)
    ensures target.y - pose.y > 0.0 ==> 0.0 <= Bearing(lib, pose, target, dist) <= Pi
    ensures target.y - pose.y <= 0.0 ==> -Pi <= Bearing(lib, pose, target, dist) <= 0.0
  {
    var c := lib.acos((target.x - pose.x) / dist);
    assert 0.0 <= c <= Pi;
  }

  /** action_pid_control: translate straight at the target and turn to the
      target yaw at the same time. */
  function ActionControl(lib: Libm, tune: Tuning, pose: Pose, target: Pose, nav: Nav): (r: Nav)
    requires tune.distanceDeadband >= 0.0
    ensures var d := TwoDimensions(lib, pose.x, pose.y, target.x, target.y);
            var yawIn := CompareFloat(Abs(AngleTrans(pose.yaw, target.yaw)), tune.angleDeadband) != MoreThan;
            && (r.result.arrived == Arrived <==> d <= tune.distanceDeadband && yawIn)
            && (r.result.arrived == ArriveXyNotYaw <==> d <= tune.distanceDeadband && !yawIn)
            && (r.result.arrived == NoArrive <==> d > tune.distanceDeadband)
            && (d <= tune.distanceDeadband ==>
                  r.result.moving == 0.0 && r.result.speedAngle == 0.0 && r.speed == ResetIntegral(nav.speed))
            && (d > tune.distanceDeadband ==>
                  r.result.moving == tune.speedLaw.output(nav.speed, d, 0.0)
                  && r.speed == Fed(nav.speed, d, 0.0)
                  && r.result.speedAngle == Bearing(lib, pose, target, d))
            && (var y := YawStep(tune.angleLaw, nav.angle, AngleTrans(pose.yaw, target.yaw), tune.angleDeadband);
                r.result.turning == y.0 && r.angle == y.1)
            && (yawIn ==> r.result.turning == 0.0 && r.angle == ResetIntegral(nav.angle))
            && (!yawIn ==> r.angle == Fed(nav.angle, AngleTrans(pose.yaw, target.yaw), 0.0))
  {
    var d := TwoDimensions(lib, pose.x, pose.y, target.x, target.y);
    var (moving, angle, speed, xy) :=
      if d > tune.distanceDeadband then
        var (out, s') := Step(tune.speedLaw, nav.speed, d, 0.0);
        (out, Bearing(lib, pose, target, d), s', false)
      else
        (0.0, 0.0, ResetIntegral(nav.speed), true);
    var (turning, angleState, yaw) :=
      YawStep(tune.angleLaw, nav.angle, AngleTrans(pose.yaw, target.yaw), tune.angleDeadband);
    var arrived := if xy && yaw then Arrived else if xy then ArriveXyNotYaw else NoArrive;
    Nav(NavResult(moving, angle, turning, arrived), speed, angleState)
  }

  /** linear_pid_control: while translating, hold the heading along the
      direction of travel; once in the distance deadband, turn to the target yaw. */
  function LinearControl(lib: Libm, tune: Tuning, pose: Pose, target: Pose, nav: Nav): (r: Nav)
    requires tune.distanceDeadband >= 0.0
    ensures var d := TwoDimensions(lib, pose.x, pose.y, target.x, target.y);
            && r.result.arrived != ArriveXyNotYaw
            && (d > tune.distanceDeadband ==>
                  r.result.arrived == NoArrive
                  && r.result.moving == tune.speedLaw.output(nav.speed, d, 0.0)
                  && r.speed == Fed(nav.speed, d, 0.0)
                  && r.result.speedAngle == Bearing(lib, pose, target, d)
                  && var y := YawStep(tune.angleLaw, nav.angle, AngleTrans(pose.yaw, Rad2Deg(r.result.speedAngle)), tune.angleDeadband);
                     r.result.turning == y.0 && r.angle == y.1)
            && (d <= tune.distanceDeadband ==>
                  r.result.moving == 0.0 && r.result.speedAngle == 0.0 && r.speed == ResetIntegral(nav.speed)
                  && (r.result.arrived == Arrived <==>
                        CompareFloat(Abs(AngleTrans(pose.yaw, target.yaw)), tune.angleDeadband) != MoreThan)
                  && var y := YawStep(tune.angleLaw, nav.angle, AngleTrans(pose.yaw, target.yaw), tune.angleDeadband);
                     r.result.turning == y.0 && r.angle == y.1)
  {
    var d := TwoDimensions(lib, pose.x, pose.y, target.x, target.y);
    if d > tune.distanceDeadband then
      var b := Bearing(lib, pose, target, d);
      var (out, s') := Step(tune.speedLaw, nav.speed, d, 0.0);
      var (turning, angleState, _) :=
        YawStep(tune.angleLaw, nav.angle, AngleTrans(pose.yaw, Rad2Deg(b)), tune.angleDeadband);
      Nav(NavResult(out, b, turning, NoArrive), s', angleState)
    else
      var (turning, angleState, yaw) :=
        YawStep(tune.angleLaw, nav.angle, AngleTrans(pose.yaw, target.yaw), tune.angleDeadband);
      Nav(NavResult(0.0, 0.0, turning, if yaw then Arrived else NoArrive), ResetIntegral(nav.speed), angleState)
  }

  /** x_y_yaw_sequence_control: first the x axis, then the y axis, then the
      yaw. A phase that translates leaves the previous turning output in the
      result record. */
  function SequenceControl(tune: Tuning, pose: Pose, target: Pose, nav: Nav): (r: Nav)
    ensures var dx := target.x - pose.x;
            var dy := target.y - pose.y;
            var xIn := CompareFloat(Abs(dx), tune.distanceDeadband) != MoreThan;
            var yIn := CompareFloat(Abs(dy), tune.distanceDeadband) != MoreThan;
            var yawIn := CompareFloat(Abs(AngleTrans(pose.yaw, target.yaw)), tune.angleDeadband) != MoreThan;
            && (r.result.arrived == Arrived <==> xIn && yIn && yawIn)
            && (r.result.arrived == NoArrive <==> !(xIn && yIn && yawIn))
            && (!xIn ==>
                  r.result.speedAngle == (if dx > 0.0 then 0.0 else Pi)
                  && r.result.moving == tune.speedLaw.output(nav.speed, Abs(dx), 0.0)
                  && r.speed == Fed(nav.speed, Abs(dx), 0.0)
                  && r.result.turning == nav.result.turning && r.angle == nav.angle)
            && (xIn && !yIn ==>
                  r.result.speedAngle == (if dy > 0.0 then Pi / 2.0 else -Pi / 2.0)
                  && r.result.moving == tune.speedLaw.output(nav.speed, Abs(dy), 0.0)
                  && r.speed == Fed(nav.speed, Abs(dy), 0.0)
                  && r.result.turning == nav.result.turning && r.angle == nav.angle)
            && (xIn && yIn ==>
                  r.result.moving == 0.0 && r.result.speedAngle == 0.0
                  && r.speed == ResetIntegral(nav.speed)
                  && var y := YawStep(tune.angleLaw, nav.angle, AngleTrans(pose.yaw, target.yaw), tune.angleDeadband);
                     r.result.turning == y.0 && r.angle == y.1)
  {
    var dx := target.x - pose.x;
    if CompareFloat(Abs(dx), tune.distanceDeadband) == MoreThan then
      var (out, s') := Step(tune.speedLaw, nav.speed, Abs(dx), 0.0);
      Nav(nav.result.(moving := out, speedAngle := if dx > 0.0 then 0.0 else Pi, arrived := NoArrive), s', nav.angle)
    else
      var dy := target.y - pose.y;
      if CompareFloat(Abs(dy), tune.distanceDeadband) == MoreThan then
        var (out, s') := Step(tune.speedLaw, nav.speed, Abs(dy), 0.0);
        Nav(nav.result.(moving := out, speedAngle := if dy > 0.0 then Pi / 2.0 else -Pi / 2.0, arrived := NoArrive),
            s', nav.angle)
      else
        var (turning, angleState, yaw) :=
          YawStep(tune.angleLaw, nav.angle, AngleTrans(pose.yaw, target.yaw), tune.angleDeadband);
        Nav(NavResult(0.0, 0.0, turning, if yaw then Arrived else NoArrive), ResetIntegral(nav.speed), angleState)
  }

  /** Whether a channel's strategy reads its pose source and PIDs: the linear
      and sequence types always do, the others unless bound to the DT35
      source, whose solver is empty. */
  predicate Drives(pointType: nat, locationType: nat)
  {
    pointType == PointLinear || pointType == PointSequence || locationType != LocationDt35
  }

  /** The strategy `go_path_by_point` selects for a channel. */
  function Control(lib: Libm, pointType: nat, locationType: nat, tune: Tuning, pose: Pose, target: Pose, nav: Nav): (r: Nav)
    requires pointType != PointSequence && Drives(pointType, locationType) ==> tune.distanceDeadband >= 0.0
    ensures !Drives(pointType, locationType) ==> r == nav
    ensures pointType == PointLinear || pointType == PointSequence ==> r.result.arrived != ArriveXyNotYaw
    ensures r.result.arrived != PointTypeErr || r == nav
  {
    if pointType == PointLinear then LinearControl(lib, tune, pose, target, nav)
    else if pointType == PointSequence then SequenceControl(tune, pose, target, nav)
    else if locationType == LocationDt35 then nav
    else ActionControl(lib, tune, pose, target, nav)
  }

  /** The turning compensation of go_path_by_point: a turning output beyond
      +-20 is pushed 240 further out, so no command magnitude lies in (20, 260]. */
  function Compensate(w: real): (r: real)
    ensures -20.0 <= w <= 20.0 ==> r == w
    ensures w > 20.0 ==> r == w + 240.0
    ensures w < -20.0 ==> r == w - 240.0
    ensures (r > 0.0 <==> w > 0.0) && (r < 0.0 <==> w < 0.0)
    ensures Abs(r) >= Abs(w)
    ensures Abs(r) <= 20.0 || Abs(r) > 260.0
  {
    if w > 20.0 then w + 240.0 else if w < -20.0 then w - 240.0 else w
  }

  /** A chassis speed command: the two translation components and the rotation. */
  datatype Speed = Speed(x: real, y: real, w: real)

  /** The chassis command built from a result: the polar translation in
      Cartesian form and the compensated turning output, after the arrival
      mask (no rotation before arrival, no translation once only xy arrived). */
  function Command(lib: Libm, r: NavResult): (c: Speed)
    ensures r.arrived == NoArrive ==> c.w == 0.0
    ensures r.arrived == ArriveXyNotYaw ==> c.x == 0.0 && c.y == 0.0 && c.w == Compensate(r.turning)
    ensures r.arrived != ArriveXyNotYaw ==>
              c.x == r.moving * lib.cos(r.speedAngle) && c.y == r.moving * lib.sin(r.speedAngle)
    ensures r.arrived != NoArrive ==> c.w == Compensate(r.turning)
  {
    var x := r.moving * lib.cos(r.speedAngle);
    var y := r.moving * lib.sin(r.speedAngle);
    var w := Compensate(r.turning);
    match r.arrived
    case NoArrive => Speed(x, y, 0.0)
    case ArriveXyNotYaw => Speed(0.0, 0.0, w)
    case _ => Speed(x, y, w)
  }

  /** Once a strategy reports full arrival, the chassis is commanded to stand still. */
  lemma ArrivedStandsStill(lib: Libm, pointType: nat, locationType: nat, tune: Tuning, pose: Pose, target: Pose, nav: Nav)
    requires Drives(pointType, locationType)
    requires pointType != PointSequence ==> tune.distanceDeadband >= 0.0
    requires Control(lib, pointType, locationType, tune, pose, target, nav).result.arrived == Arrived
    ensures Command(lib, Control(lib, pointType, locationType, tune, pose, target, nav).result) == Speed(0.0, 0.0, 0.0)
  {
    var r := Control(lib, pointType, locationType, tune, pose, target, nav).result;
    assert r.moving == 0.0 && r.turning == 0.0;
  }

  /** The linear and sequence strategies never command a rotation: they only
      report Arrived with the yaw already in its deadband (turning output 0),
      and NO_ARRIVE masks the turning output. */
  lemma LinearAndSequenceNeverTurn(lib: Libm, pointType: nat, tune: Tuning, pose: Pose, target: Pose, nav: Nav)
    requires pointType == PointLinear || pointType == PointSequence
    requires pointType == PointLinear ==> tune.distanceDeadband >= 0.0
    ensures Command(lib, Control(lib, pointType, LocationAction, tune, pose, target, nav).result).w == 0.0
  {
    var r := Control(lib, pointType, LocationAction, tune, pose, target, nav).result;
    if r.arrived == Arrived {
      assert r.turning == 0.0;
    }
  }

  /** The direct strategy rotates the chassis only after translation has arrived. */
  lemma ActionTurnsOnlyInPlace(lib: Libm, tune: Tuning, pose: Pose, target: Pose, nav: Nav)
    requires tune.distanceDeadband >= 0.0
    ensures var c := Command(lib, ActionControl(lib, tune, pose, target, nav).result);
            c.w != 0.0 ==>
              c.x == 0.0 && c.y == 0.0
              && TwoDimensions(lib, pose.x, pose.y, target.x, target.y) <= tune.distanceDeadband
  {
    var r := ActionControl(lib, tune, pose, target, nav).result;
    if r.arrived == Arrived {
      assert r.turning == 0.0;
    }
  }

  /** The pose triple a location source points at (the three float pointers of
      pos_point_t, which the firmware always takes from one pose record). */
  class Position {
    var x: real
    var y: real
    var yaw: real

    constructor (x: real, y: real, yaw: real)
      ensures this.x == x && this.y == y && this.yaw == yaw
    {
      this.x, this.y, this.yaw := x, y, yaw;
    }

    function Current(): Pose
      reads this
    {
      Pose(x, y, yaw)
    }
  }

  /** One entry of go_path_state[]. */
  datatype Channel = Channel(
    target: Pose, locationType: nat, distanceDeadband: real, angleDeadband: real,
    position: Position?, speedPid: Pid?, anglePid: Pid?)

  /** A channel can be solved: everything its strategy dereferences is bound,
      its two PIDs are distinct objects, and its distance deadband, which
      guards the division by the distance, is not negative. */
  predicate ChannelReady(pt: nat, ch: Channel)
  {
    Drives(pt, ch.locationType) ==>
      && ch.position != null && ch.speedPid != null && ch.anglePid != null
      && ch.speedPid != ch.anglePid
      && (pt != PointSequence ==> ch.distanceDeadband >= 0.0)
  }

  const UnsetChannel: Channel := Channel(Pose(0.0, 0.0, 0.0), LocationAction, 0.0, 0.0, null, null, null)

  class GoPath {
    /** location_pos[] */
    var locations: seq<Position?>
    /** go_path_state[] */
    var channels: seq<Channel>
    /** go_path_result */
    var result: NavResult
    /** go_path_chassis_ctrl: the chassis speed sink */
    var chassisCtrl: PubToSlave?

    predicate Valid()
      reads this
    {
      && |locations| == LocationTypeCount
      && |channels| == PointTypeCount
      && forall i :: 0 <= i < |channels| ==> channels[i].locationType < LocationTypeCount
    }

    /** The channel can be solved (see `ChannelReady`). */
    predicate Ready(pt: nat)
      requires Valid() && pt < PointTypeCount
      reads this
    {
      ChannelReady(pt, channels[pt])
    }

    function TuningOf(ch: Channel): Tuning
      requires ch.speedPid != null && ch.anglePid != null
    {
      Tuning(ch.speedPid.law, ch.anglePid.law, ch.distanceDeadband, ch.angleDeadband)
    }

    /** The solver state a call on a ready, driven channel reads and writes. */
    function NavOf(pt: nat): Nav
      requires Valid() && pt < PointTypeCount
      requires channels[pt].speedPid != null && channels[pt].anglePid != null
      reads this, channels[pt].speedPid, channels[pt].anglePid
    {
      Nav(result, channels[pt].speedPid.State(), channels[pt].anglePid.State())
    }

    /** Static zero initialisation. */
    constructor ()
      ensures Valid()
      ensures locations == [null, null, null]
      ensures channels == seq(PointTypeCount, _ => UnsetChannel)
      ensures result == NavResult(0.0, 0.0, 0.0, NoArrive) && chassisCtrl == null
    {
      locations := [null, null, null];
      channels := seq(PointTypeCount, _ => UnsetChannel);
      result := NavResult(0.0, 0.0, 0.0, NoArrive);
      chassisCtrl := null;
    }

    /** go_path_chassis_ctrl_init. */
    method ChassisCtrlInit(sink: PubToSlave?)
      modifies this
      ensures chassisCtrl == sink
      ensures locations == old(locations) && channels == old(channels) && result == old(result)
    {
      chassisCtrl := sink;
    }

    /** go_path_location_init: an out-of-range location type changes nothing. */
    method LocationInit(locationType: nat, pos: Position?)
      requires Valid()
      modifies this
      ensures Valid()
      ensures locationType >= LocationTypeCount ==> locations == old(locations)
      ensures locationType < LocationTypeCount ==> locations == old(locations)[locationType := pos]
      ensures channels == old(channels) && result == old(result) && chassisCtrl == old(chassisCtrl)
    {
      if locationType >= LocationTypeCount {
        return;
      }
      locations := locations[locationType := pos];
    }

    /** go_path_pidpoint_init: configures one channel, copying the pose source
        registered for its location type at the time of the call. An
        out-of-range point or location type changes nothing. */
    method PidpointInit(speedPid: Pid?, anglePid: Pid?, distanceDeadband: real, angleDeadband: real,
                        pointType: nat, locationType: nat)
      requires Valid()
      modifies this
      ensures Valid()
      ensures pointType >= PointTypeCount || locationType >= LocationTypeCount ==> channels == old(channels)
      ensures pointType < PointTypeCount && locationType < LocationTypeCount ==>
                channels == old(channels)[pointType := Channel(Pose(0.0, 0.0, 0.0), locationType,
                  distanceDeadband, angleDeadband, old(locations)[locationType], speedPid, anglePid)]
      ensures locations == old(locations) && result == old(result) && chassisCtrl == old(chassisCtrl)
    {
      if pointType >= PointTypeCount {
        return;
      }
      if locationType >= LocationTypeCount {
        return;
      }
      channels := channels[pointType := Channel(Pose(0.0, 0.0, 0.0), locationType,
        distanceDeadband, angleDeadband, locations[locationType], speedPid, anglePid)];
    }

    /** action_pid_control. */
    method ActionPidControl(lib: Libm, pt: nat)
      requires Valid() && pt < PointTypeCount && Drives(pt, channels[pt].locationType) && Ready(pt)
      requires pt != PointSequence
      modifies this, channels[pt].speedPid, channels[pt].anglePid
      ensures Valid()
      ensures channels == old(channels) && locations == old(locations) && chassisCtrl == old(chassisCtrl)
      ensures NavOf(pt) == ActionControl(lib, TuningOf(channels[pt]), channels[pt].position.Current(),
                                         channels[pt].target, old(NavOf(pt)))
    {
      var ch := channels[pt];
      var pose := ch.position.Current();
      var d := TwoDimensions(lib, pose.x, pose.y, ch.target.x, ch.target.y);
      var xy: bool;
      if d > ch.distanceDeadband {
        var out := ch.speedPid.Calc(d, 0.0);
        result := result.(moving := out, speedAngle := Bearing(lib, pose, ch.target, d));
        xy := false;
      } else {
        result := result.(moving := 0.0, speedAngle := 0.0);
        ch.speedPid.ClearIntegral();
        xy := true;
      }
      var yaw := TurnToward(pt, AngleTrans(pose.yaw, ch.target.yaw));
      if xy && yaw {
        result := result.(arrived := Arrived);
      } else if xy {
        result := result.(arrived := ArriveXyNotYaw);
      } else {
        result := result.(arrived := NoArrive);
      }
    }

    /** The rotational block shared by the three strategies: drive the angle
        PID by `delta` outside the angle deadband, otherwise stop turning and
        clear its integral term. Returns whether the yaw has arrived. */
    method TurnToward(pt: nat, delta: real) returns (yaw: bool)
      requires Valid() && pt < PointTypeCount && channels[pt].anglePid != null
      modifies this, channels[pt].anglePid
      ensures channels == old(channels) && locations == old(locations) && chassisCtrl == old(chassisCtrl)
      ensures var ap := channels[pt].anglePid;
              (result.turning, ap.State(), yaw) == YawStep(ap.law, old(ap.State()), delta, channels[pt].angleDeadband)
      ensures result.moving == old(result.moving) && result.speedAngle == old(result.speedAngle)
      ensures result.arrived == old(result.arrived)
      ensures channels[pt].speedPid != null && channels[pt].speedPid != channels[pt].anglePid ==>
                channels[pt].speedPid.State() == old(channels[pt].speedPid.State())
    {
      var ap := channels[pt].anglePid;
      if CompareFloat(Abs(delta), channels[pt].angleDeadband) == MoreThan {
        var out := ap.Calc(delta, 0.0);
        result := result.(turning := out);
        yaw := false;
      } else {
        result := result.(turning := 0.0);
        ap.ClearIntegral();
        yaw := true;
      }
    }

    /** linear_pid_control. */
    method LinearPidControl(lib: Libm, pt: nat)
      requires Valid() && pt == PointLinear && Ready(pt)
      modifies this, channels[pt].speedPid, channels[pt].anglePid
      ensures Valid()
      ensures channels == old(channels) && locations == old(locations) && chassisCtrl == old(chassisCtrl)
      ensures NavOf(pt) == LinearControl(lib, TuningOf(channels[pt]), channels[pt].position.Current(),
                                         channels[pt].target, old(NavOf(pt)))
    {
      var ch := channels[pt];
      var pose := ch.position.Current();
      var d := TwoDimensions(lib, pose.x, pose.y, ch.target.x, ch.target.y);
      var xy, yaw: bool;
      if d > ch.distanceDeadband {
        var b := Bearing(lib, pose, ch.target, d);
        var out := ch.speedPid.Calc(d, 0.0);
        result := result.(moving := out, speedAngle := b);
        xy := false;
        yaw := TurnToward(pt, AngleTrans(pose.yaw, Rad2Deg(b)));
      } else {
        result := result.(moving := 0.0, speedAngle := 0.0);
        ch.speedPid.ClearIntegral();
        xy := true;
        yaw := TurnToward(pt, AngleTrans(pose.yaw, ch.target.yaw));
      }
      if xy && yaw {
        result := result.(arrived := Arrived);
      } else {
        result := result.(arrived := NoArrive);
      }
    }

    /** x_y_yaw_sequence_control. */
    method SequencePidControl(pt: nat)
      requires Valid() && pt == PointSequence && Ready(pt)
      modifies this, channels[pt].speedPid, channels[pt].anglePid
      ensures Valid()
      ensures channels == old(channels) && locations == old(locations) && chassisCtrl == old(chassisCtrl)
      ensures NavOf(pt) == SequenceControl(TuningOf(channels[pt]), channels[pt].position.Current(),
                                           channels[pt].target, old(NavOf(pt)))
    {
      var ch := channels[pt];
      var pose := ch.position.Current();
      var xIn, yIn, yaw := false, false, false;
      var dx := ch.target.x - pose.x;
      if CompareFloat(Abs(dx), ch.distanceDeadband) == MoreThan {
        var out := ch.speedPid.Calc(Abs(dx), 0.0);
        result := result.(moving := out, speedAngle := if dx > 0.0 then 0.0 else Pi);
      } else {
        xIn := true;
        var dy := ch.target.y - pose.y;
        if CompareFloat(Abs(dy), ch.distanceDeadband) == MoreThan {
          var out := ch.speedPid.Calc(Abs(dy), 0.0);
          result := result.(moving := out, speedAngle := if dy > 0.0 then Pi / 2.0 else -Pi / 2.0);
        } else {
          yIn := true;
          yaw := TurnToward(pt, AngleTrans(pose.yaw, ch.target.yaw));
          result := result.(moving := 0.0, speedAngle := 0.0);
          ch.speedPid.ClearIntegral();
        }
      }
      if xIn && yIn && yaw {
        result := result.(arrived := Arrived);
      } else {
        result := result.(arrived := NoArrive);
      }
    }

    /** go_path_by_point: store the target in the channel, run its strategy,
        and send the masked command to the chassis exactly once. An
        out-of-range point type returns PointTypeErr and changes nothing. */
    method ByPoint(lib: Libm, targetX: real, targetY: real, targetYaw: real, pt: nat) returns (a: Arrive)
      requires Valid() && chassisCtrl != null
      requires pt < PointTypeCount ==> Ready(pt)
      modifies this, chassisCtrl
      modifies if pt < PointTypeCount then {channels[pt].speedPid, channels[pt].anglePid} else {}
      ensures Valid()
      ensures locations == old(locations) && chassisCtrl == old(chassisCtrl)
      ensures pt >= PointTypeCount ==>
                a == PointTypeErr && channels == old(channels) && result == old(result)
                && unchanged(chassisCtrl)
      ensures pt < PointTypeCount ==>
                && a == result.arrived
                && channels == old(channels)[pt := old(channels[pt]).(target := Pose(targetX, targetY, targetYaw))]
                && Speed(chassisCtrl.speedX, chassisCtrl.speedY, chassisCtrl.speedW) == Command(lib, result)
                && chassisCtrl.halt == old(chassisCtrl.halt)
                && chassisCtrl.frictionSpeed == old(chassisCtrl.frictionSpeed)
                && chassisCtrl.shootFlag == old(chassisCtrl.shootFlag)
      ensures pt < PointTypeCount && !Drives(pt, channels[pt].locationType) ==> result == old(result)
      ensures pt < PointTypeCount && Drives(pt, channels[pt].locationType) ==>
                NavOf(pt) == Control(lib, pt, channels[pt].locationType, TuningOf(channels[pt]),
                                     channels[pt].position.Current(), channels[pt].target, old(NavOf(pt)))
    {
      if pt >= PointTypeCount {
        return PointTypeErr;
      }
      channels := channels[pt := channels[pt].(target := Pose(targetX, targetY, targetYaw))];
      if pt == PointLinear {
        LinearPidControl(lib, pt);
      } else if pt == PointSequence {
        SequencePidControl(pt);
      } else if channels[pt].locationType == LocationAction || channels[pt].locationType == LocationNuc {
        ActionPidControl(lib, pt);
      }
      var cmd := Command(lib, result);
      chassisCtrl.ChassisSpeed(cmd.x, cmd.y, cmd.w);
      a := result.arrived;
    }
  }
}
