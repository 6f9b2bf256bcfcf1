/** The remote-control report task (User/Application/Src/remote_report.c):
    on request it refreshes one of two persistent report records from the
    chassis or shooter state and sends it. Each record carries a status byte
    whose low bits mirror state flags; the other bits are never written. */
module RemoteReport {
  import opened Base
  import opened Includes

  /** Bits of the shooter status byte: ball pushed up, shooter enabled. */
  const PushMask: bv8 := 0x02
  const ShootMask: bv8 := 0x01

  /** Bits of the chassis status byte: halted, aiming, world frame. */
  const HaltMask: bv8 := 0x04
  const FocusMask: bv8 := 0x02
  const WorldMask: bv8 := 0x01

  /** The bits neither record's code writes. */
  const ChassisReserved: bv8 := 0xF8
  const ShootReserved: bv8 := 0xFC

  /** SET_BIT when `on`, CLEAR_BIT otherwise. */
  function SetOrClear(b: bv8, mask: bv8, on: bool): bv8
  {
    if on then b | mask else b & !mask
  }

  /** The chassis status byte after the refresh: bit 2 is the halt flag,
      bit 1 the aiming flag, bit 0 the world-frame flag, and bits 7..3 are
      what they were. */
  function ChassisBits(b: bv8, collimation: bool, yawFlag: bool, halt: bool): (r: bv8)
    ensures (r & HaltMask != 0) == halt
    ensures (r & FocusMask != 0) == collimation
    ensures (r & WorldMask != 0) == yawFlag
    ensures r & ChassisReserved == b & ChassisReserved
  {
    SetOrClear(SetOrClear(SetOrClear(b, FocusMask, collimation), WorldMask, yawFlag), HaltMask, halt)
  }

  /** The shooter status byte after the refresh: bit 1 is set iff the flag
      is 1 (pushing), bit 0 iff the flag is not 0 (enabled), and bits 7..2
      are what they were. */
  function ShootBits(b: bv8, flag: U8): (r: bv8)
    ensures (r & PushMask != 0) == (flag == 1)
    ensures (r & ShootMask != 0) == (flag != 0)
    ensures r & ShootReserved == b & ShootReserved
  {
    SetOrClear(SetOrClear(b, PushMask, flag == 1), ShootMask, flag != 0)
  }

  /** With the reserved bits still 0, the three shooter flags give the
      bytes 0b00, 0b11 and 0b01. */
  lemma ShootByteOfFlag(b: bv8, flag: U8)
    requires b & ShootReserved == 0
    ensures flag == 0 ==> ShootBits(b, flag) == 0
    ensures flag == 1 ==> ShootBits(b, flag) == 3
    ensures flag == 2 ==> ShootBits(b, flag) == 1
  {
  }

  /** The chassis state the position report reads. */
  datatype ChassisView = ChassisView(
    x: real, y: real, yaw: real, pointIndex: U8, halt: bool, collimation: bool, yawFlag: bool)

  /** The shooter state (shoot_sub) the shooter report reads. */
  datatype ShootView = ShootView(speed: real, flag: U8)

  /** A sent record. The pose is the int16_t conversion of the float pose. */
  datatype Frame =
    | PositionFrame(x: int, y: int, yaw: int, pointIndex: U8, status: bv8)
    | ShootFrame(speed: real, status: bv8)

  /** The value a report kind is queued as. */
  function KindCode(k: ReportKind): int
  {
    match k
    case ReportPosition => 0
    case ReportShoot => 1
  }

  class Reporter {
    /** report_chassis */
    var x: int
    var y: int
    var yaw: int
    var pointIndex: U8
    var chassisStatus: bv8
    /** report_shoot */
    var shootSpeed: real
    var shootStatus: bv8

    /** The reserved bits of both status bytes are 0. */
    predicate Valid()
      reads this
    {
      chassisStatus & ChassisReserved == 0 && shootStatus & ShootReserved == 0
    }

    /** The static zero initialisation. */
    constructor ()
      ensures Valid() && x == 0 && y == 0 && yaw == 0 && pointIndex == 0 && chassisStatus == 0
      ensures shootSpeed == 0.0 && shootStatus == 0
    {
      x, y, yaw, pointIndex, chassisStatus := 0, 0, 0, 0, 0;
      shootSpeed, shootStatus := 0.0, 0;
    }

    /** One pass of remote_report_task for the queued value `code`. The
        position record takes the converted pose (`toInt16` is the float to
        int16_t conversion), the point index and the three chassis flags;
        the shooter record takes the speed and the flag; any other value
        sends nothing and changes nothing. */
    method Report(code: int, c: ChassisView, s: ShootView, toInt16: real -> int) returns (sent: Option<Frame>)
      requires Valid()
      modifies this
      ensures Valid()
      ensures code == KindCode(ReportPosition) ==>
                && x == toInt16(c.x) && y == toInt16(c.y) && yaw == toInt16(c.yaw)
                && pointIndex == c.pointIndex
                && chassisStatus == ChassisBits(old(chassisStatus), c.collimation, c.yawFlag, c.halt)
                && shootSpeed == old(shootSpeed) && shootStatus == old(shootStatus)
                && sent == Some(PositionFrame(x, y, yaw, pointIndex, chassisStatus))
      ensures code == KindCode(ReportShoot) ==>
                && shootSpeed == s.speed && shootStatus == ShootBits(old(shootStatus), s.flag)
                && x == old(x) && y == old(y) && yaw == old(yaw)
                && pointIndex == old(pointIndex) && chassisStatus == old(chassisStatus)
                && sent == Some(ShootFrame(shootSpeed, shootStatus))
      ensures code != KindCode(ReportPosition) && code != KindCode(ReportShoot) ==>
                && sent == None
                && x == old(x) && y == old(y) && yaw == old(yaw) && pointIndex == old(pointIndex)
                && chassisStatus == old(chassisStatus)
                && shootSpeed == old(shootSpeed) && shootStatus == old(shootStatus)
    {
      sent := None;
      if code == 0 {
        x, y, yaw := toInt16(c.x), toInt16(c.y), toInt16(c.yaw);
        pointIndex := c.pointIndex;
        if c.collimation {
          chassisStatus := chassisStatus | FocusMask;
        } else {
          chassisStatus := chassisStatus & !FocusMask;
        }
        if c.yawFlag {
          chassisStatus := chassisStatus | WorldMask;
        } else {
          chassisStatus := chassisStatus & !WorldMask;
        }
        if c.halt {
          chassisStatus := chassisStatus | HaltMask;
        } else {
          chassisStatus := chassisStatus & !HaltMask;
        }
        sent := Some(PositionFrame(x, y, yaw, pointIndex, chassisStatus));
      } else if code == 1 {
        shootSpeed := s.speed;
        if s.flag == 1 {
          shootStatus := shootStatus | PushMask;
        } else {
          shootStatus := shootStatus & !PushMask;
        }
        if s.flag != 0 {
          shootStatus := shootStatus | ShootMask;
        } else {
          shootStatus := shootStatus & !ShootMask;
        }
        sent := Some(ShootFrame(shootSpeed, shootStatus));
      }
    }
  }

  /** Whatever reports came before, a shooter report sends the byte the
      current flag alone decides. */
  lemma ShootReportForgetsHistory(b1: bv8, b2: bv8, flag: U8)
    requires b1 & ShootReserved == 0 && b2 & ShootReserved == 0
    ensures ShootBits(b1, flag) == ShootBits(b2, flag)
  {
  }
}
