/** The outgoing record to the chassis/shooter slave board that the
    controllers publish into (User/Application/Src/sub_pub.c): each `sub_*`
    call stores its arguments and nothing else. */
module SubPub {
  import opened Base

  /** The published record as a value. */
  datatype Published = Published(
    speedX: real, speedY: real, speedW: real, halt: bool, frictionSpeed: real, shootFlag: U8)

  class PubToSlave {
    var speedX: real
    var speedY: real
    var speedW: real
    var halt: bool
    var frictionSpeed: real
    var shootFlag: U8

    constructor ()
      ensures speedX == 0.0 && speedY == 0.0 && speedW == 0.0 && !halt
      ensures frictionSpeed == 0.0 && shootFlag == 0
    {
      speedX, speedY, speedW := 0.0, 0.0, 0.0;
      halt := false;
      frictionSpeed := 0.0;
      shootFlag := 0;
    }

    function Snapshot(): Published
      reads this
    {
      Published(speedX, speedY, speedW, halt, frictionSpeed, shootFlag)
    }

    /** sub_chassis_speed. */
    method ChassisSpeed(x: real, y: real, w: real)
      modifies this
      ensures speedX == x && speedY == y && speedW == w
      ensures halt == old(halt) && frictionSpeed == old(frictionSpeed) && shootFlag == old(shootFlag)
    {
      speedX, speedY, speedW := x, y, w;
    }

    /** sub_chassis_halt. */
    method ChassisHalt(h: bool)
      modifies this
      ensures halt == h
      ensures speedX == old(speedX) && speedY == old(speedY) && speedW == old(speedW)
      ensures frictionSpeed == old(frictionSpeed) && shootFlag == old(shootFlag)
    {
      halt := h;
    }

    /** sub_friction_data. */
    method FrictionData(speed: real)
      modifies this
      ensures frictionSpeed == speed
      ensures speedX == old(speedX) && speedY == old(speedY) && speedW == old(speedW)
      ensures halt == old(halt) && shootFlag == old(shootFlag)
    {
      frictionSpeed := speed;
    }

    /** sub_friction_flag. */
    method FrictionFlag(flag: U8)
      modifies this
      ensures shootFlag == flag
      ensures speedX == old(speedX) && speedY == old(speedY) && speedW == old(speedW)
      ensures halt == old(halt) && frictionSpeed == old(frictionSpeed)
    {
      shootFlag := flag;
    }
  }
}
