/** The start-up order of User/Application/Src/rtos_tasks.c: the chassis,
    dribble, shooter and main-control initialisers run one after another,
    and each registers its remote-control key callbacks. Several of them
    claim the same key, so the order decides who is left holding it. Only
    the registrations are modelled; the tasks the initialisers create are
    the step methods of their own modules. */
module RtosTasks {
  import opened Base
  import opened Includes
  import opened RemoteCtrl

  /** The callbacks registered with the remote control. */
  datatype Handler =
    | ChassisRemoteKey  // chassis_remote_key
    | KeyDribbleBall    // key_dribble_ball
    | FribeltSpeedCtrl  // fribelt_speed_ctrl
    | PushBallCtrl      // push_ball_ctrl
    | SetMainCtrlKey    // set_main_ctrl_key

  const Down: nat := KeyEventIndex(PressDown)
  const Up: nat := KeyEventIndex(PressUp)

  /** chassis_init: aiming (3) on release, halt (1) on press, run-point
      (4) on press and release, world frame (2) and spin speed (6) on
      release. */
  function ChassisInit(t: Table<Handler>): (r: Table<Handler>)
    requires WellFormed(t)
    ensures WellFormed(r)
  {
    var t := Assign(t, 3, Up, Some(ChassisRemoteKey));
    var t := Assign(t, 1, Down, Some(ChassisRemoteKey));
    var t := Assign(t, 4, Down, Some(ChassisRemoteKey));
    var t := Assign(t, 4, Up, Some(ChassisRemoteKey));
    var t := Assign(t, 2, Up, Some(ChassisRemoteKey));
    Assign(t, 6, Up, Some(ChassisRemoteKey))
  }

  /** dribble_init: whole process (8), part process (10), clamp (2), push
      toggle (27), handover (9), push in (3), push out (4), all on press. */
  function DribbleInit(t: Table<Handler>): (r: Table<Handler>)
    requires WellFormed(t)
    ensures WellFormed(r)
  {
    var t := Assign(t, 8, Down, Some(KeyDribbleBall));
    var t := Assign(t, 10, Down, Some(KeyDribbleBall));
    var t := Assign(t, 2, Down, Some(KeyDribbleBall));
    var t := Assign(t, 27, Down, Some(KeyDribbleBall));
    var t := Assign(t, 9, Down, Some(KeyDribbleBall));
    var t := Assign(t, 3, Down, Some(KeyDribbleBall));
    Assign(t, 4, Down, Some(KeyDribbleBall))
  }

  /** shoot_ctrl_init: speed up (5), preset speed (38), slow down (11),
      enable (6), disable (12), small speed (35), all on press. */
  function ShootCtrlInit(t: Table<Handler>): (r: Table<Handler>)
    requires WellFormed(t)
    ensures WellFormed(r)
  {
    var t := Assign(t, 5, Down, Some(FribeltSpeedCtrl));
    var t := Assign(t, 38, Down, Some(FribeltSpeedCtrl));
    var t := Assign(t, 11, Down, Some(FribeltSpeedCtrl));
    var t := Assign(t, 6, Down, Some(PushBallCtrl));
    var t := Assign(t, 12, Down, Some(PushBallCtrl));
    Assign(t, 35, Down, Some(FribeltSpeedCtrl))
  }

  /** main_ctrl_init: minimum ring (4) on press, left point (17), right
      point (18), small loop (5) and big loop (11) on release. */
  function MainCtrlInit(t: Table<Handler>): (r: Table<Handler>)
    requires WellFormed(t)
    ensures WellFormed(r)
  {
    var t := Assign(t, 4, Down, Some(SetMainCtrlKey));
    var t := Assign(t, 17, Up, Some(SetMainCtrlKey));
    var t := Assign(t, 18, Up, Some(SetMainCtrlKey));
    var t := Assign(t, 5, Up, Some(SetMainCtrlKey));
    Assign(t, 11, Up, Some(SetMainCtrlKey))
  }

  /** The table once start_task has run the four initialisers in order. */
  function BootTable(): (r: Table<Handler>)
    ensures WellFormed(r)
  {
    MainCtrlInit(ShootCtrlInit(DribbleInit(ChassisInit(EmptyTable()))))
  }

  /** Who should hear each (key, event), read off the four initialisers
      with the later registration of a slot winning and keys above 18
      dropped. */
  function Expected(key: nat, e: nat): Option<Handler>
  {
    match (key, e)
    case (1, 0) => Some(ChassisRemoteKey)
    case (2, 0) => Some(KeyDribbleBall)
    case (2, 2) => Some(ChassisRemoteKey)
    case (3, 0) => Some(KeyDribbleBall)
    case (3, 2) => Some(ChassisRemoteKey)
    case (4, 0) => Some(SetMainCtrlKey)
    case (4, 2) => Some(ChassisRemoteKey)
    case (5, 0) => Some(FribeltSpeedCtrl)
    case (5, 2) => Some(SetMainCtrlKey)
    case (6, 0) => Some(PushBallCtrl)
    case (6, 2) => Some(ChassisRemoteKey)
    case (8, 0) => Some(KeyDribbleBall)
    case (9, 0) => Some(KeyDribbleBall)
    case (10, 0) => Some(KeyDribbleBall)
    case (11, 0) => Some(FribeltSpeedCtrl)
    case (11, 2) => Some(SetMainCtrlKey)
    case (12, 0) => Some(PushBallCtrl)
    case (17, 2) => Some(SetMainCtrlKey)
    case (18, 2) => Some(SetMainCtrlKey)
    case _ => None
  }

  /** Every slot of the booted table is the expected one; in particular the
      chassis run-point press (key 4) is taken over by the dribble push-out
      and then by the main-control ring key, and no slot is held by a
      registration for key 27, 35 or 38. */
  lemma BootTableIsExpected()
    ensures forall k, e :: 0 <= k < KeyCount && 0 <= e < KeyEventCount ==> BootTable()[k][e] == Expected(k + 1, e)
  {
    forall k, e | 0 <= k < KeyCount && 0 <= e < KeyEventCount
      ensures BootTable()[k][e] == Expected(k + 1, e)
    {
      SlotIsExpected(k, e);
    }
  }

  lemma SlotIsExpected(k: nat, e: nat)
    requires k < KeyCount && e < KeyEventCount
    ensures BootTable()[k][e] == Expected(k + 1, e)
  {
    var t0 := EmptyTable<Handler>();
    var t1 := ChassisInit(t0);
    var t2 := DribbleInit(t1);
    var t3 := ShootCtrlInit(t2);
    ChassisSlot(t0, k, e);
    DribbleSlot(t1, k, e);
    ShootSlot(t2, k, e);
    MainSlot(t3, k, e);
    ExpectedBySlots(k, e, t0, t1, t2, t3, BootTable());
  }

  /** The four slot statements, chained, give the expected entry. */
  lemma ExpectedBySlots(k: nat, e: nat, t0: Table<Handler>, t1: Table<Handler>, t2: Table<Handler>,
                        t3: Table<Handler>, t4: Table<Handler>)
    requires k < KeyCount && e < KeyEventCount
    requires WellFormed(t0) && WellFormed(t1) && WellFormed(t2) && WellFormed(t3) && WellFormed(t4)
    requires t0[k][e] == None
    requires t1[k][e] == if (k + 1, e) in {(3, Up), (1, Down), (4, Down), (4, Up), (2, Up), (6, Up)}
                         then Some(ChassisRemoteKey) else t0[k][e]
    requires t2[k][e] == if e == Down && k + 1 in {8, 10, 2, 9, 3, 4} then Some(KeyDribbleBall) else t1[k][e]
    requires t3[k][e] == if e == Down && k + 1 in {5, 11} then Some(FribeltSpeedCtrl)
                         else if e == Down && k + 1 in {6, 12} then Some(PushBallCtrl)
                         else t2[k][e]
    requires t4[k][e] == if (k + 1, e) in {(4, Down), (17, Up), (18, Up), (5, Up), (11, Up)}
                         then Some(SetMainCtrlKey) else t3[k][e]
    ensures t4[k][e] == Expected(k + 1, e)
  {
    if e == Down {
    } else if e == Up {
    } else {
    }
  }

  /** Each initialiser as a slot-by-slot statement. */
  lemma ChassisSlot(t: Table<Handler>, k: nat, e: nat)
    requires WellFormed(t) && k < KeyCount && e < KeyEventCount
    ensures ChassisInit(t)[k][e]
            == if (k + 1, e) in {(3, Up), (1, Down), (4, Down), (4, Up), (2, Up), (6, Up)}
               then Some(ChassisRemoteKey) else t[k][e]
  {
  }

  lemma DribbleSlot(t: Table<Handler>, k: nat, e: nat)
    requires WellFormed(t) && k < KeyCount && e < KeyEventCount
    ensures DribbleInit(t)[k][e]
            == if e == Down && k + 1 in {8, 10, 2, 9, 3, 4} then Some(KeyDribbleBall) else t[k][e]
  {
  }

  lemma ShootSlot(t: Table<Handler>, k: nat, e: nat)
    requires WellFormed(t) && k < KeyCount && e < KeyEventCount
    ensures ShootCtrlInit(t)[k][e]
            == if e == Down && k + 1 in {5, 11} then Some(FribeltSpeedCtrl)
               else if e == Down && k + 1 in {6, 12} then Some(PushBallCtrl)
               else t[k][e]
  {
  }

  lemma MainSlot(t: Table<Handler>, k: nat, e: nat)
    requires WellFormed(t) && k < KeyCount && e < KeyEventCount
    ensures MainCtrlInit(t)[k][e]
            == if (k + 1, e) in {(4, Down), (17, Up), (18, Up), (5, Up), (11, Up)}
               then Some(SetMainCtrlKey) else t[k][e]
  {
  }

  /** Pressing key 4 reaches set_main_ctrl_key alone; releasing it reaches
      chassis_remote_key alone. */
  lemma RunPointKey()
    ensures Dispatch(BootTable(), [KeyCall(4, PressDown)]) == [Invocation(SetMainCtrlKey, 4, PressDown)]
    ensures Dispatch(BootTable(), [KeyCall(4, PressUp)]) == [Invocation(ChassisRemoteKey, 4, PressUp)]
  {
    BootTableIsExpected();
    var t := BootTable();
    assert Dispatch(t, [KeyCall(4, PressDown)]) == Invoke(t, KeyCall(4, PressDown)) + Dispatch(t, []);
    assert Dispatch(t, [KeyCall(4, PressUp)]) == Invoke(t, KeyCall(4, PressUp)) + Dispatch(t, []);
  }

  /** The rows of the table (keys 1..18) a handler is reachable from after
      boot: the dribble push toggle (27), the preset speed (38) and the
      small speed (35) are registered but never called. */
  lemma UnreachableRegistrations(key: U8, e: KeyEvent)
    requires key in {27, 35, 38}
    ensures Dispatch(BootTable(), [KeyCall(key, e)]) == []
  {
    var t := BootTable();
    assert Dispatch(t, [KeyCall(key, e)]) == Invoke(t, KeyCall(key, e)) + Dispatch(t, []);
  }

  /** start_task's four initialisers, each registering through the remote
      control as its C counterpart does. */
  method Boot() returns (rc: RemoteCtrl<Handler>)
    ensures fresh(rc) && rc.Valid()
    ensures rc.table == BootTable() && rc.lastKey == 0
  {
    rc := new RemoteCtrl<Handler>();
    // chassis_init
    rc.Register(3, Up, ChassisRemoteKey);
    rc.Register(1, Down, ChassisRemoteKey);
    rc.Register(4, Down, ChassisRemoteKey);
    rc.Register(4, Up, ChassisRemoteKey);
    rc.Register(2, Up, ChassisRemoteKey);
    rc.Register(6, Up, ChassisRemoteKey);
    // dribble_init
    rc.Register(8, Down, KeyDribbleBall);
    rc.Register(10, Down, KeyDribbleBall);
    rc.Register(2, Down, KeyDribbleBall);
    rc.Register(27, Down, KeyDribbleBall);
    rc.Register(9, Down, KeyDribbleBall);
    rc.Register(3, Down, KeyDribbleBall);
    rc.Register(4, Down, KeyDribbleBall);
    // shoot_ctrl_init
    rc.Register(5, Down, FribeltSpeedCtrl);
    rc.Register(38, Down, FribeltSpeedCtrl);
    rc.Register(11, Down, FribeltSpeedCtrl);
    rc.Register(6, Down, PushBallCtrl);
    rc.Register(12, Down, PushBallCtrl);
    rc.Register(35, Down, FribeltSpeedCtrl);
    // main_ctrl_init
    rc.Register(4, Down, SetMainCtrlKey);
    rc.Register(17, Up, SetMainCtrlKey);
    rc.Register(18, Up, SetMainCtrlKey);
    rc.Register(5, Up, SetMainCtrlKey);
    rc.Register(11, Up, SetMainCtrlKey);
  }
}
