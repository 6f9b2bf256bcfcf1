/** The operator input router (User/Modules/remote_ctrl/remote_ctrl.c): a
    serial frame carries the pressed key and four stick bytes; a detector
    that remembers only the previous key turns successive frames into
    press-down, pressing and press-up events, and an 18 x 3 table of
    callbacks decides who hears each event.

    The callbacks are values of a type parameter `H`; a frame's handling
    returns the invocations it makes, in order, instead of calling them. */
module RemoteCtrl {
  import opened Base
  import opened Includes

  /** The number of keys with a callback row. */
  const KeyCount: nat := 18

  /** remote_ctrl_data_t: the key byte and the four int8_t stick values. */
  datatype RemoteData = RemoteData(key: U8, rs: seq<int>)

  /** An edge event produced by the detector: KEY_EVENT_CB(key, event). */
  datatype KeyCall = KeyCall(key: U8, event: KeyEvent)

  /** One callback invocation: the handler and the arguments it receives. */
  datatype Invocation<H> = Invocation(handler: H, key: U8, event: KeyEvent)

  /** key_callback[18][REMOTE_KEY_EVENT_NUM]; None is a NULL slot. */
  type Table<H> = seq<seq<Option<H>>>

  predicate WellFormed<H>(t: Table<H>)
  {
    |t| == KeyCount && forall k :: 0 <= k < |t| ==> |t[k]| == KeyEventCount
  }

  /** The table of static zero initialisation. */
  function EmptyTable<H>(): (t: Table<H>)
    ensures WellFormed(t)
    ensures forall k, e :: 0 <= k < KeyCount && 0 <= e < KeyEventCount ==> t[k][e] == None
  {
    seq(KeyCount, _ => seq(KeyEventCount, _ => None))
  }

  /** The payload decoded as remote_ctrl_data_t: byte 0 is the key, bytes
      1..4 the signed stick values. */
  function Decode(payload: seq<U8>): (d: RemoteData)
    requires |payload| == 5
    ensures d.key == payload[0] && |d.rs| == 4
    ensures forall i :: 0 <= i < 4 ==> -128 <= d.rs[i] < 128 && d.rs[i] % 256 == payload[i + 1]
  {
    RemoteData(payload[0], [AsInt8(payload[1]), AsInt8(payload[2]), AsInt8(payload[3]), AsInt8(payload[4])])
  }

  /** The events one frame produces from the previous key `last` and its own key. */
  function Edges(last: U8, key: U8): (r: seq<KeyCall>)
    ensures |r| <= 2
    ensures forall i :: 0 <= i < |r| ==> r[i].key != 0
  {
    if last != 0 then
      if key == 0 then [KeyCall(last, PressUp)]
      else if key == last then [KeyCall(key, Pressing)]
      else [KeyCall(last, PressUp), KeyCall(key, PressDown)]
    else if key != 0 then [KeyCall(key, PressDown)]
    else []
  }

  /** The detector reports a release of the previous key when it changed, a
      hold when it stayed, and a press of the new key when it changed; a
      release always comes before a press, and no key means no event. */
  lemma EdgesDetect(last: U8, key: U8)
    ensures var r := Edges(last, key);
            && (forall k: U8 :: KeyCall(k, PressUp) in r <==> k == last != 0 && key != last)
            && (forall k: U8 :: KeyCall(k, Pressing) in r <==> k == last == key != 0)
            && (forall k: U8 :: KeyCall(k, PressDown) in r <==> k == key != 0 && key != last)
            && (|r| == 2 ==> r[0].event == PressUp && r[1].event == PressDown)
            && (last == 0 && key == 0 ==> r == [])
  {
  }

  /** The events of a sequence of accepted frames, starting from `last`. */
  function EdgeTrace(last: U8, keys: seq<U8>): (r: seq<KeyCall>)
    ensures forall i :: 0 <= i < |r| ==> r[i].key != 0
    decreases |keys|
  {
    if keys == [] then [] else Edges(last, keys[0]) + EdgeTrace(keys[0], keys[1..])
  }

  /** A tap of key 5 seen in four frames is exactly one press-down, one
      pressing and one press-up of key 5. */
  lemma TapOfKeyFive()
    ensures EdgeTrace(0, [0, 5, 5, 0]) == [KeyCall(5, PressDown), KeyCall(5, Pressing), KeyCall(5, PressUp)]
  {
    var keys: seq<U8> := [0, 5, 5, 0];
    assert keys[1..] == [5, 5, 0];
    assert keys[1..][1..] == [5, 0];
    assert keys[1..][1..][1..] == [0];
    assert keys[1..][1..][1..][1..] == [];
  }

  /** Holding a key for `n` further frames after pressing it produces one
      press-down followed by `n` pressing events. */
  lemma {:induction false} HoldingKey(k: U8, n: nat)
    requires k != 0
    ensures EdgeTrace(0, [k] + seq(n, _ => k)) == [KeyCall(k, PressDown)] + seq(n, _ => KeyCall(k, Pressing))
  {
    HoldTail(k, n);
    assert ([k] + seq(n, _ => k))[1..] == seq(n, _ => k);
  }

  lemma {:induction false} HoldTail(k: U8, n: nat)
    requires k != 0
    ensures EdgeTrace(k, seq(n, _ => k)) == seq(n, _ => KeyCall(k, Pressing))
  {
    if n > 0 {
      HoldTail(k, n - 1);
      var keys := seq(n, _ => k);
      assert keys[0] == k;
      assert keys[1..] == seq(n - 1, _ => k);
      assert seq(n, _ => KeyCall(k, Pressing)) == [KeyCall(k, Pressing)] + seq(n - 1, _ => KeyCall(k, Pressing));
    }
  }

  /** KEY_EVENT_CB: the registered callback of a key at most 18, or nothing. */
  function Invoke<H>(t: Table<H>, c: KeyCall): (r: seq<Invocation<H>>)
    requires WellFormed(t) && c.key >= 1
    ensures c.key <= KeyCount && t[c.key - 1][KeyEventIndex(c.event)].Some? ==>
              r == [Invocation(t[c.key - 1][KeyEventIndex(c.event)].value, c.key, c.event)]
    ensures c.key > KeyCount || t[c.key - 1][KeyEventIndex(c.event)].None? ==> r == []
  {
    if c.key <= KeyCount && t[c.key - 1][KeyEventIndex(c.event)].Some? then
      [Invocation(t[c.key - 1][KeyEventIndex(c.event)].value, c.key, c.event)]
    else []
  }

  /** The invocations made for a sequence of events: exactly the registered
      (key, event) slots of keys 1..18 that the events name, in order. */
  function Dispatch<H>(t: Table<H>, calls: seq<KeyCall>): (r: seq<Invocation<H>>)
    requires WellFormed(t)
    requires forall i :: 0 <= i < |calls| ==> calls[i].key >= 1
    ensures |r| <= |calls|
  {
    if calls == [] then [] else Invoke(t, calls[0]) + Dispatch(t, calls[1..])
  }

  /** Every invocation is of a registered slot of a key 1..18 that one of
      the events names. */
  lemma {:induction false} DispatchSound<H>(t: Table<H>, calls: seq<KeyCall>)
    requires WellFormed(t)
    requires forall i :: 0 <= i < |calls| ==> calls[i].key >= 1
    ensures var r := Dispatch(t, calls);
            forall i :: 0 <= i < |r| ==>
              1 <= r[i].key <= KeyCount && t[r[i].key - 1][KeyEventIndex(r[i].event)] == Some(r[i].handler)
              && KeyCall(r[i].key, r[i].event) in calls
    decreases |calls|
  {
    if calls != [] {
      DispatchSound(t, calls[1..]);
      assert forall k :: 0 <= k < |Dispatch(t, calls[1..])| ==> 1 <= Dispatch(t, calls[1..])[k].key;
      var head: seq<Invocation<H>>, rest: seq<Invocation<H>> := Invoke(t, calls[0]), Dispatch(t, calls[1..]);
      forall i | 0 <= i < |head + rest|
        ensures var v: Invocation<H> := (head + rest)[i];
                1 <= v.key <= KeyCount && t[v.key - 1][KeyEventIndex(v.event)] == Some(v.handler)
                && KeyCall(v.key, v.event) in calls
      {
        if i < |head| {
          var c := calls[0];
          assert head == [Invocation(t[c.key - 1][KeyEventIndex(c.event)].value, c.key, c.event)];
          assert (head + rest)[i] == head[0];
        } else {
          var v := rest[i - |head|];
          assert (head + rest)[i] == v;
          assert KeyCall(v.key, v.event) in calls[1..];
        }
      }
    }
  }

  /** Every registered slot of a key 1..18 that an event names is invoked. */
  lemma {:induction false} DispatchComplete<H>(t: Table<H>, calls: seq<KeyCall>)
    requires WellFormed(t)
    requires forall i :: 0 <= i < |calls| ==> calls[i].key >= 1
    ensures forall c :: c in calls && c.key <= KeyCount && t[c.key - 1][KeyEventIndex(c.event)].Some? ==>
              Invocation(t[c.key - 1][KeyEventIndex(c.event)].value, c.key, c.event) in Dispatch(t, calls)
    decreases |calls|
  {
    if calls != [] {
      DispatchComplete(t, calls[1..]);
      var head: seq<Invocation<H>>, rest: seq<Invocation<H>> := Invoke(t, calls[0]), Dispatch(t, calls[1..]);
      forall c | c in calls && c.key <= KeyCount && t[c.key - 1][KeyEventIndex(c.event)].Some?
        ensures Invocation(t[c.key - 1][KeyEventIndex(c.event)].value, c.key, c.event) in head + rest
      {
        if c != calls[0] {
          assert c in calls[1..];
        }
      }
    }
  }

  /** The invocations of two batches of events are those of each, in order. */
  lemma {:induction false} DispatchAppend<H>(t: Table<H>, xs: seq<KeyCall>, ys: seq<KeyCall>)
    requires WellFormed(t)
    requires forall i :: 0 <= i < |xs| ==> xs[i].key >= 1
    requires forall i :: 0 <= i < |ys| ==> ys[i].key >= 1
    ensures Dispatch(t, xs + ys) == Dispatch(t, xs) + Dispatch(t, ys)
    decreases |xs|
  {
    if xs != [] {
      assert (xs + ys)[1..] == xs[1..] + ys;
      DispatchAppend(t, xs[1..], ys);
    } else {
      assert xs + ys == ys;
    }
  }

  /** One write of the table under the guards of register/unregister: a key
      above 18 or an event number from REMOTE_KEY_EVENT_NUM on changes
      nothing. */
  function Assign<H>(t: Table<H>, key: U8, event: nat, slot: Option<H>): (r: Table<H>)
    requires WellFormed(t) && key >= 1
    ensures WellFormed(r)
    ensures key > KeyCount || event >= KeyEventCount ==> r == t
    ensures forall k, e :: 0 <= k < KeyCount && 0 <= e < KeyEventCount ==>
              r[k][e] == (if k == key - 1 && e == event then slot else t[k][e])
  {
    if key > KeyCount || event >= KeyEventCount then t
    else t[key - 1 := t[key - 1][event := slot]]
  }

  /** The last registration of a slot wins, and writes of distinct slots
      commute. */
  lemma LastRegistrationWins<H>(t: Table<H>, key: U8, event: nat, a: Option<H>, b: Option<H>)
    requires WellFormed(t) && key >= 1
    ensures Assign(Assign(t, key, event, a), key, event, b) == Assign(t, key, event, b)
  {
    var l, r := Assign(Assign(t, key, event, a), key, event, b), Assign(t, key, event, b);
    assert forall k :: 0 <= k < KeyCount ==> l[k] == r[k];
  }

  lemma AssignCommutes<H>(t: Table<H>, k1: U8, e1: nat, a: Option<H>, k2: U8, e2: nat, b: Option<H>)
    requires WellFormed(t) && k1 >= 1 && k2 >= 1
    requires k1 != k2 || e1 != e2
    ensures Assign(Assign(t, k1, e1, a), k2, e2, b) == Assign(Assign(t, k2, e2, b), k1, e1, a)
  {
    var l, r := Assign(Assign(t, k1, e1, a), k2, e2, b), Assign(Assign(t, k2, e2, b), k1, e1, a);
    assert forall k :: 0 <= k < KeyCount ==> l[k] == r[k];
  }

  /** After unregistration the slot is silent: an event for it invokes nothing. */
  lemma UnregisteredSlotIsSilent<H>(t: Table<H>, key: U8, e: KeyEvent)
    requires WellFormed(t) && key >= 1
    ensures Dispatch(Assign(t, key, KeyEventIndex(e), None), [KeyCall(key, e)]) == []
  {
    var u := Assign(t, key, KeyEventIndex(e), None);
    assert Dispatch(u, [KeyCall(key, e)]) == Invoke(u, KeyCall(key, e)) + Dispatch(u, []);
  }

  class RemoteCtrl<H> {
    /** g_remote_ctrl_data */
    var data: RemoteData
    /** the static `last_key` of remote_receive_callback */
    var lastKey: U8
    /** key_callback */
    var table: Table<H>

    predicate Valid()
      reads this
    {
      WellFormed(table)
    }

    /** Static zero initialisation. */
    constructor ()
      ensures Valid() && table == EmptyTable() && lastKey == 0
      ensures data == RemoteData(0, [0, 0, 0, 0])
    {
      data := RemoteData(0, [0, 0, 0, 0]);
      lastKey := 0;
      table := EmptyTable();
    }

    /** remote_receive_callback. A frame other than five bytes of type
        MSG_DATA_UINT8 (`isUint8`) is ignored. Otherwise the data is stored,
        the edge events of the previous and the new key are dispatched, and
        the new key is remembered. */
    method Receive(length: nat, isUint8: bool, payload: seq<U8>) returns (calls: seq<Invocation<H>>)
      requires Valid() && |payload| == length
      modifies this
      ensures Valid() && table == old(table)
      ensures !(length == 5 && isUint8) ==> calls == [] && data == old(data) && lastKey == old(lastKey)
      ensures length == 5 && isUint8 ==>
                && data == Decode(payload)
                && lastKey == payload[0]
                && calls == Dispatch(table, Edges(old(lastKey), payload[0]))
    {
      calls := [];
      if length != 5 || !isUint8 {
        return;
      }
      data := Decode(payload);
      if lastKey != 0 {
        if data.key == 0 {
          calls := KeyEventCb(lastKey, PressUp);
        } else if data.key == lastKey {
          calls := KeyEventCb(data.key, Pressing);
        } else {
          var up := KeyEventCb(lastKey, PressUp);
          var down := KeyEventCb(data.key, PressDown);
          calls := up + down;
          DispatchAppend(table, [KeyCall(lastKey, PressUp)], [KeyCall(data.key, PressDown)]);
        }
      } else if data.key != 0 {
        calls := KeyEventCb(data.key, PressDown);
      }
      lastKey := data.key;
    }

    /** KEY_EVENT_CB(key, event). */
    method KeyEventCb(key: U8, event: KeyEvent) returns (calls: seq<Invocation<H>>)
      requires Valid() && key >= 1
      ensures calls == Dispatch(table, [KeyCall(key, event)])
    {
      calls := [];
      if key <= KeyCount && table[key - 1][KeyEventIndex(event)].Some? {
        calls := [Invocation(table[key - 1][KeyEventIndex(event)].value, key, event)];
      }
    }

    /** remote_register_key_callback. Key 0 would write before the table. */
    method Register(key: U8, event: nat, callback: H)
      requires Valid() && key >= 1
      modifies this
      ensures Valid() && table == Assign(old(table), key, event, Some(callback))
      ensures data == old(data) && lastKey == old(lastKey)
    {
      if key > KeyCount {
        return;
      }
      if event >= KeyEventCount {
        return;
      }
      table := table[key - 1 := table[key - 1][event := Some(callback)]];
    }

    /** remote_unregister_key_callback. */
    method Unregister(key: U8, event: nat)
      requires Valid() && key >= 1
      modifies this
      ensures Valid() && table == Assign(old(table), key, event, None)
      ensures data == old(data) && lastKey == old(lastKey)
    {
      if key > KeyCount {
        return;
      }
      if event >= KeyEventCount {
        return;
      }
      table := table[key - 1 := table[key - 1][event := None]];
    }
  }
}
