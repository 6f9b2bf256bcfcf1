/** Fixed-width integer helpers shared by every controller: the 32-bit
    millisecond tick of HAL_GetTick with its wrap-around subtraction, and the
    uint8_t / int8_t conversions the C code relies on. */
module Base {

  const TickModulus: int := 0x1_0000_0000

  /** A value of the free-running uint32_t millisecond counter. */
  type Tick = t: int | 0 <= t < 0x1_0000_0000

  /** A uint8_t value. */
  type U8 = x: int | 0 <= x < 256

  datatype Option<T> = None | Some(value: T)

  /** The tick shown by the counter at absolute time `t` (milliseconds since boot). */
  function TickAt(t: nat): (k: Tick)
    ensures t < TickModulus ==> k == t
  {
    t % TickModulus
  }

  /** `now - stamp` evaluated in uint32_t arithmetic. */
  function Elapsed(now: Tick, stamp: Tick): (e: nat)
    ensures e < TickModulus
    ensures (stamp + e) % TickModulus == now
    ensures stamp <= now ==> e == now - stamp
  {
    (now - stamp) % TickModulus
  }

  /** The unsigned difference of two readings of the counter is the true span as
      long as the span is shorter than one wrap of the counter. */
  lemma ElapsedOfSpan(start: nat, span: nat)
    requires span < TickModulus
    ensures Elapsed(TickAt(start + span), TickAt(start)) == span
  {
    var q, a := start / TickModulus, start % TickModulus;
    assert start == q * TickModulus + a;
    assert TickAt(start + span) == (a + span) % TickModulus by {
      assert start + span == q * TickModulus + (a + span);
    }
    if a + span < TickModulus {
      assert Elapsed(TickAt(start + span), TickAt(start)) == span;
    } else {
      assert (a + span) % TickModulus == a + span - TickModulus;
      assert (a + span - TickModulus - a) % TickModulus == span;
    }
  }

  /** Assignment of an integer to a uint8_t: reduction modulo 256. */
  function WrapU8(x: int): (r: U8)
    ensures 0 <= x < 256 ==> r == x
    ensures x == -1 ==> r == 255
  {
    x % 256
  }

  /** The `(int8_t)` cast of a uint8_t value (two's complement). */
  function AsInt8(x: U8): (r: int)
    ensures -128 <= r < 128
    ensures (r < 0) <==> x >= 128
    ensures r % 256 == x
  {
    if x >= 128 then x - 256 else x
  }
}
