/** The PID primitive the controllers call. Its arithmetic lives outside the
    modelled code, so a controller instance is modelled by what it has been
    through: the `pid_calc` calls made on it and the times its callers
    cleared its integral term directly, as the C code does. The output of a
    call is a law of that history and the new inputs. */
module Pid {

  /** One thing that happened to a controller instance. */
  datatype PidEvent =
    | Calculated(a: real, b: real)   // pid_calc(pid, a, b)
    | IntegralCleared                // pid->iout = 0

  /** The persistent state of one controller instance. */
  datatype PidState = PidState(events: seq<PidEvent>)

  /** The arithmetic of `pid_calc`: the output of a call from the state it
      finds and its two inputs. */
  datatype PidLaw = PidLaw(output: (PidState, real, real) -> real)

  /** The state after one `pid_calc(pid, a, b)`. */
  function Fed(s: PidState, a: real, b: real): PidState
  {
    PidState(s.events + [Calculated(a, b)])
  }

  /** One `pid_calc` call on a state: its output and the state after it. */
  function Step(law: PidLaw, s: PidState, a: real, b: real): (r: (real, PidState))
    ensures r.1 == Fed(s, a, b)
    ensures r.0 == law.output(s, a, b)
  {
    (law.output(s, a, b), Fed(s, a, b))
  }

  /** `pid->iout = 0`: the history records the clearing and nothing else. */
  function ResetIntegral(s: PidState): PidState
  {
    PidState(s.events + [IntegralCleared])
  }

  /** `n` successive identical calls, as made by a retry loop. */
  function Repeat(s: PidState, a: real, b: real, n: nat): PidState
    decreases n
  {
    if n == 0 then s else Fed(Repeat(s, a, b, n - 1), a, b)
  }

  /** `n` identical calls keep the history so far and append exactly `n`
      records of that call. */
  lemma {:induction false} RepeatAppends(s: PidState, a: real, b: real, n: nat)
    ensures var r := Repeat(s, a, b, n);
            && |r.events| == |s.events| + n && r.events[..|s.events|] == s.events
            && forall i :: |s.events| <= i < |r.events| ==> r.events[i] == Calculated(a, b)
    decreases n
  {
    if n > 0 {
      RepeatAppends(s, a, b, n - 1);
    }
  }

  /** `n + 1` identical calls are one call followed by `n` more. */
  lemma {:induction false} RepeatFirst(s: PidState, a: real, b: real, n: nat)
    ensures Repeat(s, a, b, n + 1) == Repeat(Fed(s, a, b), a, b, n)
    decreases n
  {
    if n > 0 {
      RepeatFirst(s, a, b, n - 1);
    }
  }

  /** pid_t. */
  class Pid {
    var events: seq<PidEvent>
    const law: PidLaw

    /** A zero-initialised controller (the C objects are static). */
    constructor (law: PidLaw)
      ensures events == [] && this.law == law
    {
      this.law := law;
      events := [];
    }

    function State(): PidState
      reads this
    {
      PidState(events)
    }

    /** pid_calc. */
    method Calc(a: real, b: real) returns (out: real)
      modifies this
      ensures (out, State()) == Step(law, old(State()), a, b)
    {
      out := law.output(State(), a, b);
      events := events + [Calculated(a, b)];
    }

    /** `pid->iout = 0`, written by the callers on the object. */
    method ClearIntegral()
      modifies this
      ensures State() == ResetIntegral(old(State()))
    {
      events := events + [IntegralCleared];
    }
  }
}
