/** The uTimerLib object on AVR: the fields the source updates in place and
    its methods, each proved to change the object exactly as the matching
    function of StateMachine says.  The hardware the methods program is kept
    as ghost state: where Timer2's current cycle started (TCNT2), the
    overflow interrupt enable (TOIE2), and the number of callback
    invocations standing for `_cb()`. */
module TimerLib {
  import opened Decompose
  import opened StateMachine

  class UTimerLib {
    /** F_CPU, the CPU clock the library was built for. */
    const fcpu: nat

    var kind: Kind
    var cb: Callback
    var overflows: U32
    var remaining: U32
    var savedOverflows: U32
    var savedRemaining: U32

    ghost var tcnt2: U8
    ghost var overflowIrq: bool
    ghost var calls: nat

    /** The object's state as a value. */
    ghost function Snapshot(): Schedule
      reads this
    {
      Schedule(kind, cb, overflows, remaining, savedOverflows, savedRemaining, tcnt2, overflowIrq, calls)
    }

    ghost predicate Valid()
      reads this
    {
      Consistent(Snapshot())
    }

    /** The single global object: its fields start zeroed, OFF, interrupt
        disabled. */
    constructor (fcpu: nat)
      ensures Valid() && this.fcpu == fcpu
      ensures Snapshot() == Schedule(Off, 0, 0, 0, 0, 0, 0, false, 0)
    {
      this.fcpu := fcpu;
      kind, cb := Off, 0;
      overflows, remaining, savedOverflows, savedRemaining := 0, 0, 0, 0;
      tcnt2, overflowIrq, calls := 0, false, 0;
    }

    /** `_loadRemaining`: TCNT2 = _remaining. */
    method LoadRemaining()
      modifies this
      ensures Snapshot() == StateMachine.LoadRemaining(old(Snapshot()))
    {
      tcnt2 := remaining % 256;
    }

    /** `clearTimer`. */
    method ClearTimer()
      modifies this
      ensures Snapshot() == StateMachine.ClearTimer(old(Snapshot()))
    {
      kind := Off;
      overflowIrq := false;
    }

    /** `_attachInterrupt_us`; its callers have already set `_type`. */
    method AttachMicros(us: U32)
      requires Valid() && kind != Off
      modifies this
      ensures Valid()
      ensures Snapshot() == StateMachine.AttachMicros(old(Snapshot()), fcpu, us)
    {
      if us == 0 {
        return;
      }
      var d := us;
      if fcpu != ReferenceClock {
        d := Wrap32(fcpu / ReferenceClock * d);
      }
      var split := MicrosSplit(d);
      overflows := split.overflows;
      remaining := split.preset;
      savedOverflows := overflows;
      savedRemaining := remaining;
      if savedOverflows == 0 {
        LoadRemaining();
        remaining := 0;
      } else {
        tcnt2 := 0;
      }
      overflowIrq := true;
    }

    /** `_attachInterrupt_s`; reads the stale `_overflows` and leaves
        `_remaining` set after loading it. */
    method AttachSeconds(sec: U32)
      requires Valid() && kind != Off
      modifies this
      ensures Valid()
      ensures Snapshot() == StateMachine.AttachSeconds(old(Snapshot()), fcpu, sec)
    {
      if sec == 0 {
        return;
      }
      var d := sec;
      if fcpu != ReferenceClock {
        d := Wrap32(fcpu / ReferenceClock * d);
      }
      overflows := SecondsOverflows(d, overflows);
      remaining := SecondsPreset(d);
      savedOverflows := overflows;
      savedRemaining := remaining;
      if savedOverflows == 0 {
        LoadRemaining();
      } else {
        tcnt2 := 0;
      }
      overflowIrq := true;
    }

    /** `setInterval_us`. */
    method SetIntervalMicros(callback: Callback, us: U32)
      requires Valid()
      modifies this
      ensures Valid()
      ensures Snapshot() == SetMicros(old(Snapshot()), fcpu, Interval, callback, us)
    {
      ClearTimer();
      cb := callback;
      kind := Interval;
      AttachMicros(us);
    }

    /** `setTimeout_us`. */
    method SetTimeoutMicros(callback: Callback, us: U32)
      requires Valid()
      modifies this
      ensures Valid()
      ensures Snapshot() == SetMicros(old(Snapshot()), fcpu, Timeout, callback, us)
    {
      ClearTimer();
      cb := callback;
      kind := Timeout;
      AttachMicros(us);
    }

    /** `setInterval_s`. */
    method SetIntervalSeconds(callback: Callback, sec: U32)
      requires Valid()
      modifies this
      ensures Valid()
      ensures Snapshot() == SetSeconds(old(Snapshot()), fcpu, Interval, callback, sec)
    {
      ClearTimer();
      cb := callback;
      kind := Interval;
      AttachSeconds(sec);
    }

    /** `setTimeout_s`. */
    method SetTimeoutSeconds(callback: Callback, sec: U32)
      requires Valid()
      modifies this
      ensures Valid()
      ensures Snapshot() == SetSeconds(old(Snapshot()), fcpu, Timeout, callback, sec)
    {
      ClearTimer();
      cb := callback;
      kind := Timeout;
      AttachSeconds(sec);
    }

    /** `_interrupt`, non-STM32 build, run once per Timer2 overflow. */
    method Interrupt()
      requires Valid()
      modifies this
      ensures Valid()
      ensures Snapshot() == StateMachine.Interrupt(old(Snapshot()))
    {
      if kind == Off {
        return;
      }
      // the overflow behind this notification restarted the count from 0
      tcnt2 := 0;
      if overflows > 0 {
        overflows := overflows - 1;
      }
      if overflows == 0 && remaining > 0 {
        LoadRemaining();
        remaining := 0;
      } else if overflows == 0 && remaining == 0 {
        if kind == Timeout {
          ClearTimer();
        } else if kind == Interval {
          if savedOverflows == 0 {
            remaining := savedRemaining;
            LoadRemaining();
            remaining := 0;
          } else {
            overflows := savedOverflows;
            remaining := savedRemaining;
          }
        }
        // _cb()
        calls := calls + 1;
      }
    }
  }
}
