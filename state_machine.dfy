/** The countdown state machine of uTimerLib (non-STM32 build), as pure
    functions on a snapshot of the timer object.  Each function is one
    routine of the source; the class in TimerLib is proved to behave as these
    functions say.

    Three parts of the snapshot stand for hardware:
    - `tcnt2`: the value Timer2 started counting from in the cycle now
      running.  The overflow that raises a notification restarts the count
      from 0; `TCNT2 = 0` and `_loadRemaining` write it.  The cycle lasts
      `256 - tcnt2` ticks.
    - `overflowIrq`: the Timer2 overflow interrupt enable (TOIE2 in TIMSK2).
    - `calls`: how many times the callback `_cb` has been invoked. */
module StateMachine {
  import opened Decompose

  /** `_type`: UTIMERLIB_TYPE_OFF, _TIMEOUT or _INTERVAL. */
  datatype Kind = Off | Timeout | Interval

  /** Identifies the user's callback function; the core never inspects it. */
  type Callback = nat

  /** The timer object: `_type`, `_cb`, `_overflows`, `_remaining`, the saved
      copies `__overflows` and `__remaining`, and the hardware state above. */
  datatype Schedule = Schedule(
    kind: Kind,
    cb: Callback,
    overflows: U32,
    remaining: U32,
    savedOverflows: U32,
    savedRemaining: U32,
    tcnt2: U8,
    overflowIrq: bool,
    calls: nat)

  /** The invariant every reachable state keeps: the live overflow count
      never exceeds the saved one, no decomposition has more overflows than a
      32-bit duration allows, and the overflow interrupt is only enabled
      while a schedule is active. */
  predicate Consistent(s: Schedule) {
    s.overflows <= s.savedOverflows <= MaxOverflows &&
    (s.overflowIrq ==> s.kind != Off)
  }

  /** The notification that will invoke the callback: the countdown is
      exhausted once the pending decrement has been applied. */
  predicate Fires(s: Schedule) {
    s.kind != Off && s.overflows <= 1 && s.remaining == 0
  }

  /** `_loadRemaining` (AVR): `TCNT2 = _remaining`, keeping the low byte. */
  function LoadRemaining(s: Schedule): (r: Schedule)
    ensures r.tcnt2 == s.remaining % 256
    ensures r.(tcnt2 := s.tcnt2) == s
  {
    s.(tcnt2 := s.remaining % 256)
  }

  /** `clearTimer` (AVR): the schedule becomes OFF and the overflow
      interrupt is disabled; the countdown fields are left as they are. */
  function ClearTimer(s: Schedule): (r: Schedule)
    ensures Consistent(s) ==> Consistent(r)
    ensures r.kind == Off && !r.overflowIrq
    ensures r.(kind := s.kind, overflowIrq := s.overflowIrq) == s
  {
    s.(kind := Off, overflowIrq := false)
  }

  /** `_attachInterrupt_us` (AVR).  A zero duration changes nothing.
      Otherwise the decomposition is stored in the live and the saved
      fields; with no overflows the preset is loaded at once and
      `_remaining` cleared, else the counter is reset to 0; then the
      overflow interrupt is enabled. */
  function AttachMicros(s: Schedule, fcpu: nat, us: U32): (r: Schedule)
    ensures Consistent(s) && s.kind != Off ==> Consistent(r)
    ensures r.kind == s.kind && r.cb == s.cb && r.calls == s.calls
    ensures us == 0 ==> r == s
    ensures us > 0 ==> r.savedOverflows == MicrosSplit(ScaleToReference(fcpu, us)).overflows
    ensures us > 0 ==> r.savedRemaining == MicrosSplit(ScaleToReference(fcpu, us)).preset
  {
    if us == 0 then s
    else
      var split := MicrosSplit(ScaleToReference(fcpu, us));
      var t := s.(overflows := split.overflows, remaining := split.preset,
                  savedOverflows := split.overflows, savedRemaining := split.preset);
      var u := if t.savedOverflows == 0 then LoadRemaining(t).(remaining := 0) else t.(tcnt2 := 0);
      u.(overflowIrq := true)
  }

  /** `_attachInterrupt_s` (AVR).  As the microsecond path, except that the
      overflow formula is chosen by the stale `_overflows`, and that with no
      overflows `_remaining` is NOT cleared after the preset is loaded. */
  function AttachSeconds(s: Schedule, fcpu: nat, sec: U32): (r: Schedule)
    ensures Consistent(s) && s.kind != Off ==> Consistent(r)
    ensures r.kind == s.kind && r.cb == s.cb && r.calls == s.calls
    ensures sec == 0 ==> r == s
    ensures sec > 0 ==> r.savedOverflows == SecondsSplit(ScaleToReference(fcpu, sec), s.overflows).overflows
    ensures sec > 0 ==> r.savedRemaining == SecondsSplit(ScaleToReference(fcpu, sec), s.overflows).preset
  {
    if sec == 0 then s
    else
      var split := SecondsSplit(ScaleToReference(fcpu, sec), s.overflows);
      var t := s.(overflows := split.overflows, remaining := split.preset,
                  savedOverflows := split.overflows, savedRemaining := split.preset);
      var u := if t.savedOverflows == 0 then LoadRemaining(t) else t.(tcnt2 := 0);
      u.(overflowIrq := true)
  }

  /** `setInterval_us` (kind Interval) and `setTimeout_us` (kind Timeout):
      clear, store the callback and the kind, attach. */
  function SetMicros(s: Schedule, fcpu: nat, kind: Kind, cb: Callback, us: U32): (r: Schedule)
    requires kind != Off
    ensures Consistent(s) ==> Consistent(r)
    ensures r.kind == kind && r.cb == cb && r.calls == s.calls
    ensures us == 0 ==> !r.overflowIrq
  {
    AttachMicros(ClearTimer(s).(cb := cb, kind := kind), fcpu, us)
  }

  /** `setInterval_s` (kind Interval) and `setTimeout_s` (kind Timeout). */
  function SetSeconds(s: Schedule, fcpu: nat, kind: Kind, cb: Callback, sec: U32): (r: Schedule)
    requires kind != Off
    ensures Consistent(s) ==> Consistent(r)
    ensures r.kind == kind && r.cb == cb && r.calls == s.calls
    ensures sec == 0 ==> !r.overflowIrq
  {
    AttachSeconds(ClearTimer(s).(cb := cb, kind := kind), fcpu, sec)
  }

  /** `_interrupt` (non-STM32 build), called once per Timer2 overflow. */
  function Interrupt(s: Schedule): (r: Schedule)
    ensures Consistent(s) ==> Consistent(r)
    ensures r.savedOverflows == s.savedOverflows && r.savedRemaining == s.savedRemaining
    ensures r.cb == s.cb
    ensures r.calls == if Fires(s) then s.calls + 1 else s.calls
  {
    if s.kind == Off then s
    else
      // the overflow behind this notification restarted the count from 0
      var t := s.(overflows := if s.overflows > 0 then s.overflows - 1 else 0, tcnt2 := 0);
      if t.overflows == 0 && t.remaining > 0 then
        LoadRemaining(t).(remaining := 0)
      else if t.overflows == 0 && t.remaining == 0 then
        var u :=
          if t.kind == Timeout then ClearTimer(t)
          else if t.savedOverflows == 0 then LoadRemaining(t.(remaining := t.savedRemaining)).(remaining := 0)
          else t.(overflows := t.savedOverflows, remaining := t.savedRemaining);
        u.(calls := u.calls + 1)
      else
        t
  }

  // ---------------------------------------------------------------------
  // One-step properties

  /** Clearing twice is clearing once. */
  lemma ClearTimerIdempotent(s: Schedule)
    ensures ClearTimer(ClearTimer(s)) == ClearTimer(s)
  {
  }

  /** A notification while OFF changes nothing and invokes no callback. */
  lemma InterruptWhenOffIsNoOp(s: Schedule)
    requires s.kind == Off
    ensures Interrupt(s) == s
  {
  }

  /** With more than one overflow pending, a notification only decrements
      the count by one. */
  lemma InterruptCountsDown(s: Schedule)
    requires s.kind != Off && s.overflows > 1
    ensures Interrupt(s) == s.(overflows := s.overflows - 1, tcnt2 := 0)
  {
  }

  /** When the last overflow is consumed and a preset is pending, the preset
      is loaded, `_remaining` becomes 0 and no callback runs. */
  lemma InterruptLoadsPreset(s: Schedule)
    requires s.kind != Off && s.overflows <= 1 && s.remaining > 0
    ensures Interrupt(s) == s.(overflows := 0, remaining := 0, tcnt2 := s.remaining % 256)
  {
  }

  /** When the countdown is exhausted the callback runs once; a TIMEOUT
      turns OFF, an INTERVAL restores the saved decomposition (loading the
      preset directly when it has no overflows). */
  lemma InterruptFires(s: Schedule)
    requires Fires(s)
    ensures var r := Interrupt(s);
      r.calls == s.calls + 1 &&
      (s.kind == Timeout ==> r.kind == Off && !r.overflowIrq) &&
      (s.kind == Interval ==>
        r.kind == Interval && r.overflowIrq == s.overflowIrq && r.overflows == s.savedOverflows &&
        (s.savedOverflows == 0 ==> r.remaining == 0 && r.tcnt2 == s.savedRemaining % 256) &&
        (s.savedOverflows > 0 ==> r.remaining == s.savedRemaining && r.tcnt2 == 0))
  {
  }
}
