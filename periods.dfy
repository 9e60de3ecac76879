/** What a run of notifications does to an armed schedule: when the
    callback runs, how many Timer2 ticks a period lasts, that a TIMEOUT fires
    exactly once and that an INTERVAL replays the same decomposition every
    period. */
module Periods {
  import opened Decompose
  import opened StateMachine

  /** The state after `n` notifications. */
  function Notify(s: Schedule, n: nat): (r: Schedule)
    decreases n
  {
    if n == 0 then s else Interrupt(Notify(s, n - 1))
  }

  /** Timer2 ticks elapsed over the first `n` notifications: each
      notification ends a cycle that started at the `tcnt2` of the state
      before it. */
  function Elapsed(s: Schedule, n: nat): (r: nat)
    decreases n
  {
    if n == 0 then 0 else Elapsed(s, n - 1) + (256 - Notify(s, n - 1).tcnt2)
  }

  /** The state right after a schedule is armed: active, interrupt enabled,
      the live countdown equal to the saved one, and the counter started
      either from 0 (overflows pending) or from the preset (none pending,
      `_remaining` already consumed). */
  predicate Armed(s: Schedule) {
    s.kind != Off && s.overflowIrq && s.overflows == s.savedOverflows &&
    if s.savedOverflows == 0 then s.remaining == 0 && s.tcnt2 == s.savedRemaining % 256
    else s.remaining == s.savedRemaining && s.tcnt2 == 0
  }

  /** Notifications from arming to the callback: the overflows, plus one for
      the partial cycle when a nonzero preset is pending; a schedule without
      overflows needs exactly one. */
  function Period(s: Schedule): (r: nat)
    ensures r >= 1
  {
    if s.savedOverflows == 0 then 1
    else if s.savedRemaining > 0 then s.savedOverflows + 1
    else s.savedOverflows
  }

  /** Timer2 ticks from arming to the callback for `n` overflows and preset
      `p`: `n` full cycles, then a cycle from the preset, except that a zero
      preset after overflows means no partial cycle at all. */
  function PeriodTicks(n: nat, p: nat): (r: nat)
  {
    n * 256 + (if n > 0 && p == 0 then 0 else 256 - p % 256)
  }

  /** The state right after the callback of an armed schedule: a TIMEOUT
      is OFF with its countdown spent, an INTERVAL is back where it started. */
  function AfterFire(s: Schedule): (r: Schedule)
    ensures r.calls == s.calls + 1 && r.cb == s.cb
    ensures r.savedOverflows == s.savedOverflows && r.savedRemaining == s.savedRemaining
  {
    if s.kind == Timeout then
      s.(kind := Off, overflowIrq := false, overflows := 0, remaining := 0, tcnt2 := 0, calls := s.calls + 1)
    else
      s.(calls := s.calls + 1)
  }

  // ---------------------------------------------------------------------
  // Runs of notifications

  lemma {:induction false} NotifyAdd(s: Schedule, a: nat, b: nat)
    ensures Notify(s, a + b) == Notify(Notify(s, a), b)
  {
    if b > 0 {
      NotifyAdd(s, a, b - 1);
    }
  }

  lemma {:induction false} ElapsedAdd(s: Schedule, a: nat, b: nat)
    ensures Elapsed(s, a + b) == Elapsed(s, a) + Elapsed(Notify(s, a), b)
  {
    if b > 0 {
      ElapsedAdd(s, a, b - 1);
      NotifyAdd(s, a, b - 1);
      assert Elapsed(s, a + b) == Elapsed(s, a + b - 1) + (256 - Notify(s, a + b - 1).tcnt2);
    }
  }

  /** Once OFF, any number of notifications changes nothing. */
  lemma {:induction false} OffStaysOff(s: Schedule, n: nat)
    requires s.kind == Off
    ensures Notify(s, n) == s
  {
    if n > 0 {
      OffStaysOff(s, n - 1);
    }
  }

  /** While overflows remain, each notification takes exactly one off the
      live count and nothing else changes; each of those cycles is a full
      256 ticks. */
  lemma {:induction false} CountingDown(s: Schedule, j: nat)
    requires Armed(s) && j < s.savedOverflows
    ensures Notify(s, j) == s.(overflows := s.overflows - j)
    ensures Elapsed(s, j) == 256 * j
  {
    if j > 0 {
      CountingDown(s, j - 1);
    }
  }

  /** The callback does not run before the end of the first period. */
  lemma Quiet(s: Schedule, j: nat)
    requires Armed(s) && j < Period(s)
    ensures Notify(s, j).calls == s.calls && Notify(s, j).kind == s.kind
  {
    var n := s.savedOverflows;
    if j < n {
      CountingDown(s, j);
    } else if j > 0 {
      CountingDown(s, n - 1);
    }
  }

  /** The end of a period: after exactly `Period(s)` notifications the
      callback has run once, the state is `AfterFire(s)`, and the elapsed
      Timer2 ticks are `PeriodTicks` of the saved decomposition. */
  lemma PeriodEnd(s: Schedule)
    requires Armed(s)
    ensures Notify(s, Period(s)) == AfterFire(s)
    ensures Elapsed(s, Period(s)) == PeriodTicks(s.savedOverflows, s.savedRemaining)
  {
    if s.savedOverflows == 0 {
      FireAtOnce(s);
    } else {
      FireAfterOverflows(s);
    }
  }

  /** Without overflows the first notification fires. */
  lemma FireAtOnce(s: Schedule)
    requires Armed(s) && s.savedOverflows == 0
    ensures Notify(s, 1) == AfterFire(s)
    ensures Elapsed(s, 1) == 256 - s.savedRemaining % 256
  {
    assert Notify(s, 1) == Interrupt(s);
  }

  /** With overflows, the last of them is consumed after `n`
      notifications, each a full cycle. */
  lemma LastOverflow(s: Schedule)
    requires Armed(s) && s.savedOverflows > 0
    ensures Notify(s, s.savedOverflows) == Interrupt(s.(overflows := 1))
    ensures Elapsed(s, s.savedOverflows) == 256 * s.savedOverflows
  {
    var n: nat := s.savedOverflows;
    CountingDown(s, n - 1);
    var before := Notify(s, n - 1);
    assert before == s.(overflows := 1);
    assert Notify(s, n) == Interrupt(before);
    assert Elapsed(s, n) == Elapsed(s, n - 1) + (256 - before.tcnt2);
  }

  lemma FireAfterOverflows(s: Schedule)
    requires Armed(s) && s.savedOverflows > 0
    ensures Notify(s, Period(s)) == AfterFire(s)
    ensures Elapsed(s, Period(s)) == PeriodTicks(s.savedOverflows, s.savedRemaining)
  {
    LastOverflow(s);
    if s.savedRemaining > 0 {
      FireAfterPartialCycle(s);
    } else {
      FireWithoutPartialCycle(s);
    }
  }

  lemma FireWithoutPartialCycle(s: Schedule)
    requires Armed(s) && s.savedOverflows > 0 && s.savedRemaining == 0
    ensures Interrupt(s.(overflows := 1)) == AfterFire(s)
  {
    var t := s.(overflows := 1);
    assert Fires(t);
    InterruptFires(t);
  }

  lemma FireAfterPartialCycle(s: Schedule)
    requires Armed(s) && s.savedOverflows > 0 && s.savedRemaining > 0
    requires Notify(s, s.savedOverflows) == Interrupt(s.(overflows := 1))
    requires Elapsed(s, s.savedOverflows) == 256 * s.savedOverflows
    ensures Notify(s, s.savedOverflows + 1) == AfterFire(s)
    ensures Elapsed(s, s.savedOverflows + 1) == PeriodTicks(s.savedOverflows, s.savedRemaining)
  {
    var n: nat := s.savedOverflows;
    var loaded := s.(overflows := 0, remaining := 0, tcnt2 := s.savedRemaining % 256);
    InterruptLoadsPreset(s.(overflows := 1));
    assert Notify(s, n) == loaded;
    assert Interrupt(loaded) == AfterFire(s);
  }

  /** A TIMEOUT invokes its callback exactly once, at the end of its period,
      and is OFF from then on. */
  lemma TimeoutFiresOnce(s: Schedule, n: nat)
    requires Armed(s) && s.kind == Timeout
    ensures Notify(s, n).calls == if n < Period(s) then s.calls else s.calls + 1
    ensures n >= Period(s) ==> Notify(s, n).kind == Off && !Notify(s, n).overflowIrq
  {
    if n < Period(s) {
      Quiet(s, n);
    } else {
      PeriodEnd(s);
      NotifyAdd(s, Period(s), n - Period(s));
      OffStaysOff(AfterFire(s), n - Period(s));
    }
  }

  /** An INTERVAL returns to its armed state after every period: after `k`
      periods only the callback count has moved, by `k`, and the elapsed
      time is `k` times the period's ticks. */
  lemma {:induction false} IntervalReplays(s: Schedule, k: nat)
    requires Armed(s) && s.kind == Interval
    ensures Notify(s, k * Period(s)) == s.(calls := s.calls + k)
    ensures Elapsed(s, k * Period(s)) == k * PeriodTicks(s.savedOverflows, s.savedRemaining)
  {
    if k > 0 {
      var p := Period(s);
      var ticks := PeriodTicks(s.savedOverflows, s.savedRemaining);
      MultiplySucc(k, p);
      MultiplySucc(k, ticks);
      var a: nat := (k - 1) * p;
      IntervalReplays(s, k - 1);
      ReplayStep(s, a, k - 1, (k - 1) * ticks);
      assert k * p == a + p;
    }
  }

  /** One more period: if `a` notifications led back to the armed state
      with `c` more calls after `e` ticks, a period later there is one call
      more and `PeriodTicks` ticks more. */
  lemma ReplayStep(s: Schedule, a: nat, c: nat, e: nat)
    requires Armed(s) && s.kind == Interval
    requires Notify(s, a) == s.(calls := s.calls + c) && Elapsed(s, a) == e
    ensures Notify(s, a + Period(s)) == s.(calls := s.calls + c + 1)
    ensures Elapsed(s, a + Period(s)) == e + PeriodTicks(s.savedOverflows, s.savedRemaining)
  {
    var mid := s.(calls := s.calls + c);
    PeriodEnd(mid);
    assert Period(mid) == Period(s);
    NotifyAdd(s, a, Period(s));
    ElapsedAdd(s, a, Period(s));
  }

  lemma MultiplySucc(k: nat, p: nat)
    requires k > 0
    ensures 0 <= (k - 1) * p && k * p == (k - 1) * p + p
  {
  }

  /** An INTERVAL invokes its callback once per completed period. */
  lemma IntervalCallCount(s: Schedule, n: nat)
    requires Armed(s) && s.kind == Interval
    ensures Notify(s, n).calls == s.calls + n / Period(s)
  {
    var p := Period(s);
    var k: nat, j: nat := n / p, n % p;
    var a: nat := k * p;
    assert n == a + j;
    IntervalReplays(s, k);
    var mid := s.(calls := s.calls + k);
    assert Notify(s, a) == mid;
    NotifyAdd(s, a, j);
    assert Notify(s, n) == Notify(mid, j);
    Quiet(mid, j);
  }

  // ---------------------------------------------------------------------
  // Arming by the public entry points

  /** A microsecond schedule of nonzero duration is armed with the
      decomposition of the (rescaled) duration. */
  lemma SetMicrosArms(s: Schedule, fcpu: nat, kind: Kind, cb: Callback, us: U32)
    requires kind != Off && us > 0
    ensures var r := SetMicros(s, fcpu, kind, cb, us);
      var split := MicrosSplit(ScaleToReference(fcpu, us));
      Armed(r) && r.savedOverflows == split.overflows && r.savedRemaining == split.preset
  {
  }

  /** A zero duration arms nothing: the interrupt stays disabled and the
      countdown fields keep their old values (the kind is set nevertheless). */
  lemma SetZeroDurationArmsNothing(s: Schedule, fcpu: nat, kind: Kind, cb: Callback)
    requires kind != Off
    ensures SetMicros(s, fcpu, kind, cb, 0) == s.(kind := kind, cb := cb, overflowIrq := false)
    ensures SetSeconds(s, fcpu, kind, cb, 0) == s.(kind := kind, cb := cb, overflowIrq := false)
  {
  }

  /** Starting a microsecond schedule forgets everything of the previous
      one except the callback count. */
  lemma SetMicrosSupersedes(s: Schedule, s': Schedule, fcpu: nat, kind: Kind, cb: Callback, us: U32)
    requires kind != Off && us > 0 && s.calls == s'.calls
    ensures SetMicros(s, fcpu, kind, cb, us) == SetMicros(s', fcpu, kind, cb, us)
  {
  }

  /** The same holds for a seconds schedule started from any consistent
      state: the stale `_overflows` it reads never reaches the 500000 that
      would change its formula. */
  lemma SetSecondsSupersedes(s: Schedule, s': Schedule, fcpu: nat, kind: Kind, cb: Callback, sec: U32)
    requires Consistent(s) && Consistent(s')
    requires kind != Off && sec > 0 && s.calls == s'.calls
    ensures SetSeconds(s, fcpu, kind, cb, sec) == SetSeconds(s', fcpu, kind, cb, sec)
  {
  }

  /** A seconds schedule with overflows is armed like a microsecond one.
      Without overflows, `_remaining` was not cleared after loading, so the
      first notification reloads the same preset without a callback: the
      first period is one notification (one partial cycle) longer, and only
      then is the schedule armed. */
  lemma SetSecondsArms(s: Schedule, fcpu: nat, kind: Kind, cb: Callback, sec: U32)
    requires kind != Off && sec > 0
    ensures var r := SetSeconds(s, fcpu, kind, cb, sec);
      var split := SecondsSplit(ScaleToReference(fcpu, sec), s.overflows);
      r.savedOverflows == split.overflows && r.savedRemaining == split.preset &&
      (split.overflows > 0 || split.preset == 0 ==> Armed(r)) &&
      (split.overflows == 0 && split.preset > 0 ==>
        !Armed(r) && Interrupt(r) == r.(remaining := 0) && Armed(Interrupt(r)))
  {
  }

  /** Below 16 MHz every nonzero request collapses.  A microsecond TIMEOUT
      fires at the first notification, one full cycle of 256 ticks after
      arming.  A seconds TIMEOUT gets preset 255 with `_remaining` left set:
      the first notification only reloads it, the second fires, and the two
      cycles last one tick each. */
  lemma SlowClockTimeout(s: Schedule, fcpu: nat, cb: Callback, d: U32)
    requires fcpu < ReferenceClock && d > 0
    ensures var r := SetMicros(s, fcpu, Timeout, cb, d);
      Armed(r) && Period(r) == 1 && Elapsed(r, 1) == 256 &&
      Notify(r, 1).calls == s.calls + 1 && Notify(r, 1).kind == Off
    ensures var r := SetSeconds(s, fcpu, Timeout, cb, d);
      Notify(r, 1).calls == s.calls && Notify(r, 2).calls == s.calls + 1 &&
      Notify(r, 2).kind == Off && Elapsed(r, 2) == 2
  {
    SlowClockCollapse(fcpu, d, s.overflows);
    var r := SetMicros(s, fcpu, Timeout, cb, d);
    SetMicrosArms(s, fcpu, Timeout, cb, d);
    FireAtOnce(r);
    var q := SetSeconds(s, fcpu, Timeout, cb, d);
    SetSecondsArms(s, fcpu, Timeout, cb, d);
    var q1 := Interrupt(q);
    assert Notify(q, 1) == q1 && q1 == q.(remaining := 0);
    FireAtOnce(q1);
    assert Notify(q, 2) == Interrupt(q1);
    assert Elapsed(q, 2) == Elapsed(q, 1) + (256 - q1.tcnt2);
  }

  // ---------------------------------------------------------------------
  // Timing of the microsecond path at 16 MHz

  /** Below 16384 us the period is never shorter than requested and at most
      one tick of the chosen prescaler longer; below 128 us it is exact. */
  lemma ShortSplitTiming(us: U32)
    requires 0 < us < 16384
    ensures var r := MicrosSplit(us);
      var t := PeriodTicks(r.overflows, r.preset) * Divisor(r.prescaler);
      16 * us <= t <= 16 * us + Divisor(r.prescaler) &&
      (us < 128 ==> t == 16 * us)
  {
    var r := MicrosSplit(us);
    assert r.overflows == 0;
    if us >= 4096 {
      assert r.preset == 255 - us / 64 && PeriodTicks(0, r.preset) == us / 64 + 1;
    } else if us >= 2048 {
      assert r.preset == 255 - us / 16 && PeriodTicks(0, r.preset) == us / 16 + 1;
    } else if us >= 1024 {
      assert r.preset == 255 - us / 8 && PeriodTicks(0, r.preset) == us / 8 + 1;
    } else if us >= 512 {
      assert r.preset == 255 - us / 4 && PeriodTicks(0, r.preset) == us / 4 + 1;
    } else if us >= 128 {
      assert r.preset == 255 - us / 2 && PeriodTicks(0, r.preset) == us / 2 + 1;
    } else if us >= 16 {
      assert PeriodTicks(0, r.preset) == 2 * us;
    } else {
      assert PeriodTicks(0, r.preset) == 16 * us;
    }
  }

  /** From 16384 us on, the period is within one 64 us tick above the
      request, unless the quotient `(us % 16384) / 64` is 255: the preset is
      then 0, which the state machine reads as "no partial cycle", and the
      period falls short by at least 16320 us. */
  lemma LongSplitTiming(us: U32)
    requires us >= 16384
    ensures var r := MicrosSplit(us);
      var t := PeriodTicks(r.overflows, r.preset) * Divisor(r.prescaler);
      (us % 16384 / 64 < 255 ==> 16 * us < t <= 16 * us + 1024) &&
      (us % 16384 / 64 == 255 ==> t + 16 * 16320 <= 16 * us)
  {
    var n := us / 16384;
    assert 16 * us == 262144 * n + 16 * (us % 16384);
  }

  /** End to end: a microsecond schedule at 16 MHz invokes its callback
      after `Period` notifications, which span the requested time to within
      one tick of the prescaler, except in the dropped-remainder case. */
  lemma MicrosScheduleTiming(s: Schedule, kind: Kind, cb: Callback, us: U32)
    requires kind != Off && us > 0
    requires us < 16384 || us % 16384 / 64 < 255
    ensures var r := SetMicros(s, ReferenceClock, kind, cb, us);
      var d := Divisor(MicrosSplit(us).prescaler);
      Notify(r, Period(r)).calls == s.calls + 1 &&
      16 * us <= Elapsed(r, Period(r)) * d <= 16 * us + d
  {
    var r := SetMicros(s, ReferenceClock, kind, cb, us);
    SetMicrosArms(s, ReferenceClock, kind, cb, us);
    PeriodEnd(r);
    if us < 16384 { ShortSplitTiming(us); } else { LongSplitTiming(us); }
  }

  /** Worked cases at 16 MHz.  16384 us: one overflow and preset 255, so two
      notifications and 257 ticks of 64 us.  16350 us: no overflow and
      preset 0, one full cycle of 256 ticks.  32704 us: one overflow and
      preset 0, so the callback runs after 16384 us. */
  lemma WorkedCases(s: Schedule, cb: Callback)
    ensures var r := SetMicros(s, ReferenceClock, Timeout, cb, 16384);
      r.savedOverflows == 1 && r.savedRemaining == 255 && Period(r) == 2 && Elapsed(r, 2) == 257
    ensures var r := SetMicros(s, ReferenceClock, Timeout, cb, 16350);
      r.savedOverflows == 0 && r.savedRemaining == 0 && Period(r) == 1 && Elapsed(r, 1) == 256
    ensures var r := SetMicros(s, ReferenceClock, Timeout, cb, 32704);
      r.savedOverflows == 1 && r.savedRemaining == 0 && Period(r) == 1 && Elapsed(r, 1) == 256
  {
    SetMicrosArms(s, ReferenceClock, Timeout, cb, 16384);
    PeriodEnd(SetMicros(s, ReferenceClock, Timeout, cb, 16384));
    SetMicrosArms(s, ReferenceClock, Timeout, cb, 16350);
    PeriodEnd(SetMicros(s, ReferenceClock, Timeout, cb, 16350));
    SetMicrosArms(s, ReferenceClock, Timeout, cb, 32704);
    PeriodEnd(SetMicros(s, ReferenceClock, Timeout, cb, 32704));
  }
}
