# uTimerLib on AVR: interval decomposition and countdown, in Dafny

uTimerLib runs a user callback once (`setTimeout_us`, `setTimeout_s`) or repeatedly (`setInterval_us`, `setInterval_s`) after a delay in microseconds or seconds. On AVR it uses Timer2, an 8-bit counter that raises an interrupt when it wraps from 255 to 0. A request is split into three parts: a clock prescaler, a number of full 256-tick overflows, and a preset. The preset is the value loaded into the counter for the last, partial cycle, so a cycle started at preset `p` lasts `256 - p` ticks. The interrupt routine `_interrupt` consumes the overflows one by one, loads the preset, and then invokes the callback. After that a timeout turns off and an interval re-arms from the saved copies `__overflows` and `__remaining`.

The project has four modules:

- `Decompose` (`decompose.dfy`): the AVR arithmetic of `_attachInterrupt_us` and `_attachInterrupt_s` as pure functions over 32-bit `unsigned long` values. This covers the prescaler bands 16384/4096/2048/1024/512/128/16, the `F_CPU` rescaling, and the `256 - (q + 0.5)` expressions. Those expressions are computed in floating point (`double`), where every value involved is exact, and truncated on assignment, so they give `255 - q`.
- `StateMachine` (`state_machine.dfy`): one function per source routine (`_loadRemaining`, `clearTimer`, both attach routines, the `set*` entry points, `_interrupt`), each acting on a `Schedule` value. A `Consistent` invariant is preserved by all of them. Three fields stand for hardware: `tcnt2` is the value the current Timer2 cycle started from, `overflowIrq` is TOIE2, and `calls` counts callback invocations.
- `Periods` (`periods.dfy`): what runs of notifications do. A timeout fires exactly once. An interval returns to its armed state after every period, so no period drifts from the first. It also gives the number of notifications and Timer2 ticks per period, and the end-to-end timing of microsecond requests at 16 MHz.
- `TimerLib` (`timer_lib.dfy`): the class `UTimerLib` with the source's fields. Each method is proved to change the object exactly as the matching `StateMachine` function says, and to keep `Consistent`.

Behaviours of the code that the model keeps, and that the lemmas make explicit:

- The preset is always one below `256 - q`: adding 0.5 before truncation does not round. A partial cycle therefore lasts `q + 1` ticks.
- A request of 16384 us or more whose `(us % 16384) / 64` is 255 gets preset 0. `_interrupt` reads preset 0 as "no partial cycle", so the callback comes at least 16320 us early (`LongSplitTiming`, `WorkedCases`: 32704 us fires after 16384 us).
- `s * 1000000` wraps modulo 2^32 from 4295 s on, so 4295 s becomes a single overflow. The preset is unaffected by the wrap (`SecondsPreset`).
- `_attachInterrupt_s` picks its overflow formula by reading the `_overflows` left over from the previous schedule. From any consistent state that value is at most 262143, below the 500000 test, so the other formula is never chosen (`SetSecondsSupersedes`).
- With no overflows, the seconds path does not clear `_remaining` after loading it. The first period is then one notification longer (`SetSecondsArms`).
- The rescaling multiplies by the truncated quotient `F_CPU / 16000000` (`ScaleToReference`).
  - Below 16 MHz the quotient is 0, so every nonzero request collapses to a duration of 0 after the zero test (`SlowClockCollapse`, `SlowClockTimeout`). The microsecond path then gets no overflows and preset 256, which is loaded into the counter as 0: the callback comes after one full 256-tick cycle. The seconds path gets no overflows and preset 255. Because it does not clear `_remaining`, the first notification reloads 255 and the second fires, one tick each.
  - From 16 MHz up to, but not including, 32 MHz the quotient is 1 and nothing is rescaled. At 20 MHz or 24 MHz every period is therefore 20% or 33% shorter than requested.

Where the code behaves otherwise than a description of such a timer would lead one to expect, the model follows the code:

- `clearTimer` only sets `_type` to OFF and disables the interrupt. It does not zero the countdown fields.
- A zero duration still sets `_type` to TIMEOUT or INTERVAL, but arms no interrupt.
- The prescaler chosen is the finest one whose cycle holds the duration, not the coarsest.
- No remainder is clamped or folded into the overflow count.

Assumptions:

- `unsigned long int` is 32 bits.
- `_overflows`, `_remaining` and their saved copies are `unsigned long`. The header uTimerLib.h is not part of this model.
- All fields start at zero, because the library object is a global (src/uTimerLib.cpp:793).
- `F_CPU` is the constructor parameter `fcpu`.

## Model

| member | source | states |
|---|---|---|
| `Decompose.ScaleToReference` | src/uTimerLib.cpp:116-118 | (the same code is at lines 428-430) the duration is multiplied by the truncated quotient `F_CPU / 16000000` whenever the product fits in 32 bits: unchanged from 16 MHz up to (not including) 32 MHz, so 20 and 24 MHz are not rescaled; 0 below 16 MHz |
| `Decompose.HalfRoundedPreset` | src/uTimerLib.cpp:139-155 | `256 - (q + 0.5)` truncated to an integer is `255 - q`: the added half does not round |
| `Decompose.MicrosSplit` | src/uTimerLib.cpp:136-164 | the overflow count is `us / 16384` (0 below 16384) and at most 262143; every nonzero duration gets a preset in [0, 255]; a duration of 0 gets 256 |
| `Decompose.MicrosPrescalerIsFinestFit` | src/uTimerLib.cpp:126-164 | below 16384 us the chosen prescaler's 256-tick cycle is longer than the duration and every finer prescaler's cycle is not; from 16384 us on the 1024 divisor is used |
| `Decompose.SecondsOverflows` | src/uTimerLib.cpp:440-444 | unless the stale `_overflows` exceeds 500000, the overflow count is at most 262143 |
| `Decompose.SecondsPreset` | src/uTimerLib.cpp:445-452 | both branches of the anti-overflow code give `255 - ((s * 1000000) % 16384) / 64` for the exact product, whatever the 32-bit wrap |
| `Decompose.SecondsSplit` | src/uTimerLib.cpp:439-452 | the seconds path always uses the 1024 divisor and a preset in [0, 255] |
| `Decompose.SecondsLowBits` | src/uTimerLib.cpp:447-452 | the remainders modulo 16384 taken in both branches equal that of the exact product `s * 1000000` |
| `Decompose.SecondsAgreeWithMicros` | src/uTimerLib.cpp:439-452 | for 1..4294 s the seconds decomposition equals the microsecond decomposition of `s * 1000000` us |
| `Decompose.SlowClockCollapse` | src/uTimerLib.cpp:428-452 | below 16 MHz every request becomes 0 after rescaling (here and at lines 116-118): the seconds split is no overflows with preset 255, whatever the stale count; the microsecond split is no overflows with preset 256 |
| `Decompose.SecondsOverflowWraps` | src/uTimerLib.cpp:441-443 | 4295 s gives one overflow instead of 262145 because `s * 1000000` wraps |
| `Decompose.SecondsWrapToZeroOverflows` | src/uTimerLib.cpp:440-452 | 2^26 s wraps to no overflows and preset 255 |
| `StateMachine.LoadRemaining` | src/uTimerLib.cpp:623-626 | the counter starts from the low byte of `_remaining`; nothing else changes |
| `StateMachine.ClearTimer` | src/uTimerLib.cpp:659-665 | the type becomes OFF and the overflow interrupt is disabled; nothing else changes; consistency is kept |
| `StateMachine.AttachMicros` | src/uTimerLib.cpp:109-184 | a zero duration changes nothing; otherwise the saved copies hold the decomposition of the rescaled duration; type, callback and call count are untouched; consistency is kept |
| `StateMachine.AttachSeconds` | src/uTimerLib.cpp:420-471 | the same for seconds, with the decomposition chosen by the stale `_overflows` |
| `StateMachine.SetMicros` | src/uTimerLib.cpp:45-64 | the new type and callback are stored; a zero duration leaves the interrupt disabled; consistency is kept |
| `StateMachine.SetSeconds` | src/uTimerLib.cpp:73-92 | the same for the seconds entry points |
| `StateMachine.Interrupt` | src/uTimerLib.cpp:702-780 | never writes `__overflows`, `__remaining` or `_cb`; the callback runs exactly when the countdown is exhausted; consistency is kept |
| `StateMachine.ClearTimerIdempotent` | src/uTimerLib.cpp:659-665 | clearing twice equals clearing once |
| `StateMachine.InterruptWhenOffIsNoOp` | src/uTimerLib.cpp:703-705 | a notification while OFF changes nothing |
| `StateMachine.InterruptCountsDown` | src/uTimerLib.cpp:709-711 | with more than one overflow pending, a notification only decrements `_overflows` by one |
| `StateMachine.InterruptLoadsPreset` | src/uTimerLib.cpp:712-716 | when the last overflow is consumed and a preset is pending, the preset is loaded, `_remaining` becomes 0, and no callback runs |
| `StateMachine.InterruptFires` | src/uTimerLib.cpp:717-750 | an exhausted countdown invokes the callback once; a TIMEOUT becomes OFF; an INTERVAL restores the saved values, reloading the preset directly when it has no overflows |
| `Periods.OffStaysOff` | src/uTimerLib.cpp:703-705 | any number of notifications while OFF change nothing |
| `Periods.CountingDown` | src/uTimerLib.cpp:709-711 | from an armed state, the first `j` notifications (`j` below the overflow count) each remove one overflow and last 256 ticks |
| `Periods.Quiet` | src/uTimerLib.cpp:709-716 | no callback runs before the end of the first period |
| `Periods.FireAtOnce` | src/uTimerLib.cpp:717-724 | with no overflows, the first notification fires after `256 - preset` ticks |
| `Periods.PeriodEnd` | src/uTimerLib.cpp:709-750 | after exactly `Period` notifications the callback has run once and the elapsed ticks are `PeriodTicks` of the saved decomposition |
| `Periods.TimeoutFiresOnce` | src/uTimerLib.cpp:717-719 | a TIMEOUT invokes its callback exactly once, at the end of its period, and is OFF with the interrupt disabled afterwards |
| `Periods.IntervalReplays` | src/uTimerLib.cpp:720-728 | after `k` periods an INTERVAL is back in its armed state except for `k` more calls, and `k` periods take exactly `k` times the ticks of one |
| `Periods.ReplayStep` | src/uTimerLib.cpp:720-728 | from a replayed armed state, one more period adds exactly one call and `PeriodTicks` ticks |
| `Periods.IntervalCallCount` | src/uTimerLib.cpp:717-750 | after `n` notifications an INTERVAL has invoked its callback `n / Period` times |
| `Periods.SetMicrosArms` | src/uTimerLib.cpp:166-180 | a nonzero microsecond request leaves the object armed, with the saved copies equal to the decomposition |
| `Periods.SetZeroDurationArmsNothing` | src/uTimerLib.cpp:45-92 | a zero duration only stores the type and callback and disables the interrupt; the countdown fields are left alone |
| `Periods.SetMicrosSupersedes` | src/uTimerLib.cpp:45-64 | a new microsecond schedule keeps nothing of the previous one except the call count |
| `Periods.SetSecondsSupersedes` | src/uTimerLib.cpp:440-444 | the same for seconds from any consistent state: the stale `_overflows` test never changes the outcome |
| `Periods.SetSecondsArms` | src/uTimerLib.cpp:454-466 | with overflows the seconds path arms normally; without them the first notification only reloads the preset, and the object is armed after it |
| `Periods.SlowClockTimeout` | src/uTimerLib.cpp:428-466 | below 16 MHz a nonzero microsecond TIMEOUT fires at the first notification after 256 ticks; a nonzero seconds TIMEOUT fires at the second, after two ticks, and is OFF |
| `Periods.ShortSplitTiming` | src/uTimerLib.cpp:126-164 | below 16384 us a period lasts from the requested time up to one prescaler tick more, and exactly the requested time below 128 us |
| `Periods.LongSplitTiming` | src/uTimerLib.cpp:136-139 | from 16384 us a period is within one 64 us tick above the request, unless `(us % 16384) / 64` is 255, when it falls short by at least 16320 us |
| `Periods.MicrosScheduleTiming` | src/uTimerLib.cpp:109-184 | at 16 MHz, from any state, a microsecond schedule fires once after `Period` notifications spanning the request to within one prescaler tick (dropped-remainder case excluded) |
| `Periods.WorkedCases` | src/uTimerLib.cpp:136-176 | 16384 us gives 1 overflow, preset 255, 2 notifications, 257 ticks; 16350 us gives 0 overflows, preset 0, 256 ticks; 32704 us fires after one overflow |
| `TimerLib.UTimerLib.constructor` | src/uTimerLib.cpp:32-37 | the object starts OFF with all counts zero and the interrupt disabled |
| `TimerLib.UTimerLib.LoadRemaining` | src/uTimerLib.cpp:623-626 | changes the object as `StateMachine.LoadRemaining` |
| `TimerLib.UTimerLib.ClearTimer` | src/uTimerLib.cpp:659-665 | changes the object as `StateMachine.ClearTimer` |
| `TimerLib.UTimerLib.AttachMicros` | src/uTimerLib.cpp:109-184 | changes the object as `StateMachine.AttachMicros` and keeps it valid |
| `TimerLib.UTimerLib.AttachSeconds` | src/uTimerLib.cpp:420-471 | changes the object as `StateMachine.AttachSeconds` and keeps it valid |
| `TimerLib.UTimerLib.SetIntervalMicros` | src/uTimerLib.cpp:45-50 | changes the object as `StateMachine.SetMicros` with kind INTERVAL |
| `TimerLib.UTimerLib.SetTimeoutMicros` | src/uTimerLib.cpp:59-64 | changes the object as `StateMachine.SetMicros` with kind TIMEOUT |
| `TimerLib.UTimerLib.SetIntervalSeconds` | src/uTimerLib.cpp:73-78 | changes the object as `StateMachine.SetSeconds` with kind INTERVAL |
| `TimerLib.UTimerLib.SetTimeoutSeconds` | src/uTimerLib.cpp:87-92 | changes the object as `StateMachine.SetSeconds` with kind TIMEOUT |
| `TimerLib.UTimerLib.Interrupt` | src/uTimerLib.cpp:702-780 | changes the object as `StateMachine.Interrupt` and keeps it valid |

## Left out

- Register programming is not modelled: TCCR2A, TCCR2B, ASSR and the OCIE2A bit of TIMSK2 (src/uTimerLib.cpp:169-181, 457-468). The chosen prescaler is computed in `Split.prescaler` but is not stored in the object. Only the counter start and TOIE2 are kept, as ghost state.
- Concurrency is not modelled, and every call is atomic. This covers the `cli()`/`sei()` sections (src/uTimerLib.cpp:120, 183) and the SREG write in `clearTimer` (src/uTimerLib.cpp:664). That write clears the global interrupt flag, so global interrupts stay disabled after every `clearTimer()` call made from user code, and after a zero-duration request, which returns before the `sei()` of the attach routine. This is not modelled either.
- The time between an overflow and the TCNT2 write in the interrupt routine is not modelled. A reload is taken to start its cycle exactly at the overflow.
- The callback is a counter. A callback that calls back into the timer object is not modelled.
- The SAM, SAMD21 and SAMD51 decompositions are not modelled, because they use floating-point divisors. The ESP8266/ESP32 `Ticker` path, the STM32 `Timer3` path and the platform interrupt vectors (src/uTimerLib.cpp:785-853) are wrappers around code that is not part of this model.
- `setTimeout_us` and `setTimeout_s` are declared to return `int` but return nothing. The model gives them no result.
- `Periods.MicrosScheduleTiming` excludes the dropped-remainder case. `Periods.LongSplitTiming` states that case separately.
