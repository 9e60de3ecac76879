/** The AVR (Timer2) interval decomposition of uTimerLib.

    A requested duration becomes a clock-select prescaler, a number of full
    8-bit counter overflows and a preset: the value loaded into the counter
    for the final, partial cycle.  Timer2 counts up from the preset and raises
    its overflow interrupt when it wraps from 255 to 0, so a cycle started at
    preset `p` lasts `256 - p` ticks.

    All arithmetic is that of 32-bit `unsigned long int`; the expressions in
    the source that add 0.5 are evaluated in floating point (`double`), where
    every value involved is exact, and truncated back to an integer on
    assignment, which is modelled exactly below. */
module Decompose {

  /** 2^32: `unsigned long int` is 32 bits wide on AVR. */
  const Word: int := 0x1_0000_0000

  /** Values of a 32-bit `unsigned long int`. */
  type U32 = x: int | 0 <= x < Word

  /** Values of the 8-bit Timer2 count register TCNT2. */
  type U8 = x: int | 0 <= x < 256

  /** The CPU clock the arithmetic is written for (F_CPU == 16 MHz). */
  const ReferenceClock: nat := 16000000

  /** The largest overflow count a 32-bit duration can produce: (2^32 - 1) / 16384. */
  const MaxOverflows: nat := 262143

  /** Reduction of an unsigned product modulo 2^32 (unsigned wrap-around). */
  function Wrap32(x: int): (r: U32)
    ensures 0 <= x < Word ==> r == x
  {
    x % Word
  }

  /** The clock-select setting (CS22..CS20 of TCCR2B) chosen for a duration. */
  datatype Prescaler = Div1 | Div8 | Div32 | Div64 | Div128 | Div256 | Div1024

  /** The clock divisor of a prescaler setting.  At 16 MHz one Timer2 tick
      lasts `Divisor(p)` sixteenths of a microsecond. */
  function Divisor(p: Prescaler): (r: nat)
    ensures r >= 1
  {
    match p
    case Div1 => 1
    case Div8 => 8
    case Div32 => 32
    case Div64 => 64
    case Div128 => 128
    case Div256 => 256
    case Div1024 => 1024
  }

  /** A decomposition: prescaler, full overflows to count, and the preset
      (the value `_remaining` holds before it is loaded into TCNT2). */
  datatype Split = Split(prescaler: Prescaler, overflows: U32, preset: U32)

  /** The source rescales a duration for a CPU clock other than 16 MHz by
      multiplying with the truncated integer quotient `F_CPU / 16000000`, in
      32-bit unsigned arithmetic.  Below 16 MHz the quotient is 0 and every
      duration collapses to 0; from 16 MHz up to (not including) 32 MHz it is
      1 and the duration is not rescaled at all, so at 20 or 24 MHz periods
      run short by the ratio of the clocks. */
  function ScaleToReference(fcpu: nat, d: U32): (r: U32)
    ensures fcpu == ReferenceClock ==> r == d
    ensures fcpu < ReferenceClock ==> r == 0
    ensures ReferenceClock <= fcpu < 2 * ReferenceClock ==> r == d
    ensures fcpu / ReferenceClock * d < Word ==> r == fcpu / ReferenceClock * d
  {
    if fcpu != ReferenceClock then Wrap32(fcpu / ReferenceClock * d) else d
  }

  /** The C expression `256 - (q + 0.5)` assigned to an unsigned integer:
      the double `255.5 - q`, truncated toward zero.  Evaluated here in half
      units.  The added half does not round: the preset is always one below
      `256 - q`. */
  function HalfRoundedPreset(q: nat): (r: U8)
    requires q <= 255
    ensures r + q == 255
  {
    (2 * 256 - (2 * q + 1)) / 2
  }

  /** `_attachInterrupt_us` after the zero test and the clock rescaling:
      the prescaler band, overflow count and preset for `us` microseconds.
      `us` may be 0 here, when the rescaling collapsed a nonzero request. */
  function MicrosSplit(us: U32): (r: Split)
    ensures r.overflows == us / 16384 && r.overflows <= MaxOverflows
    ensures us > 0 ==> r.preset <= 255
    ensures us == 0 ==> r.preset == 256
  {
    if us >= 16384 then Split(Div1024, us / 16384, HalfRoundedPreset(us % 16384 / 64))
    else if us >= 4096 then Split(Div1024, 0, HalfRoundedPreset(us / 64))
    else if us >= 2048 then Split(Div256, 0, HalfRoundedPreset(us / 16))
    else if us >= 1024 then Split(Div128, 0, HalfRoundedPreset(us / 8))
    else if us >= 512 then Split(Div64, 0, HalfRoundedPreset(us / 4))
    else if us >= 128 then Split(Div32, 0, HalfRoundedPreset(us / 2))
    else if us >= 16 then Split(Div8, 0, 256 - us * 2)
    else Split(Div1, 0, 256 - us * 16)
  }

  /** The overflow count of `_attachInterrupt_s`, which picks its formula by
      reading `stale`, the `_overflows` value left by the previous schedule. */
  function SecondsOverflows(s: U32, stale: U32): (r: U32)
    ensures stale <= 500000 ==> r <= MaxOverflows
  {
    if stale > 500000 then Wrap32(s / 16384 * 1000000) else Wrap32(s * 1000000) / 16384
  }

  /** The preset of `_attachInterrupt_s`, including its "anti-overflow"
      branch for `s > 16384`.  Both branches give the preset of the exact,
      unwrapped product `s * 1000000`: neither the 32-bit wrap-around nor the
      subtraction of `temp` changes it. */
  function SecondsPreset(s: U32): (r: U8)
    ensures r + (s * 1000000) % 16384 / 64 == 255
  {
    SecondsLowBits(s);
    if s > 16384 then
      var temp := s / 16384 * 16384;
      HalfRoundedPreset(Wrap32((s - temp) * 1000000) % 16384 / 64)
    else
      HalfRoundedPreset(Wrap32(s * 1000000) % 16384 / 64)
  }

  /** `_attachInterrupt_s` after the zero test and the clock rescaling: always
      the coarsest prescaler. */
  function SecondsSplit(s: U32, stale: U32): (r: Split)
    ensures r.prescaler == Div1024 && r.preset <= 255
    ensures stale <= 500000 ==> r.overflows <= MaxOverflows
  {
    Split(Div1024, SecondsOverflows(s, stale), SecondsPreset(s))
  }

  // ---------------------------------------------------------------------
  // Properties of the decomposition

  /** The prescaler is the finest one whose full 256-tick cycle is longer
      than the duration; durations of 16384 us or more, which no cycle
      holds, get the coarsest prescaler. */
  lemma MicrosPrescalerIsFinestFit(us: U32)
    ensures var p := MicrosSplit(us).prescaler;
      (us < 16384 ==> 16 * us < 256 * Divisor(p)) &&
      (us >= 16384 ==> p == Div1024) &&
      forall p' :: Divisor(p') < Divisor(p) ==> 256 * Divisor(p') <= 16 * us
  {
    var p := MicrosSplit(us).prescaler;
    forall p' | Divisor(p') < Divisor(p) ensures 256 * Divisor(p') <= 16 * us {
      match p'
      case Div1 =>
      case Div8 =>
      case Div32 =>
      case Div64 =>
      case Div128 =>
      case Div256 =>
      case Div1024 =>
    }
  }

  /** Multiples of 2^32 vanish modulo 16384, so wrapping a product to 32 bits
      does not change its remainder modulo 16384. */
  lemma WrapKeepsLowBits(x: nat)
    ensures Wrap32(x) % 16384 == x % 16384
  {
    var k := x / Word;
    assert x == Word * k + Wrap32(x);
    assert Word * k == 16384 * (262144 * k);
    MultipleVanishes(262144 * k, Wrap32(x));
  }

  lemma {:induction false} MultipleVanishes(k: nat, b: nat)
    ensures (16384 * k + b) % 16384 == b % 16384
  {
    if k > 0 {
      MultipleVanishes(k - 1, b);
      assert 16384 * k + b == (16384 * (k - 1) + b) + 16384;
    }
  }

  /** The remainders modulo 16384 that both branches of `SecondsPreset`
      take equal that of the exact product. */
  lemma SecondsLowBits(s: U32)
    ensures Wrap32(s * 1000000) % 16384 == (s * 1000000) % 16384
    ensures Wrap32((s - s / 16384 * 16384) * 1000000) % 16384 == (s * 1000000) % 16384
  {
    var temp := s / 16384 * 16384;
    WrapKeepsLowBits(s * 1000000);
    WrapKeepsLowBits((s - temp) * 1000000);
    assert s * 1000000 == 16384 * (s / 16384 * 1000000) + (s - temp) * 1000000;
    MultipleVanishes(s / 16384 * 1000000, (s - temp) * 1000000);
  }

  /** While `s * 1000000` fits in 32 bits (s <= 4294) the seconds path
      decomposes exactly as the microsecond path does for `s * 1000000` us,
      provided the stale overflow count selects the ordinary formula. */
  lemma SecondsAgreeWithMicros(s: U32, stale: U32)
    requires 1 <= s <= 4294 && stale <= 500000
    ensures SecondsSplit(s, stale) == MicrosSplit(s * 1000000)
  {
    assert s * 1000000 < Word;
    SecondsLowBits(s);
  }

  /** From 4295 s on, `s * 1000000` wraps: a 4295-second request yields a
      single overflow, i.e. about 33 ms. */
  lemma SecondsOverflowWraps()
    ensures SecondsOverflows(4295, 0) == 1
    ensures 4295 * 1000000 / 16384 == 262145
  {
  }

  /** Below 16 MHz the rescaling collapses every request to 0 after the
      zero test.  The microsecond path then gets no overflows and preset 256
      (loaded into the 8-bit counter as 0); the seconds path gets no
      overflows and preset 255, whatever the stale overflow count. */
  lemma SlowClockCollapse(fcpu: nat, d: U32, stale: U32)
    requires fcpu < ReferenceClock
    ensures MicrosSplit(ScaleToReference(fcpu, d)) == Split(Div1, 0, 256)
    ensures SecondsSplit(ScaleToReference(fcpu, d), stale) == Split(Div1024, 0, 255)
  {
    assert ScaleToReference(fcpu, d) == 0;
    assert Wrap32(0) == 0;
  }

  /** A request of 2^26 seconds wraps to a zero product: no overflows at all. */
  lemma SecondsWrapToZeroOverflows()
    ensures SecondsSplit(67108864, 0) == Split(Div1024, 0, 255)
  {
    assert 67108864 / 16384 * 16384 == 67108864;
    assert Wrap32(0) == 0;
    assert Wrap32(67108864 * 1000000) == 0;
  }
}
