/*
 * The status LEDs on GPIO port C: the red LED on pin 1 (LEDOn, LEDOff,
 * LEDToggle) and the one-wire RGB LED whose data line is pin 0
 * (LEDSetColor, LEDSetIdx).  What the transmitter does is recorded as a
 * trace of BSRR writes, cyclesleep waits and interrupt-mask changes.
 */
module Led {

  /** Pin masks on port C. */
  const DataPin: bv16 := 0x0001
  const RedPin: bv16 := 0x0002

  /** BSRR words LEDSetColor writes: set pin 0, reset pin 0. */
  const DataHigh: bv32 := 1
  const DataLow: bv32 := 0x1_0000

  /** Number of bits sent per colour. */
  const ColorBits := 24

  /**
   * led_colors: eight preset colours, packed green in bits 16..23, red in
   * bits 8..15 and blue in bits 0..7, at the lowest intensity 1.
   */
  const LedColors: seq<bv32> :=
    [0x000000, 0x000001, 0x000100, 0x000101, 0x010000, 0x010001, 0x010100, 0x010101]

  /** The palette indices of led.h's enum led_colors. */
  const LedBlack := 0
  const LedBlue := 1
  const LedRed := 2
  const LedMagenta := 3
  const LedGreen := 4
  const LedCyan := 5
  const LedYellow := 6
  const LedWhite := 7

  /** The cycle counts computed by LEDInit (uint32_t globals). */
  datatype Timing = Timing(t0h: nat, t0l: nat, t1h: nat, t1l: nat, trst: nat)

  /** An observable step of the transmitter. */
  datatype Event =
    | Bsrr(word: bv32)       // a write to GPIOC->BSRR
    | CycleSleep(cycles: nat) // cyclesleep(cycles)
    | DisableIrq             // __disable_irq()
    | EnableIrq              // __enable_irq()

  /**
   * A write of w to the bit set/reset register: the low half sets pins,
   * the high half resets them, and a set wins over a reset.
   */
  function ApplyBsrr(odr: bv16, w: bv32): bv16
  {
    (odr & (((w >> 16) as bv16) ^ 0xFFFF)) | (w & 0xFFFF) as bv16
  }

  /** Whether a BSRR word sets pin 0, and whether it resets pin 0. */
  predicate SetsData(w: bv32) { w & 1 != 0 }
  predicate ResetsData(w: bv32) { w & 0x1_0000 != 0 }

  /** The data line level after one event. */
  function Step(high: bool, e: Event): bool
  {
    if e.Bsrr? && SetsData(e.word) then true
    else if e.Bsrr? && ResetsData(e.word) then false
    else high
  }

  /** The port with pin 0 low and every other pin as before (0xFFFE is all pins but pin 0). */
  function ClearData(odr: bv16): bv16 { odr & 0xFFFE }

  /**
   * The level of the data line (pin 0) after a sequence of events: a BSRR
   * word with bit 0 set drives it high, otherwise one with bit 16 set
   * drives it low; other events leave it alone.
   */
  function Level(high: bool, t: seq<Event>): bool
    decreases t
  {
    if t == [] then high
    else
      Level(Step(high, t[0]), t[1..])
  }

  /** The bit LEDSetColor tests before each shift: bit 23. */
  const Msb: bv32 := 0x80_0000

  /** The test `color & (1 << 23)` and the step `color <<= 1`. */
  predicate Top(c: bv32) { c & Msb != 0 }
  function Next(c: bv32): bv32 { c << 1 }

  /** Two words agree on bits 0..23. */
  predicate SameLow(c1: bv32, c2: bv32) { c1 & 0xFF_FFFF == c2 & 0xFF_FFFF }

  /**
   * The bits LEDSetColor sends, in order: bit 23 of the working copy,
   * which is then shifted left once per bit, so bit 23 of the colour goes
   * first and bit 0 last.
   */
  function SentBits(c: bv32, n: nat): (b: seq<bool>)
    ensures |b| == n
    decreases n
  {
    if n == 0 then [] else [Top(c)] + SentBits(Next(c), n - 1)
  }

  /** Bit i of a colour word (bit 0 is the least significant). */
  predicate BitOf(c: bv32, i: bv5)
  {
    c & ((1 as bv32) << i) != 0
  }

  /** Shifting left moves bit i to bit i + 1. */
  lemma NextBit(c: bv32, i: bv5)
    requires i < 23
    ensures BitOf(Next(c), i + 1) == BitOf(c, i)
  {
  }

  /**
   * Pulse k (0-based) carries bit 23 - k of the colour: most significant
   * bit first, bit 0 last.
   */
  lemma {:induction false} SentBitsOrder(c: bv32, n: nat, k: bv5)
    requires k as int < n && k < 24
    ensures SentBits(c, n)[k as int] == BitOf(c, 23 - k)
    decreases k as int
  {
    if k == 0 {
      assert Msb == (1 as bv32) << (23 as bv5);
    } else {
      assert (k - 1) as int == k as int - 1;
      SentBitsOrder(Next(c), n - 1, k - 1);
      NextBit(c, 23 - k);
    }
  }

  /** One data bit: drive high, wait, drive low, wait. */
  function Pulse(one: bool, tm: Timing): seq<Event>
  {
    [Bsrr(DataHigh), CycleSleep(if one then tm.t1h else tm.t0h),
     Bsrr(DataLow), CycleSleep(if one then tm.t1l else tm.t0l)]
  }

  /** The pulses for a sequence of bits, in order. */
  function Pulses(bits: seq<bool>, tm: Timing): (t: seq<Event>)
    ensures |t| == 4 * |bits|
  {
    if bits == [] then [] else Pulse(bits[0], tm) + Pulses(bits[1..], tm)
  }

  /**
   * Everything LEDSetColor(color) does: mask interrupts, send 24 bits,
   * unmask interrupts, hold the line for the reset time.
   */
  function Frame(color: bv32, tm: Timing): seq<Event>
  {
    [DisableIrq] + Pulses(SentBits(color, ColorBits), tm) + [EnableIrq, CycleSleep(tm.trst)]
  }

  /** Total cycles spent in cyclesleep over a trace. */
  function Waited(t: seq<Event>): nat
  {
    if t == [] then 0 else (if t[0].CycleSleep? then t[0].cycles else 0) + Waited(t[1..])
  }

  /** Number of 1 bits in a bit sequence. */
  function Ones(bits: seq<bool>): nat
  {
    if bits == [] then 0 else (if bits[0] then 1 else 0) + Ones(bits[1..])
  }

  /** LEDSetIdx's table lookup: led_colors[idx & 7]. */
  function PaletteColor(idx: bv8): bv32
  {
    LedColors[(idx & 7) as int]
  }

  // ------------------------------------------------------------ lemmas

  lemma {:induction false} PulsesAppend(a: seq<bool>, b: seq<bool>, tm: Timing)
    ensures Pulses(a + b, tm) == Pulses(a, tm) + Pulses(b, tm)
  {
    if a == [] {
      assert a + b == b;
    } else {
      assert (a + b)[1..] == a[1..] + b;
      PulsesAppend(a[1..], b, tm);
    }
  }

  lemma {:induction false} PulsesAt(bits: seq<bool>, tm: Timing, k: nat, d: nat)
    requires k < |bits| && d < 4
    ensures Pulses(bits, tm)[4 * k + d] == Pulse(bits[k], tm)[d]
  {
    if k > 0 {
      PulsesAt(bits[1..], tm, k - 1, d);
      assert Pulses(bits, tm)[4 * k + d] == Pulses(bits[1..], tm)[4 * (k - 1) + d];
    }
  }

  /** Event 1 + j of a frame is event j of its pulses. */
  lemma FrameAt(color: bv32, tm: Timing, j: nat)
    requires j < 4 * ColorBits
    ensures |Frame(color, tm)| == 4 * ColorBits + 3
    ensures Frame(color, tm)[1 + j] == Pulses(SentBits(color, ColorBits), tm)[j]
  {
  }

  /**
   * The frame is 99 events long.  Pulse k (0-based) starts at index
   * 1 + 4k: drive high, wait T1H or T0H, drive low, wait T1L or T0L,
   * according to the k-th bit sent; each bit ends with the line low.
   */
  lemma FramePulse(color: bv32, tm: Timing, k: nat)
    requires k < ColorBits
    ensures |Frame(color, tm)| == 4 * ColorBits + 3
    ensures var f := Frame(color, tm);
      var one := SentBits(color, ColorBits)[k];
      && f[1 + 4 * k] == Bsrr(DataHigh)
      && f[2 + 4 * k] == CycleSleep(if one then tm.t1h else tm.t0h)
      && f[3 + 4 * k] == Bsrr(DataLow)
      && f[4 + 4 * k] == CycleSleep(if one then tm.t1l else tm.t0l)
  {
    var one := SentBits(color, ColorBits)[k];
    FrameEventAt(color, tm, k, 0);
    FrameEventAt(color, tm, k, 1);
    FrameEventAt(color, tm, k, 2);
    FrameEventAt(color, tm, k, 3);
    assert Pulse(one, tm)[0] == Bsrr(DataHigh) && Pulse(one, tm)[2] == Bsrr(DataLow);
  }

  /** Event 1 + 4k + d of a frame is event d of the pulse for bit k. */
  lemma FrameEventAt(color: bv32, tm: Timing, k: nat, d: nat)
    requires k < ColorBits && d < 4
    ensures |Frame(color, tm)| == 4 * ColorBits + 3
    ensures Frame(color, tm)[1 + 4 * k + d] == Pulse(SentBits(color, ColorBits)[k], tm)[d]
  {
    PulsesAt(SentBits(color, ColorBits), tm, k, d);
    FrameAt(color, tm, 4 * k + d);
  }

  /** Sending bit i after bits 0..i-1. */
  lemma PulsesSnoc(bits: seq<bool>, i: nat, tm: Timing)
    requires i < |bits|
    ensures Pulses(bits[..i + 1], tm) == Pulses(bits[..i], tm) + Pulse(bits[i], tm)
  {
    assert bits[..i + 1] == bits[..i] + [bits[i]];
    PulsesAppend(bits[..i], [bits[i]], tm);
    assert Pulses([bits[i]], tm) == Pulse(bits[i], tm) by {
      assert [bits[i]][1..] == [];
    }
  }

  /**
   * One turn of LEDSetColor's loop: the bit read is the next one of the
   * colour, and its pulse follows those already sent.
   */
  lemma ShiftOutStep(color: bv32, sent: seq<bool>, c: bv32, m: nat, tm: Timing, before: seq<Event>)
    requires 0 < m && SentBits(color, ColorBits) == sent + SentBits(c, m)
    ensures SentBits(color, ColorBits) == (sent + [Top(c)]) + SentBits(Next(c), m - 1)
    ensures before + Pulses(sent + [Top(c)], tm) == (before + Pulses(sent, tm)) + Pulse(Top(c), tm)
  {
    assert SentBits(c, m) == [Top(c)] + SentBits(Next(c), m - 1);
    assert sent + ([Top(c)] + SentBits(Next(c), m - 1)) == (sent + [Top(c)]) + SentBits(Next(c), m - 1);
    PulsesAppend(sent, [Top(c)], tm);
    assert Pulses([Top(c)], tm) == Pulse(Top(c), tm) by {
      assert [Top(c)][1..] == [];
    }
  }

  /** The loop's working copy holds the bits still to be sent. */
  lemma SentBitsStep(c: bv32, m: nat, bits: seq<bool>, i: nat)
    requires 0 < m && i + m == |bits| && SentBits(c, m) == bits[i..]
    ensures Top(c) == bits[i] && SentBits(Next(c), m - 1) == bits[i + 1..]
  {
    assert bits[i..] == [Top(c)] + SentBits(Next(c), m - 1);
    assert bits[i + 1..] == bits[i..][1..];
  }

  /** No interrupt-mask change occurs inside the pulses. */
  lemma {:induction false} PulsesNoIrq(bits: seq<bool>, tm: Timing)
    ensures forall i :: 0 <= i < |Pulses(bits, tm)| ==>
      Pulses(bits, tm)[i].Bsrr? || Pulses(bits, tm)[i].CycleSleep?
  {
    if bits != [] {
      PulsesNoIrq(bits[1..], tm);
    }
  }

  /**
   * Interrupts are masked first, unmasked right after the 24th bit, and
   * only then does the reset-time wait happen; nothing else touches the
   * mask.
   */
  lemma FrameCriticalSection(color: bv32, tm: Timing)
    ensures var f := Frame(color, tm);
      && |f| == 4 * ColorBits + 3
      && f[0] == DisableIrq
      && f[4 * ColorBits + 1] == EnableIrq
      && f[4 * ColorBits + 2] == CycleSleep(tm.trst)
      && forall i :: 1 <= i <= 4 * ColorBits ==> f[i].Bsrr? || f[i].CycleSleep?
  {
    PulsesNoIrq(SentBits(color, ColorBits), tm);
  }

  lemma {:induction false} WaitedAppend(a: seq<Event>, b: seq<Event>)
    ensures Waited(a + b) == Waited(a) + Waited(b)
  {
    if a != [] {
      assert (a + b)[1..] == a[1..] + b;
      WaitedAppend(a[1..], b);
    } else {
      assert a + b == b;
    }
  }

  /** The wait in one pulse. */
  lemma WaitedPulse(one: bool, tm: Timing)
    ensures Waited(Pulse(one, tm)) == if one then tm.t1h + tm.t1l else tm.t0h + tm.t0l
  {
    var p := Pulse(one, tm);
    assert Waited(p[3..]) == (if one then tm.t1l else tm.t0l) by {
      assert p[3..][1..] == [];
    }
    assert Waited(p[2..]) == Waited(p[3..]) by {
      assert p[2..][1..] == p[3..];
    }
    assert Waited(p[1..]) == (if one then tm.t1h else tm.t0h) + Waited(p[2..]) by {
      assert p[1..][1..] == p[2..];
    }
  }

  lemma {:induction false} OnesBound(bits: seq<bool>)
    ensures Ones(bits) <= |bits|
  {
    if bits != [] {
      OnesBound(bits[1..]);
    }
  }

  /** Adding one more bit's pulse to a count of o ones among m bits. */
  lemma StepCount(o: int, m: int, a: int, b: int)
    ensures a + o * a + (m - o) * b == (o + 1) * a + (m + 1 - (o + 1)) * b
    ensures b + o * a + (m - o) * b == o * a + (m + 1 - o) * b
  {
    assert (o + 1) * a == o * a + a;
    assert (m + 1 - o) * b == (m - o) * b + b;
  }

  lemma {:induction false} PulsesWaited(bits: seq<bool>, tm: Timing)
    ensures Ones(bits) <= |bits|
    ensures Waited(Pulses(bits, tm))
      == Ones(bits) * (tm.t1h + tm.t1l) + (|bits| - Ones(bits)) * (tm.t0h + tm.t0l)
  {
    OnesBound(bits);
    if bits != [] {
      var rest := bits[1..];
      PulsesWaited(rest, tm);
      WaitedAppend(Pulse(bits[0], tm), Pulses(rest, tm));
      WaitedPulse(bits[0], tm);
      StepCount(Ones(rest), |rest|, tm.t1h + tm.t1l, tm.t0h + tm.t0l);
    }
  }

  /**
   * The transmission time is fixed by the colour's number of 1 bits:
   * ones * (T1H + T1L) + (24 - ones) * (T0H + T0L) + TRST cycles.
   */
  lemma FrameWaited(color: bv32, tm: Timing)
    ensures var ones := Ones(SentBits(color, ColorBits));
      && ones <= ColorBits
      && Waited(Frame(color, tm))
        == ones * (tm.t1h + tm.t1l) + (ColorBits - ones) * (tm.t0h + tm.t0l) + tm.trst
  {
    var p := Pulses(SentBits(color, ColorBits), tm);
    PulsesWaited(SentBits(color, ColorBits), tm);
    WaitedAppend([DisableIrq], p);
    WaitedAppend([DisableIrq] + p, [EnableIrq, CycleSleep(tm.trst)]);
    assert Waited([DisableIrq]) == 0;
    assert [EnableIrq, CycleSleep(tm.trst)][1..][1..] == [];
  }

  /** Shifting left keeps the low three bytes a function of the low three bytes. */
  lemma ShiftLow(x1: bv32, x2: bv32)
    requires SameLow(x1, x2)
    ensures SameLow(Next(x1), Next(x2)) && Top(x1) == Top(x2)
  {
  }

  lemma {:induction false} SentBitsLow(c1: bv32, c2: bv32, n: nat)
    requires SameLow(c1, c2)
    ensures SentBits(c1, n) == SentBits(c2, n)
    decreases n
  {
    if n > 0 {
      ShiftLow(c1, c2);
      SentBitsLow(Next(c1), Next(c2), n - 1);
    }
  }

  /** Bits 24..31 of the argument never reach the wire. */
  lemma FrameIgnoresHighByte(c1: bv32, c2: bv32, tm: Timing)
    requires SameLow(c1, c2)
    ensures Frame(c1, tm) == Frame(c2, tm)
  {
    SentBitsLow(c1, c2, ColorBits);
  }

  lemma {:induction false} LevelAppend(high: bool, a: seq<Event>, b: seq<Event>)
    ensures Level(high, a + b) == Level(Level(high, a), b)
    decreases a
  {
    if a == [] {
      assert a + b == b;
    } else {
      assert (a + b)[1..] == a[1..] + b;
      assert (a + b)[0] == a[0];
      LevelAppend(Step(high, a[0]), a[1..], b);
    }
  }

  /** A pulse ends with the data line low. */
  lemma LevelPulse(high: bool, one: bool, tm: Timing)
    ensures Level(high, Pulse(one, tm)) == false
  {
    var p := Pulse(one, tm);
    assert Level(false, p[3..]) == false by {
      assert p[3..][1..] == [];
    }
    assert Level(true, p[2..]) == false by {
      assert p[2..][1..] == p[3..];
    }
    assert Level(true, p[1..]) == false by {
      assert p[1..][1..] == p[2..];
    }
  }

  /** After one or more pulses the data line is low, whatever it was. */
  lemma {:induction false} LevelPulses(high: bool, bits: seq<bool>, tm: Timing)
    requires bits != []
    ensures Level(high, Pulses(bits, tm)) == false
    decreases bits
  {
    LevelAppend(high, Pulse(bits[0], tm), Pulses(bits[1..], tm));
    LevelPulse(high, bits[0], tm);
    if bits[1..] != [] {
      LevelPulses(false, bits[1..], tm);
    } else {
      assert Pulses(bits[1..], tm) == [];
    }
  }

  /**
   * When the final TRST wait begins, the data line is low, whatever level
   * it had before the call, and it stays low.
   */
  lemma LineLowAtReset(color: bv32, tm: Timing, high: bool)
    ensures Level(high, Frame(color, tm)[..4 * ColorBits + 2]) == false
    ensures Level(high, Frame(color, tm)) == false
  {
    var p := Pulses(SentBits(color, ColorBits), tm);
    var f := Frame(color, tm);
    assert f[..4 * ColorBits + 2] == [DisableIrq] + p + [EnableIrq];
    assert f == [DisableIrq] + p + [EnableIrq] + [CycleSleep(tm.trst)];
    LevelAppend(high, [DisableIrq], p);
    assert Level(high, [DisableIrq]) == high by {
      assert [DisableIrq][1..] == [];
    }
    LevelPulses(high, SentBits(color, ColorBits), tm);
    LevelAppend(high, [DisableIrq] + p, [EnableIrq]);
    assert Level(false, [EnableIrq]) == false by {
      assert [EnableIrq][1..] == [];
    }
    LevelAppend(high, [DisableIrq] + p + [EnableIrq], [CycleSleep(tm.trst)]);
    assert Level(false, [CycleSleep(tm.trst)]) == false by {
      assert [CycleSleep(tm.trst)][1..] == [];
    }
  }

  /** The register model and the trace agree on what a BSRR write does to pin 0. */
  lemma BsrrAgreesWithLevel(odr: bv16, w: bv32)
    ensures (ApplyBsrr(odr, w) & DataPin != 0) == Level(odr & DataPin != 0, [Bsrr(w)])
  {
    assert [Bsrr(w)][1..] == [];
  }

  /** Clearing pin 0 twice is clearing it once. */
  lemma ClearTwice(odr: bv16)
    ensures ClearData(ClearData(odr)) == ClearData(odr)
  {
  }

  /** Driving pin 0 high and then low leaves it low and the rest as it was. */
  lemma HighThenLow(odr: bv16)
    ensures ApplyBsrr(ApplyBsrr(odr, DataHigh), DataLow) == ClearData(odr)
  {
  }

  /**
   * LEDSetIdx takes the index modulo 8, so idx and idx + 8 pick the same
   * colour; palette entry k lights blue if bit 0 of k is set, red if
   * bit 1 is set and green if bit 2 is set.
   */
  lemma PaletteWraps(idx: bv8)
    ensures PaletteColor(idx) == LedColors[idx as int % 8]
    ensures idx < 248 ==> PaletteColor(idx) == PaletteColor(idx + 8)
    ensures var k := (idx & 7) as bv32;
      PaletteColor(idx) == (k & 1) | (((k >> 1) & 1) << 8) | (((k >> 2) & 1) << 16)
  {
    var j := idx & 7;
    assert j as int == idx as int % 8 by {
      assert idx == (idx >> 3) * 8 + j;
    }
    assert idx < 248 ==> (idx + 8) & 7 == j;
    if j == 0 {} else if j == 1 {} else if j == 2 {} else if j == 3 {}
    else if j == 4 {} else if j == 5 {} else if j == 6 {} else {}
  }

  /** The enum names of led.h agree with the palette contents. */
  lemma PaletteNames()
    ensures PaletteColor(LedBlack as bv8) == 0
    ensures PaletteColor(LedBlue as bv8) & 0xFF != 0 && PaletteColor(LedBlue as bv8) & 0xFF_FF00 == 0
    ensures PaletteColor(LedRed as bv8) & 0xFF00 != 0 && PaletteColor(LedRed as bv8) & 0xFF_00FF == 0
    ensures PaletteColor(LedGreen as bv8) & 0xFF_0000 != 0 && PaletteColor(LedGreen as bv8) & 0x00_FFFF == 0
    ensures PaletteColor(LedWhite as bv8) == 0x010101
  {
  }

  /** Toggling the red LED twice leaves the port as it was. */
  lemma ToggleTwice(odr: bv16)
    ensures (odr ^ RedPin) ^ RedPin == odr
    ensures (odr ^ RedPin) & 0xFFFD == odr & 0xFFFD
  {
  }

  /**
   * GPIO port C as the LED code sees it: the output data register, the
   * PRIMASK interrupt-enable state, and the trace of the transmitter.
   */
  class LedPort {
    var odr: bv16
    var irqEnabled: bool
    var trace: seq<Event>

    constructor (odr0: bv16)
      ensures odr == odr0 && irqEnabled && trace == []
    {
      odr, irqEnabled, trace := odr0, true, [];
    }

    /** A write to GPIOC->BSRR. */
    method WriteBsrr(w: bv32)
      modifies this
      ensures odr == ApplyBsrr(old(odr), w) && irqEnabled == old(irqEnabled)
      ensures trace == old(trace) + [Bsrr(w)]
    {
      odr := ApplyBsrr(odr, w);
      trace := trace + [Bsrr(w)];
    }

    /** LEDOn: set pin 1 only. */
    method On()
      modifies this`odr
      ensures odr & RedPin == RedPin && odr & 0xFFFD == old(odr) & 0xFFFD
    {
      odr := ApplyBsrr(odr, RedPin as bv32);
    }

    /** LEDOff: reset pin 1 only. */
    method Off()
      modifies this`odr
      ensures odr & RedPin == 0 && odr & 0xFFFD == old(odr) & 0xFFFD
    {
      odr := ApplyBsrr(odr, (RedPin as bv32) << 16);
    }

    /** LEDToggle: invert pin 1 only. */
    method Toggle()
      modifies this`odr
      ensures odr & RedPin == (old(odr) & RedPin) ^ RedPin && odr & 0xFFFD == old(odr) & 0xFFFD
    {
      odr := odr ^ RedPin;
    }

    /** One iteration of LEDSetColor's loop: the pulse for one data bit. */
    method SendBit(one: bool, tm: Timing)
      modifies this
      ensures trace == old(trace) + Pulse(one, tm)
      ensures odr == ClearData(old(odr)) && irqEnabled == old(irqEnabled)
    {
      var s1 := CycleSleep(if one then tm.t1h else tm.t0h);
      var s2 := CycleSleep(if one then tm.t1l else tm.t0l);
      WriteBsrr(DataHigh);
      trace := trace + [s1];
      WriteBsrr(DataLow);
      trace := trace + [s2];
      HighThenLow(old(odr));
      assert trace == old(trace) + [Bsrr(DataHigh), s1, Bsrr(DataLow), s2];
    }

    /**
     * The loop of LEDSetColor: 24 times, send bit 23 of the working copy
     * and shift it left.
     */
    method ShiftOut(color: bv32, tm: Timing)
      modifies this
      ensures trace == old(trace) + Pulses(SentBits(color, ColorBits), tm)
      ensures odr == ClearData(old(odr)) && irqEnabled == old(irqEnabled)
    {
      ghost var sent: seq<bool> := [];
      var c := color;
      for i := 0 to ColorBits
        invariant SentBits(color, ColorBits) == sent + SentBits(c, ColorBits - i)
        invariant trace == old(trace) + Pulses(sent, tm)
        invariant i == 0 ==> odr == old(odr)
        invariant i > 0 ==> odr == ClearData(old(odr))
        invariant irqEnabled == old(irqEnabled)
      {
        var one := Top(c);
        ShiftOutStep(color, sent, c, ColorBits - i, tm, old(trace));
        SendBit(one, tm);
        sent := sent + [one];
        c := Next(c);
        ClearTwice(old(odr));
      }
      assert sent + SentBits(c, 0) == sent;
    }

    /**
     * LEDSetColor: shift the colour out on pin 0 inside a critical
     * section, then wait the reset time; the data line ends low and no
     * other pin changes.
     */
    method SetColor(color: bv32, tm: Timing)
      modifies this
      ensures trace == old(trace) + Frame(color, tm)
      ensures odr == ClearData(old(odr))
      ensures irqEnabled
    {
      irqEnabled := false;
      trace := trace + [DisableIrq];
      ShiftOut(color, tm);
      irqEnabled := true;
      trace := trace + [EnableIrq, CycleSleep(tm.trst)];
    }

    /** LEDSetIdx: send led_colors[idx & 7]. */
    method SetIdx(idx: bv8, tm: Timing)
      modifies this
      ensures trace == old(trace) + Frame(PaletteColor(idx), tm)
      ensures odr == ClearData(old(odr))
      ensures irqEnabled
    {
      SetColor(LedColors[(idx & 7) as int], tm);
    }
  }
}
