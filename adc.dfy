/*
 * The five-channel boxcar (moving-average) filter that the DMA
 * transfer-complete interrupt runs over the ADC scan buffer.
 *
 * Module AdcFilter is the specification: the filter state as a value,
 * one interrupt pass as a function on it, a run of passes from the
 * cleared state, and what a run computes (the sum of the last 32 scans
 * of each channel).  Module Adc is the driver itself: the global arrays
 * updated in place by ADC_Init and DMA2_Stream0_IRQHandler.
 */
module AdcFilter {

  /** ADC_NUMCHLS: channels in one scan. */
  const NumChls := 5
  /** OS_RATIO: length of each channel's delay line. */
  const OsRatio := 32
  /** 2^OS_SHIFT == OS_RATIO. */
  const OsShift := 5
  /** Largest value a uint16_t sample buffer can hold. */
  const U16Max := 0xFFFF
  /** Largest 12-bit conversion result (ADC_RESOLUTION_12B). */
  const Adc12Max := 4095

  /** One DMA scan: a raw uint16_t sample per channel. */
  predicate IsScan(raw: seq<int>)
  {
    |raw| == NumChls && forall c :: 0 <= c < NumChls ==> 0 <= raw[c] <= U16Max
  }

  predicate AllScans(xs: seq<seq<int>>)
  {
    forall k :: 0 <= k < |xs| ==> IsScan(xs[k])
  }

  /**
   * The filter's variables: adc_acc, adc_dly, adc_dly_ptr and adc_procbuf.
   */
  datatype FilterState = FilterState(acc: seq<int>, dly: seq<seq<int>>, ptr: int, proc: seq<int>)

  /** The array dimensions of the C declarations, and the cursor range. */
  predicate Shaped(s: FilterState)
  {
    && |s.acc| == NumChls && |s.dly| == NumChls && |s.proc| == NumChls
    && (forall c :: 0 <= c < NumChls ==> |s.dly[c]| == OsRatio)
    && 0 <= s.ptr < OsRatio
  }

  function Sum(s: seq<int>): int
  {
    if s == [] then 0 else s[0] + Sum(s[1..])
  }

  function Zeros(n: nat): (z: seq<int>)
    ensures |z| == n && forall k :: 0 <= k < n ==> z[k] == 0
  {
    seq(n, _ => 0)
  }

  /**
   * `adc_procbuf[i] = adc_acc[i] >> OS_SHIFT`: an arithmetic shift of an
   * int32_t (floor division by 32, which is what Dafny's `/` does for a
   * positive divisor) stored into a uint16_t (kept modulo 2^16).
   */
  function Normalize(acc: int): int
  {
    (acc / OsRatio) % 0x1_0000
  }

  /** All filter state zero, as ADC_Init leaves it. */
  function Cleared(): (s: FilterState)
    ensures Shaped(s)
  {
    FilterState(Zeros(NumChls), seq(NumChls, _ => Zeros(OsRatio)), 0, Zeros(NumChls))
  }

  /**
   * One transfer-complete pass: for every channel, subtract the oldest
   * delay-line sample from the accumulator, add the new sample, store
   * it in the slot under the cursor, publish the normalized
   * accumulator; then advance the shared cursor once.
   */
  function Pass(s: FilterState, raw: seq<int>): (r: FilterState)
    requires Shaped(s) && IsScan(raw)
    ensures Shaped(r)
  {
    var acc := seq(NumChls, c requires 0 <= c < NumChls => s.acc[c] - s.dly[c][s.ptr] + raw[c]);
    FilterState(
      acc,
      seq(NumChls, c requires 0 <= c < NumChls => s.dly[c][s.ptr := raw[c]]),
      (s.ptr + 1) % OsRatio,
      seq(NumChls, c requires 0 <= c < NumChls => Normalize(acc[c])))
  }

  /** The state after the passes xs, starting from the cleared state. */
  function Run(xs: seq<seq<int>>): (s: FilterState)
    requires AllScans(xs)
    ensures Shaped(s) && s.ptr == |xs| % OsRatio
    decreases |xs|
  {
    if xs == [] then Cleared()
    else
      var init := xs[..|xs| - 1];
      assert AllScans(init) by {
        forall k | 0 <= k < |init| ensures IsScan(init[k]) {
          assert init[k] == xs[k];
        }
      }
      CursorStep(|init|);
      Pass(Run(init), xs[|xs| - 1])
  }

  /** Advancing the cursor modulo OS_RATIO once per pass. */
  lemma CursorStep(n: nat)
    ensures (n % OsRatio + 1) % OsRatio == (n + 1) % OsRatio
  {
  }

  /** The samples of channel c, one per pass, oldest first. */
  function Column(xs: seq<seq<int>>, c: int): (col: seq<int>)
    requires AllScans(xs) && 0 <= c < NumChls
    ensures |col| == |xs|
  {
    seq(|xs|, k requires 0 <= k < |xs| => xs[k][c])
  }

  /**
   * The last 32 samples of a channel, oldest first; before 32 passes
   * have run, the cleared delay line supplies the missing ones as 0.
   */
  function Window(col: seq<int>): (w: seq<int>)
    ensures |w| == OsRatio
  {
    (Zeros(OsRatio) + col)[|col|..]
  }

  /**
   * The filter invariant: samples in the delay lines are uint16_t
   * values, every accumulator is the sum of its delay line, and every
   * output is the normalized accumulator.
   */
  predicate Inv(s: FilterState)
  {
    && Shaped(s)
    && (forall c, j :: 0 <= c < NumChls && 0 <= j < OsRatio ==> 0 <= s.dly[c][j] <= U16Max)
    && (forall c :: 0 <= c < NumChls ==> s.acc[c] == Sum(s.dly[c]))
    && (forall c :: 0 <= c < NumChls ==> s.proc[c] == Normalize(s.acc[c]))
  }

  // ---------------------------------------------------------------- sums

  lemma {:induction false} SumAppend(a: seq<int>, b: seq<int>)
    ensures Sum(a + b) == Sum(a) + Sum(b)
  {
    if a == [] {
      assert a + b == b;
    } else {
      assert (a + b)[1..] == a[1..] + b;
      SumAppend(a[1..], b);
    }
  }

  lemma {:induction false} SumUpdate(s: seq<int>, i: int, v: int)
    requires 0 <= i < |s|
    ensures Sum(s[i := v]) == Sum(s) - s[i] + v
  {
    if i == 0 {
      assert s[i := v][1..] == s[1..];
    } else {
      assert s[i := v][1..] == s[1..][i - 1 := v];
      SumUpdate(s[1..], i - 1, v);
    }
  }

  lemma {:induction false} SumBounds(s: seq<int>, hi: int)
    requires forall k :: 0 <= k < |s| ==> 0 <= s[k] <= hi
    ensures 0 <= Sum(s) <= |s| * hi
  {
    if s != [] {
      SumBounds(s[1..], hi);
      assert |s| * hi == hi + (|s| - 1) * hi;
    }
  }

  lemma {:induction false} SumConst(s: seq<int>, v: int)
    requires forall k :: 0 <= k < |s| ==> s[k] == v
    ensures Sum(s) == |s| * v
  {
    if s != [] {
      SumConst(s[1..], v);
      assert |s| * v == v + (|s| - 1) * v;
    }
  }

  /** A sequence that is zero except at index q sums to its value at q. */
  lemma SumSingle(s: seq<int>, q: int)
    requires 0 <= q < |s|
    requires forall k :: 0 <= k < |s| && k != q ==> s[k] == 0
    ensures Sum(s) == s[q]
  {
    assert s == s[..q] + [s[q]] + s[q + 1..];
    SumAppend(s[..q] + [s[q]], s[q + 1..]);
    SumAppend(s[..q], [s[q]]);
    SumConst(s[..q], 0);
    SumConst(s[q + 1..], 0);
  }

  // ------------------------------------------------------ one pass

  /**
   * Normalize is exact on accumulators a full window of uint16_t samples
   * can produce: no int32_t/uint16_t truncation happens.
   */
  lemma NormalizeInRange(acc: int)
    requires 0 <= acc <= OsRatio * U16Max
    ensures Normalize(acc) == acc / OsRatio
    ensures 0 <= Normalize(acc) <= U16Max
  {
  }

  /** A pass keeps the invariant. */
  lemma PassKeepsInv(s: FilterState, raw: seq<int>)
    requires Inv(s) && IsScan(raw)
    ensures Inv(Pass(s, raw))
  {
    var r := Pass(s, raw);
    forall c | 0 <= c < NumChls
      ensures r.acc[c] == Sum(r.dly[c])
    {
      SumUpdate(s.dly[c], s.ptr, raw[c]);
    }
  }

  /**
   * What one pass changes: each delay line only in the slot under the
   * cursor, which receives the new sample; the cursor advances by one
   * modulo 32; each accumulator moves by the new sample minus the
   * overwritten one, and each output becomes the floor of the
   * accumulator over 32.
   */
  lemma PassEffect(s: FilterState, raw: seq<int>)
    requires Inv(s) && IsScan(raw)
    ensures Pass(s, raw).ptr == (s.ptr + 1) % OsRatio
    ensures forall c, j :: 0 <= c < NumChls && 0 <= j < OsRatio ==>
      Pass(s, raw).dly[c][j] == if j == s.ptr then raw[c] else s.dly[c][j]
    ensures forall c :: 0 <= c < NumChls ==>
      Pass(s, raw).acc[c] == Sum(s.dly[c]) - s.dly[c][s.ptr] + raw[c]
    ensures forall c :: 0 <= c < NumChls ==> Pass(s, raw).proc[c] == Pass(s, raw).acc[c] / OsRatio
  {
    var r := Pass(s, raw);
    PassKeepsInv(s, raw);
    forall c | 0 <= c < NumChls
      ensures r.proc[c] == r.acc[c] / OsRatio
    {
      InvBounds(r, c);
    }
  }

  /**
   * Bounds that hold in every state satisfying the invariant: the
   * accumulator lies in [0, 32 * 65535], within int32_t, and the
   * output fits a uint16_t and is the floor of the window mean.
   */
  lemma InvBounds(s: FilterState, c: int)
    requires Inv(s) && 0 <= c < NumChls
    ensures 0 <= s.acc[c] <= OsRatio * U16Max
    ensures s.proc[c] == s.acc[c] / OsRatio
    ensures 0 <= s.proc[c] <= U16Max
  {
    SumBounds(s.dly[c], U16Max);
  }

  /**
   * With 12-bit conversions in every delay line the accumulator stays in
   * [0, 32 * 4095] and the output never exceeds 4095.
   */
  lemma Bounds12Bit(s: FilterState, c: int)
    requires Inv(s) && 0 <= c < NumChls
    requires forall j :: 0 <= j < OsRatio ==> s.dly[c][j] <= Adc12Max
    ensures 0 <= s.acc[c] <= OsRatio * Adc12Max
    ensures 0 <= s.proc[c] <= Adc12Max
  {
    SumBounds(s.dly[c], Adc12Max);
    NormalizeInRange(s.acc[c]);
  }

  // ------------------------------------------------------ runs of passes

  lemma {:induction false} RunKeepsInv(xs: seq<seq<int>>)
    requires AllScans(xs)
    ensures Inv(Run(xs))
    decreases |xs|
  {
    if xs == [] {
      var s := Cleared();
      forall c | 0 <= c < NumChls ensures s.acc[c] == Sum(s.dly[c]) {
        SumConst(s.dly[c], 0);
      }
    } else {
      RunKeepsInv(xs[..|xs| - 1]);
      PassKeepsInv(Run(xs[..|xs| - 1]), xs[|xs| - 1]);
    }
  }

  lemma WindowSnoc(col: seq<int>, x: int)
    ensures Window(col + [x]) == Window(col)[1..] + [x]
  {
    assert Zeros(OsRatio) + (col + [x]) == (Zeros(OsRatio) + col) + [x];
  }

  /** Once 32 passes have run, the window is exactly the last 32 samples. */
  lemma WindowOfLong(col: seq<int>)
    requires |col| >= OsRatio
    ensures Window(col) == col[|col| - OsRatio..]
  {
  }

  lemma ColumnSnoc(xs: seq<seq<int>>, c: int)
    requires AllScans(xs) && xs != [] && 0 <= c < NumChls
    ensures Column(xs, c) == Column(xs[..|xs| - 1], c) + [xs[|xs| - 1][c]]
  {
  }

  /** Slot arithmetic of the ring: index n + 1 + k lands on slot n only for k == 31. */
  lemma RingSlot(n: nat, k: int)
    requires 0 <= k < OsRatio
    ensures (n + 1 + k) % OsRatio == n % OsRatio <==> k == OsRatio - 1
    ensures k < OsRatio - 1 ==> (n + 1 + k) % OsRatio == (n + (k + 1)) % OsRatio
  {
  }

  /**
   * One pass moves a channel's window forward by one sample: if the
   * delay line read from slot n % 32 onwards is w and the accumulator is
   * Sum(w), then after the pass the delay line read from slot (n + 1) % 32
   * onwards is w without its oldest sample plus the new one, and the
   * accumulator is that window's sum.
   */
  lemma PassSlides(s: FilterState, raw: seq<int>, c: int, n: nat, m: nat, w: seq<int>)
    requires Shaped(s) && IsScan(raw) && 0 <= c < NumChls
    requires s.ptr == n % OsRatio && |w| == OsRatio && m == n + 1
    requires forall k :: 0 <= k < OsRatio ==> s.dly[c][(n + k) % OsRatio] == w[k]
    requires s.acc[c] == Sum(w)
    ensures forall k :: 0 <= k < OsRatio ==> Pass(s, raw).dly[c][(m + k) % OsRatio] == (w[1..] + [raw[c]])[k]
    ensures Pass(s, raw).acc[c] == Sum(w[1..] + [raw[c]])
  {
    var r := Pass(s, raw);
    assert s.dly[c][(n + 0) % OsRatio] == w[0];
    SumAppend(w[1..], [raw[c]]);
    assert Sum([raw[c]]) == raw[c];
    forall k | 0 <= k < OsRatio
      ensures r.dly[c][(m + k) % OsRatio] == (w[1..] + [raw[c]])[k]
    {
      RingSlot(n, k);
      if k < OsRatio - 1 {
        assert s.dly[c][(n + (k + 1)) % OsRatio] == w[k + 1];
      }
    }
  }

  /**
   * The sliding-window theorem.  After the passes xs, reading channel c's
   * delay line from the cursor onwards gives the last 32 samples of the
   * channel oldest first, and the accumulator is exactly their sum.
   */
  lemma {:induction false} RunWindow(xs: seq<seq<int>>, c: int)
    requires AllScans(xs) && 0 <= c < NumChls
    ensures forall k :: 0 <= k < OsRatio ==>
      Run(xs).dly[c][(|xs| + k) % OsRatio] == Window(Column(xs, c))[k]
    ensures Run(xs).acc[c] == Sum(Window(Column(xs, c)))
    decreases |xs|
  {
    if xs == [] {
      assert Window(Column(xs, c)) == Zeros(OsRatio);
      SumConst(Zeros(OsRatio), 0);
    } else {
      var ys, x := xs[..|xs| - 1], xs[|xs| - 1];
      assert AllScans(ys) && IsScan(x);
      var w := Window(Column(ys, c));
      RunWindow(ys, c);
      ColumnSnoc(xs, c);
      WindowSnoc(Column(ys, c), x[c]);
      assert Window(Column(xs, c)) == w[1..] + [x[c]];
      assert Run(xs) == Pass(Run(ys), x);
      PassSlides(Run(ys), x, c, |ys|, |xs|, w);
    }
  }

  /** `adc_procbuf[c]` after a run: the floor of the mean of the channel's window. */
  lemma RunOutput(xs: seq<seq<int>>, c: int)
    requires AllScans(xs) && 0 <= c < NumChls
    ensures Run(xs).proc[c] == Sum(Window(Column(xs, c))) / OsRatio
    ensures 0 <= Run(xs).proc[c] <= U16Max
  {
    RunWindow(xs, c);
    RunKeepsInv(xs);
    InvBounds(Run(xs), c);
  }

  /**
   * Unity gain: once a channel has read the same value v on each of the
   * last 32 passes, its output is exactly v.
   */
  lemma ConstantInput(xs: seq<seq<int>>, c: int, v: int)
    requires AllScans(xs) && 0 <= c < NumChls && |xs| >= OsRatio
    requires forall k :: |xs| - OsRatio <= k < |xs| ==> xs[k][c] == v
    ensures Run(xs).proc[c] == v
  {
    var col := Column(xs, c);
    RunOutput(xs, c);
    WindowOfLong(col);
    SumConst(Window(col), v);
    assert xs[|xs| - 1][c] == v;
  }

  /**
   * Finite memory: scans older than the last 32 have no influence on the
   * accumulator or on the output.
   */
  lemma FiniteMemory(ys: seq<seq<int>>, zs: seq<seq<int>>, c: int)
    requires AllScans(ys) && AllScans(zs) && |zs| >= OsRatio && 0 <= c < NumChls
    ensures AllScans(ys + zs)
    ensures Run(ys + zs).acc[c] == Run(zs).acc[c]
    ensures Run(ys + zs).proc[c] == Run(zs).proc[c]
  {
    var xs := ys + zs;
    assert forall k :: 0 <= k < |xs| ==> xs[k] == if k < |ys| then ys[k] else zs[k - |ys|];
    var a, b := Column(xs, c), Column(zs, c);
    assert a[|a| - OsRatio..] == b[|b| - OsRatio..];
    WindowOfLong(a);
    WindowOfLong(b);
    assert Window(a) == Window(b);
    RunWindow(xs, c);
    RunWindow(zs, c);
    assert Run(xs).acc[c] == Run(zs).acc[c];
    RunOutput(xs, c);
    RunOutput(zs, c);
  }

  /** Every window entry is a padding zero or one of the column's samples. */
  lemma WindowBound(col: seq<int>, m: int)
    requires 0 <= m && forall k :: 0 <= k < |col| ==> 0 <= col[k] <= m
    ensures forall k :: 0 <= k < OsRatio ==> 0 <= Window(col)[k] <= m
  {
    var padded := Zeros(OsRatio) + col;
    forall k | 0 <= k < OsRatio
      ensures 0 <= Window(col)[k] <= m
    {
      assert Window(col)[k] == padded[|col| + k];
    }
  }

  /** A delay line read from slot n mod 32 onwards as w holds no sample above w's bound. */
  lemma RingBound(d: seq<int>, n: nat, w: seq<int>, m: int)
    requires |d| == OsRatio && |w| == OsRatio
    requires forall k :: 0 <= k < OsRatio ==> d[(n + k) % OsRatio] == w[k]
    requires forall k :: 0 <= k < OsRatio ==> w[k] <= m
    ensures forall j :: 0 <= j < OsRatio ==> d[j] <= m
  {
    forall j | 0 <= j < OsRatio
      ensures d[j] <= m
    {
      var k := (j - n) % OsRatio;
      assert (n + k) % OsRatio == j;
      assert d[(n + k) % OsRatio] == w[k];
    }
  }

  /** A channel's column holds its uint16_t samples, here bounded by m. */
  lemma ColumnBound(xs: seq<seq<int>>, c: int, m: int)
    requires AllScans(xs) && 0 <= c < NumChls
    requires forall k :: 0 <= k < |xs| ==> xs[k][c] <= m
    ensures forall k :: 0 <= k < |xs| ==> 0 <= Column(xs, c)[k] <= m
  {
    forall k | 0 <= k < |xs| ensures 0 <= Column(xs, c)[k] <= m {
      assert IsScan(xs[k]);
    }
  }

  /** A channel whose samples never exceed m leaves no sample above m in its delay line. */
  lemma RunDlyBound(xs: seq<seq<int>>, c: int, m: int)
    requires AllScans(xs) && 0 <= c < NumChls && 0 <= m
    requires forall k :: 0 <= k < |xs| ==> xs[k][c] <= m
    ensures forall j :: 0 <= j < OsRatio ==> Run(xs).dly[c][j] <= m
  {
    var col := Column(xs, c);
    ColumnBound(xs, c, m);
    WindowBound(col, m);
    RunWindow(xs, c);
    RingBound(Run(xs).dly[c], |xs|, Window(col), m);
  }

  /**
   * The converter runs at ADC_RESOLUTION_12B: after any run of 12-bit
   * scans every accumulator stays in [0, 32 * 4095] and every output is
   * at most 4095.
   */
  lemma Run12Bit(xs: seq<seq<int>>, c: int)
    requires AllScans(xs) && 0 <= c < NumChls
    requires forall k :: 0 <= k < |xs| ==> xs[k][c] <= Adc12Max
    ensures 0 <= Run(xs).acc[c] <= OsRatio * Adc12Max
    ensures 0 <= Run(xs).proc[c] <= Adc12Max
  {
    RunDlyBound(xs, c, Adc12Max);
    RunKeepsInv(xs);
    Bounds12Bit(Run(xs), c);
  }

  /** The window sum of a column that is zero except at index q. */
  lemma WindowSingle(col: seq<int>, q: int)
    requires 0 <= q < |col|
    requires forall k :: 0 <= k < |col| && k != q ==> col[k] == 0
    ensures Sum(Window(col)) == if |col| - q <= OsRatio then col[q] else 0
  {
    var padded := Zeros(OsRatio) + col;
    var older := padded[..|col|];
    assert padded == older + Window(col);
    SumAppend(older, Window(col));
    SumSingle(padded, OsRatio + q);
    if |col| - q <= OsRatio {
      SumConst(older, 0);
    } else {
      SumSingle(older, OsRatio + q);
    }
  }

  /**
   * Impulse response: if channel c saw a non-zero sample v only at pass
   * q, its output after the passes xs is v >> 5 for the 32 passes
   * starting with q and 0 from then on.
   */
  lemma Impulse(xs: seq<seq<int>>, c: int, q: int)
    requires AllScans(xs) && 0 <= c < NumChls && 0 <= q < |xs|
    requires forall k :: 0 <= k < |xs| && k != q ==> xs[k][c] == 0
    ensures Run(xs).proc[c] == if |xs| - q <= OsRatio then xs[q][c] / OsRatio else 0
  {
    var col := Column(xs, c);
    assert forall k :: 0 <= k < |col| && k != q ==> col[k] == 0;
    WindowSingle(col, q);
    assert Sum(Window(col)) == if |xs| - q <= OsRatio then xs[q][c] else 0;
    RunOutput(xs, c);
    assert Run(xs).proc[c] == Sum(Window(col)) / OsRatio;
  }
}

module Adc {
  import opened AdcFilter

  newtype u16 = x: int | 0 <= x <= 0xFFFF
  newtype i32 = x: int | -0x8000_0000 <= x < 0x8000_0000

  /**
   * The result code of ADC_Init: a weighted count of the configuration
   * steps that did not return HAL_OK (HAL_ADC_Init 1, the channel 3, 6,
   * 7, 14 and 15 rank configurations 2, 4, 8, 16 and 16, HAL_DMA_Init 32).
   * Each argument says whether that step returned HAL_OK.
   */
  function InitResult(adcOk: bool, ch3Ok: bool, ch6Ok: bool, ch7Ok: bool,
                      ch14Ok: bool, ch15Ok: bool, dmaOk: bool): int
  {
    (if adcOk then 0 else 1) + (if ch3Ok then 0 else 2)
    + (if ch6Ok then 0 else 4) + (if ch7Ok then 0 else 8)
    + (if ch14Ok then 0 else 16) + (if ch15Ok then 0 else 16)
    + (if dmaOk then 0 else 32)
  }

  /** The code is 0 exactly when every step returned HAL_OK, and fits a uint8_t. */
  lemma InitResultZeroIff(adcOk: bool, ch3Ok: bool, ch6Ok: bool, ch7Ok: bool,
                          ch14Ok: bool, ch15Ok: bool, dmaOk: bool)
    ensures var r := InitResult(adcOk, ch3Ok, ch6Ok, ch7Ok, ch14Ok, ch15Ok, dmaOk);
      && 0 <= r <= 79
      && (r == 0 <==> adcOk && ch3Ok && ch6Ok && ch7Ok && ch14Ok && ch15Ok && dmaOk)
  {
  }

  /**
   * The first four steps can be read back from the code; for the last
   * three only the count 16 * (channel 14 failed + channel 15 failed)
   * + 32 * (DMA failed) survives.
   */
  lemma InitResultDecode(adcOk: bool, ch3Ok: bool, ch6Ok: bool, ch7Ok: bool,
                         ch14Ok: bool, ch15Ok: bool, dmaOk: bool)
    ensures var r := InitResult(adcOk, ch3Ok, ch6Ok, ch7Ok, ch14Ok, ch15Ok, dmaOk);
      && (r % 2 == 1 <==> !adcOk)
      && (r / 2 % 2 == 1 <==> !ch3Ok)
      && (r / 4 % 2 == 1 <==> !ch6Ok)
      && (r / 8 % 2 == 1 <==> !ch7Ok)
      && r / 16 == (if ch14Ok then 0 else 1) + (if ch15Ok then 0 else 1) + (if dmaOk then 0 else 2)
  {
    var a, b, c, d := (if adcOk then 0 else 1), (if ch3Ok then 0 else 1),
                      (if ch6Ok then 0 else 1), (if ch7Ok then 0 else 1);
    var h := (if ch14Ok then 0 else 1) + (if ch15Ok then 0 else 1) + (if dmaOk then 0 else 2);
    var r := InitResult(adcOk, ch3Ok, ch6Ok, ch7Ok, ch14Ok, ch15Ok, dmaOk);
    assert r == a + 2 * (b + 2 * (c + 2 * (d + 2 * h)));
    DivModStep(r, a, b + 2 * (c + 2 * (d + 2 * h)));
    DivModStep(r / 2, b, c + 2 * (d + 2 * h));
    DivModStep(r / 4, c, d + 2 * h);
    DivModStep(r / 8, d, h);
  }

  /** Peeling the lowest binary digit off x == lo + 2 * hi. */
  lemma DivModStep(x: int, lo: int, hi: int)
    requires 0 <= lo < 2 && x == lo + 2 * hi
    ensures x % 2 == lo && x / 2 == hi && x / 2 / 2 == hi / 2
  {
  }

  /**
   * A channel-14 failure and a channel-15 failure give the same code,
   * and both together give the code of a DMA failure alone.
   */
  lemma InitResultAmbiguous()
    ensures InitResult(true, true, true, true, false, true, true)
         == InitResult(true, true, true, true, true, false, true)
    ensures InitResult(true, true, true, true, false, false, true)
         == InitResult(true, true, true, true, true, true, false)
  {
  }

  /**
   * The ADC driver's global state: the DMA target adc_rawbuf, the
   * published adc_procbuf, the accumulators, the delay lines, the ring
   * cursor and the DMA stream's transfer-complete flag.
   */
  class AdcDriver {
    var rawbuf: array<u16>
    var procbuf: array<u16>
    var acc: array<i32>
    var dly: array2<u16>
    var dlyPtr: u16
    var tcFlag: bool

    /** The filter variables as a value. */
    ghost function State(): FilterState
      reads this`rawbuf, this`procbuf, this`acc, this`dly, this`dlyPtr, acc, dly, procbuf
      requires acc.Length == NumChls && procbuf.Length == NumChls
      requires dly.Length0 == NumChls && dly.Length1 == OsRatio
    {
      var a, d, p := acc[..], dly, procbuf[..];
      FilterState(
        seq(NumChls, c requires 0 <= c < NumChls => a[c] as int),
        seq(NumChls, c requires 0 <= c < d.Length0 reads d =>
          seq(OsRatio, j requires 0 <= j < d.Length1 reads d => d[c, j] as int)),
        dlyPtr as int,
        seq(NumChls, c requires 0 <= c < NumChls => p[c] as int))
    }

    ghost function Raw(): seq<int>
      reads this`rawbuf, rawbuf
    {
      var r := rawbuf[..];
      seq(|r|, c requires 0 <= c < |r| => r[c] as int)
    }

    ghost predicate Sized()
      reads this`rawbuf, this`procbuf, this`acc, this`dly, this`dlyPtr
    {
      && rawbuf.Length == NumChls && procbuf.Length == NumChls && acc.Length == NumChls
      && dly.Length0 == NumChls && dly.Length1 == OsRatio
      && rawbuf != procbuf
    }

    /** The filter invariant holds of the driver's arrays. */
    ghost predicate Valid()
      reads this`rawbuf, this`procbuf, this`acc, this`dly, this`dlyPtr, acc, dly, procbuf
    {
      Sized() && Inv(State())
    }

    /** The zero-initialised statics: the filter is in its cleared state. */
    constructor ()
      ensures Sized() && Valid() && State() == Cleared()
      ensures forall c :: 0 <= c < NumChls ==> rawbuf[c] == 0 && procbuf[c] == 0
      ensures fresh(rawbuf) && fresh(procbuf) && fresh(acc) && fresh(dly)
    {
      rawbuf := new u16[NumChls](_ => 0);
      procbuf := new u16[NumChls](_ => 0);
      acc := new i32[NumChls](_ => 0);
      dly := new u16[NumChls, OsRatio]((_, _) => 0);
      dlyPtr := 0;
      new;
      ghost var st := State();
      assert st.acc == Zeros(NumChls);
      assert st.proc == Zeros(NumChls);
      forall c | 0 <= c < NumChls ensures st.dly[c] == Zeros(OsRatio) {
      }
      assert st.dly == Cleared().dly;
      RunKeepsInv([]);
    }

    /**
     * ADC_Init: clear every filter buffer and the cursor, then report the
     * configuration steps' outcomes (given as the HAL calls' statuses).
     */
    method Init(adcOk: bool, ch3Ok: bool, ch6Ok: bool, ch7Ok: bool,
                ch14Ok: bool, ch15Ok: bool, dmaOk: bool) returns (result: int)
      requires Sized()
      modifies this`dlyPtr, rawbuf, procbuf, acc, dly
      ensures Sized() && Valid()
      ensures rawbuf == old(rawbuf) && procbuf == old(procbuf) && acc == old(acc) && dly == old(dly)
      ensures State() == Cleared()
      ensures forall c :: 0 <= c < NumChls ==> rawbuf[c] == 0
      ensures tcFlag == old(tcFlag)
      ensures result == InitResult(adcOk, ch3Ok, ch6Ok, ch7Ok, ch14Ok, ch15Ok, dmaOk)
    {
      for i := 0 to NumChls
        invariant forall c :: 0 <= c < i ==> rawbuf[c] == 0 && procbuf[c] == 0 && acc[c] == 0
        invariant forall c, j :: 0 <= c < i && 0 <= j < OsRatio ==> dly[c, j] == 0
      {
        rawbuf[i] := 0;
        procbuf[i] := 0;
        acc[i] := 0;
        for j := 0 to OsRatio
          invariant forall c :: 0 <= c < i ==> rawbuf[c] == 0 && procbuf[c] == 0 && acc[c] == 0
          invariant rawbuf[i] == 0 && procbuf[i] == 0 && acc[i] == 0
          invariant forall c, j' :: 0 <= c < i && 0 <= j' < OsRatio ==> dly[c, j'] == 0
          invariant forall j' :: 0 <= j' < j ==> dly[i, j'] == 0
        {
          dly[i, j] := 0;
        }
      }
      dlyPtr := 0;
      ghost var st := State();
      assert st.acc == Zeros(NumChls);
      assert st.proc == Zeros(NumChls);
      forall c | 0 <= c < NumChls ensures st.dly[c] == Zeros(OsRatio) {
      }
      assert st.dly == Cleared().dly;
      RunKeepsInv([]);

      result := 0;
      if !adcOk { result := result + 1; }
      if !ch3Ok { result := result + 2; }
      if !ch6Ok { result := result + 4; }
      if !ch7Ok { result := result + 8; }
      if !ch14Ok { result := result + 16; }
      if !ch15Ok { result := result + 16; }
      if !dmaOk { result := result + 32; }
    }

    /** ADC_GetChl: the last published filter output of channel chl. */
    function GetChl(chl: int): (v: u16)
      reads this`rawbuf, this`procbuf, this`acc, this`dly, this`dlyPtr, acc, dly, procbuf
      requires Valid() && 0 <= chl < NumChls
      ensures v as int == Sum(State().dly[chl]) / OsRatio
    {
      InvBounds(State(), chl);
      procbuf[chl]
    }

    /**
     * The loop body of DMA2_Stream0_IRQHandler for channel i: slide the
     * window of channel i over the slot p.
     */
    method FilterChannel(i: int, p: int)
      requires Sized() && 0 <= i < NumChls && 0 <= p < OsRatio
      requires 0 <= acc[i] as int <= OsRatio * U16Max
      modifies acc, dly, procbuf
      ensures acc[i] as int == old(acc[i] as int - dly[i, p] as int + rawbuf[i] as int)
      ensures dly[i, p] == rawbuf[i]
      ensures procbuf[i] as int == Normalize(acc[i] as int)
      ensures forall c :: 0 <= c < NumChls && c != i ==> acc[c] == old(acc[c]) && procbuf[c] == old(procbuf[c])
      ensures forall c, j :: 0 <= c < NumChls && 0 <= j < OsRatio && (c != i || j != p) ==> dly[c, j] == old(dly[c, j])
    {
      acc[i] := acc[i] - dly[i, p] as i32;
      acc[i] := acc[i] + rawbuf[i] as i32;
      dly[i, p] := rawbuf[i];
      procbuf[i] := ((acc[i] as int / OsRatio) % 0x1_0000) as u16;
    }

    /**
     * The arrays after every channel of a pass has been filtered and the
     * cursor advanced are the state Pass describes.
     */
    lemma PassMatches(s0: FilterState, raw: seq<int>)
      requires Sized() && Shaped(s0) && IsScan(raw)
      requires dlyPtr as int == (s0.ptr + 1) % OsRatio
      requires forall c :: 0 <= c < NumChls ==>
        acc[c] as int == s0.acc[c] - s0.dly[c][s0.ptr] + raw[c]
      requires forall c :: 0 <= c < NumChls ==> procbuf[c] as int == Normalize(acc[c] as int)
      requires forall c, j :: 0 <= c < NumChls && 0 <= j < OsRatio ==>
        dly[c, j] as int == if j == s0.ptr then raw[c] else s0.dly[c][j]
      ensures State() == Pass(s0, raw)
    {
      var t := Pass(s0, raw);
      var st := State();
      assert st.acc == t.acc;
      assert st.proc == t.proc;
      forall c | 0 <= c < NumChls ensures st.dly[c] == t.dly[c] {
      }
      assert st.dly == t.dly;
    }

    /**
     * The transfer-complete branch of DMA2_Stream0_IRQHandler after the
     * flag is cleared: the channel loop, then the cursor advance.
     */
    method FilterPass()
      requires Valid()
      modifies this`dlyPtr, acc, dly, procbuf
      ensures Valid()
      ensures State() == Pass(old(State()), old(Raw()))
    {
      ghost var s0 := State();
      ghost var raw := Raw();
      forall c | 0 <= c < NumChls ensures 0 <= s0.acc[c] <= OsRatio * U16Max {
        InvBounds(s0, c);
      }
      var p := dlyPtr as int;
      for i := 0 to NumChls
        invariant dlyPtr as int == p && Raw() == raw
        invariant forall c :: 0 <= c < i ==>
          acc[c] as int == s0.acc[c] - s0.dly[c][p] + raw[c]
        invariant forall c :: 0 <= c < i ==> procbuf[c] as int == Normalize(acc[c] as int)
        invariant forall c :: i <= c < NumChls ==> acc[c] as int == s0.acc[c]
        invariant forall c, j :: 0 <= c < NumChls && 0 <= j < OsRatio ==>
          dly[c, j] as int == if c < i && j == p then raw[c] else s0.dly[c][j]
      {
        FilterChannel(i, p);
      }
      dlyPtr := ((dlyPtr as int + 1) % OsRatio) as u16;
      PassMatches(s0, raw);
      PassKeepsInv(s0, raw);
    }

    /**
     * DMA2_Stream0_IRQHandler: with the transfer-complete flag set, clear
     * it and run one filter pass over adc_rawbuf; otherwise change
     * nothing.
     */
    method DmaIrqHandler()
      requires Valid()
      modifies this`dlyPtr, this`tcFlag, acc, dly, procbuf
      ensures Valid() && !tcFlag
      ensures State() == if old(tcFlag) then Pass(old(State()), old(Raw())) else old(State())
    {
      if tcFlag {
        tcFlag := false;
        FilterPass();
      }
    }
  }
}
