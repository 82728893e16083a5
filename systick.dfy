/*
 * The SysTick handler's input side: three debounced inputs (the two
 * encoder phases and the encoder push button), sticky falling- and
 * rising-edge latches read and cleared by the foreground, and the
 * quadrature count of the encoder shaft.
 *
 * The debouncer itself is external: what each call of debounce() leaves
 * in a debouncer's state, fe and re fields is an input of the model.
 */
module Systick {

  /** NUM_DBS and the debouncer indices of enum buttons. */
  const NumDbs := 3
  const EncA := 0
  const EncB := 1
  const EncE := 2

  /** The outputs of one debouncer: debounced level and edge flags. */
  datatype Debounced = Debounced(state: bv8, fe: bv8, re: bv8)

  /** int16_t arithmetic: the value kept modulo 2^16 in [-32768, 32767]. */
  function Wrap16(v: int): (r: int)
    ensures -0x8000 <= r < 0x8000
    ensures (r - v) % 0x1_0000 == 0
  {
    (v + 0x8000) % 0x1_0000 - 0x8000
  }

  /** The encoder step of one tick: +1, -1 or 0. */
  function Delta(dbs: seq<Debounced>): (d: int)
    requires |dbs| == NumDbs
    ensures -1 <= d <= 1
    ensures d != 0 <==> dbs[EncA].re != 0
    ensures dbs[EncA].re != 0 ==> (d == 1 <==> dbs[EncB].state == 0)
  {
    if dbs[EncA].re != 0 then (if dbs[EncB].state == 0 then 1 else -1) else 0
  }

  /** What one tick leaves in a latch array: the old latches ORed with the new edges. */
  function Latch(flags: seq<bv8>, edges: seq<bv8>): (r: seq<bv8>)
    requires |flags| == |edges|
    ensures |r| == |flags|
  {
    seq(|flags|, i requires 0 <= i < |flags| => Accumulate(flags[i], edges[i]))
  }

  /** A latch after `flag |= edge`. */
  function Accumulate(flag: bv8, edge: bv8): bv8
  {
    flag | edge
  }

  function FallingEdges(dbs: seq<Debounced>): (e: seq<bv8>)
    ensures |e| == |dbs|
  {
    seq(|dbs|, i requires 0 <= i < |dbs| => dbs[i].fe)
  }

  function RisingEdges(dbs: seq<Debounced>): (e: seq<bv8>)
    ensures |e| == |dbs|
  {
    seq(|dbs|, i requires 0 <= i < |dbs| => dbs[i].re)
  }

  predicate AllTicks(ticks: seq<seq<Debounced>>)
  {
    forall k :: 0 <= k < |ticks| ==> |ticks[k]| == NumDbs
  }

  /** The latches after a series of ticks with no read in between. */
  function LatchAll(flags: seq<bv8>, edges: seq<seq<bv8>>): (r: seq<bv8>)
    requires forall k :: 0 <= k < |edges| ==> |edges[k]| == |flags|
    ensures |r| == |flags|
    decreases |edges|
  {
    if edges == [] then flags else LatchAll(Latch(flags, edges[0]), edges[1..])
  }

  /** Whether input i reported an edge in any of a series of ticks. */
  predicate AnyEdge(edges: seq<seq<bv8>>, i: int)
  {
    exists k :: 0 <= k < |edges| && 0 <= i < |edges[k]| && edges[k][i] != 0
  }

  /** The net encoder count of a series of ticks. */
  function Count(ticks: seq<seq<Debounced>>): int
    requires AllTicks(ticks)
  {
    if ticks == [] then 0 else Delta(ticks[0]) + Count(ticks[1..])
  }

  /** The encoder value after a series of ticks starting from v. */
  function EncoderAll(v: int, ticks: seq<seq<Debounced>>): int
    requires AllTicks(ticks)
    decreases |ticks|
  {
    if ticks == [] then v else EncoderAll(Wrap16(v + Delta(ticks[0])), ticks[1..])
  }

  // ------------------------------------------------------------ lemmas

  /** OR with zero is the identity; any non-zero side keeps the result non-zero. */
  lemma OrNonZero(a: bv8, b: bv8)
    ensures (a | b != 0) <==> (a != 0 || b != 0)
  {
  }

  /**
   * A latch is non-zero after a series of ticks exactly when it was
   * non-zero before or some tick reported that edge: a latched edge
   * stays set until it is read.
   */
  lemma {:induction false} LatchSticky(flags: seq<bv8>, edges: seq<seq<bv8>>, i: int)
    requires forall k :: 0 <= k < |edges| ==> |edges[k]| == |flags|
    requires 0 <= i < |flags|
    ensures (LatchAll(flags, edges)[i] != 0) <==> (flags[i] != 0 || AnyEdge(edges, i))
    decreases |edges|
  {
    if edges != [] {
      var next := Latch(flags, edges[0]);
      LatchSticky(next, edges[1..], i);
      OrNonZero(flags[i], edges[0][i]);
      if AnyEdge(edges[1..], i) {
        var k :| 0 <= k < |edges[1..]| && 0 <= i < |edges[1..][k]| && edges[1..][k][i] != 0;
        assert edges[k + 1][i] != 0;
      }
      if AnyEdge(edges, i) && edges[0][i] == 0 {
        var k :| 0 <= k < |edges| && 0 <= i < |edges[k]| && edges[k][i] != 0;
        assert edges[1..][k - 1][i] != 0;
      }
    }
  }

  /** The latch of an input is only ever changed by its own edges. */
  lemma LatchOthers(flags: seq<bv8>, edges: seq<bv8>, i: int)
    requires |flags| == |edges| && 0 <= i < |flags| && edges[i] == 0
    ensures Latch(flags, edges)[i] == flags[i]
  {
  }

  lemma Wrap16Add(a: int, d: int)
    ensures Wrap16(Wrap16(a) + d) == Wrap16(a + d)
  {
    var w := Wrap16(a);
    var q := (a + 0x8000) / 0x1_0000;
    assert w == a - q * 0x1_0000;
    assert (w + d + 0x8000) == (a + d + 0x8000) - q * 0x1_0000;
    ModShift(a + d + 0x8000, q);
  }

  lemma ModShift(x: int, q: int)
    ensures (x - q * 0x1_0000) % 0x1_0000 == x % 0x1_0000
  {
    var m := x % 0x1_0000;
    var p := x / 0x1_0000;
    assert x == p * 0x1_0000 + m;
    assert x - q * 0x1_0000 == (p - q) * 0x1_0000 + m;
  }

  lemma Wrap16Id(v: int)
    requires -0x8000 <= v < 0x8000
    ensures Wrap16(v) == v
  {
  }

  /**
   * Between two reads the encoder value is the net count of the ticks
   * in between, kept as an int16_t: it is what systick_get_encoder
   * returns.
   */
  lemma {:induction false} EncoderAccumulates(v: int, ticks: seq<seq<Debounced>>)
    requires AllTicks(ticks) && -0x8000 <= v < 0x8000
    ensures EncoderAll(v, ticks) == Wrap16(v + Count(ticks))
    decreases |ticks|
  {
    if ticks == [] {
      Wrap16Id(v);
    } else {
      var w := Wrap16(v + Delta(ticks[0]));
      EncoderAccumulates(w, ticks[1..]);
      Wrap16Add(v + Delta(ticks[0]), Count(ticks[1..]));
    }
  }

  /** Without an ENC_A rising edge in any tick the count does not move. */
  lemma {:induction false} NoEdgeNoCount(ticks: seq<seq<Debounced>>)
    requires AllTicks(ticks)
    requires forall k :: 0 <= k < |ticks| ==> ticks[k][EncA].re == 0
    ensures Count(ticks) == 0
    decreases |ticks|
  {
    if ticks != [] {
      NoEdgeNoCount(ticks[1..]);
    }
  }

  /** The net count of n ticks is at most n in size. */
  lemma {:induction false} CountBound(ticks: seq<seq<Debounced>>)
    requires AllTicks(ticks)
    ensures -|ticks| <= Count(ticks) <= |ticks|
    decreases |ticks|
  {
    if ticks != [] {
      CountBound(ticks[1..]);
    }
  }

  /**
   * The module's globals: the debouncer outputs btn_dbs, the sticky
   * edge latches btn_fe and btn_re, and the encoder count enc_val.
   */
  class Ticker {
    var dbs: seq<Debounced>
    const btnFe: array<bv8>
    const btnRe: array<bv8>
    var encVal: int

    ghost predicate Valid()
      reads this
    {
      && |dbs| == NumDbs && btnFe.Length == NumDbs && btnRe.Length == NumDbs
      && btnFe != btnRe && -0x8000 <= encVal < 0x8000
    }

    /** The zero-initialised globals, before systick_init runs. */
    constructor ()
      ensures Valid() && fresh(btnFe) && fresh(btnRe)
      ensures dbs == seq(NumDbs, _ => Debounced(0, 0, 0)) && encVal == 0
      ensures forall i :: 0 <= i < NumDbs ==> btnFe[i] == 0 && btnRe[i] == 0
    {
      dbs := seq(NumDbs, _ => Debounced(0, 0, 0));
      btnFe := new bv8[NumDbs](_ => 0);
      btnRe := new bv8[NumDbs](_ => 0);
      encVal := 0;
    }

    /**
     * systick_init: reset the debouncers (their reset state comes from
     * init_debounce, an input here), clear every latch and the count.
     */
    method Init(reset: seq<Debounced>)
      requires |reset| == NumDbs && btnFe.Length == NumDbs && btnRe.Length == NumDbs
      requires btnFe != btnRe
      modifies this, btnFe, btnRe
      ensures Valid() && dbs == reset && encVal == 0
      ensures forall i :: 0 <= i < NumDbs ==> btnFe[i] == 0 && btnRe[i] == 0
    {
      dbs := reset;
      for i := 0 to NumDbs
        invariant dbs == reset
        invariant forall j :: 0 <= j < i ==> btnFe[j] == 0 && btnRe[j] == 0
      {
        btnFe[i] := 0;
        btnRe[i] := 0;
      }
      encVal := 0;
    }

    /** systick_get_button: the debounced level; nothing changes. */
    function GetButton(btn: int): (s: bv8)
      requires Valid() && 0 <= btn < NumDbs
      reads this
      ensures s == dbs[btn].state
    {
      dbs[btn].state
    }

    /** systick_button_fe: return the falling-edge latch and clear it. */
    method ButtonFe(btn: int) returns (result: bv8)
      requires Valid() && 0 <= btn < NumDbs
      modifies btnFe
      ensures result == old(btnFe[btn]) && btnFe[btn] == 0
      ensures forall i :: 0 <= i < NumDbs && i != btn ==> btnFe[i] == old(btnFe[i])
    {
      result := btnFe[btn];
      btnFe[btn] := 0;
    }

    /** systick_button_re: return the rising-edge latch and clear it. */
    method ButtonRe(btn: int) returns (result: bv8)
      requires Valid() && 0 <= btn < NumDbs
      modifies btnRe
      ensures result == old(btnRe[btn]) && btnRe[btn] == 0
      ensures forall i :: 0 <= i < NumDbs && i != btn ==> btnRe[i] == old(btnRe[i])
    {
      result := btnRe[btn];
      btnRe[btn] := 0;
    }

    /** systick_get_encoder: return the count so far and reset it. */
    method GetEncoder() returns (result: int)
      requires Valid()
      modifies this`encVal
      ensures result == old(encVal) && encVal == 0
    {
      result := encVal;
      encVal := 0;
    }

    /**
     * SysTick_Handler: with next the debouncer outputs after this tick's
     * debounce() calls, OR each input's edge flags into its latches,
     * then step the count on a rising edge of ENC_A.
     */
    method Tick(next: seq<Debounced>)
      requires Valid() && |next| == NumDbs
      modifies this`dbs, this`encVal, btnFe, btnRe
      ensures Valid() && dbs == next
      ensures btnFe[..] == Latch(old(btnFe[..]), FallingEdges(next))
      ensures btnRe[..] == Latch(old(btnRe[..]), RisingEdges(next))
      ensures encVal == Wrap16(old(encVal) + Delta(next))
    {
      for i := 0 to NumDbs
        invariant |dbs| == NumDbs && encVal == old(encVal)
        invariant forall j :: 0 <= j < i ==> dbs[j] == next[j]
        invariant forall j :: i <= j < NumDbs ==> dbs[j] == old(dbs[j])
        invariant forall j :: 0 <= j < i ==> btnFe[j] == Accumulate(old(btnFe[j]), next[j].fe)
        invariant forall j :: 0 <= j < i ==> btnRe[j] == Accumulate(old(btnRe[j]), next[j].re)
        invariant forall j :: i <= j < NumDbs ==> btnFe[j] == old(btnFe[j]) && btnRe[j] == old(btnRe[j])
      {
        dbs := dbs[i := next[i]];
        btnFe[i] := Accumulate(btnFe[i], dbs[i].fe);
        btnRe[i] := Accumulate(btnRe[i], dbs[i].re);
      }
      assert dbs == next;
      if dbs[EncA].re != 0 {
        if dbs[EncB].state == 0 {
          encVal := Wrap16(encVal + 1);
        } else {
          encVal := Wrap16(encVal - 1);
        }
      } else {
        Wrap16Id(encVal);
      }
    }
  }
}
