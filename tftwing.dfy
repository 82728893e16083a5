/*
 * The I2C side of the TFT Wing: register reads and writes to its seesaw
 * co-processor, bulk GPIO mode, read and write over 32-bit pin masks,
 * the backlight PWM and the bring-up sequence.
 *
 * The I2C peripheral is seen through its transfers: each
 * HAL_I2C_Master_Transmit or HAL_I2C_Master_Receive is an event in a
 * log, and the status and data the bus returns for the n-th transfer
 * are inputs of the model.
 */
module TftWing {

  /** HAL_StatusTypeDef: HAL_OK, HAL_ERROR, HAL_BUSY, HAL_TIMEOUT. */
  type Status = s: int | 0 <= s <= 3
  const HalOk: Status := 0
  const HalError: Status := 1

  /** TFTWING_ADDR (0x5E << 1) and the address of the wake-up write. */
  const WingAddr := 0xBC
  const WakeAddr := 0x10

  /** Module bases and registers of the seesaw. */
  const StatusBase: bv8 := 0x00
  const GpioBase: bv8 := 0x01
  const TimerBase: bv8 := 0x08
  const StatusHwId: bv8 := 0x01
  const StatusSwrst: bv8 := 0x7F
  const DirSet: bv8 := 0x02
  const DirClr: bv8 := 0x03
  const Bulk: bv8 := 0x04
  const BulkSet: bv8 := 0x05
  const BulkClr: bv8 := 0x06
  const PullEnSet: bv8 := 0x0B
  const TimerPwm: bv8 := 0x01
  const TimerFreq: bv8 := 0x02

  /** Pin modes accepted by seesaw_pinModeBulk. */
  const ModeOutput: bv8 := 0
  const ModeInput: bv8 := 1
  const ModeInputPullup: bv8 := 2
  const ModeInputPulldown: bv8 := 3

  /** SEESAW_HW_ID_CODE. */
  const HwIdCode: bv8 := 0x55
  /** The longest payload seesaw_writebuf accepts. */
  const MaxPayload := 16
  /** The 100 us wait between a register address and its read, in cycles. */
  const ReadWait := 16800
  /** HAL_Delay after a software reset, in ms. */
  const ResetDelay := 500

  /** TFTWING_RESET_PIN's mask and TFTWING_BUTTON_ALL (pins 2, 3, 4, 7, 9, 10, 11). */
  const ResetPinMask: bv32 := 0x100
  const ButtonAll: bv32 := 0xE9C

  /** What happens on the bus. */
  datatype Event =
    | Tx(addr: int, data: seq<bv8>, status: Status)   // HAL_I2C_Master_Transmit
    | Rx(addr: int, len: int, status: Status)         // HAL_I2C_Master_Receive
    | Wait(cycles: int)                               // cyclesleep
    | Delay(ms: int)                                  // HAL_Delay
    | ErrorReset(code: int)                           // tftwing_i2c_error(code)

  /** A transmitted message: address and bytes. */
  datatype Frame = Frame(addr: int, data: seq<bv8>)

  /** The messages of a log, in order. */
  function Sent(log: seq<Event>): (f: seq<Frame>)
    ensures |f| <= |log|
  {
    if log == [] then [] else Message(log[0]) + Sent(log[1..])
  }

  /** The message an event puts on the bus, if any. */
  function Message(e: Event): (f: seq<Frame>)
    ensures |f| <= 1
  {
    if e.Tx? then [Frame(e.addr, e.data)] else []
  }

  // ----------------------------------------------------------- pin masks

  /** One byte of a word: bits 8k..8k+7. */
  function ByteOf(w: bv32, k: nat): bv8
    requires k < 4
  {
    if k == 3 then ((w >> 24) & 0xFF) as bv8
    else if k == 2 then ((w >> 16) & 0xFF) as bv8
    else if k == 1 then ((w >> 8) & 0xFF) as bv8
    else (w & 0xFF) as bv8
  }

  /** The 4-byte big-endian payload built from a pin mask. */
  function Encode(pins: bv32): (b: seq<bv8>)
    ensures |b| == 4
  {
    [ByteOf(pins, 3), ByteOf(pins, 2), ByteOf(pins, 1), ByteOf(pins, 0)]
  }

  /** seesaw_digitalReadBulk's reassembly of four received bytes. */
  function Decode(b: seq<bv8>): bv32
    requires |b| == 4
  {
    Join(b[0], b[1], b[2], b[3])
  }

  function Join(b0: bv8, b1: bv8, b2: bv8, b3: bv8): bv32
  {
    ((b0 as bv32) << 24) | ((b1 as bv32) << 16) | ((b2 as bv32) << 8) | (b3 as bv32)
  }

  /** The register writes seesaw_pinModeBulk issues for a mode. */
  function PinModeRegs(mode: bv8): seq<bv8>
  {
    if mode == ModeOutput then [DirSet]
    else if mode == ModeInput then [DirClr]
    else if mode == ModeInputPullup then [DirClr, PullEnSet, BulkSet]
    else if mode == ModeInputPulldown then [DirClr, PullEnSet, BulkClr]
    else []
  }

  /** The messages of register writes with one payload each. */
  function Writes(regs: seq<bv8>, payload: seq<bv8>): (f: seq<Frame>)
    ensures |f| == |regs|
    ensures forall k :: 0 <= k < |regs| ==> f[k] == RegWrite(regs[k], payload)
  {
    if regs == [] then [] else [RegWrite(regs[0], payload)] + Writes(regs[1..], payload)
  }

  /** The message writing payload to a GPIO-module register. */
  function RegWrite(reg: bv8, payload: seq<bv8>): Frame
  {
    Frame(WingAddr, [GpioBase, reg] + payload)
  }

  /** The messages of seesaw_pinModeBulk(pins, mode). */
  function PinModeFrames(pins: bv32, mode: bv8): seq<Frame>
  {
    Writes(PinModeRegs(mode), Encode(pins))
  }

  /** The three payload bytes of the backlight writes: 0, then the value big-endian. */
  function Payload16(v: bv16): (b: seq<bv8>)
    ensures |b| == 3
  {
    [0, ((v >> 8) & 0xFF) as bv8, (v & 0xFF) as bv8]
  }

  // ------------------------------------------------------------ lemmas

  lemma JoinBytes(w: bv32)
    ensures Join(ByteOf(w, 3), ByteOf(w, 2), ByteOf(w, 1), ByteOf(w, 0)) == w
  {
  }

  lemma BytesJoin(b0: bv8, b1: bv8, b2: bv8, b3: bv8)
    ensures var w := Join(b0, b1, b2, b3);
      ByteOf(w, 3) == b0 && ByteOf(w, 2) == b1 && ByteOf(w, 1) == b2 && ByteOf(w, 0) == b3
  {
  }

  /**
   * The pin-mask payload is big-endian and the reassembly in
   * seesaw_digitalReadBulk is its inverse, both ways round.
   */
  lemma MaskRoundTrip(pins: bv32, b: seq<bv8>)
    requires |b| == 4
    ensures Decode(Encode(pins)) == pins
    ensures Encode(Decode(b)) == b
    ensures Encode(pins)[0] == ByteOf(pins, 3) && Encode(pins)[3] == ByteOf(pins, 0)
  {
    JoinBytes(pins);
    BytesJoin(b[0], b[1], b[2], b[3]);
  }

  /**
   * The messages tftwing_init sends before it decides: the wake-up
   * write, the software reset and the ID register address.
   */
  function ProbeFrames(): (f: seq<Frame>)
    ensures |f| == 3
  {
    [Frame(WakeAddr, [0]), Frame(WingAddr, [StatusBase, StatusSwrst, 0xFF]), Frame(WingAddr, [StatusBase, StatusHwId])]
  }

  /** The messages of a successful tftwing_init after the probe: reset pin output, buttons pulled up. */
  function ConfigFrames(): (f: seq<Frame>)
    ensures |f| == 4
  {
    PinModeFrames(ResetPinMask, ModeOutput) + PinModeFrames(ButtonAll, ModeInputPullup)
  }

  /** The bits of raw that are among pins: never a bit outside pins or outside raw. */
  function Masked(raw: bv32, pins: bv32): (r: bv32)
    ensures r & pins == r
    ensures r & raw == r
  {
    raw & pins
  }

  /** On the pins the masked word has the same bits as raw, so no button that reads set is lost. */
  lemma MaskedKeepsPins(raw: bv32, pins: bv32)
    ensures (raw ^ Masked(raw, pins)) & pins == 0
  {
  }

  /**
   * Every mode writes the same 4-byte mask payload; output mode sets the
   * direction, the three input modes clear it, the two pulled modes then
   * enable the pull and select its direction; an unknown mode writes
   * nothing.
   */
  lemma PinModeTable(pins: bv32, mode: bv8)
    ensures var f := PinModeFrames(pins, mode);
      && (forall k :: 0 <= k < |f| ==> f[k].addr == WingAddr && f[k].data[2..] == Encode(pins))
      && (mode == ModeOutput ==> |f| == 1 && f[0].data[..2] == [GpioBase, DirSet])
      && (mode == ModeInput ==> |f| == 1 && f[0].data[..2] == [GpioBase, DirClr])
      && (mode == ModeInputPullup || mode == ModeInputPulldown ==>
            && |f| == 3 && f[0].data[..2] == [GpioBase, DirClr]
            && f[1].data[..2] == [GpioBase, PullEnSet]
            && f[2].data[..2] == [GpioBase, if mode == ModeInputPullup then BulkSet else BulkClr])
      && (mode > ModeInputPulldown <==> f == [])
  {
    var f := PinModeFrames(pins, mode);
    forall k | 0 <= k < |f| ensures f[k].data[2..] == Encode(pins) && f[k].data[..2] == [GpioBase, PinModeRegs(mode)[k]] {
      assert f[k].data == [GpioBase, PinModeRegs(mode)[k]] + Encode(pins);
    }
  }

  /** The backlight payload is 0 and the value big-endian. */
  lemma Payload16RoundTrip(v: bv16)
    ensures var b := Payload16(v);
      b[0] == 0 && ((b[1] as bv16) << 8) | (b[2] as bv16) == v
  {
  }

  lemma SentAppend(a: seq<Event>, b: seq<Event>)
    ensures Sent(a + b) == Sent(a) + Sent(b)
  {
    if a == [] {
      assert a + b == b;
    } else {
      assert (a + b)[0] == a[0];
      assert (a + b)[1..] == a[1..] + b;
      SentAppend(a[1..], b);
      calc {
        Sent(a + b);
        Message(a[0]) + Sent(a[1..] + b);
        Message(a[0]) + (Sent(a[1..]) + Sent(b));
        (Message(a[0]) + Sent(a[1..])) + Sent(b);
      }
    }
  }

  lemma SentOne(e: Event)
    ensures Sent([e]) == Message(e)
  {
    assert [e][1..] == [];
  }

  /**
   * The bus as the seesaw driver sees it.  reply(n) is the status of
   * the n-th transfer and rxByte(n, i) the i-th byte it receives.
   */
  class Bus {
    const reply: int -> Status
    const rxByte: (int, int) -> bv8
    var transfers: nat
    var log: seq<Event>

    constructor (reply: int -> Status, rxByte: (int, int) -> bv8)
      ensures this.reply == reply && this.rxByte == rxByte && transfers == 0 && log == []
    {
      this.reply := reply;
      this.rxByte := rxByte;
      transfers := 0;
      log := [];
    }

    /** HAL_I2C_Master_Transmit. */
    method Transmit(addr: int, data: seq<bv8>) returns (status: Status)
      modifies this
      ensures status == reply(old(transfers)) && transfers == old(transfers) + 1
      ensures log == old(log) + [Tx(addr, data, status)]
    {
      status := reply(transfers);
      log := log + [Tx(addr, data, status)];
      transfers := transfers + 1;
    }

    /** HAL_I2C_Master_Receive. */
    method Receive(addr: int, sz: nat) returns (status: Status, data: seq<bv8>)
      modifies this
      ensures status == reply(old(transfers)) && transfers == old(transfers) + 1
      ensures log == old(log) + [Rx(addr, sz, status)]
      ensures |data| == sz && forall i :: 0 <= i < sz ==> data[i] == rxByte(old(transfers), i)
    {
      status := reply(transfers);
      var n := transfers;
      data := seq(sz, i => rxByte(n, i));
      log := log + [Rx(addr, sz, status)];
      transfers := transfers + 1;
    }

    /**
     * seesaw_readbuf: send the register address; on failure report
     * error 1 and return its status with buf untouched; otherwise wait
     * 100 us, receive sz bytes into buf and report error 2 if that fails.
     */
    method ReadBuf(reghi: bv8, reglo: bv8, buf: seq<bv8>) returns (status: Status, res: seq<bv8>)
      requires |buf| < 0x100
      modifies this
      ensures var t := old(transfers);
        var st0 := reply(t);
        && (st0 != HalOk ==>
              && status == st0 && res == buf && transfers == t + 1
              && log == old(log) + [Tx(WingAddr, [reghi, reglo], st0), ErrorReset(1)])
        && (st0 == HalOk ==>
              && status == reply(t + 1) && transfers == t + 2
              && |res| == |buf| && (forall i :: 0 <= i < |buf| ==> res[i] == rxByte(t + 1, i))
              && log == old(log) + [Tx(WingAddr, [reghi, reglo], HalOk), Wait(ReadWait),
                                   Rx(WingAddr, |buf|, status)]
                        + (if status != HalOk then [ErrorReset(2)] else []))
    {
      status := Transmit(WingAddr, [reghi, reglo]);
      if status != HalOk {
        log := log + [ErrorReset(1)];
        res := buf;
        return;
      }
      log := log + [Wait(ReadWait)];
      status, res := Receive(WingAddr, |buf|);
      if status != HalOk {
        log := log + [ErrorReset(2)];
      }
    }

    /**
     * seesaw_writebuf: refuse a payload over 16 bytes with HAL_ERROR
     * and no transfer; otherwise copy register address and payload into
     * the message buffer and send its first 2 + sz bytes.
     */
    method WriteBuf(reghi: bv8, reglo: bv8, buf: seq<bv8>) returns (status: Status)
      requires |buf| < 0x100
      modifies this
      ensures |buf| > MaxPayload ==> status == HalError && log == old(log) && transfers == old(transfers)
      ensures |buf| <= MaxPayload ==>
        && status == reply(old(transfers)) && transfers == old(transfers) + 1
        && log == old(log) + [Tx(WingAddr, [reghi, reglo] + buf, status)]
                 + (if status != HalOk then [ErrorReset(3)] else [])
    {
      if |buf| > MaxPayload {
        return HalError;
      }
      var msg := new bv8[MaxPayload + 2];
      msg[0] := reghi;
      msg[1] := reglo;
      for i := 0 to |buf|
        modifies msg
        invariant msg[0] == reghi && msg[1] == reglo
        invariant forall j :: 0 <= j < i ==> msg[j + 2] == buf[j]
      {
        msg[i + 2] := buf[i];
      }
      assert msg[..2 + |buf|] == [reghi, reglo] + buf;
      status := Transmit(WingAddr, msg[..2 + |buf|]);
      if status != HalOk {
        log := log + [ErrorReset(3)];
      }
    }

    /** A four-byte write sends exactly one message: register and payload. */
    method WriteReg(reg: bv8, payload: seq<bv8>)
      requires |payload| == 4
      modifies this
      ensures transfers == old(transfers) + 1
      ensures Sent(log) == Sent(old(log)) + [RegWrite(reg, payload)]
    {
      var st := WriteBuf(GpioBase, reg, payload);
      WriteSent(old(log), Tx(WingAddr, [GpioBase, reg] + payload, st), log);
    }

    /** seesaw_swrst: write 0xFF to the reset register, then wait 500 ms. */
    method Swrst() returns (status: Status)
      modifies this
      ensures status == reply(old(transfers)) && transfers == old(transfers) + 1
      ensures log == old(log) + [Tx(WingAddr, [StatusBase, StatusSwrst, 0xFF], status)]
                    + (if status != HalOk then [ErrorReset(4)] else []) + [Delay(ResetDelay)]
    {
      status := Transmit(WingAddr, [StatusBase, StatusSwrst, 0xFF]);
      if status != HalOk {
        log := log + [ErrorReset(4)];
      }
      log := log + [Delay(ResetDelay)];
    }

    /** seesaw_pinModeBulk: the register writes of the mode, each with the mask payload. */
    method PinModeBulk(pins: bv32, mode: bv8)
      modifies this
      ensures Sent(log) == Sent(old(log)) + PinModeFrames(pins, mode)
    {
      var cmd := Encode(pins);
      ghost var s0 := Sent(log);
      if mode == ModeOutput {
        WriteReg(DirSet, cmd);
        assert Writes([DirSet], cmd) == [RegWrite(DirSet, cmd)];
      } else if mode == ModeInput {
        WriteReg(DirClr, cmd);
        assert Writes([DirClr], cmd) == [RegWrite(DirClr, cmd)];
      } else if mode == ModeInputPullup || mode == ModeInputPulldown {
        var pull := if mode == ModeInputPullup then BulkSet else BulkClr;
        WritePulled(pull, cmd);
      } else {
        assert Writes([], cmd) == [];
      }
    }

    /** The three writes of the pull-up and pull-down modes: input, pull enabled, pull direction. */
    method WritePulled(pull: bv8, cmd: seq<bv8>)
      requires |cmd| == 4
      modifies this
      ensures Sent(log) == Sent(old(log)) + Writes([DirClr, PullEnSet, pull], cmd)
    {
      ghost var s0 := Sent(log);
      WriteReg(DirClr, cmd);
      ghost var s1 := Sent(log);
      WriteReg(PullEnSet, cmd);
      ghost var s2 := Sent(log);
      WriteReg(pull, cmd);
      assert Sent(log) == s0 + [RegWrite(DirClr, cmd), RegWrite(PullEnSet, cmd), RegWrite(pull, cmd)];
    }

    /**
     * seesaw_digitalReadBulk: read the four GPIO bytes and keep the bits
     * of pins.  The status is ignored; on a failed address write buf
     * keeps whatever the caller's stack held (garbage), given here.
     */
    method DigitalReadBulk(pins: bv32, garbage: seq<bv8>) returns (r: bv32)
      requires |garbage| == 4
      modifies this
      ensures r & pins == r
      ensures var n := old(transfers) + 1;
        reply(old(transfers)) == HalOk ==>
          r == Masked(Decode([rxByte(n, 0), rxByte(n, 1), rxByte(n, 2), rxByte(n, 3)]), pins)
    {
      ghost var n := transfers + 1;
      var st, buf := ReadBuf(GpioBase, Bulk, garbage);
      if reply(n - 1) == HalOk {
        assert buf == [rxByte(n, 0), rxByte(n, 1), rxByte(n, 2), rxByte(n, 3)];
      }
      r := Masked(Decode(buf), pins);
    }

    /** seesaw_digitalWriteBulk: BULK_SET if value is non-zero, else BULK_CLR. */
    method DigitalWriteBulk(pins: bv32, value: bv8)
      modifies this
      ensures Sent(log) == Sent(old(log)) + [Frame(WingAddr, [GpioBase, if value != 0 then BulkSet else BulkClr] + Encode(pins))]
    {
      var cmd := Encode(pins);
      if value != 0 {
        WriteReg(BulkSet, cmd);
      } else {
        WriteReg(BulkClr, cmd);
      }
    }

    /** tftwing_setBacklight: PWM register of the timer module, payload 0, hi, lo. */
    method SetBacklight(value: bv16)
      modifies this
      ensures Sent(log) == Sent(old(log)) + [Frame(WingAddr, [TimerBase, TimerPwm] + Payload16(value))]
    {
      var st := WriteBuf(TimerBase, TimerPwm, Payload16(value));
      WriteSent(old(log), Tx(WingAddr, [TimerBase, TimerPwm] + Payload16(value), st), log);
    }

    /** tftwing_setBacklightFreq: FREQ register of the timer module, payload 0, hi, lo. */
    method SetBacklightFreq(freq: bv16)
      modifies this
      ensures Sent(log) == Sent(old(log)) + [Frame(WingAddr, [TimerBase, TimerFreq] + Payload16(freq))]
    {
      var st := WriteBuf(TimerBase, TimerFreq, Payload16(freq));
      WriteSent(old(log), Tx(WingAddr, [TimerBase, TimerFreq] + Payload16(freq), st), log);
    }

    /** tftwing_tftReset: drive the display's reset pin through the seesaw. */
    method TftReset(rst: bv8)
      modifies this
      ensures Sent(log) == Sent(old(log)) + [Frame(WingAddr, [GpioBase, if rst != 0 then BulkSet else BulkClr] + Encode(ResetPinMask))]
    {
      DigitalWriteBulk(ResetPinMask, rst);
    }

    /** tftwing_readButtons: the bulk GPIO state of the seven button pins. */
    method ReadButtons(garbage: seq<bv8>) returns (r: bv32)
      requires |garbage| == 4
      modifies this
      ensures r & ButtonAll == r
      ensures var n := old(transfers) + 1;
        reply(old(transfers)) == HalOk ==>
          r == Masked(Decode([rxByte(n, 0), rxByte(n, 1), rxByte(n, 2), rxByte(n, 3)]), ButtonAll)
    {
      r := DigitalReadBulk(ButtonAll, garbage);
    }

    /**
     * The checks at the head of tftwing_init: a wake-up write whose
     * status is ignored, a software reset and a read of the ID register;
     * it passes when both succeed and the ID is 0x55.
     */
    method Probe() returns (ok: bool)
      modifies this
      ensures var t := old(transfers);
        && (ok <==> reply(t + 1) == HalOk && reply(t + 2) == HalOk && reply(t + 3) == HalOk
                    && rxByte(t + 3, 0) == HwIdCode)
        && (ok ==> Sent(log) == Sent(old(log)) + ProbeFrames())
        && (!ok ==> Sent(log) == Sent(old(log)) + ProbeFrames()[..2]
                    || Sent(log) == Sent(old(log)) + ProbeFrames())
    {
      ghost var t := transfers;
      var id: bv8 := 0;
      var wake := Transmit(WakeAddr, [id]);
      var st := Swrst();
      ProbeHeadSent(old(log), wake, st, log);
      if st != HalOk {
        return false;
      }
      ghost var l2 := log;
      var res;
      st, res := ReadBuf(StatusBase, StatusHwId, [id]);
      ReadBufSent(l2, [StatusBase, StatusHwId], log, st, reply(t + 2));
      ProbeAll(Sent(old(log)));
      if st != HalOk {
        return false;
      }
      id := res[0];
      ok := id == HwIdCode;
    }

    /**
     * tftwing_init: when the probe fails return 1 before the pins are
     * touched; otherwise configure the reset pin as an output and the
     * buttons as pulled-up inputs and return 0.
     */
    method Init() returns (result: bv8)
      modifies this
      ensures var t := old(transfers);
        var ok := reply(t + 1) == HalOk && reply(t + 2) == HalOk && reply(t + 3) == HalOk
                  && rxByte(t + 3, 0) == HwIdCode;
        && (result == 0 <==> ok)
        && (result == 0 || result == 1)
        && (ok ==> Sent(log) == Sent(old(log)) + ProbeFrames() + ConfigFrames())
        && (!ok ==> Sent(log) == Sent(old(log)) + ProbeFrames()[..2]
                    || Sent(log) == Sent(old(log)) + ProbeFrames())
    {
      var ok := Probe();
      if !ok {
        return 1;
      }
      ghost var s1 := Sent(log);
      ghost var p1 := PinModeFrames(ResetPinMask, ModeOutput);
      ghost var p2 := PinModeFrames(ButtonAll, ModeInputPullup);
      PinModeBulk(ResetPinMask, ModeOutput);
      PinModeBulk(ButtonAll, ModeInputPullup);
      Regroup(s1, p1, p2);
      result := 0;
    }
  }

  /** The messages of seesaw_readbuf: only the register address is transmitted. */
  lemma ReadBufSent(before: seq<Event>, addr: seq<bv8>, after: seq<Event>, status: Status, st0: Status)
    requires st0 != HalOk ==> after == before + [Tx(WingAddr, addr, st0), ErrorReset(1)]
    requires st0 == HalOk ==> after == before + [Tx(WingAddr, addr, HalOk), Wait(ReadWait), Rx(WingAddr, 1, status)]
                                      + (if status != HalOk then [ErrorReset(2)] else [])
    ensures Sent(after) == Sent(before) + [Frame(WingAddr, addr)]
  {
    var tx := Tx(WingAddr, addr, st0);
    if st0 != HalOk {
      SentTail(before, tx, [ErrorReset(1)]);
    } else {
      var rest := [Wait(ReadWait), Rx(WingAddr, 1, status)] + (if status != HalOk then [ErrorReset(2)] else []);
      assert after == before + [tx] + rest;
      SentTail(before, tx, rest);
    }
  }

  /** The messages of a seesaw_writebuf that passed its size check. */
  lemma WriteSent(before: seq<Event>, tx: Event, after: seq<Event>)
    requires tx.Tx?
    requires after == before + [tx] + (if tx.status != HalOk then [ErrorReset(3)] else [])
    ensures Sent(after) == Sent(before) + [Frame(tx.addr, tx.data)]
  {
    SentTail(before, tx, if tx.status != HalOk then [ErrorReset(3)] else []);
  }

  /** The wake-up write and the software reset send the first two probe messages. */
  lemma ProbeHeadSent(before: seq<Event>, wake: Status, st: Status, after: seq<Event>)
    requires after == before + [Tx(WakeAddr, [0], wake)] + [Tx(WingAddr, [StatusBase, StatusSwrst, 0xFF], st)]
                    + (if st != HalOk then [ErrorReset(4)] else []) + [Delay(ResetDelay)]
    ensures Sent(after) == Sent(before) + ProbeFrames()[..2]
  {
    var tx := Tx(WakeAddr, [0], wake);
    var l1 := before + [tx];
    SentTail(before, tx, []);
    assert l1 + [] == l1;
    var rest := (if st != HalOk then [ErrorReset(4)] else []) + [Delay(ResetDelay)];
    assert after == l1 + [Tx(WingAddr, [StatusBase, StatusSwrst, 0xFF], st)] + rest;
    SentTail(l1, Tx(WingAddr, [StatusBase, StatusSwrst, 0xFF], st), rest);
    assert ProbeFrames()[..2] == [Frame(WakeAddr, [0]), Frame(WingAddr, [StatusBase, StatusSwrst, 0xFF])];
  }

  lemma ProbeAll(s0: seq<Frame>)
    ensures s0 + ProbeFrames()[..2] + [Frame(WingAddr, [StatusBase, StatusHwId])] == s0 + ProbeFrames()
  {
    assert ProbeFrames() == ProbeFrames()[..2] + [Frame(WingAddr, [StatusBase, StatusHwId])];
  }

  lemma Regroup(a: seq<Frame>, b: seq<Frame>, c: seq<Frame>)
    ensures a + b + c == a + (b + c)
  {
  }

  /** Events that put nothing on the bus. */
  predicate Quiet(l: seq<Event>)
  {
    forall k :: 0 <= k < |l| ==> !l[k].Tx?
  }

  /** A transmit followed by quiet events sends exactly one message. */
  lemma SentTail(before: seq<Event>, tx: Event, rest: seq<Event>)
    requires tx.Tx? && Quiet(rest)
    ensures Sent(before + [tx] + rest) == Sent(before) + [Frame(tx.addr, tx.data)]
  {
    var l := before + [tx];
    SentAppend(before, [tx]);
    SentOne(tx);
    assert Sent(l) == Sent(before) + [Frame(tx.addr, tx.data)];
    SentAppend(l, rest);
    NoTx(rest);
    assert Sent(l + rest) == Sent(l);
  }

  lemma NoTx(l: seq<Event>)
    requires Quiet(l)
    ensures Sent(l) == []
  {
    if l != [] {
      NoTx(l[1..]);
    }
  }
}
