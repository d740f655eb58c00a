/** The ATtiny side of the DIT4192 control port: PORTB and DDRB, the USI
    registers USIDR, USISR and USICR, the SELECT/DESELECT macros, the byte
    exchange `SPISend`, the register accesses `DIT4192WriteReg` and
    `DIT4192ReadReg`, and the start-up sequence of `main`. Every method records
    on the ghost `trace` what a bus recorder would see. */
module Dit4192 {
  import opened Bits
  import opened Shifter
  import opened Command
  import BT = BusTrace

  /** PORTB pins wired to the DIT4192. */
  const DIT4192_CS: bv3 := 4
  const SCK: bv3 := 2
  const DOUT: bv3 := 1

  /** USISR: the counter overflow flag; bits 3..0 hold the 4-bit edge counter. */
  const USIOIF: bv3 := 6
  const USICNT_MASK: bv8 := 0x0f

  /** USICR: three-wire mode, external positive-edge shift clock with the
      counter on both edges, and the clock toggle strobe. */
  const USIWM0: bv3 := 4
  const USICS1: bv3 := 3
  const USICLK: bv3 := 1
  const USITC: bv3 := 0

  /** The value `SPISend` writes to USICR on every pass of its loop. */
  const USICR_STROBE: bv8 := BV(USIWM0) | BV(USICS1) | BV(USICLK) | BV(USITC)

  /** The pins `main` makes outputs: chip select, the USI clock and DO. */
  const BUS_PINS: bv8 := BV(DIT4192_CS) | BV(SCK) | BV(DOUT)

  /** Where control is in `main`: before it, issuing the configuration writes,
      or asleep / spinning in `while (1)` after them. */
  datatype Phase = Reset | Configuring | Parked

  datatype SleepMode = Idle | PowerDown

  /** The two transactions `main` runs, from bit time t0. */
  function StartupFrames(din: Wire, t0: nat): (fs: seq<seq<BT.Exchange>>)
  {
    [BT.Exchanges(din, t0, WriteFrame(AUDIO_SERIAL_PORT_CONTROL, SERIAL_PORT_FORMAT)),
     BT.Exchanges(din, t0 + 24, WriteFrame(POWER_DOWN_AND_CLOCK_CONTROL, CLOCK_CONTROL))]
  }

  /** Everything `main` puts on the bus: the initial deselect, then its writes. */
  function StartupTrace(din: Wire, t0: nat): seq<BT.Event>
  {
    [BT.Deselect] + BT.Build(StartupFrames(din, t0))
  }

  /** A trace extended with the two configuration writes, transaction by
      transaction, is the trace followed by both. */
  lemma ConfigureTrace(din: Wire, t0: nat, t: seq<BT.Event>)
    ensures t + BT.Transaction(BT.Exchanges(din, t0, WriteFrame(AUDIO_SERIAL_PORT_CONTROL, SERIAL_PORT_FORMAT)))
              + BT.Transaction(BT.Exchanges(din, t0 + 24, WriteFrame(POWER_DOWN_AND_CLOCK_CONTROL, CLOCK_CONTROL)))
            == t + BT.Build(StartupFrames(din, t0))
  {
    var fs := StartupFrames(din, t0);
    assert fs[1..][0] == fs[1] && fs[1..][1..] == [];
    assert BT.Build(fs[1..]) == BT.Transaction(fs[1]) + BT.Build([]);
    assert BT.Build(fs) == BT.Transaction(fs[0]) + BT.Build(fs[1..]);
  }

  /** The start-up trace is the deselect followed by the configuration writes. */
  lemma AppendStartupTrace(din: Wire, t0: nat, t: seq<BT.Event>)
    ensures t + [BT.Deselect] + BT.Build(StartupFrames(din, t0)) == t + StartupTrace(din, t0)
  {
  }

  /** `main`'s bus activity is the deselect, then exactly two whole
      transactions: the 20-bit right-justified format written to register 0x03,
      then MCLK = 256 fs written to register 0x02. Chip select is released
      before the first and after the last. */
  lemma StartupOrder(din: Wire, t0: nat)
    ensures StartupTrace(din, t0)[0] == BT.Deselect
    ensures BT.Frames(StartupTrace(din, t0)[1..]) == Wrappers.Some(StartupFrames(din, t0))
    ensures BT.Replay(StartupTrace(din, t0)[1..], false) == Wrappers.Some(false)
    ensures |StartupFrames(din, t0)| == 2
    ensures DecodeFrame(BT.Sent(StartupFrames(din, t0)[0])) == Wrappers.Some(WriteReq(0x03, 0x14))
    ensures DecodeFrame(BT.Sent(StartupFrames(din, t0)[1])) == Wrappers.Some(WriteReq(0x02, 0x02))
  {
    var fs := StartupFrames(din, t0);
    var t := StartupTrace(din, t0);
    assert t[1..] == BT.Build(fs);
    BT.FramesIff(t[1..], fs);
    BT.FramesIffBracketed(t[1..]);
    StartupPayloads();
    WriteFrameDecodes(AUDIO_SERIAL_PORT_CONTROL, SERIAL_PORT_FORMAT);
    WriteFrameDecodes(POWER_DOWN_AND_CLOCK_CONTROL, CLOCK_CONTROL);
    assert BT.Sent(fs[0]) == WriteFrame(AUDIO_SERIAL_PORT_CONTROL, SERIAL_PORT_FORMAT);
    assert BT.Sent(fs[1]) == WriteFrame(POWER_DOWN_AND_CLOCK_CONTROL, CLOCK_CONTROL);
  }

  class Mcu {
    var portb: bv8
    var ddrb: bv8
    var usidr: bv8
    /** USISR's overflow flag and 4-bit counter. */
    var usioif: bool
    var usicnt: nat
    var usicr: bv8
    var interruptsEnabled: bool
    var sleepMode: SleepMode
    /** Bits sampled on DI since reset: the time base of the DI waveform. */
    var bitTime: nat
    /** What the device on the other end drives on DI. */
    const din: Wire
    /** USICR strobes since reset, each one USCK edge. */
    ghost var strobes: nat
    ghost var trace: seq<BT.Event>
    ghost var phase: Phase

    /** Between calls the USI counter fits its four bits and USCK rests low. */
    ghost predicate Valid()
      reads this
    {
      usicnt < 16 && !Bit(portb, SCK)
    }

    /** Power-on reset: every register 0, interrupts off, main not yet entered. */
    constructor (din: Wire)
      ensures Valid()
      ensures this.din == din
      ensures portb == 0 && ddrb == 0 && usidr == 0 && !usioif && usicnt == 0 && usicr == 0
      ensures !interruptsEnabled && sleepMode == Idle
      ensures bitTime == 0 && strobes == 0 && trace == [] && phase == Reset
    {
      this.din := din;
      portb, ddrb, usidr, usioif, usicnt, usicr := 0, 0, 0, false, 0, 0;
      interruptsEnabled, sleepMode := false, Idle;
      bitTime, strobes := 0, 0;
      trace := [];
      phase := Reset;
    }

    /** Reading USISR: the overflow flag at bit 6 and the counter in bits 3..0. */
    function Status(): (s: bv8)
      reads this
      requires usicnt < 16
      ensures Bit(s, USIOIF) == usioif
      ensures s & USICNT_MASK == usicnt as bv8
    {
      (if usioif then BV(USIOIF) else 0) | usicnt as bv8
    }

    /** SELECT: `PORTB &= ~_BV(DIT4192_CS)`, which drives chip select low. */
    method Select()
      requires Valid()
      modifies this`portb, this`trace
      ensures Valid()
      ensures portb == ClearBit(old(portb), DIT4192_CS)
      ensures trace == old(trace) + [BT.Select]
    {
      portb := ClearBit(portb, DIT4192_CS);
      trace := trace + [BT.Select];
    }

    /** DESELECT: `PORTB |= _BV(DIT4192_CS)`, which drives chip select high. */
    method Deselect()
      requires Valid()
      modifies this`portb, this`trace
      ensures Valid()
      ensures portb == SetBit(old(portb), DIT4192_CS)
      ensures trace == old(trace) + [BT.Deselect]
    {
      portb := SetBit(portb, DIT4192_CS);
      trace := trace + [BT.Deselect];
    }

    /** Writing USISR: a 1 in bit 6 clears the overflow flag, a 0 leaves it;
        bits 3..0 become the counter. */
    method WriteStatus(v: bv8)
      modifies this`usioif, this`usicnt
      ensures usioif == (old(usioif) && !Bit(v, USIOIF))
      ensures usicnt == (v & USICNT_MASK) as nat && usicnt < 16
    {
      usioif := usioif && !Bit(v, USIOIF);
      usicnt := (v & USICNT_MASK) as nat;
    }

    /** `USICR = USICR_STROBE`: USITC toggles the USCK port bit, which is one
        clock edge. The counter counts it (a wrap from 15 to 0 sets the overflow
        flag); a rising edge also shifts USIDR, sampling DI. The counter is
        clocked by the strobe itself, but USIDR shifts on the edges of the USCK
        pin, which follows the port bit only when USCK is an output; the
        requires keeps the model to that case, which `main` sets up. */
    method ClockStrobe()
      requires usicnt < 16 && Bit(ddrb, SCK)
      modifies this`usicr, this`portb, this`usidr, this`usioif, this`usicnt, this`strobes, this`bitTime
      ensures usicr == USICR_STROBE && strobes == old(strobes) + 1
      ensures portb == ToggleBit(old(portb), SCK)
      ensures usicnt == if old(usicnt) == 15 then 0 else old(usicnt) + 1
      ensures usioif == (old(usioif) || old(usicnt) == 15)
      ensures Bit(portb, SCK) ==>
                usidr == ShiftStep(din, old(bitTime), old(usidr)) && bitTime == old(bitTime) + 1
      ensures !Bit(portb, SCK) ==> usidr == old(usidr) && bitTime == old(bitTime)
    {
      usicr := USICR_STROBE;
      strobes := strobes + 1;
      portb := ToggleBit(portb, SCK);
      if Bit(portb, SCK) {
        usidr := ShiftStep(din, bitTime, usidr);
        bitTime := bitTime + 1;
      }
      usioif := usioif || usicnt == 15;
      usicnt := if usicnt == 15 then 0 else usicnt + 1;
    }

    /** `SPISend(b)`: load USIDR, clear the flag and the counter, strobe the
        clock until the counter overflows, return USIDR. The loop runs exactly
        16 times (eight bit times) and returns the eight DI levels sampled while
        b went out, the first one in the most significant bit. */
    method SpiSend(b: bv8) returns (r: bv8)
      requires Valid() && Bit(ddrb, SCK)
      modifies this`usicr, this`portb, this`usidr, this`usioif, this`usicnt, this`strobes, this`bitTime, this`trace
      ensures Valid()
      ensures r == Received(din, old(bitTime)) && usidr == r
      ensures strobes == old(strobes) + 16 && bitTime == old(bitTime) + 8
      ensures portb == old(portb)
      ensures usioif && usicnt == 0 && usicr == USICR_STROBE
      ensures trace == old(trace) + [BT.Transfer(BT.Exchange(b, r))]
    {
      usidr := b;
      WriteStatus(BV(USIOIF));
      ghost var low, high := portb, ToggleBit(portb, SCK);
      ToggleTwice(low, SCK);
      ghost var edges, rises: nat := 0, 0;
      while !Bit(Status(), USIOIF)
        invariant edges <= 16 && usioif == (edges == 16) && strobes == old(strobes) + edges
        invariant usicnt == if edges == 16 then 0 else edges
        invariant (portb == low && edges == 2 * rises) || (portb == high && edges + 1 == 2 * rises)
        invariant bitTime == old(bitTime) + rises
        invariant usidr == Register(din, old(bitTime), b, bitTime)
        invariant edges > 0 ==> usicr == USICR_STROBE
        invariant trace == old(trace)
        decreases 16 - edges
      {
        ghost var rising := portb == low;
        RegisterLast(din, old(bitTime), b, bitTime);
        ClockStrobe();
        edges := edges + 1;
        if rising {
          rises := rises + 1;
        }
      }
      RegisterReceived(din, old(bitTime), b);
      r := usidr;
      trace := trace + [BT.Transfer(BT.Exchange(b, r))];
    }

    /** `DIT4192WriteReg(reg, value)`: one transaction sending `reg & 0x3f`, the
        dummy byte and value; what comes back is dropped. Chip select ends high. */
    method WriteReg(reg: bv8, value: bv8)
      requires Valid() && Bit(ddrb, SCK)
      modifies this`usicr, this`portb, this`usidr, this`usioif, this`usicnt, this`strobes, this`bitTime, this`trace
      ensures Valid()
      ensures portb == SetBit(old(portb), DIT4192_CS)
      ensures bitTime == old(bitTime) + 24 && strobes == old(strobes) + 48
      ensures usidr == Received(din, old(bitTime) + 16)
      ensures usioif && usicnt == 0 && usicr == USICR_STROBE
      ensures trace == old(trace) + BT.Transaction(BT.Exchanges(din, old(bitTime), WriteFrame(reg, value)))
    {
      BT.ThreeExchangeTransaction(din, bitTime, WriteFrame(reg, value), trace);
      SetAfterClear(portb, DIT4192_CS);
      Select();
      var ignored := SpiSend(WriteCommand(reg));
      ignored := SpiSend(DUMMY);
      ignored := SpiSend(value);
      Deselect();
    }

    /** `DIT4192ReadReg(reg)`: one transaction sending `(reg & 0x3f) | 0x80` and
        two dummy bytes; the value is the byte received during the third
        exchange, the first two received bytes are dropped. */
    method ReadReg(reg: bv8) returns (value: bv8)
      requires Valid() && Bit(ddrb, SCK)
      modifies this`usicr, this`portb, this`usidr, this`usioif, this`usicnt, this`strobes, this`bitTime, this`trace
      ensures Valid()
      ensures portb == SetBit(old(portb), DIT4192_CS)
      ensures bitTime == old(bitTime) + 24 && strobes == old(strobes) + 48
      ensures value == Received(din, old(bitTime) + 16) && usidr == value
      ensures usioif && usicnt == 0 && usicr == USICR_STROBE
      ensures trace == old(trace) + BT.Transaction(BT.Exchanges(din, old(bitTime), ReadFrame(reg)))
    {
      BT.ThreeExchangeTransaction(din, bitTime, ReadFrame(reg), trace);
      SetAfterClear(portb, DIT4192_CS);
      Select();
      var ignored := SpiSend(ReadCommand(reg));
      ignored := SpiSend(DUMMY);
      value := SpiSend(DUMMY);
      Deselect();
    }

    /** `cli(); set_sleep_mode(SLEEP_MODE_PWR_DOWN); sleep_cpu();` and the
        `while (1);` after it: nothing more reaches the bus. */
    method Park()
      modifies this`interruptsEnabled, this`sleepMode, this`phase
      ensures !interruptsEnabled && sleepMode == PowerDown && phase == Parked
    {
      interruptsEnabled := false;
      sleepMode := PowerDown;
      phase := Parked;
    }

    /** The two configuration writes of `main`. */
    method Configure()
      requires Valid() && Bit(ddrb, SCK)
      modifies this`usicr, this`portb, this`usidr, this`usioif, this`usicnt, this`strobes, this`bitTime, this`trace
      ensures Valid()
      ensures portb == SetBit(old(portb), DIT4192_CS)
      ensures bitTime == old(bitTime) + 48 && strobes == old(strobes) + 96
      ensures usidr == Received(din, old(bitTime) + 40)
      ensures usioif && usicnt == 0 && usicr == USICR_STROBE
      ensures trace == old(trace) + BT.Build(StartupFrames(din, old(bitTime)))
    {
      ConfigureTrace(din, bitTime, trace);
      SetTwice(portb, DIT4192_CS);
      ghost var t1 := bitTime + 24;
      WriteReg(AUDIO_SERIAL_PORT_CONTROL, SERIAL_PORT_FORMAT);
      assert bitTime == t1 && t1 + 16 == old(bitTime) + 40;
      WriteReg(POWER_DOWN_AND_CLOCK_CONTROL, CLOCK_CONTROL);
    }

    /** `main`: make CS, USCK and DO outputs, deselect, wait for the device to
        settle, write the two configuration registers, then park. */
    method Startup()
      requires Valid() && phase == Reset
      modifies this
      ensures Valid() && phase == Parked
      ensures ddrb == BUS_PINS
      ensures portb == SetBit(old(portb), DIT4192_CS)
      ensures !interruptsEnabled && sleepMode == PowerDown
      ensures bitTime == old(bitTime) + 48 && strobes == old(strobes) + 96
      ensures usidr == Received(din, old(bitTime) + 40)
      ensures usioif && usicnt == 0 && usicr == USICR_STROBE
      ensures trace == old(trace) + StartupTrace(din, old(bitTime))
    {
      AppendStartupTrace(din, bitTime, trace);
      SetTwice(portb, DIT4192_CS);
      ddrb := BUS_PINS;
      Deselect();
      phase := Configuring;
      Configure();
      Park();
    }
  }
}
