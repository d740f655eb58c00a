/** The DIT4192 control-port framing: the command byte that opens every
    transaction, the three bytes of a register write or read, and the two
    configuration payloads written at start-up together with the register fields
    they set. */
module Command {
  import opened Bits
  import opened Wrappers

  /** Register addresses. */
  const POWER_DOWN_AND_CLOCK_CONTROL: bv8 := 0x02
  const AUDIO_SERIAL_PORT_CONTROL: bv8 := 0x03

  /** Bit positions in the Power-Down and Clock Control register. */
  const PDN: bv3 := 0
  const CLK0: bv3 := 1
  const CLK1: bv3 := 2
  const RST: bv3 := 3

  /** Bit positions in the Audio Serial Port Control register. */
  const MS: bv3 := 0
  const WLEN0: bv3 := 2
  const WLEN1: bv3 := 3
  const JUS: bv3 := 4

  /** The placeholder byte sent as the second byte of every transaction and as
      the third byte of a read. */
  const DUMMY: bv8 := 0xff

  /** Command byte layout: bit 7 is the direction (1 = read), bit 6 the
      auto-increment step selector (0 = step 1), bits 5..0 the register address. */
  const ADDRESS_MASK: bv8 := 0x3f
  const READ_BIT: bv3 := 7
  const STEP_BIT: bv3 := 6

  datatype Direction = Write | Read

  /** A command byte as the device reads it. */
  datatype Cmd = Cmd(dir: Direction, stepBit: bool, address: bv8)

  /** What the device takes a command byte to mean. */
  function DecodeCommand(c: bv8): (cmd: Cmd)
    ensures cmd.address < 64
  {
    Cmd(if Bit(c, READ_BIT) then Read else Write, Bit(c, STEP_BIT), c & ADDRESS_MASK)
  }

  /** `reg & 0x3f`, the command byte of a register write. Bits 7 and 6 of reg
      are dropped, never rejected. */
  function WriteCommand(reg: bv8): (c: bv8)
    ensures !Bit(c, READ_BIT) && !Bit(c, STEP_BIT)
    ensures forall i: bv3 :: i < 6 ==> Bit(c, i) == Bit(reg, i)
    ensures reg < 64 ==> c == reg
    ensures DecodeCommand(c) == Cmd(Write, false, reg & ADDRESS_MASK)
  {
    reg & ADDRESS_MASK
  }

  /** `(reg & 0x3f) | 0x80`, the command byte of a register read. */
  function ReadCommand(reg: bv8): (c: bv8)
    ensures Bit(c, READ_BIT) && !Bit(c, STEP_BIT)
    ensures forall i: bv3 :: i < 6 ==> Bit(c, i) == Bit(reg, i)
    ensures reg < 64 ==> c == reg + 0x80
    ensures DecodeCommand(c) == Cmd(Read, false, reg & ADDRESS_MASK)
  {
    (reg & ADDRESS_MASK) | 0x80
  }

  /** A register access as the device understands a three-byte transaction. */
  datatype Request = WriteReq(address: bv8, value: bv8) | ReadReq(address: bv8)

  /** The device's reading of the bytes sent in one transaction: the command
      byte, a placeholder whose value is ignored, then the data byte (for a read
      the data byte is also a placeholder; the device drives the register value
      while it is being sent). */
  function DecodeFrame(sent: seq<bv8>): (r: Option<Request>)
    ensures r.Some? ==> |sent| == 3 && r.value.address == sent[0] & ADDRESS_MASK
  {
    if |sent| != 3 then None
    else
      var cmd := DecodeCommand(sent[0]);
      if cmd.dir == Write then Some(WriteReq(cmd.address, sent[2]))
      else Some(ReadReq(cmd.address))
  }

  /** The three bytes `DIT4192WriteReg` sends. */
  function WriteFrame(reg: bv8, value: bv8): (f: seq<bv8>)
    ensures |f| == 3 && f[1] == DUMMY && f[2] == value
  {
    [WriteCommand(reg), DUMMY, value]
  }

  /** The three bytes `DIT4192ReadReg` sends. */
  function ReadFrame(reg: bv8): (f: seq<bv8>)
    ensures |f| == 3 && f[1] == DUMMY && f[2] == DUMMY
  {
    [ReadCommand(reg), DUMMY, DUMMY]
  }

  /** The device reads the bytes of `DIT4192WriteReg` as a write of value to
      the register addressed by the low six bits of reg. */
  lemma WriteFrameDecodes(reg: bv8, value: bv8)
    ensures DecodeFrame(WriteFrame(reg, value)) == Some(WriteReq(reg & ADDRESS_MASK, value))
  {
  }

  /** The device reads the bytes of `DIT4192ReadReg` as a read of the register
      addressed by the low six bits of reg. */
  lemma ReadFrameDecodes(reg: bv8)
    ensures DecodeFrame(ReadFrame(reg)) == Some(ReadReq(reg & ADDRESS_MASK))
  {
  }

  /** A write frame and a read frame are never the same bytes, whatever the
      registers and the value. */
  lemma WriteNeverReads(r: bv8, s: bv8, v: bv8)
    ensures WriteFrame(r, v) != ReadFrame(s)
  {
    assert WriteFrame(r, v)[0] != ReadFrame(s)[0];
  }

  /** Audio data word length in bits, from WLEN[1:0]. */
  function WordLength(v: bv8): (n: nat)
    ensures n in {16, 18, 20, 24}
  {
    match (Bit(v, WLEN1), Bit(v, WLEN0))
    case (false, false) => 24
    case (false, true) => 20
    case (true, false) => 18
    case (true, true) => 16
  }

  /** MCLK rate as a multiple of fs, from CLK[1:0]. */
  function MclkRatio(v: bv8): (n: nat)
    ensures n in {128, 256, 384, 512}
  {
    match (Bit(v, CLK1), Bit(v, CLK0))
    case (false, false) => 128
    case (false, true) => 256
    case (true, false) => 384
    case (true, true) => 512
  }

  /** `_BV(JUS) | _BV(WLEN0)`, the Audio Serial Port Control value written at start-up. */
  const SERIAL_PORT_FORMAT: bv8 := BV(JUS) | BV(WLEN0)

  /** `_BV(CLK0)`, the Power-Down and Clock Control value written at start-up. */
  const CLOCK_CONTROL: bv8 := BV(CLK0)

  /** The start-up payloads are the binary literals of the comments beside them
      and select what those comments say: 20-bit right-justified slave-mode
      audio data, and MCLK = 256 fs with the device out of power-down and reset. */
  lemma StartupPayloads()
    ensures SERIAL_PORT_FORMAT == 0x14
    ensures WordLength(SERIAL_PORT_FORMAT) == 20
    ensures Bit(SERIAL_PORT_FORMAT, JUS) && !Bit(SERIAL_PORT_FORMAT, MS)
    ensures CLOCK_CONTROL == 0x02
    ensures MclkRatio(CLOCK_CONTROL) == 256
    ensures !Bit(CLOCK_CONTROL, PDN) && !Bit(CLOCK_CONTROL, RST)
  {
  }
}
