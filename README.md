# DIT4192 control port of the spdif2digitech firmware

The ATtiny firmware in `DIT4192/spdif2digitech.c` configures a DIT4192 S/PDIF
transmitter over its SPI-style control port and then goes to sleep. This
project models that control port:

- the `SELECT` and `DESELECT` macros, which drive chip select (PB4 of `PORTB`);
- `SPISend`, one full-duplex byte exchange through the AVR Universal Serial
  Interface (USI) in three-wire mode;
- `DIT4192WriteReg` and `DIT4192ReadReg`, each one three-byte transaction;
- the start-up sequence of `main`, which writes two configuration registers.

The MCU is a class, `Dit4192.Mcu`. Its fields are `PORTB`, `DDRB`, `USIDR`,
the overflow flag and 4-bit counter of `USISR`, `USICR`, the interrupt flag
and the sleep mode. It also has a bit clock: the number of bits sampled on
DI so far. Each C routine is a method that updates these fields step by step.
`SpiSend` keeps the polling loop of the source: every pass writes `USICR`,
the toggle strobe changes the USCK level, the counter counts the edge, and a
rising edge shifts `USIDR`.

The device on the other end is a waveform, `Shifter.Wire`: the DI level at
each bit time. Every method also records, on a ghost trace, what a bus
recorder would see: select, one event per byte exchange (byte sent, byte
received), deselect. The bus properties are stated over that trace:

- the framing of register writes and reads;
- select bracketing;
- the exact start-up traffic.

Modules:

- `Bits`: bit-level helpers, with `_BV`, set, clear and toggle.
- `Shifter`: the USI shift register as functions of the DI waveform, and the
  MSB-first and full-duplex lemmas.
- `Command`: command bytes, three-byte frames, the device's reading of a
  frame, and the start-up payloads with the register fields they set.
- `BusTrace`: bus events, transactions, the trace parser `Frames` and the
  chip-select replay `Replay`.
- `Dit4192`: the `Mcu` class and the start-up lemmas.
- `Wrappers`: `Option`.

## Model

| member | source | states |
|---|---|---|
| Bits.BV | DIT4192/spdif2digitech.c:159 | `_BV(n)` has bit n set and every other bit clear |
| Bits.ClearBit | DIT4192/spdif2digitech.c:10 | `x & ~_BV(n)` clears bit n and keeps the other seven bits |
| Bits.SetBit | DIT4192/spdif2digitech.c:11 | OR-ing in `_BV(n)` sets bit n and keeps the other seven bits |
| Bits.ToggleBit | DIT4192/spdif2digitech.c:190 | the USITC strobe inverts the USCK port bit and keeps the others |
| Bits.SetAfterClear | DIT4192/spdif2digitech.c:10-11 | SELECT then DESELECT leaves `PORTB` as DESELECT alone would |
| Bits.SetTwice | DIT4192/spdif2digitech.c:11 | a second DESELECT changes nothing |
| Bits.ToggleTwice | DIT4192/spdif2digitech.c:190 | two toggle strobes bring USCK back to its level |
| Shifter.ShiftStepBits | DIT4192/spdif2digitech.c:190 | a rising USCK edge puts the DI level in bit 0 of `USIDR` and moves bit i - 1 to bit i |
| Shifter.ShiftStepSlides | DIT4192/spdif2digitech.c:190 | read MSB first, one edge drops the bit on DO and appends the DI bit |
| Shifter.RegisterLast | DIT4192/spdif2digitech.c:189-191 | k + 1 rising edges are k rising edges and one more shift |
| Shifter.ShiftedFirst | DIT4192/spdif2digitech.c:189-191 | n + 1 edges are the first edge and then n more |
| Shifter.RegisterShifted | DIT4192/spdif2digitech.c:185-191 | `USIDR` after the edges, read MSB first, is its bit-level picture |
| Shifter.ShiftedSplits | DIT4192/spdif2digitech.c:185-191 | after n edges `USIDR` holds the bits of b not yet sent, then the n DI samples |
| Shifter.DrivesMsbFirst | DIT4192/spdif2digitech.c:185-191 | at edge j of an exchange, DO carries bit j of b counted from the MSB |
| Shifter.ShiftsOutAll | DIT4192/spdif2digitech.c:185-193 | after eight edges `USIDR` holds exactly the eight DI samples and nothing of b |
| Shifter.ReceivedMsbFirst | DIT4192/spdif2digitech.c:193 | the received byte, MSB first, is the DI levels of the exchange's eight edges |
| Shifter.RegisterReceived | DIT4192/spdif2digitech.c:185-193 | the byte returned does not depend on the byte sent |
| Shifter.MsbFirstInjective | DIT4192/spdif2digitech.c:193 | a byte is fixed by its eight bits in DO order |
| Shifter.LoopbackEcho | DIT4192/spdif2digitech.c:183-195 | with DO wired back to DI, `SPISend(b)` returns b |
| Command.DecodeCommand | DIT4192/spdif2digitech.c:200 | every command byte addresses one of the 64 registers |
| Command.WriteCommand | DIT4192/spdif2digitech.c:200 | `reg & 0x3f` has bits 7 and 6 clear and bits 5..0 of reg; it is reg when reg < 64; the device reads it as a write with step 1 |
| Command.ReadCommand | DIT4192/spdif2digitech.c:209 | the read command byte (`reg & 0x3f` with `0x80` added) has bit 7 set, bit 6 clear and bits 5..0 of reg; the device reads it as a read with step 1 |
| Command.DecodeFrame | DIT4192/spdif2digitech.c:198-214 | a decoded frame has three bytes and addresses the low six bits of its first byte |
| Command.WriteFrame | DIT4192/spdif2digitech.c:200-202 | a write sends the dummy `0xff`, then the value |
| Command.ReadFrame | DIT4192/spdif2digitech.c:209-211 | a read sends `0xff` as its second and third bytes |
| Command.WriteFrameDecodes | DIT4192/spdif2digitech.c:198-204 | the bytes of `DIT4192WriteReg(reg, value)` are a write of value to register `reg & 0x3f` |
| Command.ReadFrameDecodes | DIT4192/spdif2digitech.c:206-214 | the bytes of `DIT4192ReadReg(reg)` are a read of register `reg & 0x3f` |
| Command.WriteNeverReads | DIT4192/spdif2digitech.c:200-209 | no write frame equals a read frame |
| Command.WordLength | DIT4192/spdif2digitech.c:121-122 | WLEN[1:0] selects 24, 20, 18 or 16 bits |
| Command.MclkRatio | DIT4192/spdif2digitech.c:97-98 | CLK[1:0] selects 128, 256, 384 or 512 fs |
| Command.StartupPayloads | DIT4192/spdif2digitech.c:166-170 | `_BV(JUS)` OR `_BV(WLEN0)` is `0b00010100`: 20-bit, right-justified, slave. `_BV(CLK0)` is `0b00000010`: 256 fs, PDN and RST clear |
| BusTrace.Exchanges | DIT4192/spdif2digitech.c:199-211 | back-to-back exchanges send the given bytes in order |
| BusTrace.ThreeExchangeTransaction | DIT4192/spdif2digitech.c:199-212 | select, three exchanges 8 bit times apart, deselect: one transaction |
| BusTrace.Transfers | DIT4192/spdif2digitech.c:199-212 | one transfer event per exchange, in order |
| BusTrace.Body | DIT4192/spdif2digitech.c:199-212 | a parsed transaction body is its transfers, a deselect and the rest |
| BusTrace.BodyOfTransfers | DIT4192/spdif2digitech.c:199-212 | the parser reads back the exchanges of a transaction |
| BusTrace.BuildFrames | DIT4192/spdif2digitech.c:199-212 | parsing a run of transactions gives those transactions |
| BusTrace.FramesBuild | DIT4192/spdif2digitech.c:199-212 | a trace that parses is the run of its transactions |
| BusTrace.FramesIff | DIT4192/spdif2digitech.c:199-212 | a trace parses into fs exactly when it is the transactions fs in order |
| BusTrace.ReplayBody | DIT4192/spdif2digitech.c:199-212 | chip select is replayed through one transaction body |
| BusTrace.FramesIffBracketed | DIT4192/spdif2digitech.c:199-212 | a trace is whole transactions exactly when every select finds the chip deselected, every deselect finds it selected and every exchange is selected |
| Dit4192.StartupOrder | DIT4192/spdif2digitech.c:157-179 | `main` deselects, then makes exactly two whole transactions, a write of 0x14 to 0x03 and then a write of 0x02 to 0x02; chip select is released at the end |
| Dit4192.Mcu.constructor | DIT4192/spdif2digitech.c:157 | power-on reset: every register 0, interrupts off, sleep mode Idle, empty trace |
| Dit4192.Mcu.Status | DIT4192/spdif2digitech.c:189 | reading `USISR` shows the overflow flag in bit 6 and the counter in bits 3..0 |
| Dit4192.Mcu.Select | DIT4192/spdif2digitech.c:10 | `PORTB` changes only in PB4, which goes low; a select is recorded |
| Dit4192.Mcu.Deselect | DIT4192/spdif2digitech.c:11 | `PORTB` changes only in PB4, which goes high; a deselect is recorded |
| Dit4192.Mcu.WriteStatus | DIT4192/spdif2digitech.c:187 | writing 1 to bit 6 clears the overflow flag; bits 3..0 become the counter |
| Dit4192.Mcu.ClockStrobe | DIT4192/spdif2digitech.c:190 | one strobe is one USCK edge: the counter counts it, a wrap from 15 sets the flag, a rising edge shifts `USIDR` |
| Dit4192.Mcu.SpiSend | DIT4192/spdif2digitech.c:183-195 | exactly 16 strobes (8 bit times); USCK and `PORTB` end as they were; the flag is set and the counter 0; the return value is the received byte; one exchange is recorded |
| Dit4192.Mcu.WriteReg | DIT4192/spdif2digitech.c:198-204 | the trace grows by exactly select, exchanges of `reg & 0x3f`, `0xff` and value, then deselect; chip select ends high; 48 strobes, and `USIDR` holds the third received byte with the flag set and the counter 0 |
| Dit4192.Mcu.ReadReg | DIT4192/spdif2digitech.c:206-214 | the trace grows by exactly select, exchanges of the read command byte, `0xff` and `0xff`, then deselect; the result is the byte received in the third exchange and stays in `USIDR`; 48 strobes; the flag is set and the counter 0 |
| Dit4192.Mcu.Park | DIT4192/spdif2digitech.c:174-179 | interrupts off, power-down sleep mode; nothing more is sent |
| Dit4192.Mcu.Configure | DIT4192/spdif2digitech.c:166-170 | the two configuration writes, in order, as whole transactions; 96 strobes; `USIDR` holds the last received byte |
| Dit4192.Mcu.Startup | DIT4192/spdif2digitech.c:157-179 | `DDRB` = CS, USCK and DO; the trace grows by exactly the deselect and the two writes; chip select ends high; 96 strobes; `USIDR` holds the last received byte; the MCU is parked |

## Left out

- `_delay_ms(5)` (line 163) is not modelled. The model has no wall clock; bit
  time counts only the DI samples.
- `main`'s `while (1)` (line 179) does not loop in the model. `Park` is the
  last step of `Startup`, and `Startup` sends nothing after `Park`. The model
  does not stop other methods from being called on a parked MCU.
- `cli`, `set_sleep_mode` and `sleep_cpu` (lines 174-176) are only field
  updates. Interrupt hardware and wake-up are not modelled.
- `Dit4192.Mcu.Park`: `sleepMode == PowerDown` records the mode bits that
  `set_sleep_mode` writes, not that the CPU sleeps. `sleep_cpu` at line 176 is
  not preceded by `sleep_enable`, so the sleep-enable bit is still 0. The
  SLEEP instruction then does nothing, and control reaches `while (1)`.
  "Parked" means only that `main` has finished its bus traffic.
- The DI waveform is fixed for a whole run. A device that answers what it
  hears is, over one run, one such waveform. The DIT4192's own register file
  is not modelled; `Command.DecodeFrame` says what it makes of a frame.
- The USI is modelled only as `SPISend` uses it: three-wire mode, software
  clock strobe, counter on both edges. Not modelled: the other `USISR` flags
  (start condition, stop condition, collision), the other `USICR` bits, the
  DO output latch, and electrical timing. The loop always ends after 16
  strobes; a stuck peripheral is not modelled.
- `Dit4192.Mcu.SpiSend`, `WriteReg` and `ReadReg` require USCK to be an output
  (`DDRB` bit PB2), as it is after line 159. Without that, the USITC strobe
  still toggles the port bit and still clocks the 4-bit counter, because
  USICS1 and USICLK are set at line 190. The loop would still end after 16
  strobes and `SPISend` would still return. Only `USIDR` would not shift,
  because it is clocked by edges on the USCK pin. That case is not modelled.
- `Dit4192.Mcu.Startup` requires `Valid()` (counter within four bits, USCK
  low) and the ghost phase `Reset`, so `main` is entered once.
- Between lines 159 and 161, CS is an output at the reset level 0, so the chip
  is briefly selected before the first `DESELECT`. The trace records no event
  for that level.
- The register bit definitions at lines 13-149 are kept only where the two
  start-up payloads need them: JUS, WLEN[1:0], MS, CLK[1:0], PDN and RST.
- `DIT4192ReadReg` is not called by `main` (the call at line 172 is
  commented out). It is modelled on its own.
- AK4490EQ/main.c is not part of this model.
