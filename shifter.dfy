/** The data side of the AVR Universal Serial Interface (USI) in three-wire mode,
    as `SPISend` uses it: the 8-bit data register USIDR shifts left once per rising
    edge of USCK; its most significant bit is the DO pin and the level on the DI pin
    enters at bit 0. Eight rising edges therefore transmit a byte MSB first and
    receive one in its place. The register is reasoned about through its bits in
    the order they leave DO, where one edge drops the head and appends the DI bit. */
module Shifter {
  import opened Bits

  /** What the device on the other end drives on DI, at each bit time (the
      number of bits the bus has sampled before). A device that answers what it
      hears is, over one run of the program, one such waveform. */
  type Wire = nat -> bool

  /** The DO pin level: the most significant bit of USIDR. */
  predicate Out(dr: bv8)
  {
    Bit(dr, 7)
  }

  /** One rising edge of USCK at bit time t: USIDR moves one place towards the
      most significant bit and the DI level enters at bit 0. */
  function ShiftStep(din: Wire, t: nat, dr: bv8): bv8
  {
    (dr << 1) | (if din(t) then 1 else 0)
  }

  /** Bit by bit: the DI level lands in bit 0 and bit i comes from bit i - 1. */
  lemma ShiftStepBits(din: Wire, t: nat, dr: bv8)
    ensures Bit(ShiftStep(din, t, dr), 0) == din(t)
    ensures forall i: bv3 :: i != 0 ==> Bit(ShiftStep(din, t, dr), i) == Bit(dr, i - 1)
  {
  }

  /** The bits of x in the order they leave DO: most significant first. */
  function MsbFirst(x: bv8): (s: seq<bool>)
    ensures |s| == 8 && s[0] == Out(x)
  {
    [Bit(x, 7), Bit(x, 6), Bit(x, 5), Bit(x, 4), Bit(x, 3), Bit(x, 2), Bit(x, 1), Bit(x, 0)]
  }

  /** One edge on the bits of USIDR, most significant first: the bit on DO
      leaves, the DI level sampled at bit time t joins at the end. */
  function Slide(din: Wire, t: nat, s: seq<bool>): (s': seq<bool>)
    requires |s| > 0
    ensures |s'| == |s|
  {
    s[1..] + [din(t)]
  }

  /** `ShiftStep` on the byte is `Slide` on its bits. */
  lemma ShiftStepSlides(din: Wire, t: nat, dr: bv8)
    ensures MsbFirst(ShiftStep(din, t, dr)) == Slide(din, t, MsbFirst(dr))
  {
    ShiftStepBits(din, t, dr);
  }

  /** The bits of USIDR after n rising edges, having held s just before bit time t0. */
  function Shifted(din: Wire, t0: nat, s: seq<bool>, n: nat): (s': seq<bool>)
    requires |s| > 0
    ensures |s'| == |s|
    decreases n
  {
    if n == 0 then s else Slide(din, t0 + n - 1, Shifted(din, t0, s, n - 1))
  }

  /** USIDR at bit time end, having held b at bit time t: one shift for each
      rising edge in between. */
  function Register(din: Wire, t: nat, b: bv8, end: nat): bv8
    decreases end - t
  {
    if end <= t then b else Register(din, t + 1, ShiftStep(din, t, b), end)
  }

  /** One more edge is one more shift at the end. */
  lemma {:induction false} RegisterLast(din: Wire, t: nat, b: bv8, end: nat)
    requires t <= end
    ensures Register(din, t, b, end + 1) == ShiftStep(din, end, Register(din, t, b, end))
    decreases end - t
  {
    if t < end {
      RegisterLast(din, t + 1, ShiftStep(din, t, b), end);
    }
  }

  /** The first of n + 1 edges, then the other n. */
  lemma {:induction false} ShiftedFirst(din: Wire, t0: nat, s: seq<bool>, n: nat)
    requires |s| > 0
    ensures Shifted(din, t0, s, n + 1) == Shifted(din, t0 + 1, Slide(din, t0, s), n)
    decreases n
  {
    if n > 0 {
      ShiftedFirst(din, t0, s, n - 1);
    }
  }

  /** The register, read most significant bit first, is the bit-level picture. */
  lemma {:induction false} RegisterShifted(din: Wire, t: nat, b: bv8, end: nat)
    requires t <= end
    ensures MsbFirst(Register(din, t, b, end)) == Shifted(din, t, MsbFirst(b), end - t)
    decreases end - t
  {
    if t < end {
      var b' := ShiftStep(din, t, b);
      RegisterShifted(din, t + 1, b', end);
      ShiftStepSlides(din, t, b);
      ShiftedFirst(din, t, MsbFirst(b), end - t - 1);
    }
  }

  /** The DI levels at the first n edges from bit time t0, oldest first. */
  function Samples(din: Wire, t0: nat, n: nat): (a: seq<bool>)
  {
    seq(n, j requires 0 <= j < n => din(t0 + j))
  }

  /** The byte an exchange that starts at bit time t0 receives: what USIDR
      holds eight edges later. Its bits are the eight DI samples
      (`ReceivedMsbFirst`), whatever USIDR held before (`RegisterReceived`). */
  function Received(din: Wire, t0: nat): bv8
  {
    Register(din, t0, 0, t0 + 8)
  }

  /** After n edges USIDR holds the bits of s not yet sent followed by the n
      bits sampled so far, oldest first. */
  lemma {:induction false} ShiftedSplits(din: Wire, t0: nat, s: seq<bool>, n: nat)
    requires 0 < |s| && n <= |s|
    ensures Shifted(din, t0, s, n) == s[n..] + Samples(din, t0, n)
    decreases n
  {
    if n == 0 {
      assert s[0..] == s;
    } else {
      ShiftedSplits(din, t0, s, n - 1);
      var before := Shifted(din, t0, s, n - 1);
      assert before == s[n - 1..] + Samples(din, t0, n - 1);
      assert before[1..] == s[n..] + Samples(din, t0, n - 1);
      assert Samples(din, t0, n - 1) + [din(t0 + n - 1)] == Samples(din, t0, n);
    }
  }

  /** MSB first: at edge j of an exchange of b, DO carries bit j of b counted
      from the most significant. */
  lemma DrivesMsbFirst(din: Wire, t0: nat, b: bv8, j: nat)
    requires j < 8
    ensures Out(Register(din, t0, b, t0 + j)) == MsbFirst(b)[j]
  {
    RegisterShifted(din, t0, b, t0 + j);
    ShiftedSplits(din, t0, MsbFirst(b), j);
  }

  /** Eight edges shift out all of what USIDR held and leave the DI samples. */
  lemma ShiftsOutAll(din: Wire, t0: nat, b: bv8)
    ensures MsbFirst(Register(din, t0, b, t0 + 8)) == Samples(din, t0, 8)
  {
    RegisterShifted(din, t0, b, t0 + 8);
    ShiftedSplits(din, t0, MsbFirst(b), 8);
    assert MsbFirst(b)[8..] == [];
  }

  /** The received byte, most significant bit first, is the eight DI samples:
      its bit 7 - j is the level sampled at edge j. */
  lemma ReceivedMsbFirst(din: Wire, t0: nat)
    ensures MsbFirst(Received(din, t0)) == Samples(din, t0, 8)
  {
    ShiftsOutAll(din, t0, 0);
  }

  /** Full duplex: eight edges leave in USIDR exactly the received byte, whatever
      byte went out. */
  lemma RegisterReceived(din: Wire, t0: nat, b: bv8)
    ensures Register(din, t0, b, t0 + 8) == Received(din, t0)
  {
    ShiftsOutAll(din, t0, b);
    ReceivedMsbFirst(din, t0);
    MsbFirstInjective(Register(din, t0, b, t0 + 8), Received(din, t0));
  }

  /** A byte is determined by its bits. */
  lemma MsbFirstInjective(x: bv8, y: bv8)
    requires MsbFirst(x) == MsbFirst(y)
    ensures x == y
  {
    assert Bit(x, 7) == Bit(y, 7) && Bit(x, 6) == Bit(y, 6) && Bit(x, 5) == Bit(y, 5) && Bit(x, 4) == Bit(y, 4) by {
      assert MsbFirst(x)[..4] == MsbFirst(y)[..4];
    }
    assert Bit(x, 3) == Bit(y, 3) && Bit(x, 2) == Bit(y, 2) && Bit(x, 1) == Bit(y, 1) && Bit(x, 0) == Bit(y, 0) by {
      assert MsbFirst(x)[4..] == MsbFirst(y)[4..];
    }
    BitsDetermine(x, y);
  }

  /** Through a wire from DO back to DI, which at each edge samples what DO
      drives, an exchange returns exactly the byte it sent. */
  lemma LoopbackEcho(din: Wire, t0: nat, b: bv8)
    requires forall t :: t0 <= t < t0 + 8 ==> din(t) == Out(Register(din, t0, b, t))
    ensures Received(din, t0) == b
  {
    forall j | 0 <= j < 8
      ensures Samples(din, t0, 8)[j] == MsbFirst(b)[j]
    {
      DrivesMsbFirst(din, t0, b, j);
    }
    ReceivedMsbFirst(din, t0);
    MsbFirstInjective(Received(din, t0), b);
  }
}
