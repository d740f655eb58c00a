/** Bit-level helpers for the 8-bit registers of the AVR and of the DIT4192.
    Bit positions are `bv3` values, 0 (least significant) to 7 (most significant). */
module Bits {

  /** Bit i of x. */
  predicate Bit(x: bv8, i: bv3)
  {
    (x >> i) & 1 == 1
  }

  /** avr-libc's _BV(n): the byte with only bit n set. */
  function BV(n: bv3): (m: bv8)
    ensures Bit(m, n)
    ensures forall i: bv3 :: i != n ==> !Bit(m, i)
  {
    (1 as bv8) << n
  }

  /** Two bytes that agree on all eight bits are equal. */
  lemma BitsDetermine(x: bv8, y: bv8)
    requires forall i: bv3 :: Bit(x, i) == Bit(y, i)
    ensures x == y
  {
    assert Bit(x, 0) == Bit(y, 0) && Bit(x, 1) == Bit(y, 1);
    assert Bit(x, 2) == Bit(y, 2) && Bit(x, 3) == Bit(y, 3);
    assert Bit(x, 4) == Bit(y, 4) && Bit(x, 5) == Bit(y, 5);
    assert Bit(x, 6) == Bit(y, 6) && Bit(x, 7) == Bit(y, 7);
  }

  /** `x & ~_BV(n)`: bit n cleared, every other bit kept. */
  function ClearBit(x: bv8, n: bv3): (y: bv8)
    ensures !Bit(y, n)
    ensures forall i: bv3 :: i != n ==> Bit(y, i) == Bit(x, i)
  {
    x & !BV(n)
  }

  /** `x | _BV(n)`: bit n set, every other bit kept. */
  function SetBit(x: bv8, n: bv3): (y: bv8)
    ensures Bit(y, n)
    ensures forall i: bv3 :: i != n ==> Bit(y, i) == Bit(x, i)
  {
    x | BV(n)
  }

  /** `x ^ _BV(n)`: bit n inverted, every other bit kept. */
  function ToggleBit(x: bv8, n: bv3): (y: bv8)
    ensures Bit(y, n) == !Bit(x, n)
    ensures forall i: bv3 :: i != n ==> Bit(y, i) == Bit(x, i)
  {
    x ^ BV(n)
  }

  /** Toggling a bit twice restores the byte. */
  lemma ToggleTwice(x: bv8, n: bv3)
    ensures ToggleBit(ToggleBit(x, n), n) == x
  {
  }

  /** Clearing a bit and then setting it is the same as setting it. */
  lemma SetAfterClear(x: bv8, n: bv3)
    ensures SetBit(ClearBit(x, n), n) == SetBit(x, n)
  {
  }

  /** Setting a bit that is already set changes nothing. */
  lemma SetTwice(x: bv8, n: bv3)
    ensures SetBit(SetBit(x, n), n) == SetBit(x, n)
  {
  }
}
