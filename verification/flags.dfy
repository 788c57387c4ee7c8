/** The 6502 status register: eight one-bit flags packed into a byte. */
module Flags {

  /** The eight status flags, from bit 0 (carry) to bit 7 (negative). */
  datatype Flag = C | Z | I | D | B | U | V | N

  /** The bit position a flag occupies in the status byte. */
  function Bit(f: Flag): (k: nat)
    ensures k < 8
  {
    match f
    case C => 0
    case Z => 1
    case I => 2
    case D => 3
    case B => 4
    case U => 5
    case V => 6
    case N => 7
  }

  /** The flag's enum value: a byte with only the flag's bit set. */
  function Mask(f: Flag): bv8
  {
    match f
    case C => 0x01
    case Z => 0x02
    case I => 0x04
    case D => 0x08
    case B => 0x10
    case U => 0x20
    case V => 0x40
    case N => 0x80
  }

  /** Bit k of a byte, read by shifting: the reference the mask operations are checked against. */
  predicate BitSet(s: bv8, k: nat)
    requires k < 8
  {
    (s >> k) & 1 == 1
  }

  /** Each mask is the single bit 1 << Bit(f). */
  lemma MaskIsSingleBit(f: Flag)
    ensures Mask(f) == (1 as bv8) << Bit(f)
    ensures forall k | 0 <= k < 8 :: BitSet(Mask(f), k) <==> k == Bit(f)
  {
  }

  /** getFlag: the status byte masked with the flag, so either 0 or exactly the flag's bit. */
  function GetFlag(status: bv8, f: Flag): (r: bv8)
    ensures r == 0 || r == Mask(f)
  {
    status & Mask(f)
  }

  /** getFlag is nonzero exactly when the flag's bit, found by shifting, is 1. */
  lemma {:induction false} GetFlagReadsBit(status: bv8, f: Flag)
    ensures GetFlag(status, f) != 0 <==> BitSet(status, Bit(f))
  {
    match f
    case C => assert Bit(f) == 0;
    case Z => assert Bit(f) == 1;
    case I => assert Bit(f) == 2;
    case D => assert Bit(f) == 3;
    case B => assert Bit(f) == 4;
    case U => assert Bit(f) == 5;
    case V => assert Bit(f) == 6;
    case N => assert Bit(f) == 7;
  }

  /**
   * setFlag: or-in the mask when value holds, and-out the mask otherwise.
   * Only the chosen flag changes; with FlagsDetermineStatus this pins the
   * result down to "bit f set to value, all other bits kept".
   */
  function SetFlag(status: bv8, f: Flag, value: bool): (r: bv8)
    ensures GetFlag(r, f) == (if value then Mask(f) else 0)
    ensures forall g: Flag :: g != f ==> GetFlag(r, g) == GetFlag(status, g)
  {
    if value then status | Mask(f) else status & !Mask(f)
  }

  /** setFlag in terms of bit positions: bit Bit(f) becomes value and the bit of every other flag is kept. */
  lemma {:induction false} SetFlagSetsExactlyBit(status: bv8, f: Flag, value: bool)
    ensures BitSet(SetFlag(status, f, value), Bit(f)) == value
    ensures forall g: Flag :: g != f ==> BitSet(SetFlag(status, f, value), Bit(g)) == BitSet(status, Bit(g))
  {
    var r := SetFlag(status, f, value);
    GetFlagReadsBit(r, f);
    forall g: Flag | g != f
      ensures BitSet(r, Bit(g)) == BitSet(status, Bit(g))
    {
      GetFlagReadsBit(r, g);
      GetFlagReadsBit(status, g);
    }
  }

  /** The eight flags cover the whole byte: two status bytes that agree on every flag are equal. */
  lemma {:induction false} FlagsDetermineStatus(s: bv8, t: bv8)
    requires forall f: Flag :: GetFlag(s, f) == GetFlag(t, f)
    ensures s == t
  {
    assert GetFlag(s, C) == GetFlag(t, C);
    assert GetFlag(s, Z) == GetFlag(t, Z);
    assert GetFlag(s, I) == GetFlag(t, I);
    assert GetFlag(s, D) == GetFlag(t, D);
    assert GetFlag(s, B) == GetFlag(t, B);
    assert GetFlag(s, U) == GetFlag(t, U);
    assert GetFlag(s, V) == GetFlag(t, V);
    assert GetFlag(s, N) == GetFlag(t, N);
  }

  /** A later setFlag of the same flag overrides an earlier one. */
  lemma SetFlagLastWins(status: bv8, f: Flag, v: bool, w: bool)
    ensures SetFlag(SetFlag(status, f, v), f, w) == SetFlag(status, f, w)
  {
  }

  /** Setting a flag to the value it already has leaves the status byte unchanged. */
  lemma SetFlagToCurrentValue(status: bv8, f: Flag)
    ensures SetFlag(status, f, GetFlag(status, f) != 0) == status
  {
  }

  /**
   * The branch instructions compare getFlag with 1. Because getFlag returns
   * the masked bit, that comparison can only hold for the carry flag (bit 0).
   */
  lemma GetFlagIsOne(status: bv8, f: Flag)
    ensures GetFlag(status, f) == 1 <==> f == C && BitSet(status, 0)
  {
  }
}
