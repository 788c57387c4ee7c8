/**
 * The earlier CPU skeleton, Olc6502: the register file with the status flag
 * word and its getFlag/setFlag accessors. It shares the flag layout with the
 * full CPU, and its accessors agree with the full CPU's.
 */
module Olc {
  import Flags
  import Cpu6502

  /** The registers of the skeleton; the bus handle is wiring and is not part of the state modelled. */
  datatype Olc = Olc(a: bv8, x: bv8, y: bv8, stkp: bv8, pc: bv16, status: bv8)

  /** Olc6502::new: every register, pc and the status word start at zero, so no flag is set. */
  function New(): (o: Olc)
    ensures o.a == 0 && o.x == 0 && o.y == 0 && o.stkp == 0 && o.pc == 0
    ensures forall f: Flags.Flag :: GetFlag(o, f) == 0
  {
    Olc(0x00, 0x00, 0x00, 0x00, 0x0000, 0x00)
  }

  /** getFlag: the status word masked with the flag, so 0 or exactly the flag's bit value. */
  function GetFlag(o: Olc, f: Flags.Flag): (r: bv8)
    ensures r == 0 || r == Flags.Mask(f)
    ensures r != 0 <==> Flags.BitSet(o.status, Flags.Bit(f))
  {
    Flags.GetFlagReadsBit(o.status, f);
    Flags.GetFlag(o.status, f)
  }

  /**
   * setFlag: the same or-in/and-out update of the status word as the full
   * CPU's. The flag then reads as value; every other flag and every register
   * is unchanged.
   */
  function SetFlag(o: Olc, f: Flags.Flag, value: bool): (r: Olc)
    ensures (GetFlag(r, f) != 0) == value
    ensures forall g: Flags.Flag :: g != f ==> GetFlag(r, g) == GetFlag(o, g)
    ensures r == o.(status := r.status)
  {
    o.(status := Flags.SetFlag(o.status, f, value))
  }

  /** Setting a flag and clearing it again leaves the status word as clearing it alone would. */
  lemma {:induction false} SetThenClear(o: Olc, f: Flags.Flag)
    ensures SetFlag(SetFlag(o, f, true), f, false) == SetFlag(o, f, false)
  {
    var r := SetFlag(SetFlag(o, f, true), f, false);
    var t := SetFlag(o, f, false);
    forall g: Flags.Flag
      ensures Flags.GetFlag(r.status, g) == Flags.GetFlag(t.status, g)
    {
      assert GetFlag(r, g) == Flags.GetFlag(r.status, g) && GetFlag(t, g) == Flags.GetFlag(t.status, g);
    }
    Flags.FlagsDetermineStatus(r.status, t.status);
  }

  /** The skeleton and the full CPU keep the same flag word: both accessors compute the same status byte. */
  lemma AgreesWithCpu(o: Olc, cpu: Cpu6502.Cpu, f: Flags.Flag, value: bool)
    requires cpu.status == o.status
    ensures Cpu6502.GetFlag(cpu, f) == GetFlag(o, f)
    ensures Cpu6502.SetFlag(cpu, f, value).status == SetFlag(o, f, value).status
  {
  }
}
