/**
 * The addressing modes. Each one reads its operand bytes at pc, advances pc
 * past them, leaves the effective address in addrAbs (addrRel for REL), and
 * answers 1 when the mode may cost an extra cycle (a page was crossed).
 *
 * The source reads an operand byte, increments pc, reads the next one, and so
 * on; here every operand byte is read at its offset from the original pc and
 * pc is advanced once, which reads the same bytes.
 */
module Addressing {
  import opened Cpu6502
  import opened Opcodes

  /** IMP: no operand bytes; the accumulator is latched into fetched. */
  function Implied(cpu: Cpu): (r: Step)
    ensures r.cpu == cpu.(fetched := cpu.a)
    ensures r.extra == 0
  {
    Step(cpu.(fetched := cpu.a), 0)
  }

  /** IMM: the operand is the next byte itself, so the effective address is the old pc. */
  function Immediate(cpu: Cpu): (r: Step)
    ensures r.cpu.addrAbs == cpu.pc
    ensures r.cpu.pc == cpu.pc + 1
    ensures r.cpu == cpu.(addrAbs := r.cpu.addrAbs, pc := r.cpu.pc)
    ensures r.extra == 0
  {
    Step(cpu.(addrAbs := cpu.pc, pc := cpu.pc + 1), 0)
  }

  /** ZP0: the one operand byte is an address in page 0. */
  function ZeroPage0(cpu: Cpu): (r: Step)
    ensures r.cpu.addrAbs <= 0x00FF && Page(r.cpu.addrAbs) == 0
    ensures Low(r.cpu.addrAbs) == Read(cpu, cpu.pc)
    ensures r.cpu.pc == cpu.pc + 1
    ensures r.cpu == cpu.(addrAbs := r.cpu.addrAbs, pc := r.cpu.pc)
    ensures r.extra == 0
  {
    Step(cpu.(addrAbs := (Read(cpu, cpu.pc) as bv16) & 0x00FF, pc := cpu.pc + 1), 0)
  }

  /**
   * ZPX: the operand byte plus X, wrapping inside page 0. The base of the
   * wrapping add is the operand byte just read at pc.
   */
  function ZeroPageX(cpu: Cpu): (r: Step)
    ensures r.cpu.addrAbs <= 0x00FF && Page(r.cpu.addrAbs) == 0
    ensures Low(r.cpu.addrAbs) == Read(cpu, cpu.pc) + cpu.x
    ensures r.cpu.pc == cpu.pc + 1
    ensures r.cpu == cpu.(addrAbs := r.cpu.addrAbs, pc := r.cpu.pc)
    ensures r.extra == 0
  {
    Step(cpu.(addrAbs := ZeroPage(Read(cpu, cpu.pc) + cpu.x), pc := cpu.pc + 1), 0)
  }

  /** ZPY: the operand byte plus Y, wrapping inside page 0. */
  function ZeroPageY(cpu: Cpu): (r: Step)
    ensures r.cpu.addrAbs <= 0x00FF && Page(r.cpu.addrAbs) == 0
    ensures Low(r.cpu.addrAbs) == Read(cpu, cpu.pc) + cpu.y
    ensures r.cpu.pc == cpu.pc + 1
    ensures r.cpu == cpu.(addrAbs := r.cpu.addrAbs, pc := r.cpu.pc)
    ensures r.extra == 0
  {
    Step(cpu.(addrAbs := ((Read(cpu, cpu.pc) + cpu.y) as bv16) & 0x00FF, pc := cpu.pc + 1), 0)
  }

  /** ABS: two operand bytes, low first, form the address. */
  function Absolute(cpu: Cpu): (r: Step)
    ensures Low(r.cpu.addrAbs) == Read(cpu, cpu.pc)
    ensures Page(r.cpu.addrAbs) == Read(cpu, cpu.pc + 1)
    ensures r.cpu.pc == cpu.pc + 2
    ensures r.cpu == cpu.(addrAbs := r.cpu.addrAbs, pc := r.cpu.pc)
    ensures r.extra == 0
  {
    Step(cpu.(addrAbs := Word(Read(cpu, cpu.pc + 1), Read(cpu, cpu.pc)), pc := cpu.pc + 2), 0)
  }

  /**
   * The shared tail of ABX, ABY and IZY: the base address `(hi << 8) | lo`
   * plus an index, pc advanced by the operand length, and the answer 1 exactly
   * when the index moved the address off page hi.
   */
  function Indexed(cpu: Cpu, hi: bv8, lo: bv8, index: bv8, length: bv16): (r: Step)
    ensures r.cpu.addrAbs == Word(hi, lo) + index as bv16
    ensures r.cpu.pc == cpu.pc + length
    ensures r.cpu == cpu.(addrAbs := r.cpu.addrAbs, pc := r.cpu.pc)
    ensures r.extra == (if Page(r.cpu.addrAbs) != hi then 1 else 0)
  {
    var addr := Word(hi, lo) + index as bv16;
    var c := cpu.(addrAbs := addr, pc := cpu.pc + length);
    if PageCrossed(addr, hi) then Step(c, 1) else Step(c, 0)
  }

  /** ABX: absolute plus X; answers 1 exactly when the high byte moved off the operand's page. */
  function AbsoluteX(cpu: Cpu): (r: Step)
    ensures r.cpu.addrAbs == Word(Read(cpu, cpu.pc + 1), Read(cpu, cpu.pc)) + cpu.x as bv16
    ensures r.cpu.pc == cpu.pc + 2
    ensures r.cpu == cpu.(addrAbs := r.cpu.addrAbs, pc := r.cpu.pc)
    ensures r.extra == (if Page(r.cpu.addrAbs) != Read(cpu, cpu.pc + 1) then 1 else 0)
  {
    Indexed(cpu, Read(cpu, cpu.pc + 1), Read(cpu, cpu.pc), cpu.x, 2)
  }

  /** ABY: absolute plus Y; answers 1 exactly when the high byte moved off the operand's page. */
  function AbsoluteY(cpu: Cpu): (r: Step)
    ensures r.cpu.addrAbs == Word(Read(cpu, cpu.pc + 1), Read(cpu, cpu.pc)) + cpu.y as bv16
    ensures r.cpu.pc == cpu.pc + 2
    ensures r.cpu == cpu.(addrAbs := r.cpu.addrAbs, pc := r.cpu.pc)
    ensures r.extra == (if Page(r.cpu.addrAbs) != Read(cpu, cpu.pc + 1) then 1 else 0)
  {
    Indexed(cpu, Read(cpu, cpu.pc + 1), Read(cpu, cpu.pc), cpu.y, 2)
  }

  /**
   * Where IND fetches the high byte of its target: the byte after the
   * pointer, except that the pointer's low byte wraps from 0xFF to 0x00
   * without carrying into its page (`(ptr & 0xFF00)` in the source).
   */
  function PointerHigh(ptrHi: bv8, ptrLo: bv8): (addr: bv16)
    ensures addr == Word(ptrHi, ptrLo + 1)
    ensures Page(addr) == ptrHi
  {
    NextInPage(ptrHi, ptrLo);
    if ptrLo == 0xFF then Word(ptrHi, ptrLo) & 0xFF00 else Word(ptrHi, ptrLo) + 1
  }

  /**
   * IND: the two operand bytes form a pointer; the target is read from the
   * pointer (low byte) and the byte after it (high byte). When the pointer's
   * low byte is 0xFF the high byte comes from the start of the same page, as
   * on the original chip.
   */
  function Indirect(cpu: Cpu): (r: Step)
    ensures var ptrLo := Read(cpu, cpu.pc);
            var ptrHi := Read(cpu, cpu.pc + 1);
            r.cpu.addrAbs == Word(Read(cpu, Word(ptrHi, ptrLo + 1)), Read(cpu, Word(ptrHi, ptrLo)))
    ensures r.cpu.pc == cpu.pc + 2
    ensures r.cpu == cpu.(addrAbs := r.cpu.addrAbs, pc := r.cpu.pc)
    ensures r.extra == 0
  {
    Step(cpu.(addrAbs := Word(Read(cpu, PointerHigh(Read(cpu, cpu.pc + 1), Read(cpu, cpu.pc))),
                              Read(cpu, Word(Read(cpu, cpu.pc + 1), Read(cpu, cpu.pc)))),
              pc := cpu.pc + 2), 0)
  }

  /**
   * The page-wrap quirk of IND: for a pointer ending in 0xFF the high byte
   * of the target comes from the first byte of the pointer's own page, not
   * from the byte after the pointer, which lies on the next page.
   */
  lemma IndirectPageWrap(cpu: Cpu)
    requires Read(cpu, cpu.pc) == 0xFF
    ensures Page(Indirect(cpu).cpu.addrAbs) == Read(cpu, Word(Read(cpu, cpu.pc + 1), 0x00))
    ensures Word(Read(cpu, cpu.pc + 1), 0x00) != Word(Read(cpu, cpu.pc + 1), 0xFF) + 1
  {
  }

  /**
   * IZX: the operand byte plus X selects a pointer in page 0; both pointer
   * bytes wrap inside page 0. The source computes the pointer addresses as
   * `(t + x) & 0x00FF` and `(t + x + 1) & 0x00FF` in 16 bits, which
   * ZeroPageSum shows equal to the 8-bit sums used here.
   */
  function IndirectX(cpu: Cpu): (r: Step)
    ensures var t := Read(cpu, cpu.pc);
            r.cpu.addrAbs == Word(Read(cpu, ZeroPage(t + cpu.x + 1)), Read(cpu, ZeroPage(t + cpu.x)))
    ensures r.cpu.pc == cpu.pc + 1
    ensures r.cpu == cpu.(addrAbs := r.cpu.addrAbs, pc := r.cpu.pc)
    ensures r.extra == 0
  {
    Step(cpu.(addrAbs := Word(Read(cpu, ZeroPage(Read(cpu, cpu.pc) + cpu.x + 1)),
                              Read(cpu, ZeroPage(Read(cpu, cpu.pc) + cpu.x))),
              pc := cpu.pc + 1), 0)
  }

  /**
   * IZY: the operand byte is a pointer in page 0 (its second byte wraps inside
   * page 0); Y is added to the address read there, and the answer is 1
   * exactly when that moved the address off the pointer's high byte. The
   * pointer addresses `t & 0x00FF` and `(t + 1) & 0x00FF` are written as
   * 8-bit sums, as for IZX.
   */
  function IndirectY(cpu: Cpu): (r: Step)
    ensures var t := Read(cpu, cpu.pc);
            var hi := Read(cpu, ZeroPage(t + 1));
            r.cpu.addrAbs == Word(hi, Read(cpu, ZeroPage(t))) + cpu.y as bv16 &&
            r.extra == (if Page(r.cpu.addrAbs) != hi then 1 else 0)
    ensures r.cpu.pc == cpu.pc + 1
    ensures r.cpu == cpu.(addrAbs := r.cpu.addrAbs, pc := r.cpu.pc)
  {
    Indexed(cpu, Read(cpu, ZeroPage(Read(cpu, cpu.pc) + 1)), Read(cpu, ZeroPage(Read(cpu, cpu.pc))), cpu.y, 1)
  }

  /**
   * REL: the operand byte is a signed offset, sign-extended into addrRel:
   * the high byte is 0xFF exactly when bit 7 of the offset is set.
   */
  function Relative(cpu: Cpu): (r: Step)
    ensures var offset := Read(cpu, cpu.pc);
            && Low(r.cpu.addrRel) == offset
            && Page(r.cpu.addrRel) == (if offset >= 0x80 then 0xFF else 0x00)
    ensures r.cpu.pc == cpu.pc + 1
    ensures r.cpu == cpu.(addrRel := r.cpu.addrRel, pc := r.cpu.pc)
    ensures r.extra == 0
  {
    Step(cpu.(addrRel := SignExtend(Read(cpu, cpu.pc) as bv16), pc := cpu.pc + 1), 0)
  }

  /**
   * A branch offset moves a base address by a signed amount: forward by the
   * offset when bit 7 is clear, back by its two's-complement magnitude when
   * it is set.
   */
  lemma SignExtendIsSigned(base: bv16, offset: bv8)
    ensures offset < 0x80 ==> base + SignExtend(offset as bv16) == base + offset as bv16
    ensures offset >= 0x80 ==> base + SignExtend(offset as bv16) == base - (-offset) as bv16
  {
  }

  /** The sign extension of REL: when bit 7 of the widened offset is set, the high byte is filled with ones. */
  function SignExtend(rel: bv16): (w: bv16)
    ensures Low(w) == Low(rel)
    ensures Page(rel) == 0 ==> Page(w) == (if Low(rel) >= 0x80 then 0xFF else 0x00)
  {
    if (rel & 0x80) != 0 then rel | 0xFF00 else rel
  }

  /** ACC: the effective address is pc itself; no operand byte is consumed. */
  function Accumulator(cpu: Cpu): (r: Step)
    ensures r.cpu == cpu.(addrAbs := cpu.pc)
    ensures r.extra == 0
  {
    Step(cpu.(addrAbs := cpu.pc), 0)
  }

  /** Run the addressing mode a table entry names. */
  function Address(mode: Mode, cpu: Cpu): (r: Step)
    ensures r.extra == 0 || r.extra == 1
    ensures r.cpu.a == cpu.a && r.cpu.x == cpu.x && r.cpu.y == cpu.y
    ensures r.cpu.stkp == cpu.stkp && r.cpu.status == cpu.status && r.cpu.bus == cpu.bus
    ensures r.cpu.cycles == cpu.cycles && r.cpu.opcode == cpu.opcode
  {
    match mode
    case IMP => Implied(cpu)
    case IMM => Immediate(cpu)
    case ZP0 => ZeroPage0(cpu)
    case ZPX => ZeroPageX(cpu)
    case ZPY => ZeroPageY(cpu)
    case ABS => Absolute(cpu)
    case ABX => AbsoluteX(cpu)
    case ABY => AbsoluteY(cpu)
    case IND => Indirect(cpu)
    case IZX => IndirectX(cpu)
    case IZY => IndirectY(cpu)
    case REL => Relative(cpu)
    case ACC => Accumulator(cpu)
  }
}
