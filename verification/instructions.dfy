/**
 * The operations the emulator implements: AND, the eight conditional
 * branches, the flag clears, the three compares, ADC and SBC, and the stack
 * operations PHA, PLA and RTI. Each takes the CPU state after its addressing
 * mode ran and answers the state after the operation, together with the
 * operation's "may need an extra cycle" answer.
 *
 * AND, the compares, ADC and SBC begin with fetch; here they are written as
 * functions of the state fetch leaves (their operand is its fetched field),
 * and Operate composes them with Fetch.
 */
module Instructions {
  import opened Flags
  import opened Cpu6502
  import opened Opcodes

  /** A flag is set when getFlag answers nonzero. */
  predicate IsSet(status: bv8, f: Flag)
  {
    Flags.GetFlag(status, f) != 0
  }

  /**
   * fetch, as written: memory is read into fetched only when the current
   * opcode's addressing mode IS implied; in every other mode fetched keeps the
   * value it had. (On the 6502 emulator design this code follows, fetch
   * reads when the mode is NOT implied.)
   * The mode is that of the current opcode's table entry.
   */
  function Fetch(cpu: Cpu): (c: Cpu)
    ensures c == cpu.(fetched := c.fetched)
    ensures Lookup(cpu.opcode).mode != IMP ==> c.fetched == cpu.fetched
    ensures Lookup(cpu.opcode).mode == IMP ==> c.fetched == Read(cpu, cpu.addrAbs)
  {
    if Lookup(cpu.opcode).mode == IMP then cpu.(fetched := Read(cpu, cpu.addrAbs)) else cpu
  }

  /** The Z and N updates that follow a load or logic result: Z iff the value is 0, N iff its bit 7 is set. */
  function SetZN(status: bv8, v: bv8): (s: bv8)
    ensures IsSet(s, Z) <==> v == 0
    ensures IsSet(s, N) <==> v >= 0x80
    ensures forall g: Flag :: g != Z && g != N ==> Flags.GetFlag(s, g) == Flags.GetFlag(status, g)
  {
    Flags.SetFlag(Flags.SetFlag(status, Z, v == 0x00), N, (v & 0x80) != 0)
  }

  // ---------------------------------------------------------------- AND

  /** AND (after fetch): A becomes A & operand; Z and N follow it; answers 1. */
  function And(c: Cpu): (r: Step)
    ensures r.cpu.a == c.a & c.fetched
    ensures IsSet(r.cpu.status, Z) <==> r.cpu.a == 0
    ensures IsSet(r.cpu.status, N) <==> r.cpu.a >= 0x80
    ensures forall g: Flag :: g != Z && g != N ==> Flags.GetFlag(r.cpu.status, g) == Flags.GetFlag(c.status, g)
    ensures r.cpu == c.(a := r.cpu.a, status := r.cpu.status)
    ensures r.extra == 1
  {
    Step(c.(a := c.a & c.fetched, status := SetZN(c.status, c.a & c.fetched)), 1)
  }

  /** The bits AND keeps are exactly those set in both the accumulator and the operand. */
  lemma {:induction false} AndKeepsCommonBits(c: Cpu, k: nat)
    requires k < 8
    ensures BitSet(And(c).cpu.a, k) <==> BitSet(c.a, k) && BitSet(c.fetched, k)
  {
    assert And(c).cpu.a == c.a & c.fetched;
    assert ((c.a & c.fetched) >> k) & 1 == ((c.a >> k) & 1) & ((c.fetched >> k) & 1);
  }

  // ----------------------------------------------------------- branches

  /**
   * What a conditional branch does: when not taken, nothing; when taken, pc
   * moves by the (sign-extended) addrRel, addrAbs holds the target, and the
   * instruction costs one more cycle, or two when the target lies on another
   * page than the old pc. The answer is always 0.
   */
  ghost predicate Branched(cpu: Cpu, r: Step, taken: bool)
  {
    && r.extra == 0
    && (!taken ==> r.cpu == cpu)
    && (taken ==> r.cpu == cpu.(addrAbs := cpu.pc + cpu.addrRel,
                                pc := cpu.pc + cpu.addrRel,
                                cycles := cpu.cycles + (if Page(cpu.pc + cpu.addrRel) != Page(cpu.pc) then 2 else 1)))
  }

  /** The taken half of a branch: one more cycle, target address, page-cross penalty, jump. */
  function Jump(cpu: Cpu): (c: Cpu)
  {
    cpu.(cycles := if OnDifferentPages(cpu.pc + cpu.addrRel, cpu.pc) then cpu.cycles + 1 + 1 else cpu.cycles + 1,
         addrAbs := cpu.pc + cpu.addrRel,
         pc := cpu.pc + cpu.addrRel)
  }

  /** The body every branch shares, with its condition already evaluated. */
  function Branch(cpu: Cpu, cond: bool): (r: Step)
    ensures Branched(cpu, r, cond)
  {
    if cond then Step(Jump(cpu), 0) else Step(cpu, 0)
  }

  /** BCS: `getFlag(C) == 1` holds exactly when carry is set, because C is bit 0. */
  function Bcs(cpu: Cpu): (r: Step)
    ensures Branched(cpu, r, IsSet(cpu.status, C))
  {
    GetFlagIsOne(cpu.status, C);
    GetFlagReadsBit(cpu.status, C);
    Branch(cpu, Flags.GetFlag(cpu.status, C) == 1)
  }

  /** BCC: taken exactly when carry is clear. */
  function Bcc(cpu: Cpu): (r: Step)
    ensures Branched(cpu, r, !IsSet(cpu.status, C))
  {
    Branch(cpu, Flags.GetFlag(cpu.status, C) == 0)
  }

  /**
   * BEQ as written tests `getFlag(Z) == 1`; getFlag(Z) is 0 or 2, so the
   * branch is never taken, whatever Z holds.
   */
  function Beq(cpu: Cpu): (r: Step)
    ensures Branched(cpu, r, false)
  {
    GetFlagIsOne(cpu.status, Z);
    Branch(cpu, Flags.GetFlag(cpu.status, Z) == 1)
  }

  /** BMI as written tests `getFlag(N) == 1`; getFlag(N) is 0 or 0x80, so it is never taken. */
  function Bmi(cpu: Cpu): (r: Step)
    ensures Branched(cpu, r, false)
  {
    GetFlagIsOne(cpu.status, N);
    Branch(cpu, Flags.GetFlag(cpu.status, N) == 1)
  }

  /** BNE: taken exactly when Z is clear. */
  function Bne(cpu: Cpu): (r: Step)
    ensures Branched(cpu, r, !IsSet(cpu.status, Z))
  {
    Branch(cpu, Flags.GetFlag(cpu.status, Z) == 0)
  }

  /** BPL: taken exactly when N is clear. */
  function Bpl(cpu: Cpu): (r: Step)
    ensures Branched(cpu, r, !IsSet(cpu.status, N))
  {
    Branch(cpu, Flags.GetFlag(cpu.status, N) == 0)
  }

  /** BVC: taken exactly when V is clear. */
  function Bvc(cpu: Cpu): (r: Step)
    ensures Branched(cpu, r, !IsSet(cpu.status, V))
  {
    Branch(cpu, Flags.GetFlag(cpu.status, V) == 0)
  }

  /** BVS as written tests `getFlag(V) == 1`; getFlag(V) is 0 or 0x40, so it is never taken. */
  function Bvs(cpu: Cpu): (r: Step)
    ensures Branched(cpu, r, false)
  {
    GetFlagIsOne(cpu.status, V);
    Branch(cpu, Flags.GetFlag(cpu.status, V) == 1)
  }

  /** A taken branch costs one or two extra cycles: never none, never more than two. */
  lemma BranchCost(cpu: Cpu)
    ensures var c := Branch(cpu, true).cpu;
            c.cycles == cpu.cycles + 1 || c.cycles == cpu.cycles + 2
    ensures var c := Branch(cpu, true).cpu;
            c.cycles == cpu.cycles + 2 <==> Page(c.pc) != Page(cpu.pc)
  {
  }

  // ------------------------------------------------------- flag clears

  /** The common shape of CLC, CLD, CLI and CLV: clear one flag, answer 0. */
  function Clear(cpu: Cpu, f: Flag): (r: Step)
    ensures !IsSet(r.cpu.status, f)
    ensures forall g: Flag :: g != f ==> Flags.GetFlag(r.cpu.status, g) == Flags.GetFlag(cpu.status, g)
    ensures r.cpu == cpu.(status := r.cpu.status)
    ensures r.extra == 0
  {
    Step(Cpu6502.SetFlag(cpu, f, false), 0)
  }

  /** CLC: clear carry. */
  function Clc(cpu: Cpu): (r: Step)
    ensures !IsSet(r.cpu.status, C)
    ensures forall g: Flag :: g != C ==> Flags.GetFlag(r.cpu.status, g) == Flags.GetFlag(cpu.status, g)
    ensures r.cpu == cpu.(status := r.cpu.status) && r.extra == 0
  {
    Clear(cpu, C)
  }

  /** CLD: clear decimal mode. */
  function Cld(cpu: Cpu): (r: Step)
    ensures !IsSet(r.cpu.status, D)
    ensures forall g: Flag :: g != D ==> Flags.GetFlag(r.cpu.status, g) == Flags.GetFlag(cpu.status, g)
    ensures r.cpu == cpu.(status := r.cpu.status) && r.extra == 0
  {
    Clear(cpu, D)
  }

  /** CLI: clear interrupt disable. */
  function Cli(cpu: Cpu): (r: Step)
    ensures !IsSet(r.cpu.status, I)
    ensures forall g: Flag :: g != I ==> Flags.GetFlag(r.cpu.status, g) == Flags.GetFlag(cpu.status, g)
    ensures r.cpu == cpu.(status := r.cpu.status) && r.extra == 0
  {
    Clear(cpu, I)
  }

  /** CLV: clear overflow. */
  function Clv(cpu: Cpu): (r: Step)
    ensures !IsSet(r.cpu.status, V)
    ensures forall g: Flag :: g != V ==> Flags.GetFlag(r.cpu.status, g) == Flags.GetFlag(cpu.status, g)
    ensures r.cpu == cpu.(status := r.cpu.status) && r.extra == 0
  {
    Clear(cpu, V)
  }

  /** Clearing a flag twice is clearing it once; and clearing a clear flag changes nothing. */
  lemma {:induction false} ClearIdempotent(cpu: Cpu, f: Flag)
    ensures Clear(Clear(cpu, f).cpu, f) == Clear(cpu, f)
    ensures !IsSet(cpu.status, f) ==> Clear(cpu, f).cpu == cpu
  {
    SetFlagLastWins(cpu.status, f, false, false);
    if !IsSet(cpu.status, f) {
      SetFlagToCurrentValue(cpu.status, f);
    }
  }

  // ------------------------------------------------------------ compares

  /** The 16-bit wrapping difference the compares compute; its low byte is the 8-bit difference. */
  function Difference(reg: bv8, m: bv8): (t: bv16)
    ensures Low(t) == reg - m
  {
    (reg as bv16) - (m as bv16)
  }

  /**
   * The flags a compare leaves: C iff reg >= m (unsigned), Z iff they are
   * equal, N iff bit 7 of the wrapped difference is set; no other flag moves.
   */
  function CompareFlags(status: bv8, reg: bv8, m: bv8): (s: bv8)
    ensures IsSet(s, C) <==> reg >= m
    ensures IsSet(s, Z) <==> reg == m
    ensures IsSet(s, N) <==> reg - m >= 0x80
    ensures forall g: Flag :: g != C && g != Z && g != N ==> Flags.GetFlag(s, g) == Flags.GetFlag(status, g)
  {
    Flags.SetFlag(
      Flags.SetFlag(
        Flags.SetFlag(status, C, reg >= m),
        Z, (Difference(reg, m) & 0x00FF) == 0),
      N, (Difference(reg, m) & 0x0080) != 0)
  }

  /** After a compare, carry without zero means greater, and no carry means less. */
  lemma {:induction false} CompareOrders(status: bv8, reg: bv8, m: bv8)
    ensures var s := CompareFlags(status, reg, m);
            (IsSet(s, C) && !IsSet(s, Z) <==> reg > m) && (!IsSet(s, C) <==> reg < m)
  {
    var s := CompareFlags(status, reg, m);
    assert IsSet(s, C) <==> reg >= m;
    assert IsSet(s, Z) <==> reg == m;
  }

  /** CMP (after fetch): compare A with the operand; only the flags change; answers 1. */
  function Cmp(c: Cpu): (r: Step)
    ensures IsSet(r.cpu.status, C) <==> c.a >= c.fetched
    ensures IsSet(r.cpu.status, Z) <==> c.a == c.fetched
    ensures IsSet(r.cpu.status, N) <==> c.a - c.fetched >= 0x80
    ensures forall g: Flag :: g != C && g != Z && g != N ==> Flags.GetFlag(r.cpu.status, g) == Flags.GetFlag(c.status, g)
    ensures r.cpu == c.(status := CompareFlags(c.status, c.a, c.fetched))
    ensures r.extra == 1
  {
    Step(c.(status := CompareFlags(c.status, c.a, c.fetched)), 1)
  }

  /** CPX (after fetch): compare X with the operand; only the flags change; answers 0. */
  function Cpx(c: Cpu): (r: Step)
    ensures IsSet(r.cpu.status, C) <==> c.x >= c.fetched
    ensures IsSet(r.cpu.status, Z) <==> c.x == c.fetched
    ensures IsSet(r.cpu.status, N) <==> c.x - c.fetched >= 0x80
    ensures forall g: Flag :: g != C && g != Z && g != N ==> Flags.GetFlag(r.cpu.status, g) == Flags.GetFlag(c.status, g)
    ensures r.cpu == c.(status := CompareFlags(c.status, c.x, c.fetched))
    ensures r.extra == 0
  {
    Step(c.(status := CompareFlags(c.status, c.x, c.fetched)), 0)
  }

  /** CPY (after fetch): compare Y with the operand; only the flags change; answers 0. */
  function Cpy(c: Cpu): (r: Step)
    ensures IsSet(r.cpu.status, C) <==> c.y >= c.fetched
    ensures IsSet(r.cpu.status, Z) <==> c.y == c.fetched
    ensures IsSet(r.cpu.status, N) <==> c.y - c.fetched >= 0x80
    ensures forall g: Flag :: g != C && g != Z && g != N ==> Flags.GetFlag(r.cpu.status, g) == Flags.GetFlag(c.status, g)
    ensures r.cpu == c.(status := CompareFlags(c.status, c.y, c.fetched))
    ensures r.extra == 0
  {
    Step(c.(status := CompareFlags(c.status, c.y, c.fetched)), 0)
  }

  // ------------------------------------------------------ ADC and SBC

  /** The carry flag as the 0 or 1 the additions use (`getFlag(C) as u16`). */
  function CarryIn(status: bv8): (c: bv8)
    ensures c == 0 || c == 1
    ensures c == 1 <==> IsSet(status, C)
  {
    Flags.GetFlag(status, C)
  }

  /** The 16-bit sum a + m + carry; its low byte is the wrapped 8-bit sum. */
  function Sum(a: bv8, m: bv8, c: bv8): (t: bv16)
    ensures Low(t) == a + m + c
  {
    (a as bv16) + (m as bv16) + (c as bv16)
  }

  /** The 9-bit view of an addition: carry out and low byte together are the full sum. */
  lemma NineBitSum(a: bv8, m: bv8, c: bv8)
    requires c <= 1
    ensures Word(if Sum(a, m, c) > 255 then 1 else 0, a + m + c) == Sum(a, m, c)
  {
  }

  /** Two's-complement overflow by definition: both operands share a sign and the result does not. */
  predicate SignedOverflow(a: bv8, m: bv8, result: bv8)
  {
    (a >= 0x80) == (m >= 0x80) && (result >= 0x80) != (a >= 0x80)
  }

  /** The overflow test SBC uses, `((t ^ a) & (t ^ m) & 0x80) != 0`: the result's sign differs from both operands'. */
  predicate Overflow(a: bv8, m: bv8, temp: bv16)
  {
    (((temp ^ (a as bv16)) & (temp ^ (m as bv16))) & 0x0080) != 0
  }

  /** The xor test is exactly signed overflow. */
  lemma OverflowIsSignedOverflow(a: bv8, m: bv8, c: bv8)
    ensures Overflow(a, m, Sum(a, m, c)) <==> SignedOverflow(a, m, a + m + c)
  {
  }

  /** ADC's V test as written: the operands' signs DIFFER and the result's sign differs from A's. */
  predicate OverflowAsWritten(a: bv8, m: bv8, temp: bv16)
  {
    ((a ^ m) & 0x80) != 0 && (((a as bv16) ^ temp) & 0x80) != 0
  }

  /** The flags an addition leaves, set in ADC's order: C from the ninth bit, Z and N from the low byte, V as given. */
  function AddFlags(status: bv8, temp: bv16, v: bool): (s: bv8)
    ensures IsSet(s, C) <==> temp > 255
    ensures IsSet(s, Z) <==> Low(temp) == 0
    ensures IsSet(s, N) <==> Low(temp) >= 0x80
    ensures IsSet(s, V) <==> v
    ensures forall g: Flag :: g != C && g != Z && g != N && g != V ==> Flags.GetFlag(s, g) == Flags.GetFlag(status, g)
  {
    Flags.SetFlag(SetZN(Flags.SetFlag(status, C, temp > 255), Low(temp)), V, v)
  }

  /**
   * Binary add with carry of m into A, with the overflow test corrected: A
   * becomes A + m + carry (mod 256), carry out and A together are the 9-bit
   * sum, Z and N follow A, V is signed overflow. Answers 1.
   */
  function AddWithCarry(c: Cpu, m: bv8): (r: Step)
    ensures r.cpu.a == c.a + m + CarryIn(c.status)
    ensures IsSet(r.cpu.status, C) <==> Sum(c.a, m, CarryIn(c.status)) > 255
    ensures Word(if IsSet(r.cpu.status, C) then 1 else 0, r.cpu.a) == Sum(c.a, m, CarryIn(c.status))
    ensures IsSet(r.cpu.status, Z) <==> r.cpu.a == 0
    ensures IsSet(r.cpu.status, N) <==> r.cpu.a >= 0x80
    ensures IsSet(r.cpu.status, V) <==> SignedOverflow(c.a, m, r.cpu.a)
    ensures forall g: Flag :: g != C && g != Z && g != N && g != V ==> Flags.GetFlag(r.cpu.status, g) == Flags.GetFlag(c.status, g)
    ensures r.cpu == c.(a := r.cpu.a, status := r.cpu.status)
    ensures r.extra == 1
  {
    OverflowIsSignedOverflow(c.a, m, CarryIn(c.status));
    NineBitSum(c.a, m, CarryIn(c.status));
    Step(c.(a := Low(Sum(c.a, m, CarryIn(c.status))),
            status := AddFlags(c.status, Sum(c.a, m, CarryIn(c.status)),
                               Overflow(c.a, m, Sum(c.a, m, CarryIn(c.status))))), 1)
  }

  /**
   * ADC (after fetch) exactly as written. A, C, Z and N are those of
   * AddWithCarry; V is set when the operands' signs differ and the result's
   * sign differs from A's.
   */
  function AdcAsWritten(c: Cpu): (r: Step)
    ensures r.cpu.a == c.a + c.fetched + CarryIn(c.status)
    ensures IsSet(r.cpu.status, C) <==> Sum(c.a, c.fetched, CarryIn(c.status)) > 255
    ensures IsSet(r.cpu.status, Z) <==> r.cpu.a == 0
    ensures IsSet(r.cpu.status, N) <==> r.cpu.a >= 0x80
    ensures IsSet(r.cpu.status, V) <==> (c.a >= 0x80) != (c.fetched >= 0x80) && (r.cpu.a >= 0x80) != (c.a >= 0x80)
    ensures forall g: Flag :: g != C && g != Z && g != N && g != V ==> Flags.GetFlag(r.cpu.status, g) == Flags.GetFlag(c.status, g)
    ensures r.cpu == c.(a := r.cpu.a, status := r.cpu.status)
    ensures r.extra == 1
  {
    Step(c.(a := Low(Sum(c.a, c.fetched, CarryIn(c.status))),
            status := AddFlags(c.status, Sum(c.a, c.fetched, CarryIn(c.status)),
                               OverflowAsWritten(c.a, c.fetched, Sum(c.a, c.fetched, CarryIn(c.status))))), 1)
  }

  /** Whenever the as-written ADC sets V there was no signed overflow. */
  lemma AdcAsWrittenMissesOverflow(c: Cpu)
    ensures IsSet(AdcAsWritten(c).cpu.status, V) ==> !SignedOverflow(c.a, c.fetched, AdcAsWritten(c).cpu.a)
  {
  }

  /**
   * The counterexample: 0x00 + 0x80 (0 + -128) with carry clear is -128, in
   * range, yet the as-written ADC sets V; 0x80 + 0x80 (-128 + -128)
   * overflows, yet it leaves V clear. The corrected ADC gets both right.
   */
  lemma AdcAsWrittenWrongOverflow(c: Cpu)
    requires c.fetched == 0x80 && !IsSet(c.status, C)
    ensures c.a == 0x00 ==> IsSet(AdcAsWritten(c).cpu.status, V) && !IsSet(Adc(c).cpu.status, V)
    ensures c.a == 0x80 ==> !IsSet(AdcAsWritten(c).cpu.status, V) && IsSet(Adc(c).cpu.status, V)
  {
  }

  /** ADC (after fetch), with the overflow test corrected: AddWithCarry of the operand. */
  function Adc(c: Cpu): (r: Step)
    ensures IsSet(r.cpu.status, V) <==> SignedOverflow(c.a, c.fetched, r.cpu.a)
    ensures r.extra == 1
  {
    AddWithCarry(c, c.fetched)
  }

  /** The flags SBC leaves, in its order C, Z, V, N. */
  function SubFlags(status: bv8, temp: bv16, v: bool): (s: bv8)
  {
    Flags.SetFlag(
      Flags.SetFlag(
        Flags.SetFlag(
          Flags.SetFlag(status, C, temp > 0xFF),
          Z, (temp & 0x00FF) == 0),
        V, v),
      N, (temp & 0x80) != 0)
  }

  /** Setting distinct flags commutes: SBC's order gives the same status byte as ADC's. */
  lemma {:induction false} SubFlagsAreAddFlags(status: bv8, temp: bv16, v: bool)
    ensures SubFlags(status, temp, v) == AddFlags(status, temp, v)
  {
    var s := SubFlags(status, temp, v);
    var t := AddFlags(status, temp, v);
    forall g: Flag
      ensures Flags.GetFlag(s, g) == Flags.GetFlag(t, g)
    {
    }
    FlagsDetermineStatus(s, t);
  }

  /**
   * SBC (after fetch) as written: `value = fetched ^ 0x00FF` (the widened
   * ones' complement of the operand), an add with carry, and the overflow
   * test `(t ^ a) & (t ^ value) & 0x80`. It is exactly ADC of the complement.
   */
  function Sbc(c: Cpu): (r: Step)
    ensures r == AddWithCarry(c, c.fetched ^ 0xFF)
  {
    SubFlagsAreAddFlags(c.status, Sum(c.a, c.fetched ^ 0xFF, CarryIn(c.status)),
                        Overflow(c.a, c.fetched ^ 0xFF, Sum(c.a, c.fetched ^ 0xFF, CarryIn(c.status))));
    Step(c.(a := Low(Sum(c.a, c.fetched ^ 0xFF, CarryIn(c.status))),
            status := SubFlags(c.status, Sum(c.a, c.fetched ^ 0xFF, CarryIn(c.status)),
                               Overflow(c.a, c.fetched ^ 0xFF, Sum(c.a, c.fetched ^ 0xFF, CarryIn(c.status))))), 1)
  }

  /**
   * Adding the ones' complement with carry is subtracting with borrow: the
   * low byte is a - m - (1 - carry in), and the carry out is set exactly when
   * no borrow occurred (a >= m, or a > m when the carry in is clear).
   */
  lemma SubtractByComplement(a: bv8, m: bv8, cin: bv8)
    requires cin <= 1
    ensures Low(Sum(a, m ^ 0xFF, cin)) == a - m - (1 - cin)
    ensures Sum(a, m ^ 0xFF, cin) > 255 <==> (if cin == 1 then a >= m else a > m)
  {
  }

  /**
   * A compare leaves C, Z and N exactly as a subtraction with the carry set
   * (reg + !m + 1) would: CMP is SBC without storing the result.
   */
  lemma {:induction false} CompareIsSubtraction(status: bv8, reg: bv8, m: bv8, v: bool)
    ensures var s := CompareFlags(status, reg, m);
            var t := AddFlags(status, Sum(reg, m ^ 0xFF, 1), v);
            (IsSet(s, C) <==> IsSet(t, C)) && (IsSet(s, Z) <==> IsSet(t, Z)) && (IsSet(s, N) <==> IsSet(t, N))
  {
    SubtractByComplement(reg, m, 1);
  }

  // ------------------------------------------------------------- stack

  /** PHA: store A at the stack pointer's address in page 1, then move the stack pointer down. */
  function Pha(cpu: Cpu): (r: Step)
    ensures Read(r.cpu, StackAddr(cpu.stkp)) == cpu.a
    ensures forall other: bv16 :: other != StackAddr(cpu.stkp) ==> Read(r.cpu, other) == Read(cpu, other)
    ensures r.cpu.stkp == cpu.stkp - 1
    ensures r.cpu == cpu.(bus := r.cpu.bus, stkp := r.cpu.stkp)
    ensures r.extra == 0
  {
    Step(PushByte(cpu, cpu.a), 0)
  }

  /** PLA: move the stack pointer up, load A from its address in page 1; Z and N follow A. */
  function Pla(cpu: Cpu): (r: Step)
    ensures r.cpu.stkp == cpu.stkp + 1
    ensures r.cpu.a == Read(cpu, StackAddr(cpu.stkp + 1))
    ensures IsSet(r.cpu.status, Z) <==> r.cpu.a == 0
    ensures IsSet(r.cpu.status, N) <==> r.cpu.a >= 0x80
    ensures forall g: Flag :: g != Z && g != N ==> Flags.GetFlag(r.cpu.status, g) == Flags.GetFlag(cpu.status, g)
    ensures r.cpu == cpu.(a := r.cpu.a, stkp := r.cpu.stkp, status := r.cpu.status)
    ensures r.extra == 0
  {
    Step(cpu.(stkp := cpu.stkp + 1,
              a := Read(cpu, StackAddr(cpu.stkp + 1)),
              status := SetZN(cpu.status, Read(cpu, StackAddr(cpu.stkp + 1)))), 0)
  }

  /** PLA on a stack whose top byte, just above the stack pointer, is v: A becomes v and the pointer moves past it. */
  lemma {:induction false} PlaPulls(q: Cpu, s: bv8, v: bv8)
    requires q.stkp == s - 1 && Read(q, StackAddr(s)) == v
    ensures Pla(q).cpu.a == v && Pla(q).cpu.stkp == s
  {
    assert q.stkp + 1 == s;
  }

  /**
   * PHA then PLA is a round trip: the stack pointer and A come back, Z and N
   * now describe A, the other flags and registers are untouched, and memory
   * is what PHA left.
   */
  lemma {:induction false} PhaThenPla(cpu: Cpu)
    ensures var p := Pla(Pha(cpu).cpu).cpu;
            && p.stkp == cpu.stkp
            && p.a == cpu.a
            && (IsSet(p.status, Z) <==> cpu.a == 0)
            && (IsSet(p.status, N) <==> cpu.a >= 0x80)
            && p.x == cpu.x && p.y == cpu.y && p.pc == cpu.pc
            && p.bus == Pha(cpu).cpu.bus
  {
    PlaPulls(Pha(cpu).cpu, cpu.stkp, cpu.a);
  }

  /**
   * RTI: pull the status (with B and U cleared), then the low and the high
   * byte of pc, from the three stack slots above the stack pointer.
   */
  function Rti(cpu: Cpu): (r: Step)
    ensures !IsSet(r.cpu.status, B) && !IsSet(r.cpu.status, U)
    ensures forall g: Flag :: g != B && g != U ==>
              Flags.GetFlag(r.cpu.status, g) == Flags.GetFlag(Read(cpu, StackAddr(cpu.stkp + 1)), g)
    ensures Low(r.cpu.pc) == Read(cpu, StackAddr(cpu.stkp + 2))
    ensures Page(r.cpu.pc) == Read(cpu, StackAddr(cpu.stkp + 3))
    ensures r.cpu.stkp == cpu.stkp + 3
    ensures r.cpu == cpu.(status := r.cpu.status, pc := r.cpu.pc, stkp := r.cpu.stkp)
    ensures r.extra == 0
  {
    Step(cpu.(status := (Read(cpu, StackAddr(cpu.stkp + 1)) & !Mask(B)) & !Mask(U),
              pc := Word(Read(cpu, StackAddr(cpu.stkp + 3)), Read(cpu, StackAddr(cpu.stkp + 2))),
              stkp := cpu.stkp + 3), 0)
  }

  // --------------------------------------------------------- dispatch

  /**
   * Run the current opcode's operation on the state its addressing mode
   * left; the operation is the one the table lists for the opcode.
   * Operations that begin with fetch get the fetched state; every operation
   * without a body in the emulator answers 0 and changes nothing. ADC runs
   * the corrected Adc.
   */
  function Operate(cpu: Cpu): (r: Step)
    ensures r.extra == 0 || r.extra == 1
    ensures !IsImplemented(Lookup(cpu.opcode).op) ==> r.cpu == cpu && r.extra == 0
  {
    match Lookup(cpu.opcode).op
    case AND => And(Fetch(cpu))
    case BCS => Bcs(cpu)
    case BCC => Bcc(cpu)
    case BEQ => Beq(cpu)
    case BMI => Bmi(cpu)
    case BNE => Bne(cpu)
    case BPL => Bpl(cpu)
    case BVC => Bvc(cpu)
    case BVS => Bvs(cpu)
    case CLC => Clc(cpu)
    case CLD => Cld(cpu)
    case CLI => Cli(cpu)
    case CLV => Clv(cpu)
    case CMP => Cmp(Fetch(cpu))
    case CPX => Cpx(Fetch(cpu))
    case CPY => Cpy(Fetch(cpu))
    case ADC => Adc(Fetch(cpu))
    case SBC => Sbc(Fetch(cpu))
    case PHA => Pha(cpu)
    case PLA => Pla(cpu)
    case RTI => Rti(cpu)
    case _ => Step(cpu, 0)
  }

  /**
   * Where dispatch departs from the emulator: on an ADC opcode, Operate and
   * the as-written ADC agree on A, the cycle answer, every register and
   * every flag but overflow, and Operate's overflow is signed overflow.
   */
  lemma {:induction false} OperateAdcAgainstAsWritten(cpu: Cpu)
    requires Lookup(cpu.opcode).op == ADC
    ensures var r := Operate(cpu); var w := AdcAsWritten(Fetch(cpu));
            && r.cpu == w.cpu.(status := r.cpu.status) && r.extra == w.extra
            && (forall g: Flag :: g != V ==> Flags.GetFlag(r.cpu.status, g) == Flags.GetFlag(w.cpu.status, g))
            && (IsSet(r.cpu.status, V) <==> SignedOverflow(Fetch(cpu).a, Fetch(cpu).fetched, r.cpu.a))
  {
    var c := Fetch(cpu);
    var r := Adc(c);
    var w := AdcAsWritten(c);
    assert Operate(cpu) == r;
    forall g: Flag | g != V
      ensures Flags.GetFlag(r.cpu.status, g) == Flags.GetFlag(w.cpu.status, g)
    {
      if g == C {
        assert IsSet(r.cpu.status, C) == IsSet(w.cpu.status, C);
      }
    }
  }
}
