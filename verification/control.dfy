/**
 * The CPU's external controls: the per-tick clock, reset, and the two
 * interrupt requests.
 */
module Control {
  import opened Flags
  import opened Cpu6502
  import opened Opcodes
  import opened Instructions

  /**
   * clock: when no cycles remain, read the next opcode at pc, advance pc and
   * load the opcode's base cycle count from the table; then count one cycle
   * down. As written, clock binds the entry's addressing mode and operation
   * but never calls them, so no instruction takes effect.
   */
  function Clock(cpu: Cpu): (r: Cpu)
    ensures cpu.cycles == 0 ==>
              && r.opcode == Read(cpu, cpu.pc)
              && r.pc == cpu.pc + 1
              && r.cycles == Lookup(r.opcode).cycles - 1
              && 1 <= r.cycles <= 7
              && r == cpu.(opcode := r.opcode, pc := r.pc, cycles := r.cycles)
    ensures cpu.cycles != 0 ==> r == cpu.(cycles := cpu.cycles - 1)
  {
    if cpu.cycles == 0 then
      StartInstruction(cpu.(opcode := Read(cpu, cpu.pc), pc := cpu.pc + 1))
    else
      cpu.(cycles := cpu.cycles - 1)
  }

  /** The opcode has been read: load its cycle count and spend the first of them. */
  function StartInstruction(c: Cpu): (r: Cpu)
    ensures r.cycles == Lookup(c.opcode).cycles - 1
    ensures 1 <= r.cycles <= 7
    ensures r == c.(cycles := r.cycles)
  {
    c.(cycles := Lookup(c.opcode).cycles - 1)
  }

  /** n clock ticks in a row. */
  function Ticks(cpu: Cpu, n: bv8): (r: Cpu)
    decreases n
  {
    if n == 0 then cpu else Ticks(Clock(cpu), n - 1)
  }

  /** While cycles remain, each tick only counts one down: ticking until the counter runs out changes nothing else. */
  lemma {:induction false} RunOut(cpu: Cpu)
    ensures Ticks(cpu, cpu.cycles) == cpu.(cycles := 0)
    decreases cpu.cycles
  {
    if cpu.cycles != 0 {
      var c := Clock(cpu);
      assert Ticks(cpu, cpu.cycles) == Ticks(c, c.cycles);
      RunOut(c);
    }
  }

  /**
   * An instruction occupies exactly its table cycle count: starting with no
   * cycles left, that many ticks read the opcode, advance pc past it, and
   * end with no cycles left again.
   */
  lemma {:induction false} InstructionTakesTableCycles(cpu: Cpu)
    requires cpu.cycles == 0
    ensures Ticks(cpu, Lookup(Read(cpu, cpu.pc)).cycles)
            == cpu.(opcode := Read(cpu, cpu.pc), pc := cpu.pc + 1, cycles := 0)
  {
    var n := Lookup(Read(cpu, cpu.pc)).cycles;
    var c := Clock(cpu);
    assert Ticks(cpu, n) == Ticks(c, n - 1);
    RunOut(c);
  }

  /** Load pc from the little-endian vector stored at `vector` and `vector + 1`, leaving the vector address in addrAbs. */
  function JumpVia(c: Cpu, vector: bv16): (r: Cpu)
    ensures Low(r.pc) == Read(c, vector) && Page(r.pc) == Read(c, vector + 1)
    ensures r == c.(addrAbs := vector, pc := r.pc)
  {
    c.(addrAbs := vector, pc := Word(Read(c, vector + 1), Read(c, vector)))
  }

  /**
   * reset: clear a, x and y, put the stack pointer at 0xFD, leave only the
   * unused flag set, load pc from the reset vector at 0xFFFC/0xFFFD, clear
   * the address latches and fetched, and charge 8 cycles.
   */
  function Reset(cpu: Cpu): (r: Cpu)
    ensures r.a == 0 && r.x == 0 && r.y == 0 && r.stkp == 0xFD
    ensures forall f: Flag :: IsSet(r.status, f) <==> f == U
    ensures Low(r.pc) == Read(cpu, 0xFFFC) && Page(r.pc) == Read(cpu, 0xFFFD)
    ensures r.addrAbs == 0 && r.addrRel == 0 && r.fetched == 0 && r.cycles == 8
    ensures r.opcode == cpu.opcode && r.bus == cpu.bus
  {
    Cpu(0, 0, 0, 0xFD, Word(Read(cpu, 0xFFFD), Read(cpu, 0xFFFC)), 0x00 | Mask(U), 0, 0, 0, cpu.opcode, 8, cpu.bus)
  }

  /** reset touches no memory, so a second reset lands in the same state as the first. */
  lemma ResetIdempotent(cpu: Cpu)
    ensures Reset(Reset(cpu)) == Reset(cpu)
  {
  }

  /** Push the return address: its high byte first, then its low byte. */
  function PushPc(cpu: Cpu): (c: Cpu)
    ensures Read(c, StackAddr(cpu.stkp)) == Page(cpu.pc)
    ensures Read(c, StackAddr(cpu.stkp - 1)) == Low(cpu.pc)
    ensures forall other: bv16 :: other != StackAddr(cpu.stkp) && other != StackAddr(cpu.stkp - 1) ==>
              Read(c, other) == Read(cpu, other)
    ensures c.stkp == cpu.stkp - 2
    ensures c == cpu.(bus := c.bus, stkp := c.stkp)
  {
    PushByte(PushByte(cpu, Page(cpu.pc)), Low(cpu.pc))
  }

  /** The status an interrupt runs with: break clear, unused and interrupt-disable set, every other flag kept. */
  function InterruptStatus(status: bv8): (s: bv8)
    ensures !IsSet(s, B) && IsSet(s, U) && IsSet(s, I)
    ensures forall g: Flag :: g != B && g != U && g != I ==> Flags.GetFlag(s, g) == Flags.GetFlag(status, g)
  {
    Flags.SetFlag(Flags.SetFlag(Flags.SetFlag(status, B, false), U, true), I, true)
  }

  /** Switch the status to the interrupt status and push it. */
  function PushStatus(c: Cpu): (r: Cpu)
    ensures r.status == InterruptStatus(c.status)
    ensures Read(r, StackAddr(c.stkp)) == r.status
    ensures forall other: bv16 :: other != StackAddr(c.stkp) ==> Read(r, other) == Read(c, other)
    ensures r.stkp == c.stkp - 1
    ensures r == c.(status := r.status, bus := r.bus, stkp := r.stkp)
  {
    PushByte(c.(status := InterruptStatus(c.status)), InterruptStatus(c.status))
  }

  /**
   * What the interrupt sequence through `vector` leaves: the return address
   * (high byte first) and then the interrupt status pushed in the three
   * slots below the old stack pointer, the pointer three lower, pc loaded
   * from the vector, addrAbs left at the vector, the given cycle count; every
   * other memory byte, register and latch as it was.
   */
  ghost predicate Interrupted(cpu: Cpu, r: Cpu, vector: bv16, cycles: bv8)
  {
    && Read(r, StackAddr(cpu.stkp)) == Page(cpu.pc)
    && Read(r, StackAddr(cpu.stkp - 1)) == Low(cpu.pc)
    && Read(r, StackAddr(cpu.stkp - 2)) == r.status
    && (forall other: bv16 :: other != StackAddr(cpu.stkp) && other != StackAddr(cpu.stkp - 1) && other != StackAddr(cpu.stkp - 2) ==>
          Read(r, other) == Read(cpu, other))
    && r.status == InterruptStatus(cpu.status)
    && r.stkp == cpu.stkp - 3
    && Low(r.pc) == Read(cpu, vector) && Page(r.pc) == Read(cpu, vector + 1)
    && r.addrAbs == vector && r.cycles == cycles
    && r == cpu.(bus := r.bus, stkp := r.stkp, status := r.status, pc := r.pc, addrAbs := r.addrAbs, cycles := r.cycles)
  }

  /** The interrupt sequence's stores: the return address and the interrupt status in the three slots, and no other byte. */
  lemma {:induction false} InterruptStores(cpu: Cpu, vector: bv16, cycles: bv8)
    ensures var r := JumpVia(PushStatus(PushPc(cpu)), vector).(cycles := cycles);
            && Read(r, StackAddr(cpu.stkp)) == Page(cpu.pc)
            && Read(r, StackAddr(cpu.stkp - 1)) == Low(cpu.pc)
            && Read(r, StackAddr(cpu.stkp - 2)) == r.status
            && forall other: bv16 :: other != StackAddr(cpu.stkp) && other != StackAddr(cpu.stkp - 1) && other != StackAddr(cpu.stkp - 2) ==>
                 Read(r, other) == Read(cpu, other)
  {
    var p := PushPc(cpu);
    var q := PushStatus(p);
    assert JumpVia(q, vector).(cycles := cycles).bus == q.bus;
    assert StackAddr(p.stkp) == StackAddr(cpu.stkp - 2);
  }

  /** The interrupt sequence's register effects: the interrupt status, the pointer three lower, pc from the vector, and nothing else. */
  lemma {:induction false} InterruptRegisters(cpu: Cpu, vector: bv16, cycles: bv8)
    requires Page(vector) == 0xFF
    ensures var r := JumpVia(PushStatus(PushPc(cpu)), vector).(cycles := cycles);
            && r.status == InterruptStatus(cpu.status)
            && r.stkp == cpu.stkp - 3
            && Low(r.pc) == Read(cpu, vector) && Page(r.pc) == Read(cpu, vector + 1)
            && r.addrAbs == vector && r.cycles == cycles
            && r == cpu.(bus := r.bus, stkp := r.stkp, status := r.status, pc := r.pc, addrAbs := r.addrAbs, cycles := r.cycles)
  {
    var q := PushStatus(PushPc(cpu));
    assert Read(q, vector) == Read(cpu, vector) && Read(q, vector + 1) == Read(cpu, vector + 1);
  }

  /**
   * The interrupt sequence nmi follows: push pc (high byte first), switch to
   * the interrupt status and push it, then jump through the vector and charge
   * the given number of cycles.
   */
  function Interrupt(cpu: Cpu, vector: bv16, cycles: bv8): (r: Cpu)
    requires Page(vector) == 0xFF
    ensures Interrupted(cpu, r, vector, cycles)
  {
    InterruptStores(cpu, vector, cycles);
    InterruptRegisters(cpu, vector, cycles);
    JumpVia(PushStatus(PushPc(cpu)), vector).(cycles := cycles)
  }

  /**
   * nmi: the interrupt sequence through the vector at 0xFFFA/0xFFFB, taking 8
   * cycles, whatever the interrupt-disable flag. Afterwards interrupts are
   * disabled and every flag but break, unused and interrupt-disable is kept.
   */
  function Nmi(cpu: Cpu): (r: Cpu)
    ensures Interrupted(cpu, r, 0xFFFA, 8)
    ensures IsSet(r.status, I) && IsSet(r.status, U) && !IsSet(r.status, B)
    ensures forall g: Flag :: g != B && g != U && g != I ==> Flags.GetFlag(r.status, g) == Flags.GetFlag(cpu.status, g)
  {
    Interrupt(cpu, 0xFFFA, 8)
  }

  /**
   * RTI on a stack holding, from the top down, a status byte and a return
   * address (low byte above high byte): it returns to that address, with
   * the pointer back above the three bytes, and takes every flag but break
   * and unused from the status byte.
   */
  lemma {:induction false} RtiPulls(c: Cpu, s: bv8, pc: bv16, status: bv8)
    requires c.stkp == s - 3
    requires Read(c, StackAddr(s)) == Page(pc) && Read(c, StackAddr(s - 1)) == Low(pc)
    requires Read(c, StackAddr(s - 2)) == status
    ensures Rti(c).cpu.pc == pc && Rti(c).cpu.stkp == s
    ensures forall g: Flag :: g != B && g != U ==> Flags.GetFlag(Rti(c).cpu.status, g) == Flags.GetFlag(status, g)
  {
    assert c.stkp + 1 == s - 2 && c.stkp + 2 == s - 1 && c.stkp + 3 == s;
    WordOfBytes(pc);
  }

  /** RTI undoes an interrupt sequence's pushes: it returns to the interrupted pc with the stack pointer where it was. */
  lemma {:induction false} InterruptThenRti(cpu: Cpu, vector: bv16, cycles: bv8)
    requires Page(vector) == 0xFF
    ensures Rti(Interrupt(cpu, vector, cycles)).cpu.pc == cpu.pc
    ensures Rti(Interrupt(cpu, vector, cycles)).cpu.stkp == cpu.stkp
  {
    RtiPulls(Interrupt(cpu, vector, cycles), cpu.stkp, cpu.pc, InterruptStatus(cpu.status));
  }

  /** RTI after an interrupt sequence pulls back the status the interrupt ran with, apart from break and unused. */
  lemma {:induction false} InterruptThenRtiFlags(cpu: Cpu, vector: bv16, cycles: bv8)
    requires Page(vector) == 0xFF
    ensures forall g: Flag :: g != B && g != U ==>
              Flags.GetFlag(Rti(Interrupt(cpu, vector, cycles)).cpu.status, g) == Flags.GetFlag(InterruptStatus(cpu.status), g)
  {
    RtiPulls(Interrupt(cpu, vector, cycles), cpu.stkp, cpu.pc, InterruptStatus(cpu.status));
  }

  /** A status that agrees with the interrupt status of s outside break and unused has interrupts disabled and every other flag of s. */
  lemma StatusAfterInterrupt(r: bv8, s: bv8)
    requires forall g: Flag :: g != B && g != U ==> Flags.GetFlag(r, g) == Flags.GetFlag(InterruptStatus(s), g)
    ensures IsSet(r, I)
    ensures forall g: Flag :: g != B && g != U && g != I ==> Flags.GetFlag(r, g) == Flags.GetFlag(s, g)
  {
    assert Flags.GetFlag(r, I) == Flags.GetFlag(InterruptStatus(s), I);
  }

  /** After an nmi, RTI resumes at the interrupted pc with the stack balanced. */
  lemma NmiThenRti(cpu: Cpu)
    ensures Rti(Nmi(cpu)).cpu.pc == cpu.pc
    ensures Rti(Nmi(cpu)).cpu.stkp == cpu.stkp
    ensures IsSet(Rti(Nmi(cpu)).cpu.status, I)
    ensures forall g: Flag :: g != B && g != U && g != I ==>
              Flags.GetFlag(Rti(Nmi(cpu)).cpu.status, g) == Flags.GetFlag(cpu.status, g)
  {
    InterruptThenRti(cpu, 0xFFFA, 8);
    InterruptThenRtiFlags(cpu, 0xFFFA, 8);
    StatusAfterInterrupt(Rti(Nmi(cpu)).cpu.status, cpu.status);
  }

  /**
   * irq as written: when interrupts are enabled, push pc (high byte first),
   * jump through the vector at 0xFFFE/0xFFFF and charge 7 cycles. Unlike nmi
   * it neither pushes the status nor sets the interrupt-disable flag. With
   * interrupts disabled nothing changes.
   */
  function IrqAsWritten(cpu: Cpu): (r: Cpu)
    ensures IsSet(cpu.status, I) ==> r == cpu
    ensures !IsSet(cpu.status, I) ==>
              && Read(r, StackAddr(cpu.stkp)) == Page(cpu.pc)
              && Read(r, StackAddr(cpu.stkp - 1)) == Low(cpu.pc)
              && r.stkp == cpu.stkp - 2
              && Low(r.pc) == Read(cpu, 0xFFFE) && Page(r.pc) == Read(cpu, 0xFFFF)
              && (forall other: bv16 :: other != StackAddr(cpu.stkp) && other != StackAddr(cpu.stkp - 1) ==>
                    Read(r, other) == Read(cpu, other))
              && r.status == cpu.status && r.addrAbs == 0xFFFE && r.cycles == 7
              && r == cpu.(bus := r.bus, stkp := r.stkp, pc := r.pc, addrAbs := r.addrAbs, cycles := r.cycles)
  {
    if Flags.GetFlag(cpu.status, I) == 0 then JumpVia(PushPc(cpu), 0xFFFE).(cycles := 7) else cpu
  }

  /**
   * What RTI finds after the irq as written: it pulls the pushed low byte of
   * pc as the status and the pushed high byte as the new low byte of pc, and
   * leaves the stack pointer one above where it started.
   */
  lemma {:induction false} IrqAsWrittenThenRti(cpu: Cpu)
    requires !IsSet(cpu.status, I)
    ensures Low(Rti(IrqAsWritten(cpu)).cpu.pc) == Page(cpu.pc)
    ensures Page(Rti(IrqAsWritten(cpu)).cpu.pc) == Read(cpu, StackAddr(cpu.stkp + 1))
    ensures Rti(IrqAsWritten(cpu)).cpu.stkp == cpu.stkp + 1
  {
    var c := IrqAsWritten(cpu);
    var s := cpu.stkp;
    assert Read(c, StackAddr(s + 1)) == Read(cpu, StackAddr(s + 1));
    RtiPulls(c, s + 1, Word(Read(c, StackAddr(s + 1)), Page(cpu.pc)), Low(cpu.pc));
  }

  /** A concrete case: an irq taken at 0x1234 with interrupts enabled does not return to 0x1234. */
  lemma IrqAsWrittenLosesReturnAddress(cpu: Cpu)
    requires cpu.pc == 0x1234 && !IsSet(cpu.status, I)
    ensures Rti(IrqAsWritten(cpu)).cpu.pc != cpu.pc
  {
    IrqAsWrittenThenRti(cpu);
  }

  /**
   * irq as the 6502 and nmi do it: when interrupts are enabled, the full
   * interrupt sequence through 0xFFFE/0xFFFF in 7 cycles, after which
   * interrupts are disabled and every flag but break, unused and
   * interrupt-disable is kept; with interrupts disabled nothing changes.
   */
  function Irq(cpu: Cpu): (r: Cpu)
    ensures IsSet(cpu.status, I) ==> r == cpu
    ensures !IsSet(cpu.status, I) ==> Interrupted(cpu, r, 0xFFFE, 7)
    ensures !IsSet(cpu.status, I) ==>
              && IsSet(r.status, I) && IsSet(r.status, U) && !IsSet(r.status, B)
              && forall g: Flag :: g != B && g != U && g != I ==> Flags.GetFlag(r.status, g) == Flags.GetFlag(cpu.status, g)
  {
    if Flags.GetFlag(cpu.status, I) == 0 then Interrupt(cpu, 0xFFFE, 7) else cpu
  }

  /** After an irq taken with interrupts enabled, RTI resumes at the interrupted pc with the stack and flags restored. */
  lemma IrqThenRti(cpu: Cpu)
    requires !IsSet(cpu.status, I)
    ensures Rti(Irq(cpu)).cpu.pc == cpu.pc
    ensures Rti(Irq(cpu)).cpu.stkp == cpu.stkp
    ensures IsSet(Rti(Irq(cpu)).cpu.status, I)
    ensures forall g: Flag :: g != B && g != U && g != I ==>
              Flags.GetFlag(Rti(Irq(cpu)).cpu.status, g) == Flags.GetFlag(cpu.status, g)
  {
    InterruptThenRti(cpu, 0xFFFE, 7);
    InterruptThenRtiFlags(cpu, 0xFFFE, 7);
    StatusAfterInterrupt(Rti(Irq(cpu)).cpu.status, cpu.status);
  }
}
