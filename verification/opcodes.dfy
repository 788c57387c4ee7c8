/** The instruction table: for each opcode byte, its operation, addressing mode and base cycle count. */
module Opcodes {

  /** The addressing modes. ACC is defined but no table entry uses it. */
  datatype Mode = IMP | IMM | ZP0 | ZPX | ZPY | ABS | ABX | ABY | IND | IZX | IZY | REL | ACC

  /** The operations named by the table; XXX marks an illegal opcode. */
  datatype Op
    = ADC | AND | ASL | BCC | BCS | BEQ | BIT | BMI | BNE | BPL
    | BRK | BVC | BVS | CLC | CLD | CLI | CLV | CMP | CPX | CPY
    | DEC | DEX | DEY | EOR | INC | INX | INY | JMP | JSR | LDA
    | LDX | LDY | LSR | NOP | ORA | PHA | PHP | PLA | PLP | ROL
    | ROR | RTI | RTS | SBC | SEC | SED | SEI | STA | STX | STY
    | TAX | TAY | TSX | TXA | TXS | TYA | XXX

  /** One table entry (the display name is not modelled). */
  datatype Instruction = Instruction(op: Op, mode: Mode, cycles: bv8)

  /** The eight conditional branches. */
  predicate IsBranch(op: Op)
  {
    op in {BCC, BCS, BEQ, BMI, BNE, BPL, BVC, BVS}
  }

  /** The operations the emulator gives a body; every other one returns 0 and changes nothing. */
  predicate IsImplemented(op: Op)
  {
    IsBranch(op) || op in {AND, ADC, SBC, CMP, CPX, CPY, CLC, CLD, CLI, CLV, PHA, PLA, RTI}
  }

  /** What every table entry satisfies: 2 to 8 cycles, and relative addressing exactly for the branches. */
  predicate WellFormed(ins: Instruction)
  {
    && 2 <= ins.cycles <= 8
    && (ins.mode == REL <==> IsBranch(ins.op))
  }

  /** The lookup table, indexed by opcode: row opcode >> 4, column opcode & 0x0F. */
  function Lookup(opcode: bv8): (ins: Instruction)
    ensures WellFormed(ins)
  {
    var lo := opcode & 0x0F;
    match opcode >> 4
    case 0x0 => Row0(lo)
    case 0x1 => Row1(lo)
    case 0x2 => Row2(lo)
    case 0x3 => Row3(lo)
    case 0x4 => Row4(lo)
    case 0x5 => Row5(lo)
    case 0x6 => Row6(lo)
    case 0x7 => Row7(lo)
    case 0x8 => Row8(lo)
    case 0x9 => Row9(lo)
    case 0xA => RowA(lo)
    case 0xB => RowB(lo)
    case 0xC => RowC(lo)
    case 0xD => RowD(lo)
    case 0xE => RowE(lo)
    case _ => RowF(lo)
  }

  /** The operations that begin with fetch. */
  predicate Fetches(op: Op)
  {
    op in {AND, ADC, SBC, CMP, CPX, CPY}
  }

  /**
   * Of the entries whose operation begins with fetch, only the unofficial
   * 0xEB (SBC, implied) uses implied mode; since fetch reads memory only in
   * implied mode, every other such entry works on a stale fetched value.
   */
  lemma FetchingEntriesAreNotImplied(opcode: bv8)
    ensures Fetches(Lookup(opcode).op) && Lookup(opcode).mode == IMP <==> opcode == 0xEB
  {
  }

  /** The conditional branches sit exactly at the opcodes xxx10000. */
  lemma BranchOpcodes(opcode: bv8)
    ensures IsBranch(Lookup(opcode).op) <==> opcode & 0x1F == 0x10
  {
  }

  /** Opcodes 0x00 to 0x0F. */
  function Row0(lo: bv8): (ins: Instruction)
    ensures WellFormed(ins)
  {
    match lo
    case 0x0 => Instruction(BRK, IMP, 7)
    case 0x1 => Instruction(ORA, IZX, 6)
    case 0x2 => Instruction(XXX, IMP, 2)
    case 0x3 => Instruction(XXX, IMP, 8)
    case 0x4 => Instruction(NOP, IMP, 3)
    case 0x5 => Instruction(ORA, ZP0, 3)
    case 0x6 => Instruction(ASL, ZP0, 5)
    case 0x7 => Instruction(XXX, IMP, 5)
    case 0x8 => Instruction(PHP, IMP, 3)
    case 0x9 => Instruction(ORA, IMM, 2)
    case 0xA => Instruction(ASL, IMP, 2)
    case 0xB => Instruction(XXX, IMP, 2)
    case 0xC => Instruction(NOP, IMP, 4)
    case 0xD => Instruction(ORA, ABS, 4)
    case 0xE => Instruction(ASL, ABS, 6)
    case _ => Instruction(XXX, IMP, 6)
  }

  /** Opcodes 0x10 to 0x1F. */
  function Row1(lo: bv8): (ins: Instruction)
    ensures WellFormed(ins)
  {
    match lo
    case 0x0 => Instruction(BPL, REL, 2)
    case 0x1 => Instruction(ORA, IZY, 5)
    case 0x2 => Instruction(XXX, IMP, 2)
    case 0x3 => Instruction(XXX, IMP, 8)
    case 0x4 => Instruction(NOP, IMP, 4)
    case 0x5 => Instruction(ORA, ZPX, 4)
    case 0x6 => Instruction(ASL, ZPX, 6)
    case 0x7 => Instruction(XXX, IMP, 6)
    case 0x8 => Instruction(CLC, IMP, 2)
    case 0x9 => Instruction(ORA, ABY, 4)
    case 0xA => Instruction(NOP, IMP, 2)
    case 0xB => Instruction(XXX, IMP, 7)
    case 0xC => Instruction(NOP, IMP, 4)
    case 0xD => Instruction(ORA, ABX, 4)
    case 0xE => Instruction(ASL, ABX, 7)
    case _ => Instruction(XXX, IMP, 7)
  }

  /** Opcodes 0x20 to 0x2F. */
  function Row2(lo: bv8): (ins: Instruction)
    ensures WellFormed(ins)
  {
    match lo
    case 0x0 => Instruction(JSR, ABS, 6)
    case 0x1 => Instruction(AND, IZX, 6)
    case 0x2 => Instruction(XXX, IMP, 2)
    case 0x3 => Instruction(XXX, IMP, 8)
    case 0x4 => Instruction(BIT, ZP0, 3)
    case 0x5 => Instruction(AND, ZP0, 3)
    case 0x6 => Instruction(ROL, ZP0, 5)
    case 0x7 => Instruction(XXX, IMP, 5)
    case 0x8 => Instruction(PLP, IMP, 4)
    case 0x9 => Instruction(AND, IMM, 2)
    case 0xA => Instruction(ROL, IMP, 2)
    case 0xB => Instruction(XXX, IMP, 2)
    case 0xC => Instruction(BIT, ABS, 4)
    case 0xD => Instruction(AND, ABS, 4)
    case 0xE => Instruction(ROL, ABS, 6)
    case _ => Instruction(XXX, IMP, 6)
  }

  /** Opcodes 0x30 to 0x3F. */
  function Row3(lo: bv8): (ins: Instruction)
    ensures WellFormed(ins)
  {
    match lo
    case 0x0 => Instruction(BMI, REL, 2)
    case 0x1 => Instruction(AND, IZY, 5)
    case 0x2 => Instruction(XXX, IMP, 2)
    case 0x3 => Instruction(XXX, IMP, 8)
    case 0x4 => Instruction(NOP, IMP, 4)
    case 0x5 => Instruction(AND, ZPX, 4)
    case 0x6 => Instruction(ROL, ZPX, 6)
    case 0x7 => Instruction(XXX, IMP, 6)
    case 0x8 => Instruction(SEC, IMP, 2)
    case 0x9 => Instruction(AND, ABY, 4)
    case 0xA => Instruction(NOP, IMP, 2)
    case 0xB => Instruction(XXX, IMP, 7)
    case 0xC => Instruction(NOP, IMP, 4)
    case 0xD => Instruction(AND, ABX, 4)
    case 0xE => Instruction(ROL, ABX, 7)
    case _ => Instruction(XXX, IMP, 7)
  }

  /** Opcodes 0x40 to 0x4F. */
  function Row4(lo: bv8): (ins: Instruction)
    ensures WellFormed(ins)
  {
    match lo
    case 0x0 => Instruction(RTI, IMP, 6)
    case 0x1 => Instruction(EOR, IZX, 6)
    case 0x2 => Instruction(XXX, IMP, 2)
    case 0x3 => Instruction(XXX, IMP, 8)
    case 0x4 => Instruction(NOP, IMP, 3)
    case 0x5 => Instruction(EOR, ZP0, 3)
    case 0x6 => Instruction(LSR, ZP0, 5)
    case 0x7 => Instruction(XXX, IMP, 5)
    case 0x8 => Instruction(PHA, IMP, 3)
    case 0x9 => Instruction(EOR, IMM, 2)
    case 0xA => Instruction(LSR, IMP, 2)
    case 0xB => Instruction(XXX, IMP, 2)
    case 0xC => Instruction(JMP, ABS, 3)
    case 0xD => Instruction(EOR, ABS, 4)
    case 0xE => Instruction(LSR, ABS, 6)
    case _ => Instruction(XXX, IMP, 6)
  }

  /** Opcodes 0x50 to 0x5F. */
  function Row5(lo: bv8): (ins: Instruction)
    ensures WellFormed(ins)
  {
    match lo
    case 0x0 => Instruction(BVC, REL, 2)
    case 0x1 => Instruction(EOR, IZY, 5)
    case 0x2 => Instruction(XXX, IMP, 2)
    case 0x3 => Instruction(XXX, IMP, 8)
    case 0x4 => Instruction(NOP, IMP, 4)
    case 0x5 => Instruction(EOR, ZPX, 4)
    case 0x6 => Instruction(LSR, ZPX, 6)
    case 0x7 => Instruction(XXX, IMP, 6)
    case 0x8 => Instruction(CLI, IMP, 2)
    case 0x9 => Instruction(EOR, ABY, 4)
    case 0xA => Instruction(NOP, IMP, 2)
    case 0xB => Instruction(XXX, IMP, 7)
    case 0xC => Instruction(NOP, IMP, 4)
    case 0xD => Instruction(EOR, ABX, 4)
    case 0xE => Instruction(LSR, ABX, 7)
    case _ => Instruction(XXX, IMP, 7)
  }

  /** Opcodes 0x60 to 0x6F. */
  function Row6(lo: bv8): (ins: Instruction)
    ensures WellFormed(ins)
  {
    match lo
    case 0x0 => Instruction(RTS, IMP, 6)
    case 0x1 => Instruction(ADC, IZX, 6)
    case 0x2 => Instruction(XXX, IMP, 2)
    case 0x3 => Instruction(XXX, IMP, 8)
    case 0x4 => Instruction(NOP, IMP, 3)
    case 0x5 => Instruction(ADC, ZP0, 3)
    case 0x6 => Instruction(ROR, ZP0, 5)
    case 0x7 => Instruction(XXX, IMP, 5)
    case 0x8 => Instruction(PLA, IMP, 4)
    case 0x9 => Instruction(ADC, IMM, 2)
    case 0xA => Instruction(ROR, IMP, 2)
    case 0xB => Instruction(XXX, IMP, 2)
    case 0xC => Instruction(JMP, IND, 5)
    case 0xD => Instruction(ADC, ABS, 4)
    case 0xE => Instruction(ROR, ABS, 6)
    case _ => Instruction(XXX, IMP, 6)
  }

  /** Opcodes 0x70 to 0x7F. */
  function Row7(lo: bv8): (ins: Instruction)
    ensures WellFormed(ins)
  {
    match lo
    case 0x0 => Instruction(BVS, REL, 2)
    case 0x1 => Instruction(ADC, IZY, 5)
    case 0x2 => Instruction(XXX, IMP, 2)
    case 0x3 => Instruction(XXX, IMP, 8)
    case 0x4 => Instruction(NOP, IMP, 4)
    case 0x5 => Instruction(ADC, ZPX, 4)
    case 0x6 => Instruction(ROR, ZPX, 6)
    case 0x7 => Instruction(XXX, IMP, 6)
    case 0x8 => Instruction(SEI, IMP, 2)
    case 0x9 => Instruction(ADC, ABY, 4)
    case 0xA => Instruction(NOP, IMP, 2)
    case 0xB => Instruction(XXX, IMP, 7)
    case 0xC => Instruction(NOP, IMP, 4)
    case 0xD => Instruction(ADC, ABX, 4)
    case 0xE => Instruction(ROR, ABX, 7)
    case _ => Instruction(XXX, IMP, 7)
  }

  /** Opcodes 0x80 to 0x8F. */
  function Row8(lo: bv8): (ins: Instruction)
    ensures WellFormed(ins)
  {
    match lo
    case 0x0 => Instruction(NOP, IMP, 2)
    case 0x1 => Instruction(STA, IZX, 6)
    case 0x2 => Instruction(NOP, IMP, 2)
    case 0x3 => Instruction(XXX, IMP, 6)
    case 0x4 => Instruction(STY, ZP0, 3)
    case 0x5 => Instruction(STA, ZP0, 3)
    case 0x6 => Instruction(STX, ZP0, 3)
    case 0x7 => Instruction(XXX, IMP, 3)
    case 0x8 => Instruction(DEY, IMP, 2)
    case 0x9 => Instruction(NOP, IMP, 2)
    case 0xA => Instruction(TXA, IMP, 2)
    case 0xB => Instruction(XXX, IMP, 2)
    case 0xC => Instruction(STY, ABS, 4)
    case 0xD => Instruction(STA, ABS, 4)
    case 0xE => Instruction(STX, ABS, 4)
    case _ => Instruction(XXX, IMP, 4)
  }

  /** Opcodes 0x90 to 0x9F. */
  function Row9(lo: bv8): (ins: Instruction)
    ensures WellFormed(ins)
  {
    match lo
    case 0x0 => Instruction(BCC, REL, 2)
    case 0x1 => Instruction(STA, IZY, 6)
    case 0x2 => Instruction(XXX, IMP, 2)
    case 0x3 => Instruction(XXX, IMP, 6)
    case 0x4 => Instruction(STY, ZPX, 4)
    case 0x5 => Instruction(STA, ZPX, 4)
    case 0x6 => Instruction(STX, ZPY, 4)
    case 0x7 => Instruction(XXX, IMP, 4)
    case 0x8 => Instruction(TYA, IMP, 2)
    case 0x9 => Instruction(STA, ABY, 5)
    case 0xA => Instruction(TXS, IMP, 2)
    case 0xB => Instruction(XXX, IMP, 5)
    case 0xC => Instruction(NOP, IMP, 5)
    case 0xD => Instruction(STA, ABX, 5)
    case 0xE => Instruction(XXX, IMP, 5)
    case _ => Instruction(XXX, IMP, 5)
  }

  /** Opcodes 0xA0 to 0xAF. */
  function RowA(lo: bv8): (ins: Instruction)
    ensures WellFormed(ins)
  {
    match lo
    case 0x0 => Instruction(LDY, IMM, 2)
    case 0x1 => Instruction(LDA, IZX, 6)
    case 0x2 => Instruction(LDX, IMM, 2)
    case 0x3 => Instruction(XXX, IMP, 6)
    case 0x4 => Instruction(LDY, ZP0, 3)
    case 0x5 => Instruction(LDA, ZP0, 3)
    case 0x6 => Instruction(LDX, ZP0, 3)
    case 0x7 => Instruction(XXX, IMP, 3)
    case 0x8 => Instruction(TAY, IMP, 2)
    case 0x9 => Instruction(LDA, IMM, 2)
    case 0xA => Instruction(TAX, IMP, 2)
    case 0xB => Instruction(XXX, IMP, 2)
    case 0xC => Instruction(LDY, ABS, 4)
    case 0xD => Instruction(LDA, ABS, 4)
    case 0xE => Instruction(LDX, ABS, 4)
    case _ => Instruction(XXX, IMP, 4)
  }

  /** Opcodes 0xB0 to 0xBF. */
  function RowB(lo: bv8): (ins: Instruction)
    ensures WellFormed(ins)
  {
    match lo
    case 0x0 => Instruction(BCS, REL, 2)
    case 0x1 => Instruction(LDA, IZY, 5)
    case 0x2 => Instruction(XXX, IMP, 2)
    case 0x3 => Instruction(XXX, IMP, 5)
    case 0x4 => Instruction(LDY, ZPX, 4)
    case 0x5 => Instruction(LDA, ZPX, 4)
    case 0x6 => Instruction(LDX, ZPY, 4)
    case 0x7 => Instruction(XXX, IMP, 4)
    case 0x8 => Instruction(CLV, IMP, 2)
    case 0x9 => Instruction(LDA, ABY, 4)
    case 0xA => Instruction(TSX, IMP, 2)
    case 0xB => Instruction(XXX, IMP, 4)
    case 0xC => Instruction(LDY, ABX, 4)
    case 0xD => Instruction(LDA, ABX, 4)
    case 0xE => Instruction(LDX, ABY, 4)
    case _ => Instruction(XXX, IMP, 4)
  }

  /** Opcodes 0xC0 to 0xCF. */
  function RowC(lo: bv8): (ins: Instruction)
    ensures WellFormed(ins)
  {
    match lo
    case 0x0 => Instruction(CPY, IMM, 2)
    case 0x1 => Instruction(CMP, IZX, 6)
    case 0x2 => Instruction(NOP, IMP, 2)
    case 0x3 => Instruction(XXX, IMP, 8)
    case 0x4 => Instruction(CPY, ZP0, 3)
    case 0x5 => Instruction(CMP, ZP0, 3)
    case 0x6 => Instruction(DEC, ZP0, 5)
    case 0x7 => Instruction(XXX, IMP, 5)
    case 0x8 => Instruction(INY, IMP, 2)
    case 0x9 => Instruction(CMP, IMM, 2)
    case 0xA => Instruction(DEX, IMP, 2)
    case 0xB => Instruction(XXX, IMP, 2)
    case 0xC => Instruction(CPY, ABS, 4)
    case 0xD => Instruction(CMP, ABS, 4)
    case 0xE => Instruction(DEC, ABS, 6)
    case _ => Instruction(XXX, IMP, 6)
  }

  /** Opcodes 0xD0 to 0xDF. */
  function RowD(lo: bv8): (ins: Instruction)
    ensures WellFormed(ins)
  {
    match lo
    case 0x0 => Instruction(BNE, REL, 2)
    case 0x1 => Instruction(CMP, IZY, 5)
    case 0x2 => Instruction(XXX, IMP, 2)
    case 0x3 => Instruction(XXX, IMP, 8)
    case 0x4 => Instruction(NOP, IMP, 4)
    case 0x5 => Instruction(CMP, ZPX, 4)
    case 0x6 => Instruction(DEC, ZPX, 6)
    case 0x7 => Instruction(XXX, IMP, 6)
    case 0x8 => Instruction(CLD, IMP, 2)
    case 0x9 => Instruction(CMP, ABY, 4)
    case 0xA => Instruction(NOP, IMP, 2)
    case 0xB => Instruction(XXX, IMP, 7)
    case 0xC => Instruction(NOP, IMP, 4)
    case 0xD => Instruction(CMP, ABX, 4)
    case 0xE => Instruction(DEC, ABX, 7)
    case _ => Instruction(XXX, IMP, 7)
  }

  /** Opcodes 0xE0 to 0xEF. */
  function RowE(lo: bv8): (ins: Instruction)
    ensures WellFormed(ins)
  {
    match lo
    case 0x0 => Instruction(CPX, IMM, 2)
    case 0x1 => Instruction(SBC, IZX, 6)
    case 0x2 => Instruction(NOP, IMP, 2)
    case 0x3 => Instruction(XXX, IMP, 8)
    case 0x4 => Instruction(CPX, ZP0, 3)
    case 0x5 => Instruction(SBC, ZP0, 3)
    case 0x6 => Instruction(INC, ZP0, 5)
    case 0x7 => Instruction(XXX, IMP, 5)
    case 0x8 => Instruction(INX, IMP, 2)
    case 0x9 => Instruction(SBC, IMM, 2)
    case 0xA => Instruction(NOP, IMP, 2)
    case 0xB => Instruction(SBC, IMP, 2)
    case 0xC => Instruction(CPX, ABS, 4)
    case 0xD => Instruction(SBC, ABS, 4)
    case 0xE => Instruction(INC, ABS, 6)
    case _ => Instruction(XXX, IMP, 6)
  }

  /** Opcodes 0xF0 to 0xFF. */
  function RowF(lo: bv8): (ins: Instruction)
    ensures WellFormed(ins)
  {
    match lo
    case 0x0 => Instruction(BEQ, REL, 2)
    case 0x1 => Instruction(SBC, IZY, 5)
    case 0x2 => Instruction(XXX, IMP, 2)
    case 0x3 => Instruction(XXX, IMP, 8)
    case 0x4 => Instruction(NOP, IMP, 4)
    case 0x5 => Instruction(SBC, ZPX, 4)
    case 0x6 => Instruction(INC, ZPX, 6)
    case 0x7 => Instruction(XXX, IMP, 6)
    case 0x8 => Instruction(SED, IMP, 2)
    case 0x9 => Instruction(SBC, ABY, 4)
    case 0xA => Instruction(NOP, IMP, 2)
    case 0xB => Instruction(XXX, IMP, 7)
    case 0xC => Instruction(NOP, IMP, 4)
    case 0xD => Instruction(SBC, ABX, 4)
    case 0xE => Instruction(INC, ABX, 7)
    case _ => Instruction(XXX, IMP, 7)
  }
}
