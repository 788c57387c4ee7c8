# A verified model of a partial MOS 6502 emulator

This project models the core of a small MOS 6502 CPU emulator written in
Rust. The core covers:

- the status register and its eight flags;
- the flat 64 KiB RAM bus;
- the 6502 addressing modes, including the zero-page wrap, the page-cross
  cycle of indexed modes, the page-wrap quirk of indirect JMP and the sign
  extension of branch offsets;
- the instructions the emulator implements: AND, the eight conditional
  branches, CLC/CLD/CLI/CLV, CMP/CPX/CPY, ADC, SBC, PHA, PLA and RTI;
- the 256-entry opcode table;
- the per-tick `clock` countdown, `reset`, `irq` and `nmi`;
- the earlier `Olc6502` skeleton, which holds the same flag word.

Registers are `bv8`/`bv16`, so every `+=`/`-=` on `pc`, `stkp`, `cycles` and
the branch target wraps in two's complement. The REL sign extension relies
on that wrapping. Rust panics on integer overflow in a debug build, and the
model wraps at each of these sites instead:

- ZPX's and ZPY's u8 sums of the operand byte and X or Y (src/cpu6502.rs:132
  and 140), for example operand 0xF0 with Y = 0x20;
- the u16 `addr_abs +=` of the index in ABX, ABY and IZY (src/cpu6502.rs:172,
  191, 248). For example, ABX with hi:lo = 0xFFFF and X = 1 gives addrAbs
  0x0000 with a page-cross answer of 1.

The RAM is a total function from 16-bit addresses to bytes. Every operation
is a pure function from one CPU state to the next. Each addressing mode and
each instruction returns a `Step` that also carries the "may need an extra
cycle" byte. The clock, reset and the interrupts return the CPU state alone.

Modules:

| file | module | what it holds |
|---|---|---|
| flags.dfy | Flags | flag masks, getFlag and setFlag on a status byte |
| bus.dfy | Bus | the RAM, read and write |
| cpu.dfy | Cpu6502 | the CPU state, memory access through the bus, byte and word helpers, stack push |
| opcodes.dfy | Opcodes | the opcode table as opcode → (operation, mode, cycles) |
| addressing.dfy | Addressing | the addressing modes |
| instructions.dfy | Instructions | fetch and the implemented operations |
| control.dfy | Control | clock, reset, irq, nmi |
| olc.dfy | Olc | the Olc6502 skeleton |

Lines that do not compile are modelled by their evident intent:

- ZPX (src/cpu6502.rs:134) uses an undefined `base`. The model reads the
  operand byte, adds X with 8-bit wrapping, and widens the result.
- CMP, CPX, CPY and ADC store into a field `self.temp` that does not exist
  (src/cpu6502.rs:436, 448, 460, 472). The model uses a local value.
- ADC's `self.a ^ self.temp` mixes u8 and u16 (src/cpu6502.rs:476). The
  model widens A first.
- IZY ends one branch with a bare `return` (src/cpu6502.rs:253). The model
  answers 0 there.
- `0x100 + self.stkp` mixes u16 and u8 (src/cpu6502.rs:510, 519 and 619). The
  model widens the stack pointer.
- Several stored bytes are u16 expressions: the high byte of pc in irq and
  nmi (src/cpu6502.rs:619, 634) and the low byte in nmi
  (src/cpu6502.rs:636). The model truncates each to its low 8 bits.
- `fetch` compares function pointers (src/cpu6502.rs:287). The model
  compares the entry's mode with `IMP`.

Two quirks are modelled as written:

- `fetch` reads memory only when the mode IS implied. `Fetch` takes the
  mode from the table entry of the current opcode, as the source does.
- BEQ, BMI and BVS test `getFlag(..) == 1`. `getFlag` returns the masked
  bit, so those three branches are never taken.

## Model

| member | source | states |
|---|---|---|
| Flags.MaskIsSingleBit | src/cpu6502.rs:6-15 | each flag's value is the single bit `1 << n` at its position |
| Flags.GetFlag | src/cpu6502.rs:64-66 | getFlag answers either 0 or exactly the flag's bit value |
| Flags.GetFlagReadsBit | src/cpu6502.rs:64-66 | getFlag is nonzero exactly when the flag's bit, read by shifting, is 1 |
| Flags.SetFlag | src/cpu6502.rs:67-73 | afterwards the flag reads as the value given (its bit or 0); every other flag reads as before |
| Flags.SetFlagSetsExactlyBit | src/cpu6502.rs:67-73 | in bit positions: bit f becomes value and every other flag's bit is kept |
| Flags.FlagsDetermineStatus | src/cpu6502.rs:6-15 | the eight flags cover the byte: status bytes that agree on every flag are equal |
| Flags.SetFlagLastWins | src/cpu6502.rs:67-73 | of two setFlag calls on the same flag only the later one counts |
| Flags.SetFlagToCurrentValue | src/cpu6502.rs:67-73 | setting a flag to the value it already has changes nothing |
| Flags.GetFlagIsOne | src/cpu6502.rs:64-66 | `getFlag(f) == 1` holds only for the carry flag, and then exactly when carry is set |
| Bus.New | src/bus.rs:11-16 | every address of a new bus reads 0 |
| Bus.Read | src/bus.rs:28-34 | read answers the byte stored at the address |
| Bus.Write | src/bus.rs:19-25 | after a write the address reads back the data, and every other address reads as before |
| Bus.EveryAddressInRange | src/bus.rs:20 | every 16-bit address passes the range guard, so the out-of-range branches are dead |
| Bus.ReadAfterWrite | src/bus.rs:19-34 | a read returns what the last write to that address stored, for either read_only value |
| Bus.WriteFrame | src/bus.rs:19-25 | a write leaves every other address unchanged |
| Bus.ReadOnlyIgnored | src/bus.rs:28-34 | the read_only argument does not change the byte returned |
| Bus.WriteOverwrites | src/bus.rs:19-25 | of two writes to one address only the later is visible anywhere |
| Cpu6502.New | src/cpu6502.rs:42-58 | a new CPU has every register, latch and counter at zero |
| Cpu6502.Read | src/cpu6502.rs:74-81 | a CPU read answers the byte the bus holds at addr (read_only false), the same byte a read_only read gives |
| Cpu6502.Write | src/cpu6502.rs:83-89 | a CPU write stores the byte at the address, keeps all other bytes, and changes no register |
| Cpu6502.SetFlag | src/cpu6502.rs:67-73 | on the CPU, setFlag changes only the status, only in the chosen flag |
| Cpu6502.Word | src/cpu6502.rs:157 | `(hi << 8) \| lo` has page hi and low byte lo |
| Cpu6502.WordOfBytes | src/cpu6502.rs:157 | splitting a word into its bytes and joining them gives the word back |
| Cpu6502.PageCrossed | src/cpu6502.rs:174 | the mask test `(addr & 0xFF00) != (hi << 8)` holds exactly when the address's page is not hi |
| Cpu6502.OnDifferentPages | src/cpu6502.rs:309 | the branch test holds exactly when the two addresses lie on different pages |
| Cpu6502.NextInPage | src/cpu6502.rs:215-218 | pointer + 1 stays in the page unless the low byte is 0xFF; `ptr & 0xFF00` is then where the low byte wraps to |
| Cpu6502.ZeroPage | src/cpu6502.rs:120-122 | a widened byte lies in page 0 with that byte as its low half |
| Cpu6502.ZeroPageSum | src/cpu6502.rs:229-230 | a 16-bit sum masked with 0x00FF equals the 8-bit wrapping sum in page 0 |
| Cpu6502.StackAddr | src/cpu6502.rs:510 | `0x0100 + stkp` lies in page 1 with stkp as its low byte |
| Cpu6502.PushByte | src/cpu6502.rs:509-513 | a push stores the byte at the stack address, keeps all other memory, lowers stkp by one, and changes nothing else |
| Opcodes.Lookup | src/cpu6502.rs:662-952 | every table entry takes 2 to 8 cycles and uses relative addressing exactly when it is a branch |
| Opcodes.Row0 | src/cpu6502.rs:664-680 | entries 0x00-0x0F are well formed |
| Opcodes.Row1 | src/cpu6502.rs:682-698 | entries 0x10-0x1F are well formed |
| Opcodes.Row2 | src/cpu6502.rs:700-716 | entries 0x20-0x2F are well formed |
| Opcodes.Row3 | src/cpu6502.rs:718-734 | entries 0x30-0x3F are well formed |
| Opcodes.Row4 | src/cpu6502.rs:736-752 | entries 0x40-0x4F are well formed |
| Opcodes.Row5 | src/cpu6502.rs:754-770 | entries 0x50-0x5F are well formed |
| Opcodes.Row6 | src/cpu6502.rs:772-788 | entries 0x60-0x6F are well formed |
| Opcodes.Row7 | src/cpu6502.rs:790-806 | entries 0x70-0x7F are well formed |
| Opcodes.Row8 | src/cpu6502.rs:808-824 | entries 0x80-0x8F are well formed |
| Opcodes.Row9 | src/cpu6502.rs:826-842 | entries 0x90-0x9F are well formed |
| Opcodes.RowA | src/cpu6502.rs:844-860 | entries 0xA0-0xAF are well formed |
| Opcodes.RowB | src/cpu6502.rs:862-878 | entries 0xB0-0xBF are well formed |
| Opcodes.RowC | src/cpu6502.rs:880-896 | entries 0xC0-0xCF are well formed |
| Opcodes.RowD | src/cpu6502.rs:898-914 | entries 0xD0-0xDF are well formed |
| Opcodes.RowE | src/cpu6502.rs:916-932 | entries 0xE0-0xEF are well formed |
| Opcodes.RowF | src/cpu6502.rs:934-950 | entries 0xF0-0xFF are well formed |
| Opcodes.FetchingEntriesAreNotImplied | src/cpu6502.rs:928 | among the operations that fetch, only entry 0xEB (SBC) uses implied mode, the one mode in which fetch reads |
| Opcodes.BranchOpcodes | src/cpu6502.rs:662-952 | an entry is a branch exactly when its opcode has the form xxx10000 |
| Addressing.Implied | src/cpu6502.rs:99-102 | IMP copies A into fetched and changes nothing else; answers 0 |
| Addressing.Immediate | src/cpu6502.rs:108-112 | IMM points addrAbs at the operand byte and advances pc by 1 |
| Addressing.ZeroPage0 | src/cpu6502.rs:119-124 | ZP0 leaves addrAbs <= 0x00FF with the operand byte as its low byte; pc + 1 |
| Addressing.ZeroPageX | src/cpu6502.rs:131-136 | ZPX leaves addrAbs <= 0x00FF at operand + X wrapped inside page 0; pc + 1 |
| Addressing.ZeroPageY | src/cpu6502.rs:139-144 | ZPY leaves addrAbs <= 0x00FF at operand + Y wrapped inside page 0; pc + 1 |
| Addressing.Absolute | src/cpu6502.rs:151-160 | ABS takes the low byte from pc and the high byte from pc + 1; pc + 2 |
| Addressing.Indexed | src/cpu6502.rs:165-199 | indexed addressing adds the index to `hi:lo` and answers 1 exactly when the result left page hi |
| Addressing.AbsoluteX | src/cpu6502.rs:165-180 | ABX is ABS plus X, answering 1 exactly on a page cross; pc + 2 |
| Addressing.AbsoluteY | src/cpu6502.rs:184-199 | ABY is ABS plus Y, answering 1 exactly on a page cross; pc + 2 |
| Addressing.PointerHigh | src/cpu6502.rs:215-219 | IND's high-byte address is the pointer's low byte + 1 without carry, always in the pointer's page |
| Addressing.Indirect | src/cpu6502.rs:207-221 | IND reads the target from the pointer and the next byte of the pointer's page; pc + 2 |
| Addressing.IndirectPageWrap | src/cpu6502.rs:215-216 | for a pointer ending in 0xFF, the high byte comes from the start of the same page, which is not pointer + 1 |
| Addressing.IndirectX | src/cpu6502.rs:226-235 | IZX reads a two-byte pointer at operand + X, both bytes wrapping inside page 0; pc + 1 |
| Addressing.IndirectY | src/cpu6502.rs:241-257 | IZY reads a page-0 pointer, adds Y and answers 1 exactly when that crosses a page; pc + 1 |
| Addressing.Relative | src/cpu6502.rs:268-275 | REL keeps the offset as the low byte and makes the high byte 0xFF iff bit 7 is set, else 0x00; pc + 1 |
| Addressing.SignExtend | src/cpu6502.rs:271-273 | the low byte is kept; a byte offset gets high byte 0xFF iff its bit 7 is set |
| Addressing.SignExtendIsSigned | src/cpu6502.rs:307 | adding the extended offset moves forward by the offset, or back by its two's-complement magnitude when bit 7 is set |
| Addressing.Accumulator | src/cpu6502.rs:277-280 | ACC sets addrAbs to pc and changes nothing else |
| Addressing.Address | src/cpu6502.rs:99-280 | every addressing mode answers 0 or 1 and leaves registers, status, memory, opcode and cycles alone |
| Instructions.Fetch | src/cpu6502.rs:286-291 | fetch reads memory at addrAbs into fetched exactly when the current opcode's table mode is implied, otherwise keeps fetched |
| Instructions.SetZN | src/cpu6502.rs:297-298 | Z is set iff the value is 0 and N iff bit 7 is set; other flags are kept |
| Instructions.And | src/cpu6502.rs:294-301 | A becomes A & operand, Z and N follow A, nothing else changes; answers 1 |
| Instructions.AndKeepsCommonBits | src/cpu6502.rs:296 | bit k of the new A is set iff it is set in both A and the operand |
| Instructions.Branch | src/cpu6502.rs:304-315 | not taken: nothing changes; taken: pc and addrAbs become pc + addrRel, cycles +1, +2 across a page |
| Instructions.Bcs | src/cpu6502.rs:304-315 | BCS branches exactly when carry is set |
| Instructions.Bcc | src/cpu6502.rs:318-328 | BCC branches exactly when carry is clear |
| Instructions.Beq | src/cpu6502.rs:331-341 | BEQ as written never branches and never changes the state |
| Instructions.Bmi | src/cpu6502.rs:344-354 | BMI as written never branches and never changes the state |
| Instructions.Bne | src/cpu6502.rs:357-367 | BNE branches exactly when Z is clear |
| Instructions.Bpl | src/cpu6502.rs:370-380 | BPL branches exactly when N is clear |
| Instructions.Bvc | src/cpu6502.rs:383-393 | BVC branches exactly when V is clear |
| Instructions.Bvs | src/cpu6502.rs:396-406 | BVS as written never branches and never changes the state |
| Instructions.BranchCost | src/cpu6502.rs:306-311 | a taken branch costs one or two cycles, two exactly when the target's page differs from pc's |
| Instructions.Clear | src/cpu6502.rs:409-429 | clearing a flag clears it, keeps every other flag and changes nothing else |
| Instructions.Clc | src/cpu6502.rs:409-412 | CLC clears C and nothing else |
| Instructions.Cld | src/cpu6502.rs:414-417 | CLD clears D and nothing else |
| Instructions.Cli | src/cpu6502.rs:420-423 | CLI clears I and nothing else |
| Instructions.Clv | src/cpu6502.rs:426-429 | CLV clears V and nothing else |
| Instructions.ClearIdempotent | src/cpu6502.rs:409-429 | clearing twice equals clearing once; clearing a clear flag changes nothing |
| Instructions.Difference | src/cpu6502.rs:436 | the low byte of the 16-bit wrapping difference is the 8-bit difference |
| Instructions.CompareFlags | src/cpu6502.rs:437-439 | C iff reg >= operand, Z iff they are equal, N iff bit 7 of reg - operand; others kept |
| Instructions.CompareOrders | src/cpu6502.rs:437-439 | after a compare, C without Z means reg > operand, and no C means reg < operand |
| Instructions.Cmp | src/cpu6502.rs:434-441 | CMP: C iff A >= operand, Z iff they are equal, N iff bit 7 of A - operand; no other flag, register or memory changes; answers 1 |
| Instructions.Cpx | src/cpu6502.rs:446-453 | CPX: C iff X >= operand, Z iff they are equal, N iff bit 7 of X - operand; no other flag, register or memory changes; answers 0 |
| Instructions.Cpy | src/cpu6502.rs:458-465 | CPY: C iff Y >= operand, Z iff they are equal, N iff bit 7 of Y - operand; no other flag, register or memory changes; answers 0 |
| Instructions.CarryIn | src/cpu6502.rs:472 | the carry used by the addition is 0 or 1, and 1 exactly when C is set |
| Instructions.Sum | src/cpu6502.rs:472 | the low byte of the 16-bit sum is the 8-bit wrapping sum |
| Instructions.NineBitSum | src/cpu6502.rs:472-477 | the carry out, as a ninth bit above the result byte, gives the full sum |
| Instructions.OverflowIsSignedOverflow | src/cpu6502.rs:501 | the xor overflow test is exactly two's-complement overflow |
| Instructions.AddFlags | src/cpu6502.rs:473-476 | C iff the sum exceeds 255, Z and N from its low byte, V as given, other flags kept |
| Instructions.AddWithCarry | src/cpu6502.rs:470-489 | A becomes A + m + C mod 256; carry and A form the 9-bit sum; Z, N follow A; V is signed overflow |
| Instructions.AdcAsWritten | src/cpu6502.rs:470-489 | ADC as written: A and C as for AddWithCarry, Z and N follow A, I, D, B and U kept; V set when the operands' signs differ and the result's sign differs from A's |
| Instructions.AdcAsWrittenMissesOverflow | src/cpu6502.rs:476 | whenever the as-written ADC sets V, no signed overflow happened |
| Instructions.AdcAsWrittenWrongOverflow | src/cpu6502.rs:476 | 0x00 + 0x80 sets V as written but not when corrected; 0x80 + 0x80 the reverse |
| Instructions.Adc | src/cpu6502.rs:470-489 | ADC with the overflow test corrected: V is set exactly on signed overflow |
| Instructions.SubFlagsAreAddFlags | src/cpu6502.rs:499-502 | SBC's flag order C, Z, V, N gives the same status byte as ADC's order |
| Instructions.Sbc | src/cpu6502.rs:494-506 | SBC is exactly the add-with-carry of the operand's ones' complement |
| Instructions.SubtractByComplement | src/cpu6502.rs:496-497 | adding the complement with carry c gives A - m - (1 - c), and carries out exactly when there is no borrow |
| Instructions.CompareIsSubtraction | src/cpu6502.rs:434-441 | a compare sets C, Z and N as a subtraction with carry set would |
| Instructions.Pha | src/cpu6502.rs:509-513 | PHA stores A at 0x0100 + stkp, keeps other memory, lowers stkp by one, changes nothing else |
| Instructions.Pla | src/cpu6502.rs:517-523 | PLA raises stkp by one, loads A from 0x0100 + stkp, Z and N follow A, other flags kept |
| Instructions.PlaPulls | src/cpu6502.rs:517-519 | PLA on a stack whose top byte is v loads v and moves the pointer past it |
| Instructions.PhaThenPla | src/cpu6502.rs:509-523 | PHA then PLA restores stkp and A, sets Z and N from A, keeps X, Y and pc |
| Instructions.Rti | src/cpu6502.rs:526-542 | RTI pulls the status (B and U cleared), then pc low and high, from the three slots above stkp; stkp + 3 |
| Instructions.Operate | src/cpu6502.rs:546-581 | the current opcode's table operation answers 0 or 1; an unimplemented one changes nothing and answers 0 |
| Instructions.OperateAdcAgainstAsWritten | src/cpu6502.rs:470-489 | on an ADC opcode, dispatch agrees with the as-written ADC on every register, memory and every flag but V, and its V is signed overflow |
| Control.Clock | src/cpu6502.rs:584-595 | with no cycles left, a tick reads the opcode at pc, advances pc and loads the entry's cycles less one; otherwise it only counts down |
| Control.StartInstruction | src/cpu6502.rs:589-594 | after the opcode is read, 1 to 7 cycles remain, the entry's count less the one just spent |
| Control.RunOut | src/cpu6502.rs:584-595 | ticking while cycles remain only counts them down to zero |
| Control.InstructionTakesTableCycles | src/cpu6502.rs:584-595 | from an idle CPU, exactly the entry's cycle count of ticks reads the opcode, advances pc and leaves the CPU idle again |
| Control.JumpVia | src/cpu6502.rs:645-648 | pc is loaded little-endian from the vector and addrAbs holds the vector address |
| Control.Reset | src/cpu6502.rs:597-615 | a = x = y = 0, stkp = 0xFD, only U set, pc from 0xFFFC/0xFFFD, latches cleared, cycles = 8 |
| Control.ResetIdempotent | src/cpu6502.rs:597-615 | a second reset gives the same state as the first |
| Control.PushPc | src/cpu6502.rs:634-637 | pc's high byte goes to 0x0100 + stkp, its low byte one below; stkp - 2; no other memory changes |
| Control.InterruptStatus | src/cpu6502.rs:639-641 | the interrupt status has B clear and U and I set, every other flag kept |
| Control.PushStatus | src/cpu6502.rs:639-643 | the status switches to the interrupt status and is pushed; stkp - 1 |
| Control.InterruptStores | src/cpu6502.rs:634-643 | the sequence writes pc high, pc low and the interrupt status to the three slots below stkp, and no other byte |
| Control.InterruptRegisters | src/cpu6502.rs:639-650 | the sequence sets the interrupt status, stkp - 3, pc from the vector, addrAbs = vector, the cycle count, and keeps every other register and latch |
| Control.Interrupt | src/cpu6502.rs:633-651 | the stack holds pc high, pc low and the interrupt status, other memory unchanged; stkp - 3; pc from the vector; a, x, y, fetched, addrRel and opcode kept |
| Control.Nmi | src/cpu6502.rs:633-651 | nmi is the interrupt sequence through 0xFFFA/0xFFFB with 8 cycles: I and U set, B clear, other flags kept, every untouched byte and register kept |
| Control.RtiPulls | src/cpu6502.rs:526-542 | RTI over a pushed status and return address resumes at that address with stkp back above them |
| Control.InterruptThenRti | src/cpu6502.rs:633-651 | RTI after an interrupt sequence returns to the interrupted pc with stkp restored |
| Control.InterruptThenRtiFlags | src/cpu6502.rs:639-643 | RTI after an interrupt sequence pulls back the interrupt status, apart from B and U |
| Control.StatusAfterInterrupt | src/cpu6502.rs:639-641 | a status equal to the interrupt status outside B and U has I set and every other flag of the original |
| Control.NmiThenRti | src/cpu6502.rs:633-651 | after nmi and RTI, pc and stkp are restored, I is set, other flags are as before |
| Control.IrqAsWritten | src/cpu6502.rs:617-631 | irq as written: with I set nothing changes; otherwise pc is pushed and no other byte written, stkp - 2, status kept, pc from 0xFFFE/0xFFFF, addrAbs = 0xFFFE, 7 cycles, every other register kept |
| Control.IrqAsWrittenThenRti | src/cpu6502.rs:617-631 | RTI after the as-written irq takes pc's high byte as the new low byte and leaves stkp one too high |
| Control.IrqAsWrittenLosesReturnAddress | src/cpu6502.rs:617-631 | an irq taken at 0x1234 does not return to 0x1234 |
| Control.Irq | src/cpu6502.rs:617-631 | irq corrected: with I clear, the full interrupt sequence through 0xFFFE/0xFFFF in 7 cycles (pushes, memory and register frame, I set, other flags kept); with I set nothing changes |
| Control.IrqThenRti | src/cpu6502.rs:617-631 | after the corrected irq and RTI, pc and stkp are restored and flags other than B, U and I are as before |
| Olc.New | src/olc6502.rs:36-46 | the skeleton starts with every register and pc at zero and no flag set |
| Olc.GetFlag | src/olc6502.rs:57-59 | getFlag answers 0 or exactly the flag's bit, nonzero exactly when that bit is set |
| Olc.SetFlag | src/olc6502.rs:60-66 | setFlag makes the flag read as value and keeps every other flag and register |
| Olc.SetThenClear | src/olc6502.rs:60-66 | setting then clearing a flag equals clearing it |
| Olc.AgreesWithCpu | src/olc6502.rs:57-66 | the skeleton's getFlag and setFlag compute the same as the full CPU's |

## Left out

- app/main.py is a separate credential-launcher GUI with no emulator logic.
- src/display.rs is a window event loop and pixel rendering.
- The `Rc<RefCell<Bus>>` wiring is left out: `connect_bus`, the "bus not
  connected" panics, and the `main` in src/bus.rs. The bus is part of the
  CPU state instead.
- The `println!` diagnostics are left out. The out-of-range message of
  `Bus::write` can never be printed anyway (Bus.EveryAddressInRange).
- The Olc6502 `read` and `write` (src/olc6502.rs:67-73) call the bus
  through an `Option` and do not compile. The address-mode fields of
  `Olc6502` are never initialised. Neither is modelled.
- Instruction names and function-pointer dispatch are left out. Table
  entries hold an operation and a mode from enumerations.
- The stubs of the unimplemented operations (src/cpu6502.rs:546-581)
  return 0 and change nothing. `Instructions.Operate` says exactly that for
  them; they have no members of their own.
- Control.Clock: the source's `clock` looks up the entry's mode and
  operation but never calls them (src/cpu6502.rs:590-591). Clock therefore
  only reads the opcode and counts cycles. The model does not compose
  `Addressing.Address` and `Instructions.Operate` into an instruction step,
  and it does not add their extra-cycle answers.
- Decimal mode is left out. ADC and SBC ignore the D flag, as the source
  does.
- Instructions.Operate: its contract states only the extra-cycle range and
  that unimplemented operations change nothing. The effect of each
  implemented operation is stated on that operation's own member.
- Instructions.Operate: its ADC case runs the corrected `Instructions.Adc`,
  not the as-written ADC of src/cpu6502.rs:476. The two differ only in V
  (Instructions.OperateAdcAgainstAsWritten). Every other case, including the
  never-taken BEQ, BMI and BVS, runs the operation as written.

## Findings

| source | as written | input that shows it | evidently intended | confidence | as-written member | corrected member |
|---|---|---|---|---|---|---|
| src/cpu6502.rs:476 | ADC sets V when A and the operand have DIFFERENT signs and the result's sign differs from A's | A = 0x00, operand 0x80, C clear: 0 + (-128) = -128 is in range, yet V is set; A = 0x80, operand 0x80 overflows, yet V stays clear | V set when A and the operand have the SAME sign and the result's sign differs (the usual `~(a ^ m) & (a ^ t) & 0x80` test, which SBC's xor test also amounts to) | high; not executed | Instructions.AdcAsWritten, shown by Instructions.AdcAsWrittenWrongOverflow | Instructions.Adc (via Instructions.AddWithCarry), used by Instructions.Operate |
| src/cpu6502.rs:617-631 | irq pushes only pc, does not push the status, and does not set I | I clear, pc = 0x1234: after RTI, pc's low byte is 0x12 and stkp is one above its value before the interrupt | irq follows the same sequence as nmi (src/cpu6502.rs:633-651): push pc, set B/U/I, push the status, then jump through 0xFFFE | medium; not executed | Control.IrqAsWritten, shown by Control.IrqAsWrittenThenRti and Control.IrqAsWrittenLosesReturnAddress | Control.Irq, with Control.IrqThenRti |
