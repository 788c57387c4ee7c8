/** The CPU state of the 6502 and the byte/word helpers every other module shares. */
module Cpu6502 {
  import Flags
  import Bus

  /**
   * The registers and internal latches of the CPU, together with the bus it
   * is connected to. `fetched`, `addrAbs`, `addrRel`, `opcode` and `cycles`
   * are the emulator's working variables, not architectural registers.
   */
  datatype Cpu = Cpu(
    a: bv8,
    x: bv8,
    y: bv8,
    stkp: bv8,
    pc: bv16,
    status: bv8,
    fetched: bv8,
    addrAbs: bv16,
    addrRel: bv16,
    opcode: bv8,
    cycles: bv8,
    bus: Bus.Bus)

  /** What an addressing mode or an operation leaves behind: the new state and the "may need an extra cycle" answer. */
  datatype Step = Step(cpu: Cpu, extra: bv8)

  /** Cpu6502::new with the bus already connected: every register and latch is zero. */
  function New(bus: Bus.Bus): (cpu: Cpu)
    ensures cpu.a == 0 && cpu.x == 0 && cpu.y == 0 && cpu.stkp == 0
    ensures cpu.pc == 0 && cpu.status == 0 && cpu.fetched == 0
    ensures cpu.addrAbs == 0 && cpu.addrRel == 0 && cpu.opcode == 0 && cpu.cycles == 0
    ensures cpu.bus == bus
  {
    Cpu(0, 0, 0, 0, 0, 0, 0, 0, 0, 0, 0, bus)
  }

  /**
   * A CPU read goes to the bus with read_only = false. It answers the byte
   * the RAM holds at addr, the same byte a read_only read would give.
   */
  function Read(cpu: Cpu, addr: bv16): (d: bv8)
    ensures d == cpu.bus.ram(addr)
    ensures d == Bus.Read(cpu.bus, addr, true)
  {
    Bus.Read(cpu.bus, addr, false)
  }

  /** A CPU write goes to the bus; no register changes. */
  function Write(cpu: Cpu, addr: bv16, data: bv8): (c: Cpu)
    ensures Read(c, addr) == data
    ensures forall other: bv16 :: other != addr ==> Read(c, other) == Read(cpu, other)
    ensures c.(bus := cpu.bus) == cpu
  {
    cpu.(bus := Bus.Write(cpu.bus, addr, data))
  }

  /** getFlag on the CPU's status register. */
  function GetFlag(cpu: Cpu, f: Flags.Flag): bv8
  {
    Flags.GetFlag(cpu.status, f)
  }

  /** setFlag on the CPU's status register; nothing but the status changes. */
  function SetFlag(cpu: Cpu, f: Flags.Flag, value: bool): (c: Cpu)
    ensures c.(status := cpu.status) == cpu
    ensures Flags.GetFlag(c.status, f) == (if value then Flags.Mask(f) else 0)
    ensures forall g: Flags.Flag :: g != f ==> Flags.GetFlag(c.status, g) == Flags.GetFlag(cpu.status, g)
  {
    cpu.(status := Flags.SetFlag(cpu.status, f, value))
  }

  /** The page number of an address: its high byte. */
  function Page(addr: bv16): bv8
  {
    (addr >> 8) as bv8
  }

  /** The low byte of a word (`as u8` in Rust truncates). */
  function Low(w: bv16): bv8
  {
    (w & 0x00FF) as bv8
  }

  /** The 16-bit word `(hi << 8) | lo`: its page is hi and its low byte is lo. */
  function Word(hi: bv8, lo: bv8): (w: bv16)
    ensures Page(w) == hi && Low(w) == lo
  {
    ((hi as bv16) << 8) | (lo as bv16)
  }

  /** Splitting a word into its two bytes and joining them again gives the word back. */
  lemma WordOfBytes(w: bv16)
    ensures Word(Page(w), Low(w)) == w
  {
  }

  /** The page-cross test `(addr & 0xFF00) != (hi << 8)`: the address has left page hi. */
  predicate PageCrossed(addr: bv16, hi: bv8)
    ensures PageCrossed(addr, hi) <==> Page(addr) != hi
  {
    (addr & 0xFF00) != ((hi as bv16) << 8)
  }

  /** The branch test `(a & 0xFF00) != (b & 0xFF00)`: the two addresses lie on different pages. */
  predicate OnDifferentPages(a: bv16, b: bv16)
    ensures OnDifferentPages(a, b) <==> Page(a) != Page(b)
  {
    (a & 0xFF00) != (b & 0xFF00)
  }

  /**
   * Stepping a pointer forward by one stays in its page unless its low byte
   * is 0xFF; clearing the low byte of such a pointer gives the start of the
   * same page, which is where the low byte wraps to.
   */
  lemma NextInPage(hi: bv8, lo: bv8)
    ensures lo != 0xFF ==> Word(hi, lo) + 1 == Word(hi, lo + 1)
    ensures lo == 0xFF ==> Word(hi, lo) & 0xFF00 == Word(hi, lo + 1)
  {
  }

  /** A zero-page address: the byte widened to 16 bits, so its page is 0. */
  function ZeroPage(b: bv8): (addr: bv16)
    ensures Page(addr) == 0 && Low(addr) == b
  {
    b as bv16
  }

  /** Adding in 16 bits and keeping the low byte (`& 0x00FF`) is adding in 8 bits: the sum wraps inside page 0. */
  lemma ZeroPageSum(a: bv8, b: bv8, c: bv8)
    ensures ((a as bv16 + b as bv16 + c as bv16) & 0x00FF) == ZeroPage(a + b + c)
  {
  }

  /** Where the stack pointer points: 0x0100 + stkp, always inside page 1. */
  function StackAddr(stkp: bv8): (addr: bv16)
    ensures Page(addr) == 1 && Low(addr) == stkp
  {
    0x0100 + stkp as bv16
  }

  /** Push one byte: store it at the stack pointer's address in page 1, then move the stack pointer down. */
  function PushByte(cpu: Cpu, data: bv8): (c: Cpu)
    ensures Read(c, StackAddr(cpu.stkp)) == data
    ensures forall other: bv16 :: other != StackAddr(cpu.stkp) ==> Read(c, other) == Read(cpu, other)
    ensures c.stkp == cpu.stkp - 1
    ensures c == cpu.(bus := c.bus, stkp := c.stkp)
  {
    Write(cpu, StackAddr(cpu.stkp), data).(stkp := cpu.stkp - 1)
  }
}
