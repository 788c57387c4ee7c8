/**
 * The system bus: a flat 64 KiB RAM. The RAM array `[u8; 64 * 1024]` is
 * modelled as a total function from 16-bit addresses to bytes, which is
 * what an array indexed by every u16 value is.
 */
module Bus {

  datatype Bus = Bus(ram: bv16 -> bv8)

  /** The range guard of read and write, `(0x0000..=0xFFFF).contains(&addr)`. */
  predicate InRange(addr: bv16)
  {
    0x0000 <= addr <= 0xFFFF
  }

  /** Bus::new: every byte of RAM starts at zero. */
  function New(): (b: Bus)
    ensures forall addr: bv16 :: Read(b, addr, false) == 0
  {
    Bus(_ => 0)
  }

  /**
   * Bus::read: the byte stored at addr. The read_only argument is accepted
   * and ignored; the out-of-range branch answers 0, but no address reaches it.
   */
  function Read(b: Bus, addr: bv16, readOnly: bool): (d: bv8)
    ensures d == b.ram(addr)
  {
    if InRange(addr) then b.ram(addr) else 0x00
  }

  /** Bus::write: store data at addr (the out-of-range branch only logs, and no address reaches it). */
  function Write(b: Bus, addr: bv16, data: bv8): (b': Bus)
    ensures Read(b', addr, false) == data
    ensures forall other: bv16 :: other != addr ==> Read(b', other, false) == Read(b, other, false)
  {
    if InRange(addr) then Bus(a => if a == addr then data else b.ram(a)) else b
  }

  /** No 16-bit address fails the range guard, so both "out of range" branches are dead. */
  lemma EveryAddressInRange(addr: bv16)
    ensures InRange(addr)
  {
  }

  /** A read returns exactly what the last write to the same address stored, whatever the read_only argument. */
  lemma ReadAfterWrite(b: Bus, addr: bv16, data: bv8, readOnly: bool)
    ensures Read(Write(b, addr, data), addr, readOnly) == data
  {
  }

  /** A write leaves the byte at every other address unchanged, whatever the read_only argument. */
  lemma WriteFrame(b: Bus, addr: bv16, data: bv8, other: bv16, readOnly: bool)
    requires other != addr
    ensures Read(Write(b, addr, data), other, readOnly) == Read(b, other, readOnly)
  {
  }

  /** read_only has no effect on the byte returned. */
  lemma ReadOnlyIgnored(b: Bus, addr: bv16)
    ensures Read(b, addr, true) == Read(b, addr, false)
  {
  }

  /** Of two writes to the same address only the later one is visible. */
  lemma WriteOverwrites(b: Bus, addr: bv16, d1: bv8, d2: bv8, other: bv16)
    ensures Read(Write(Write(b, addr, d1), addr, d2), other, false) == Read(Write(b, addr, d2), other, false)
  {
  }
}
