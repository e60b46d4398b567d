/**
 * The GBA memory bus (src/gba/mod.rs, GameboyAdvance::get_mem8/16/32 and
 * set_mem8/16/32): decoding of a 32-bit address into the BIOS, on-board
 * work RAM, on-chip work RAM, I/O registers, palette RAM, VRAM, OAM and the
 * cartridge ROM, with the access cycle counts the emulator reports; and the
 * IRQ entry sequence driven by the IE/IF registers.
 */
module GbaBus {
  import opened Options
  import opened GbaDecode
  import opened GbaRegisters
  import GbaIo

  const BiosSize := 0x4000
  const WramSize := 0x40000
  const IwRamSize := 0x8000
  const PaletteSize := 0x400
  const VramSize := 0x18000
  const OamSize := 0x400
  const RomWindow := 0x200_0000

  /** A u32 address. */
  predicate IsU32(addr: int)
  {
    0 <= addr < 0x1_0000_0000
  }

  /** The value of every memory of a GameboyAdvance. */
  datatype Memory = Memory(
    bios: seq<bv8>, wram: seq<bv8>, iwRam: seq<bv8>, io: GbaIo.IoState,
    palette: seq<bv8>, vram: seq<bv8>, oam: seq<bv8>, rom: seq<bv8>)

  predicate MemOk(m: Memory)
  {
    |m.bios| == BiosSize && |m.wram| == WramSize && |m.iwRam| == IwRamSize && GbaIo.IoOk(m.io)
    && |m.palette| == PaletteSize && |m.vram| == VramSize && |m.oam| == OamSize
  }

  /** GameboyAdvance::new: every memory zero and no cartridge. */
  const NewMemory := Memory(
    seq(BiosSize, _ => 0), seq(WramSize, _ => 0), seq(IwRamSize, _ => 0), GbaIo.NewIo,
    seq(PaletteSize, _ => 0), seq(VramSize, _ => 0), seq(OamSize, _ => 0), [])

  // The masks the bus applies to an address before indexing.

  /** `addr & 0x3FFF`. */
  function BiosIndex(addr: int): (i: int)
    requires 0 <= addr
    ensures 0 <= i < BiosSize
  {
    addr % BiosSize
  }

  /** `addr & 0x3FFFF`. */
  function WramIndex(addr: int): (i: int)
    requires 0 <= addr
    ensures 0 <= i < WramSize
  {
    addr % WramSize
  }

  /** `addr & 0x7FFF`. */
  function IwIndex(addr: int): (i: int)
    requires 0 <= addr
    ensures 0 <= i < IwRamSize
  {
    addr % IwRamSize
  }

  /** `addr & 0x3FF`, for the palette, OAM and the I/O registers. */
  function SmallIndex(addr: int): (i: int)
    requires 0 <= addr
    ensures 0 <= i < 0x400
  {
    addr % 0x400
  }

  /** `addr & 0x17FFF`: bits 0-14 and bit 16, so the upper 32 KiB of VRAM is reached through bit 16. */
  function VramIndex(addr: int): (i: int)
    requires 0 <= addr
    ensures 0 <= i < VramSize
  {
    addr % 0x8000 + (if addr / 0x10000 % 2 == 1 then 0x10000 else 0)
  }

  /** `addr & 0x1FFFFFF`. */
  function RomIndex(addr: int): (i: int)
    requires 0 <= addr
    ensures 0 <= i < RomWindow
  {
    addr % RomWindow
  }

  /** `addr & !1`. */
  function Align2(addr: int): (r: int)
    requires 0 <= addr
    ensures 0 <= r <= addr && r % 2 == 0 && addr - r < 2
  {
    addr - addr % 2
  }

  /** `addr & !3`. */
  function Align4(addr: int): (r: int)
    requires 0 <= addr
    ensures 0 <= r <= addr && r % 4 == 0 && addr - r < 4
  {
    addr - addr % 4
  }

  /** The little-endian half-word of two bytes. */
  function Le16(lo: bv8, hi: bv8): bv16
  {
    (hi as bv16 << 8) | lo as bv16
  }

  /** The little-endian word of four bytes. */
  function Le32(b0: bv8, b1: bv8, b2: bv8, b3: bv8): bv32
  {
    (b3 as bv32 << 24) | (b2 as bv32 << 16) | (b1 as bv32 << 8) | b0 as bv32
  }

  /** `(val >> 8k) & 0xFF` of a half-word. */
  function HalfByte(v: bv16, k: int): bv8
    requires 0 <= k < 2
  {
    if k == 0 then (v & 0xFF) as bv8 else ((v >> 8) & 0xFF) as bv8
  }

  /** `(val >> 8k) & 0xFF` of a word. */
  function WordByte(v: bv32, k: int): bv8
    requires 0 <= k < 4
  {
    if k == 0 then (v & 0xFF) as bv8
    else if k == 1 then ((v >> 8) & 0xFF) as bv8
    else if k == 2 then ((v >> 16) & 0xFF) as bv8
    else ((v >> 24) & 0xFF) as bv8
  }

  lemma Le16OfBytes(v: bv16)
    ensures Le16(HalfByte(v, 0), HalfByte(v, 1)) == v
  {
  }

  /** The I/O block's word reader and the bus's agree. */
  lemma WordIsRead32(r: seq<bv8>, o: int)
    requires 0 <= o && o + 3 < |r|
    ensures GbaIo.Word(r, o) == Read32(r, o, o + 1, o + 2, o + 3)
  {
    WordOrder(r[o], r[o + 1], r[o + 2], r[o + 3]);
  }

  lemma WordOrder(b0: bv8, b1: bv8, b2: bv8, b3: bv8)
    ensures b0 as bv32 | (b1 as bv32 << 8) | (b2 as bv32 << 16) | (b3 as bv32 << 24) == Le32(b0, b1, b2, b3)
  {
  }

  lemma Le32OfBytes(v: bv32)
    ensures Le32(WordByte(v, 0), WordByte(v, 1), WordByte(v, 2), WordByte(v, 3)) == v
  {
  }

  // The bytes of an aligned word have consecutive indices under every mask the bus uses.

  lemma BiosConsecutive(lo: int, k: int)
    requires 0 <= lo && lo % 4 == 0 && 0 <= k < 4
    ensures BiosIndex(lo + k) == BiosIndex(lo) + k
  {
    var q := lo / 4;
    assert lo % BiosSize == 4 * (q % 0x1000);
  }

  lemma WramConsecutive(lo: int, k: int)
    requires 0 <= lo && lo % 4 == 0 && 0 <= k < 4
    ensures WramIndex(lo + k) == WramIndex(lo) + k
  {
    var q := lo / 4;
    assert lo % WramSize == 4 * (q % 0x10000);
  }

  lemma IwConsecutive(lo: int, k: int)
    requires 0 <= lo && lo % 4 == 0 && 0 <= k < 4
    ensures IwIndex(lo + k) == IwIndex(lo) + k
  {
    var q := lo / 4;
    assert lo % IwRamSize == 4 * (q % 0x2000);
  }

  lemma SmallConsecutive(lo: int, k: int)
    requires 0 <= lo && lo % 4 == 0 && 0 <= k < 4
    ensures SmallIndex(lo + k) == SmallIndex(lo) + k
  {
    var q := lo / 4;
    assert lo % 0x400 == 4 * (q % 0x100);
  }

  lemma RomConsecutive(lo: int, k: int)
    requires 0 <= lo && lo % 4 == 0 && 0 <= k < 4
    ensures RomIndex(lo + k) == RomIndex(lo) + k
  {
    var q := lo / 4;
    assert lo % RomWindow == 4 * (q % 0x80_0000);
  }

  lemma VramConsecutive(lo: int, k: int)
    requires 0 <= lo && lo % 4 == 0 && 0 <= k < 4
    ensures VramIndex(lo + k) == VramIndex(lo) + k
  {
    var q := lo / 4;
    assert lo % 0x8000 == 4 * (q % 0x2000);
    assert (lo + k) % 0x8000 == lo % 0x8000 + k;
    assert lo / 0x10000 == q / 0x4000;
    assert (lo + k) / 0x10000 == q / 0x4000;
  }

  /** A cartridge address inside one of the three 32 MiB ROM windows indexes the ROM by its distance from the window base. */
  lemma RomWindowOffset(a: int, base: int)
    requires base == 0x800_0000 || base == 0xA00_0000 || base == 0xC00_0000
    requires base <= a < base + RomWindow
    ensures RomIndex(a) == a - base
  {
    assert a == RomWindow * (base / RomWindow) + (a - base);
  }

  function Read16(s: seq<bv8>, i0: int, i1: int): bv16
    requires 0 <= i0 < |s| && 0 <= i1 < |s|
  {
    Le16(s[i0], s[i1])
  }

  function Read32(s: seq<bv8>, i0: int, i1: int, i2: int, i3: int): bv32
    requires 0 <= i0 < |s| && 0 <= i1 < |s| && 0 <= i2 < |s| && 0 <= i3 < |s|
  {
    Le32(s[i0], s[i1], s[i2], s[i3])
  }

  /** The Game Pak SRAM window, and the ROM windows get_mem8/get_mem32 stop at with todo!(). */
  predicate SramWindow(addr: int)
  {
    0xE00_0000 <= addr <= 0xE00_FFFF
  }

  predicate UpperRomWindows(addr: int)
  {
    0xA00_0000 <= addr <= 0xDFF_FFFF
  }

  /** What get_mem8 demands: no todo!() window, and a ROM byte that exists. */
  predicate Get8Defined(m: Memory, addr: int)
    requires IsU32(addr)
  {
    !SramWindow(addr) && !UpperRomWindows(addr)
    && (0x800_0000 <= addr <= 0x9FF_FFFF ==> RomIndex(addr) < |m.rom|)
  }

  /**
   * get_mem8 with the on-board WRAM and I/O windows as wide as in get_mem16
   * (0x02000000..=0x02FFFFFF and 0x04000000..=0x04FFFFFF); the BIOS reads 0.
   */
  function GetMem8(m: Memory, addr: int): (r: (bv8, nat))
    requires MemOk(m) && IsU32(addr) && Get8Defined(m, addr)
    ensures r.1 in {0, 1, 3, 5}
    ensures r.1 == 0 ==> r.0 == 0
  {
    if addr <= 0x1FF_FFFF then (0, 0)
    else if 0x200_0000 <= addr <= 0x2FF_FFFF then (m.wram[WramIndex(addr)], 3)
    else if 0x300_0000 <= addr <= 0x3FF_FFFF then (m.iwRam[IwIndex(addr)], 1)
    else if 0x400_0000 <= addr <= 0x4FF_FFFF then (m.io.regs[SmallIndex(addr)], 1)
    else if 0x500_0000 <= addr <= 0x5FF_FFFF then (m.palette[SmallIndex(addr)], 1)
    else if 0x600_0000 <= addr <= 0x6FF_FFFF then (m.vram[VramIndex(addr)], 1)
    else if 0x700_0000 <= addr <= 0x7FF_FFFF then (m.oam[SmallIndex(addr)], 1)
    else if 0x800_0000 <= addr <= 0x9FF_FFFF then (m.rom[RomIndex(addr)], 5)
    else (0, 0)
  }

  /** get_mem8 as written: work RAM only up to 0x0203FFFF and I/O only up to 0x04FFFFFE. */
  function GetMem8AsWritten(m: Memory, addr: int): (r: (bv8, nat))
    requires MemOk(m) && IsU32(addr) && Get8Defined(m, addr)
    ensures r.1 == 0 ==> r.0 == 0
  {
    if addr <= 0x1FF_FFFF then (0, 0)
    else if 0x200_0000 <= addr <= 0x203_FFFF then (m.wram[WramIndex(addr)], 3)
    else if 0x300_0000 <= addr <= 0x3FF_FFFF then (m.iwRam[IwIndex(addr)], 1)
    else if 0x400_0000 <= addr <= 0x4FF_FFFE then (m.io.regs[SmallIndex(addr)], 1)
    else if 0x500_0000 <= addr <= 0x5FF_FFFF then (m.palette[SmallIndex(addr)], 1)
    else if 0x600_0000 <= addr <= 0x6FF_FFFF then (m.vram[VramIndex(addr)], 1)
    else if 0x700_0000 <= addr <= 0x7FF_FFFF then (m.oam[SmallIndex(addr)], 1)
    else if 0x800_0000 <= addr <= 0x9FF_FFFF then (m.rom[RomIndex(addr)], 5)
    else (0, 0)
  }

  /** As written, a byte read of the mirrored work RAM or of the last I/O address returns 0 in 0 cycles, although get_mem16 and set_mem8 reach those bytes. */
  lemma GetMem8AsWrittenMissesMirrors(m: Memory, addr: int)
    requires MemOk(m) && IsU32(addr) && Get8Defined(m, addr)
    requires 0x204_0000 <= addr <= 0x2FF_FFFF || addr == 0x4FF_FFFF
    ensures GetMem8AsWritten(m, addr) == (0, 0)
    ensures GetMem8(m, addr).1 != 0
  {
  }

  /** The two agree everywhere else. */
  lemma GetMem8AsWrittenElsewhere(m: Memory, addr: int)
    requires MemOk(m) && IsU32(addr) && Get8Defined(m, addr)
    requires !(0x204_0000 <= addr <= 0x2FF_FFFF || addr == 0x4FF_FFFF)
    ensures GetMem8AsWritten(m, addr) == GetMem8(m, addr)
  {
  }

  /**
   * The ROM arm of get_mem16 for the window at base, with the bounds guard
   * corrected to `>=`: a half-word that does not lie wholly inside the ROM
   * reads as 0.
   */
  function RomHalf(rom: seq<bv8>, lo: int, base: int): (r: (bv16, nat))
    requires base == 0x800_0000 || base == 0xA00_0000 || base == 0xC00_0000
    requires base <= lo && lo + 1 < base + RomWindow && lo % 2 == 0
    ensures r.1 == 5
    ensures lo + 1 - base >= |rom| ==> r.0 == 0
  {
    RomWindowOffset(lo, base);
    RomWindowOffset(lo + 1, base);
    if lo + 1 - base >= |rom| then (0, 5)
    else (Read16(rom, RomIndex(lo), RomIndex(lo + 1)), 5)
  }

  /** The ROM arm of get_mem16 as written: the guard `>` lets the read at index len through, which panics (None). */
  function RomHalfAsWritten(rom: seq<bv8>, lo: int, base: int): (r: Option<(bv16, nat)>)
    requires base == 0x800_0000 || base == 0xA00_0000 || base == 0xC00_0000
    requires base <= lo && lo + 1 < base + RomWindow && lo % 2 == 0
    ensures r.None? <==> lo + 1 - base == |rom|
  {
    RomWindowOffset(lo, base);
    RomWindowOffset(lo + 1, base);
    if lo + 1 - base > |rom| then Some((0, 5))
    else if RomIndex(lo + 1) >= |rom| then None
    else Some((Read16(rom, RomIndex(lo), RomIndex(lo + 1)), 5))
  }

  /** A three-byte ROM read at 0x08000002 passes the as-written guard and indexes past the end; the corrected guard returns 0. */
  lemma RomGuardOffByOne()
    ensures RomHalfAsWritten([1, 2, 3], 0x800_0002, 0x800_0000).None?
    ensures RomHalf([1, 2, 3], 0x800_0002, 0x800_0000) == (0, 5)
  {
  }

  /** Where the as-written guard does not panic it agrees with the corrected one. */
  lemma RomHalfAgrees(rom: seq<bv8>, lo: int, base: int)
    requires base == 0x800_0000 || base == 0xA00_0000 || base == 0xC00_0000
    requires base <= lo && lo + 1 < base + RomWindow && lo % 2 == 0
    requires RomHalfAsWritten(rom, lo, base).Some?
    ensures RomHalfAsWritten(rom, lo, base).value == RomHalf(rom, lo, base)
  {
  }

  /** get_mem16: the bytes at `addr & !1` and `addr | 1`, each masked into its memory. */
  function GetMem16(m: Memory, addr: int): (r: (bv16, nat))
    requires MemOk(m) && IsU32(addr) && !SramWindow(addr)
    ensures r.1 in {0, 1, 3, 5}
    ensures r.1 == 0 ==> r.0 == 0
  {
    var lo := Align2(addr);
    var hi := lo + 1;
    if addr <= 0x1FF_3FFF then (Read16(m.bios, BiosIndex(lo), BiosIndex(hi)), 1)
    else if 0x200_0000 <= addr <= 0x2FF_FFFF then (Read16(m.wram, WramIndex(lo), WramIndex(hi)), 3)
    else if 0x300_0000 <= addr <= 0x3FF_FFFF then (Read16(m.iwRam, IwIndex(lo), IwIndex(hi)), 1)
    else if 0x400_0000 <= addr <= 0x4FF_FFFF then (Read16(m.io.regs, SmallIndex(lo), SmallIndex(hi)), 1)
    else if 0x500_0000 <= addr <= 0x5FF_FFFF then (Read16(m.palette, SmallIndex(lo), SmallIndex(hi)), 1)
    else if 0x600_0000 <= addr <= 0x6FF_FFFF then (Read16(m.vram, VramIndex(lo), VramIndex(hi)), 1)
    else if 0x700_0000 <= addr <= 0x7FF_FFFF then (Read16(m.oam, SmallIndex(lo), SmallIndex(hi)), 1)
    else if 0x800_0000 <= addr <= 0x9FF_FFFF then RomHalf(m.rom, lo, 0x800_0000)
    else if 0xA00_0000 <= addr <= 0xBFF_FFFF then RomHalf(m.rom, lo, 0xA00_0000)
    else if 0xC00_0000 <= addr <= 0xDFF_FFFF then RomHalf(m.rom, lo, 0xC00_0000)
    else (0, 0)
  }

  /** What get_mem32 demands: no todo!() window, and four ROM bytes that exist. */
  predicate Get32Defined(m: Memory, addr: int)
    requires IsU32(addr)
  {
    !SramWindow(addr) && !UpperRomWindows(addr)
    && (0x800_0000 <= addr <= 0x9FF_FFFF ==> RomIndex(Align4(addr)) + 3 < |m.rom|)
  }

  /** get_mem32: the four bytes at `(addr & !3) | k`, each masked into its memory. */
  function GetMem32(m: Memory, addr: int): (r: (bv32, nat))
    requires MemOk(m) && IsU32(addr) && Get32Defined(m, addr)
    ensures r.1 in {0, 1, 2, 6, 8}
    ensures r.1 == 0 ==> r.0 == 0
  {
    var lo := Align4(addr);
    if addr <= 0x1FF_FFFF then
      (Read32(m.bios, BiosIndex(lo), BiosIndex(lo + 1), BiosIndex(lo + 2), BiosIndex(lo + 3)), 1)
    else if 0x200_0000 <= addr <= 0x2FF_FFFF then
      (Read32(m.wram, WramIndex(lo), WramIndex(lo + 1), WramIndex(lo + 2), WramIndex(lo + 3)), 6)
    else if 0x300_0000 <= addr <= 0x3FF_FFFF then
      (Read32(m.iwRam, IwIndex(lo), IwIndex(lo + 1), IwIndex(lo + 2), IwIndex(lo + 3)), 1)
    else if 0x400_0000 <= addr <= 0x4FF_FFFE then
      (Read32(m.io.regs, SmallIndex(lo), SmallIndex(lo + 1), SmallIndex(lo + 2), SmallIndex(lo + 3)), 1)
    else if 0x500_0000 <= addr <= 0x5FF_FFFF then
      (Read32(m.palette, SmallIndex(lo), SmallIndex(lo + 1), SmallIndex(lo + 2), SmallIndex(lo + 3)), 2)
    else if 0x600_0000 <= addr <= 0x6FF_FFFF then
      (Read32(m.vram, VramIndex(lo), VramIndex(lo + 1), VramIndex(lo + 2), VramIndex(lo + 3)), 2)
    else if 0x700_0000 <= addr <= 0x7FF_FFFF then
      (Read32(m.oam, SmallIndex(lo), SmallIndex(lo + 1), SmallIndex(lo + 2), SmallIndex(lo + 3)), 1)
    else if 0x800_0000 <= addr <= 0x9FF_FFFF then
      RomConsecutive(lo, 1);
      RomConsecutive(lo, 2);
      RomConsecutive(lo, 3);
      (Read32(m.rom, RomIndex(lo), RomIndex(lo + 1), RomIndex(lo + 2), RomIndex(lo + 3)), 8)
    else (0, 0)
  }

  /** Two byte stores, low byte first. */
  function Put2(s: seq<bv8>, i0: int, i1: int, v: bv16): (r: seq<bv8>)
    requires 0 <= i0 < |s| && 0 <= i1 < |s|
    ensures |r| == |s|
  {
    s[i0 := HalfByte(v, 0)][i1 := HalfByte(v, 1)]
  }

  /** Four byte stores, least significant byte first. */
  function Put4(s: seq<bv8>, i0: int, i1: int, i2: int, i3: int, v: bv32): (r: seq<bv8>)
    requires 0 <= i0 < |s| && 0 <= i1 < |s| && 0 <= i2 < |s| && 0 <= i3 < |s|
    ensures |r| == |s|
  {
    s[i0 := WordByte(v, 0)][i1 := WordByte(v, 1)][i2 := WordByte(v, 2)][i3 := WordByte(v, 3)]
  }

  /** What set_mem8 demands: none of the palette, VRAM, OAM or cartridge windows it stops at with todo!(). */
  predicate Set8Defined(addr: int)
  {
    !(0x500_0000 <= addr <= 0x500_03FF) && !(0x600_0000 <= addr <= 0x601_7FFF)
    && !(0x700_0000 <= addr <= 0x700_03FF) && !(0x800_0000 <= addr <= 0xE00_FFFF)
  }

  /** set_mem8: the new memories and the cycle count. Writes to the BIOS are dropped. */
  function SetMem8Spec(m: Memory, addr: int, val: bv8): (r: (Memory, nat))
    requires MemOk(m) && IsU32(addr) && Set8Defined(addr)
    ensures MemOk(r.0) && r.0.bios == m.bios && r.0.rom == m.rom
    ensures r.0.palette == m.palette && r.0.vram == m.vram && r.0.oam == m.oam
    ensures !(0x200_0000 <= addr <= 0x2FF_FFFF) ==> r.0.wram == m.wram
    ensures !(0x300_0000 <= addr <= 0x3FF_FFFF) ==> r.0.iwRam == m.iwRam
    ensures !(0x400_0000 <= addr <= 0x4FF_FFFF) ==> r.0.io == m.io
  {
    if addr <= 0x3FFF then (m, 1)
    else if 0x200_0000 <= addr <= 0x2FF_FFFF then (m.(wram := m.wram[WramIndex(addr) := val]), 3)
    else if 0x300_0000 <= addr <= 0x3FF_FFFF then (m.(iwRam := m.iwRam[IwIndex(addr) := val]), 1)
    else if 0x400_0000 <= addr <= 0x4FF_FFFF then (m.(io := GbaIo.SetMem8Spec(m.io, addr, val)), 1)
    else (m, 0)
  }

  /** What set_mem16 and set_mem32 demand: none of the cartridge windows they stop at with todo!(). */
  predicate Set16Defined(addr: int)
  {
    !(0x800_0000 <= addr <= 0xE00_FFFF)
  }

  /** set_mem16: the low byte at `addr & !1`, the high byte at `addr | 1`. */
  function SetMem16Spec(m: Memory, addr: int, val: bv16): (r: (Memory, nat))
    requires MemOk(m) && IsU32(addr) && Set16Defined(addr)
    ensures MemOk(r.0) && r.0.bios == m.bios && r.0.rom == m.rom
    ensures !(0x200_0000 <= addr <= 0x2FF_FFFF) ==> r.0.wram == m.wram
    ensures !(0x300_0000 <= addr <= 0x3FF_FFFF) ==> r.0.iwRam == m.iwRam
    ensures !(0x400_0000 <= addr <= 0x4FF_FFFE) ==> r.0.io == m.io
    ensures !(0x500_0000 <= addr <= 0x5FF_FFFF) ==> r.0.palette == m.palette
    ensures !(0x600_0000 <= addr <= 0x6FF_FFFF) ==> r.0.vram == m.vram
    ensures !(0x700_0000 <= addr <= 0x7FF_FFFF) ==> r.0.oam == m.oam
  {
    var lo := Align2(addr);
    var hi := lo + 1;
    if addr <= 0x3FFF then (m, 0)
    else if 0x200_0000 <= addr <= 0x2FF_FFFF then (m.(wram := Put2(m.wram, WramIndex(lo), WramIndex(hi), val)), 3)
    else if 0x300_0000 <= addr <= 0x3FF_FFFF then (m.(iwRam := Put2(m.iwRam, IwIndex(lo), IwIndex(hi), val)), 1)
    else if 0x400_0000 <= addr <= 0x4FF_FFFE then (m.(io := GbaIo.SetMem16Spec(m.io, addr, val)), 1)
    else if 0x500_0000 <= addr <= 0x5FF_FFFF then (m.(palette := Put2(m.palette, SmallIndex(lo), SmallIndex(hi), val)), 1)
    else if 0x600_0000 <= addr <= 0x6FF_FFFF then (m.(vram := Put2(m.vram, VramIndex(lo), VramIndex(hi), val)), 1)
    else if 0x700_0000 <= addr <= 0x7FF_FFFF then (m.(oam := Put2(m.oam, SmallIndex(lo), SmallIndex(hi), val)), 1)
    else (m, 0)
  }

  /** set_mem32: the four bytes at `(addr & !3) | k`; writes to the first ROM window are dropped. */
  function SetMem32Spec(m: Memory, addr: int, val: bv32): (r: (Memory, nat))
    requires MemOk(m) && IsU32(addr) && !UpperRomWindows(addr) && !SramWindow(addr)
    ensures MemOk(r.0) && r.0.bios == m.bios && r.0.rom == m.rom
    ensures !(0x200_0000 <= addr <= 0x2FF_FFFF) ==> r.0.wram == m.wram
    ensures !(0x300_0000 <= addr <= 0x3FF_FFFF) ==> r.0.iwRam == m.iwRam
    ensures !(0x400_0000 <= addr <= 0x4FF_FFFE) ==> r.0.io == m.io
    ensures !(0x500_0000 <= addr <= 0x5FF_FFFF) ==> r.0.palette == m.palette
    ensures !(0x600_0000 <= addr <= 0x6FF_FFFF) ==> r.0.vram == m.vram
    ensures !(0x700_0000 <= addr <= 0x7FF_FFFF) ==> r.0.oam == m.oam
  {
    var lo := Align4(addr);
    if addr <= 0x3FFF then (m, 0)
    else if 0x200_0000 <= addr <= 0x2FF_FFFF then
      (m.(wram := Put4(m.wram, WramIndex(lo), WramIndex(lo + 1), WramIndex(lo + 2), WramIndex(lo + 3), val)), 6)
    else if 0x300_0000 <= addr <= 0x3FF_FFFF then
      (m.(iwRam := Put4(m.iwRam, IwIndex(lo), IwIndex(lo + 1), IwIndex(lo + 2), IwIndex(lo + 3), val)), 1)
    else if 0x400_0000 <= addr <= 0x4FF_FFFE then (m.(io := GbaIo.SetMem32Spec(m.io, addr, val)), 1)
    else if 0x500_0000 <= addr <= 0x5FF_FFFF then
      (m.(palette := Put4(m.palette, SmallIndex(lo), SmallIndex(lo + 1), SmallIndex(lo + 2), SmallIndex(lo + 3), val)), 2)
    else if 0x600_0000 <= addr <= 0x6FF_FFFF then
      (m.(vram := Put4(m.vram, VramIndex(lo), VramIndex(lo + 1), VramIndex(lo + 2), VramIndex(lo + 3), val)), 2)
    else if 0x700_0000 <= addr <= 0x7FF_FFFF then
      (m.(oam := Put4(m.oam, SmallIndex(lo), SmallIndex(lo + 1), SmallIndex(lo + 2), SmallIndex(lo + 3), val)), 1)
    else (m, 0)
  }

  lemma Put2ReadBack(s: seq<bv8>, i: int, v: bv16)
    requires 0 <= i && i + 1 < |s|
    ensures Read16(Put2(s, i, i + 1, v), i, i + 1) == v
  {
    Le16OfBytes(v);
  }

  lemma Put4ReadBack(s: seq<bv8>, i: int, v: bv32)
    requires 0 <= i && i + 3 < |s|
    ensures Read32(Put4(s, i, i + 1, i + 2, i + 3, v), i, i + 1, i + 2, i + 3) == v
  {
    Le32OfBytes(v);
  }

  /** A RAM region of the bus other than the I/O registers: on-board and on-chip work RAM, palette, VRAM and OAM. */
  predicate RamWindow(addr: int)
  {
    (0x200_0000 <= addr <= 0x3FF_FFFF) || (0x500_0000 <= addr <= 0x7FF_FFFF)
  }

  /** A byte written to work RAM reads back. */
  lemma Write8ReadBack(m: Memory, addr: int, val: bv8)
    requires MemOk(m) && IsU32(addr) && 0x200_0000 <= addr <= 0x3FF_FFFF
    ensures GetMem8(SetMem8Spec(m, addr, val).0, addr).0 == val
  {
  }

  /** A byte written to an I/O register outside IF reads back. */
  lemma IoWrite8ReadBack(m: Memory, addr: int, val: bv8)
    requires MemOk(m) && IsU32(addr) && 0x400_0000 <= addr <= 0x4FF_FFFF
    requires !GbaIo.IsIf(SmallIndex(addr))
    ensures GetMem8(SetMem8Spec(m, addr, val).0, addr).0 == val
  {
    GbaIo.OtherWritesStore(m.io, addr, val);
  }

  // The two bytes of an aligned half-word have consecutive indices under every mask the bus uses.

  lemma WramHalfConsecutive(lo: int)
    requires 0 <= lo && lo % 2 == 0
    ensures WramIndex(lo + 1) == WramIndex(lo) + 1
  {
    var q := lo / 2;
    assert lo % WramSize == 2 * (q % 0x2_0000);
  }

  lemma IwHalfConsecutive(lo: int)
    requires 0 <= lo && lo % 2 == 0
    ensures IwIndex(lo + 1) == IwIndex(lo) + 1
  {
    var q := lo / 2;
    assert lo % IwRamSize == 2 * (q % 0x4000);
  }

  lemma SmallHalfConsecutive(lo: int)
    requires 0 <= lo && lo % 2 == 0
    ensures SmallIndex(lo + 1) == SmallIndex(lo) + 1
  {
    var q := lo / 2;
    assert lo % 0x400 == 2 * (q % 0x200);
  }

  lemma VramHalfConsecutive(lo: int)
    requires 0 <= lo && lo % 2 == 0
    ensures VramIndex(lo + 1) == VramIndex(lo) + 1
  {
    var q := lo / 2;
    assert lo % 0x8000 == 2 * (q % 0x4000);
    assert (lo + 1) % 0x8000 == lo % 0x8000 + 1;
    assert lo / 0x10000 == q / 0x8000;
    assert (lo + 1) / 0x10000 == q / 0x8000;
  }

  lemma WramWrite16ReadBack(m: Memory, addr: int, val: bv16)
    requires MemOk(m) && IsU32(addr) && 0x200_0000 <= addr <= 0x2FF_FFFF
    ensures GetMem16(SetMem16Spec(m, addr, val).0, addr).0 == val
  {
    var lo := Align2(addr);
    WramHalfConsecutive(lo);
    var m' := SetMem16Spec(m, addr, val).0;
    assert m'.wram == Put2(m.wram, WramIndex(lo), WramIndex(lo) + 1, val);
    Put2ReadBack(m.wram, WramIndex(lo), val);
    assert GetMem16(m', addr).0 == Read16(m'.wram, WramIndex(lo), WramIndex(lo) + 1);
  }

  lemma IwWrite16ReadBack(m: Memory, addr: int, val: bv16)
    requires MemOk(m) && IsU32(addr) && 0x300_0000 <= addr <= 0x3FF_FFFF
    ensures GetMem16(SetMem16Spec(m, addr, val).0, addr).0 == val
  {
    var lo := Align2(addr);
    IwHalfConsecutive(lo);
    var m' := SetMem16Spec(m, addr, val).0;
    assert m'.iwRam == Put2(m.iwRam, IwIndex(lo), IwIndex(lo) + 1, val);
    Put2ReadBack(m.iwRam, IwIndex(lo), val);
    assert GetMem16(m', addr).0 == Read16(m'.iwRam, IwIndex(lo), IwIndex(lo) + 1);
  }

  lemma PaletteWrite16ReadBack(m: Memory, addr: int, val: bv16)
    requires MemOk(m) && IsU32(addr) && 0x500_0000 <= addr <= 0x5FF_FFFF
    ensures GetMem16(SetMem16Spec(m, addr, val).0, addr).0 == val
  {
    var lo := Align2(addr);
    SmallHalfConsecutive(lo);
    var m' := SetMem16Spec(m, addr, val).0;
    assert m'.palette == Put2(m.palette, SmallIndex(lo), SmallIndex(lo) + 1, val);
    Put2ReadBack(m.palette, SmallIndex(lo), val);
    assert GetMem16(m', addr).0 == Read16(m'.palette, SmallIndex(lo), SmallIndex(lo) + 1);
  }

  lemma VramWrite16ReadBack(m: Memory, addr: int, val: bv16)
    requires MemOk(m) && IsU32(addr) && 0x600_0000 <= addr <= 0x6FF_FFFF
    ensures GetMem16(SetMem16Spec(m, addr, val).0, addr).0 == val
  {
    var lo := Align2(addr);
    VramHalfConsecutive(lo);
    var m' := SetMem16Spec(m, addr, val).0;
    assert m'.vram == Put2(m.vram, VramIndex(lo), VramIndex(lo) + 1, val);
    Put2ReadBack(m.vram, VramIndex(lo), val);
    assert GetMem16(m', addr).0 == Read16(m'.vram, VramIndex(lo), VramIndex(lo) + 1);
  }

  lemma OamWrite16ReadBack(m: Memory, addr: int, val: bv16)
    requires MemOk(m) && IsU32(addr) && 0x700_0000 <= addr <= 0x7FF_FFFF
    ensures GetMem16(SetMem16Spec(m, addr, val).0, addr).0 == val
  {
    var lo := Align2(addr);
    SmallHalfConsecutive(lo);
    var m' := SetMem16Spec(m, addr, val).0;
    assert m'.oam == Put2(m.oam, SmallIndex(lo), SmallIndex(lo) + 1, val);
    Put2ReadBack(m.oam, SmallIndex(lo), val);
    assert GetMem16(m', addr).0 == Read16(m'.oam, SmallIndex(lo), SmallIndex(lo) + 1);
  }

  /** A half-word written to RAM reads back. */
  lemma Write16ReadBack(m: Memory, addr: int, val: bv16)
    requires MemOk(m) && IsU32(addr) && RamWindow(addr)
    ensures GetMem16(SetMem16Spec(m, addr, val).0, addr).0 == val
  {
    if 0x200_0000 <= addr <= 0x2FF_FFFF {
      WramWrite16ReadBack(m, addr, val);
    } else if 0x300_0000 <= addr <= 0x3FF_FFFF {
      IwWrite16ReadBack(m, addr, val);
    } else if 0x500_0000 <= addr <= 0x5FF_FFFF {
      PaletteWrite16ReadBack(m, addr, val);
    } else if 0x600_0000 <= addr <= 0x6FF_FFFF {
      VramWrite16ReadBack(m, addr, val);
    } else {
      OamWrite16ReadBack(m, addr, val);
    }
  }

  lemma WramWrite32ReadBack(m: Memory, addr: int, val: bv32)
    requires MemOk(m) && IsU32(addr) && 0x200_0000 <= addr <= 0x2FF_FFFF
    ensures GetMem32(SetMem32Spec(m, addr, val).0, addr).0 == val
  {
    var lo := Align4(addr);
    WramConsecutive(lo, 1); WramConsecutive(lo, 2); WramConsecutive(lo, 3);
    var m' := SetMem32Spec(m, addr, val).0;
    assert m'.wram == Put4(m.wram, WramIndex(lo), WramIndex(lo) + 1, WramIndex(lo) + 2, WramIndex(lo) + 3, val);
    Put4ReadBack(m.wram, WramIndex(lo), val);
    assert GetMem32(m', addr).0 == Read32(m'.wram, WramIndex(lo), WramIndex(lo) + 1, WramIndex(lo) + 2, WramIndex(lo) + 3);
  }

  lemma IwWrite32ReadBack(m: Memory, addr: int, val: bv32)
    requires MemOk(m) && IsU32(addr) && 0x300_0000 <= addr <= 0x3FF_FFFF
    ensures GetMem32(SetMem32Spec(m, addr, val).0, addr).0 == val
  {
    var lo := Align4(addr);
    IwConsecutive(lo, 1); IwConsecutive(lo, 2); IwConsecutive(lo, 3);
    var m' := SetMem32Spec(m, addr, val).0;
    assert m'.iwRam == Put4(m.iwRam, IwIndex(lo), IwIndex(lo) + 1, IwIndex(lo) + 2, IwIndex(lo) + 3, val);
    Put4ReadBack(m.iwRam, IwIndex(lo), val);
    assert GetMem32(m', addr).0 == Read32(m'.iwRam, IwIndex(lo), IwIndex(lo) + 1, IwIndex(lo) + 2, IwIndex(lo) + 3);
  }

  lemma PaletteWrite32ReadBack(m: Memory, addr: int, val: bv32)
    requires MemOk(m) && IsU32(addr) && 0x500_0000 <= addr <= 0x5FF_FFFF
    ensures GetMem32(SetMem32Spec(m, addr, val).0, addr).0 == val
  {
    var lo := Align4(addr);
    SmallConsecutive(lo, 1); SmallConsecutive(lo, 2); SmallConsecutive(lo, 3);
    var m' := SetMem32Spec(m, addr, val).0;
    assert m'.palette == Put4(m.palette, SmallIndex(lo), SmallIndex(lo) + 1, SmallIndex(lo) + 2, SmallIndex(lo) + 3, val);
    Put4ReadBack(m.palette, SmallIndex(lo), val);
    assert GetMem32(m', addr).0 == Read32(m'.palette, SmallIndex(lo), SmallIndex(lo) + 1, SmallIndex(lo) + 2, SmallIndex(lo) + 3);
  }

  lemma VramWrite32ReadBack(m: Memory, addr: int, val: bv32)
    requires MemOk(m) && IsU32(addr) && 0x600_0000 <= addr <= 0x6FF_FFFF
    ensures GetMem32(SetMem32Spec(m, addr, val).0, addr).0 == val
  {
    var lo := Align4(addr);
    VramConsecutive(lo, 1); VramConsecutive(lo, 2); VramConsecutive(lo, 3);
    var m' := SetMem32Spec(m, addr, val).0;
    assert m'.vram == Put4(m.vram, VramIndex(lo), VramIndex(lo) + 1, VramIndex(lo) + 2, VramIndex(lo) + 3, val);
    Put4ReadBack(m.vram, VramIndex(lo), val);
    assert GetMem32(m', addr).0 == Read32(m'.vram, VramIndex(lo), VramIndex(lo) + 1, VramIndex(lo) + 2, VramIndex(lo) + 3);
  }

  lemma OamWrite32ReadBack(m: Memory, addr: int, val: bv32)
    requires MemOk(m) && IsU32(addr) && 0x700_0000 <= addr <= 0x7FF_FFFF
    ensures GetMem32(SetMem32Spec(m, addr, val).0, addr).0 == val
  {
    var lo := Align4(addr);
    SmallConsecutive(lo, 1); SmallConsecutive(lo, 2); SmallConsecutive(lo, 3);
    var m' := SetMem32Spec(m, addr, val).0;
    assert m'.oam == Put4(m.oam, SmallIndex(lo), SmallIndex(lo) + 1, SmallIndex(lo) + 2, SmallIndex(lo) + 3, val);
    Put4ReadBack(m.oam, SmallIndex(lo), val);
    assert GetMem32(m', addr).0 == Read32(m'.oam, SmallIndex(lo), SmallIndex(lo) + 1, SmallIndex(lo) + 2, SmallIndex(lo) + 3);
  }

  /** A word written to RAM reads back. */
  lemma Write32ReadBack(m: Memory, addr: int, val: bv32)
    requires MemOk(m) && IsU32(addr) && RamWindow(addr)
    ensures GetMem32(SetMem32Spec(m, addr, val).0, addr).0 == val
  {
    if 0x200_0000 <= addr <= 0x2FF_FFFF {
      WramWrite32ReadBack(m, addr, val);
    } else if 0x300_0000 <= addr <= 0x3FF_FFFF {
      IwWrite32ReadBack(m, addr, val);
    } else if 0x500_0000 <= addr <= 0x5FF_FFFF {
      PaletteWrite32ReadBack(m, addr, val);
    } else if 0x600_0000 <= addr <= 0x6FF_FFFF {
      VramWrite32ReadBack(m, addr, val);
    } else {
      OamWrite32ReadBack(m, addr, val);
    }
  }

  /** A half-word written to an I/O register outside IF reads back. */
  lemma IoWrite16ReadBack(m: Memory, addr: int, val: bv16)
    requires MemOk(m) && IsU32(addr) && 0x400_0000 <= addr <= 0x4FF_FFFE
    requires !GbaIo.IsIf(SmallIndex(Align2(addr)))
    ensures GetMem16(SetMem16Spec(m, addr, val).0, addr).0 == val
  {
    var lo := Align2(addr);
    SmallHalfConsecutive(lo);
    var m' := SetMem16Spec(m, addr, val).0;
    assert m'.io == GbaIo.SetMem16Spec(m.io, addr, val);
    GbaIo.SetMem16Stores(m.io, addr, val);
    assert GetMem16(m', addr).0 == Read16(m'.io.regs, SmallIndex(lo), SmallIndex(lo) + 1);
  }

  /** A word written to I/O registers outside IF reads back. */
  lemma IoWrite32ReadBack(m: Memory, addr: int, val: bv32)
    requires MemOk(m) && IsU32(addr) && 0x400_0000 <= addr <= 0x4FF_FFFE
    requires !GbaIo.IsIf(SmallIndex(Align4(addr))) && !GbaIo.IsIf(SmallIndex(Align4(addr)) + 2)
    ensures GetMem32(SetMem32Spec(m, addr, val).0, addr).0 == val
  {
    var m' := SetMem32Spec(m, addr, val).0;
    assert m'.io == GbaIo.SetMem32Spec(m.io, addr, val);
    GbaIo.SetMem32Stores(m.io, addr, val);
    IoRead32(m', addr);
  }

  /** A word read in the I/O window is the I/O block's little-endian word at `(addr & !3) & 0x3FF`. */
  lemma IoRead32(m: Memory, addr: int)
    requires MemOk(m) && IsU32(addr) && 0x400_0000 <= addr <= 0x4FF_FFFE
    ensures SmallIndex(Align4(addr)) + 3 < 0x400
    ensures GetMem32(m, addr).0 == GbaIo.Word(m.io.regs, SmallIndex(Align4(addr)))
  {
    var lo := Align4(addr);
    SmallConsecutive(lo, 1); SmallConsecutive(lo, 2); SmallConsecutive(lo, 3);
    WordIsRead32(m.io.regs, SmallIndex(lo));
  }

  /** In the RAM and I/O windows a half-word read is the two byte reads at `addr & !1` and `addr | 1`. */
  lemma HalfReadIsTwoByteReads(m: Memory, addr: int)
    requires MemOk(m) && IsU32(addr) && 0x200_0000 <= addr <= 0x7FF_FFFF
    ensures GetMem16(m, addr).0 == Le16(GetMem8(m, Align2(addr)).0, GetMem8(m, Align2(addr) + 1).0)
  {
  }
}
