/**
 * The GameboyAdvance struct (src/gba/mod.rs): the register file, the I/O
 * block and the memories, updated in place by the set_mem8/16/32 bus
 * writes, by load_rom / load_bios, by the interrupt request setters and by
 * the IRQ entry of maybe_handle_interrupts. Every method is proved against
 * the value-level specifications of GbaBus, GbaIo and GbaInterrupts.
 */
module Gba {
  import opened Options
  import opened GbaDecode
  import opened GbaRegisters
  import opened GbaBus
  import GbaIo
  import opened GbaInterrupts

  /** Two byte stores into an array, as the set_mem16 arms write them. */
  method Store2(a: array<bv8>, i0: int, i1: int, v: bv16)
    requires 0 <= i0 < a.Length && 0 <= i1 < a.Length
    modifies a
    ensures a[..] == Put2(old(a[..]), i0, i1, v)
  {
    a[i0] := HalfByte(v, 0);
    a[i1] := HalfByte(v, 1);
  }

  /** Four byte stores into an array, as the set_mem32 arms write them. */
  method Store4(a: array<bv8>, i0: int, i1: int, i2: int, i3: int, v: bv32)
    requires 0 <= i0 < a.Length && 0 <= i1 < a.Length && 0 <= i2 < a.Length && 0 <= i3 < a.Length
    modifies a
    ensures a[..] == Put4(old(a[..]), i0, i1, i2, i3, v)
  {
    a[i0] := WordByte(v, 0);
    a[i1] := WordByte(v, 1);
    a[i2] := WordByte(v, 2);
    a[i3] := WordByte(v, 3);
  }

  /** A fresh zero-filled buffer, as vec![0; n] or [0; n]. */
  method ZeroedBytes(n: nat) returns (a: array<bv8>)
    ensures fresh(a) && a[..] == seq(n, _ => 0)
  {
    a := new bv8[n](_ => 0);
    assert a[..] == seq(n, _ => 0);
  }

  class GameboyAdvance {
    const r: Registers
    var entireRom: seq<bv8>
    const bios: array<bv8>
    const iwRam: array<bv8>
    const wram: array<bv8>
    const ioRegisters: GbaIo.IoRegisters
    const objPaletteRam: array<bv8>
    const vram: array<bv8>
    const oam: array<bv8>

    /** The array sizes of the struct, and no two memories sharing storage. */
    ghost predicate Valid()
      reads this, ioRegisters
    {
      bios.Length == BiosSize && wram.Length == WramSize && iwRam.Length == IwRamSize
      && objPaletteRam.Length == PaletteSize && vram.Length == VramSize && oam.Length == OamSize
      && ioRegisters.Valid()
      && objPaletteRam != oam && objPaletteRam != ioRegisters.regs && oam != ioRegisters.regs
    }

    /** The memories as values. */
    function Mem(): Memory
      reads this, ioRegisters, ioRegisters.regs, bios, wram, iwRam, objPaletteRam, vram, oam
    {
      Memory(bios[..], wram[..], iwRam[..], ioRegisters.State(), objPaletteRam[..], vram[..], oam[..], entireRom)
    }

    /** GameboyAdvance::new. */
    constructor ()
      ensures Valid() && Mem() == NewMemory && r.State() == NewRegs
      ensures fresh(r) && fresh(ioRegisters) && fresh(ioRegisters.regs)
      ensures fresh(bios) && fresh(wram) && fresh(iwRam) && fresh(objPaletteRam) && fresh(vram) && fresh(oam)
    {
      var biosBuf := ZeroedBytes(BiosSize);
      var iwRamBuf := ZeroedBytes(IwRamSize);
      var wramBuf := ZeroedBytes(WramSize);
      var paletteBuf := ZeroedBytes(PaletteSize);
      var vramBuf := ZeroedBytes(VramSize);
      var oamBuf := ZeroedBytes(OamSize);
      r := new Registers();
      entireRom := [];
      bios, iwRam, wram := biosBuf, iwRamBuf, wramBuf;
      ioRegisters := new GbaIo.IoRegisters();
      objPaletteRam, vram, oam := paletteBuf, vramBuf, oamBuf;
    }

    /**
     * load_rom: the header is read (title, game code, the fixed byte 0xB2
     * and the unit code 0xB3, which only feed log messages) and the whole
     * image becomes the cartridge ROM.
     */
    method LoadRom(bytes: seq<bv8>)
      requires 0xB3 < |bytes|
      modifies this
      ensures Mem() == old(Mem()).(rom := bytes)
    {
      entireRom := bytes;
    }

    /** load_bios: copy_from_slice, which panics unless the lengths agree. */
    method LoadBios(data: seq<bv8>)
      requires Valid() && |data| == BiosSize
      modifies bios
      ensures Mem() == old(Mem()).(bios := data)
    {
      forall i | 0 <= i < BiosSize {
        bios[i] := data[i];
      }
      assert bios[..] == data;
    }

    /** set_mem8: the byte store of the address's window and its cycle count. */
    method SetMem8(address: int, val: bv8) returns (cycles: nat)
      requires Valid() && IsU32(address) && Set8Defined(address)
      modifies wram, iwRam, ioRegisters, ioRegisters.regs
      ensures Valid() && (Mem(), cycles) == SetMem8Spec(old(Mem()), address, val)
    {
      if address <= 0x3FFF {
        cycles := 1;
      } else if 0x200_0000 <= address <= 0x2FF_FFFF {
        wram[WramIndex(address)] := val;
        cycles := 3;
      } else if 0x300_0000 <= address <= 0x3FF_FFFF {
        iwRam[IwIndex(address)] := val;
        cycles := 1;
      } else if 0x400_0000 <= address <= 0x4FF_FFFF {
        ioRegisters.SetMem8(address, val);
        cycles := 1;
      } else {
        cycles := 0;
      }
    }

    /** set_mem16: two byte stores at `address & !1` and `address | 1`. */
    method SetMem16(address: int, val: bv16) returns (cycles: nat)
      requires Valid() && IsU32(address) && Set16Defined(address)
      modifies wram, iwRam, ioRegisters, ioRegisters.regs, objPaletteRam, vram, oam
      ensures Valid() && (Mem(), cycles) == SetMem16Spec(old(Mem()), address, val)
    {
      var lo := Align2(address);
      var hi := lo + 1;
      if address <= 0x3FFF {
        cycles := 0;
      } else if 0x200_0000 <= address <= 0x2FF_FFFF {
        Store2(wram, WramIndex(lo), WramIndex(hi), val);
        cycles := 3;
      } else if 0x300_0000 <= address <= 0x3FF_FFFF {
        Store2(iwRam, IwIndex(lo), IwIndex(hi), val);
        cycles := 1;
      } else if 0x400_0000 <= address <= 0x4FF_FFFE {
        ioRegisters.SetMem16(address, val);
        cycles := 1;
      } else if 0x500_0000 <= address <= 0x5FF_FFFF {
        Store2(objPaletteRam, SmallIndex(lo), SmallIndex(hi), val);
        cycles := 1;
      } else if 0x600_0000 <= address <= 0x6FF_FFFF {
        Store2(vram, VramIndex(lo), VramIndex(hi), val);
        cycles := 1;
      } else if 0x700_0000 <= address <= 0x7FF_FFFF {
        Store2(oam, SmallIndex(lo), SmallIndex(hi), val);
        cycles := 1;
      } else {
        cycles := 0;
      }
    }

    /** set_mem32: four byte stores at `(address & !3) | k`. */
    method SetMem32(address: int, val: bv32) returns (cycles: nat)
      requires Valid() && IsU32(address) && !UpperRomWindows(address) && !SramWindow(address)
      modifies wram, iwRam, ioRegisters, ioRegisters.regs, objPaletteRam, vram, oam
      ensures Valid() && (Mem(), cycles) == SetMem32Spec(old(Mem()), address, val)
    {
      var lo := Align4(address);
      if address <= 0x3FFF {
        cycles := 0;
      } else if 0x200_0000 <= address <= 0x2FF_FFFF {
        Store4(wram, WramIndex(lo), WramIndex(lo + 1), WramIndex(lo + 2), WramIndex(lo + 3), val);
        cycles := 6;
      } else if 0x300_0000 <= address <= 0x3FF_FFFF {
        Store4(iwRam, IwIndex(lo), IwIndex(lo + 1), IwIndex(lo + 2), IwIndex(lo + 3), val);
        cycles := 1;
      } else if 0x400_0000 <= address <= 0x4FF_FFFE {
        ioRegisters.SetMem32(address, val);
        cycles := 1;
      } else if 0x500_0000 <= address <= 0x5FF_FFFF {
        Store4(objPaletteRam, SmallIndex(lo), SmallIndex(lo + 1), SmallIndex(lo + 2), SmallIndex(lo + 3), val);
        cycles := 2;
      } else if 0x600_0000 <= address <= 0x6FF_FFFF {
        Store4(vram, VramIndex(lo), VramIndex(lo + 1), VramIndex(lo + 2), VramIndex(lo + 3), val);
        cycles := 2;
      } else if 0x700_0000 <= address <= 0x7FF_FFFF {
        Store4(oam, SmallIndex(lo), SmallIndex(lo + 1), SmallIndex(lo + 2), SmallIndex(lo + 3), val);
        cycles := 1;
      } else {
        cycles := 0;
      }
    }

    /** The set_*_interrupt setters, source k in IF bit order. */
    method SetInterrupt(k: int, value: bool)
      requires Valid() && 0 <= k < SourceCount
      modifies ioRegisters.regs
      ensures ioRegisters.regs[..] == SetRequest(old(ioRegisters.regs[..]), k, value)
    {
      var i := if k < 8 then 0x202 else 0x203;
      var before := ioRegisters.regs[..];
      var after := SetRequest(before, k, value);
      ioRegisters.regs[i] := after[i];
      assert after == before[i := after[i]];
      assert ioRegisters.regs[..] == before[i := after[i]];
    }

    /** irq_interrupt, saving the CPSR of the interrupted code into SPSR_irq. */
    method IrqInterrupt()
      modifies r
      ensures r.State() == IrqEntry(old(r.State()))
    {
      ghost var s := r.State();
      SaveReturnState();
      r.SetThumb(false);
      r.CpsrDisableIrq();
      r.pc := 0x18;
      IrqEntryRegisters(s);
    }

    /** The first three steps of irq_interrupt: IRQ mode, r14_irq = pc + 4, SPSR_irq = the old CPSR. */
    method SaveReturnState()
      modifies r
      ensures r.State() == old(r.State()).(cpsr := WithMode(old(r.cpsr), 0x12),
        irq := old(r.irq).(r14 := old(r.pc) + 4), spsr := old(r.spsr).(irq := old(r.cpsr)))
    {
      var saved := r.cpsr;
      r.SetIrqMode();
      WithModeSelects(saved);
      StoreLink();
      IrqSpsrStore(r.State(), saved);
      r.SetSpsrMut(saved);
    }

    /** `self.r[14] = self.r.pc + 4` in IRQ mode: the store lands in r14_irq. */
    method StoreLink()
      requires RegisterModeOf(r.cpsr) == Some(Irq)
      modifies r
      ensures r.State() == old(r.State()).(irq := old(r.irq).(r14 := old(r.pc) + 4))
    {
      IrqLinkStore(r.State(), r.pc + 4);
      r.IndexMut(14, r.pc + 4);
    }

    /** maybe_handle_interrupts: IRQ entry when IRQs are not disabled and some source is enabled and requested. */
    method MaybeHandleInterrupts()
      requires Valid()
      modifies r
      ensures r.State() == HandleInterrupts(old(r.State()), ioRegisters.regs[..])
    {
      if r.cpsr & IrqDisableBit != 0 {
        return;
      }
      if Pending(ioRegisters.regs[..]) {
        IrqInterrupt();
      }
    }
  }
}
