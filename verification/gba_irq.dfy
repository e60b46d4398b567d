/**
 * GBA interrupts (src/gba/mod.rs): the IE (0x200/0x201) and IF
 * (0x202/0x203) registers read through the *_interrupt_enabled and
 * *_interrupt_requested getters and written by the set_*_interrupt
 * setters, the pending-IRQ test of maybe_handle_interrupts, and the IRQ
 * entry sequence of irq_interrupt (ARM ARM section A2.6.8).
 */
module GbaInterrupts {
  import opened Options
  import opened GbaDecode
  import opened GbaRegisters
  import GbaIo

  /** The fourteen interrupt sources in bit order: VBlank, HBlank, VCounter, Timer0-3, Serial, DMA0-3, Keypad, Game Pak. */
  const SourceCount := 14

  /** The single-bit mask of bit b of a byte. */
  function BitMask(b: int): (r: bv8)
    requires 0 <= b < 8
    ensures r != 0 && r & (r - 1) == 0
  {
    if b == 0 then 0x01 else if b == 1 then 0x02 else if b == 2 then 0x04 else if b == 3 then 0x08
    else if b == 4 then 0x10 else if b == 5 then 0x20 else if b == 6 then 0x40 else 0x80
  }

  /** Bit k of the 16-bit register whose low byte is at offset base. */
  function RegBit(regs: seq<bv8>, base: int, k: int): bool
    requires |regs| == GbaIo.IoSize && 0 <= base && base + 1 < GbaIo.IoSize && 0 <= k < 16
  {
    if k < 8 then regs[base] & BitMask(k) != 0 else regs[base + 1] & BitMask(k - 8) != 0
  }

  /** The *_interrupt_enabled getters: bit k of IE. */
  function Enabled(regs: seq<bv8>, k: int): bool
    requires |regs| == GbaIo.IoSize && 0 <= k < SourceCount
  {
    RegBit(regs, 0x200, k)
  }

  /** The *_interrupt_requested getters: bit k of IF. */
  function Requested(regs: seq<bv8>, k: int): bool
    requires |regs| == GbaIo.IoSize && 0 <= k < SourceCount
  {
    RegBit(regs, 0x202, k)
  }

  /** The set_*_interrupt setters: bit k of IF becomes v, every other byte and bit stays. */
  function SetRequest(regs: seq<bv8>, k: int, v: bool): (r: seq<bv8>)
    requires |regs| == GbaIo.IoSize && 0 <= k < SourceCount
    ensures |r| == GbaIo.IoSize
  {
    var i := if k < 8 then 0x202 else 0x203;
    var mask := BitMask(if k < 8 then k else k - 8);
    regs[i := (regs[i] & !mask) | (if v then mask else 0)]
  }

  /** A setter's bit reads back. */
  lemma SetRequestGetter(regs: seq<bv8>, k: int, v: bool)
    requires |regs| == GbaIo.IoSize && 0 <= k < SourceCount
    ensures Requested(SetRequest(regs, k, v), k) == v
  {
    var i := if k < 8 then 0x202 else 0x203;
    SameMask(regs[i], if k < 8 then k else k - 8, v);
  }

  /** A setter changes no other source's request bit. */
  lemma SetRequestOther(regs: seq<bv8>, k: int, v: bool, j: int)
    requires |regs| == GbaIo.IoSize && 0 <= k < SourceCount && 0 <= j < SourceCount && j != k
    ensures Requested(SetRequest(regs, k, v), j) == Requested(regs, j)
  {
    var i := if k < 8 then 0x202 else 0x203;
    var r := SetRequest(regs, k, v);
    if (j < 8) == (k < 8) {
      DistinctMasks(regs[i], if k < 8 then k else k - 8, if j < 8 then j else j - 8, v);
    } else {
      assert r[if j < 8 then 0x202 else 0x203] == regs[if j < 8 then 0x202 else 0x203];
    }
  }

  /** A setter writes only IF: every enable bit and every other register stays. */
  lemma SetRequestFrame(regs: seq<bv8>, k: int, v: bool)
    requires |regs| == GbaIo.IoSize && 0 <= k < SourceCount
    ensures forall i :: 0 <= i < GbaIo.IoSize && i != 0x202 && i != 0x203 ==> SetRequest(regs, k, v)[i] == regs[i]
    ensures forall j :: 0 <= j < SourceCount ==> Enabled(SetRequest(regs, k, v), j) == Enabled(regs, j)
  {
  }

  lemma SameMask(b: bv8, x: int, v: bool)
    requires 0 <= x < 8
    ensures ((b & !BitMask(x)) | (if v then BitMask(x) else 0)) & BitMask(x) != 0 <==> v
  {
  }

  /** Updating one bit of a byte leaves the other bits. */
  lemma DistinctMasks(b: bv8, x: int, y: int, v: bool)
    requires 0 <= x < 8 && 0 <= y < 8 && x != y
    ensures ((b & !BitMask(x)) | (if v then BitMask(x) else 0)) & BitMask(y) == b & BitMask(y)
  {
  }

  /** An IRQ is pending: some source is both enabled in IE and requested in IF (IE & IF & 0x3FFF != 0). */
  predicate Pending(regs: seq<bv8>)
    requires |regs| == GbaIo.IoSize
  {
    regs[0x200] & regs[0x202] != 0 || regs[0x201] & regs[0x203] & 0x3F != 0
  }

  /** An enabled and requested source makes an IRQ pending. */
  lemma SourceMakesPending(regs: seq<bv8>, k: int)
    requires |regs| == GbaIo.IoSize && 0 <= k < SourceCount
    requires Requested(regs, k) && Enabled(regs, k)
    ensures Pending(regs)
  {
    if k < 8 {
      AndBit(regs[0x200], regs[0x202], k);
    } else {
      AndBit(regs[0x201], regs[0x203], k - 8);
      LowMask(regs[0x201] & regs[0x203], k - 8);
    }
  }

  /** A pending IRQ has a source that is enabled and requested. */
  lemma PendingSource(regs: seq<bv8>) returns (k: int)
    requires |regs| == GbaIo.IoSize && Pending(regs)
    ensures 0 <= k < SourceCount && Requested(regs, k) && Enabled(regs, k)
  {
    if regs[0x200] & regs[0x202] != 0 {
      k := LowestBit(regs[0x200] & regs[0x202]);
      AndBit(regs[0x200], regs[0x202], k);
    } else {
      var b := LowestBit(regs[0x201] & regs[0x203] & 0x3F);
      LowMask(regs[0x201] & regs[0x203], b);
      AndBit(regs[0x201], regs[0x203], b);
      k := b + 8;
    }
  }

  /** The bitwise test is the same as asking for one source that is enabled and requested. */
  lemma PendingIffSomeSource(regs: seq<bv8>)
    requires |regs| == GbaIo.IoSize
    ensures Pending(regs) <==> exists k :: 0 <= k < SourceCount && Requested(regs, k) && Enabled(regs, k)
  {
    if Pending(regs) {
      var k := PendingSource(regs);
    }
    forall k | 0 <= k < SourceCount && Requested(regs, k) && Enabled(regs, k)
      ensures Pending(regs)
    {
      SourceMakesPending(regs, k);
    }
  }

  lemma LowMask(x: bv8, b: int)
    requires 0 <= b < 6
    ensures (x & 0x3F) & BitMask(b) == x & BitMask(b)
  {
  }

  /** A set bit of a non-zero byte, below 6 when the byte is below 0x40. */
  function LowestBit(x: bv8): (b: int)
    requires x != 0
    ensures 0 <= b < 8 && x & BitMask(b) != 0
    ensures x & 0xC0 == 0 ==> b < 6
  {
    if x & 0x01 != 0 then 0 else if x & 0x02 != 0 then 1 else if x & 0x04 != 0 then 2
    else if x & 0x08 != 0 then 3 else if x & 0x10 != 0 then 4 else if x & 0x20 != 0 then 5
    else if x & 0x40 != 0 then 6 else 7
  }

  lemma AndBit(a: bv8, b: bv8, k: int)
    requires 0 <= k < 8
    ensures (a & b) & BitMask(k) != 0 <==> a & BitMask(k) != 0 && b & BitMask(k) != 0
  {
  }

  /**
   * The IRQ test of maybe_handle_interrupts as written: fourteen arms, each
   * "requested && enabled" for one source, except that the VBlank arm tests
   * the HBlank enable bit.
   */
  predicate PendingAsWritten(regs: seq<bv8>)
    requires |regs| == GbaIo.IoSize
  {
    (Requested(regs, 0) && Enabled(regs, 1))
    || (Requested(regs, 1) && Enabled(regs, 1))
    || (Requested(regs, 2) && Enabled(regs, 2))
    || (Requested(regs, 3) && Enabled(regs, 3))
    || (Requested(regs, 4) && Enabled(regs, 4))
    || (Requested(regs, 5) && Enabled(regs, 5))
    || (Requested(regs, 6) && Enabled(regs, 6))
    || (Requested(regs, 7) && Enabled(regs, 7))
    || (Requested(regs, 8) && Enabled(regs, 8))
    || (Requested(regs, 9) && Enabled(regs, 9))
    || (Requested(regs, 10) && Enabled(regs, 10))
    || (Requested(regs, 11) && Enabled(regs, 11))
    || (Requested(regs, 12) && Enabled(regs, 12))
    || (Requested(regs, 13) && Enabled(regs, 13))
  }

  /** IE and IF set for VBlank alone: the written test misses it; IF VBlank with IE HBlank alone: the written test fires with nothing pending. */
  lemma VblankArmTestsHblankEnable()
    ensures var regs := GbaIo.NewIo.regs[0x200 := 0x01][0x202 := 0x01];
      Pending(regs) && !PendingAsWritten(regs)
    ensures var regs := GbaIo.NewIo.regs[0x200 := 0x02][0x202 := 0x01];
      !Pending(regs) && PendingAsWritten(regs)
  {
    var r1 := GbaIo.NewIo.regs[0x200 := 0x01][0x202 := 0x01];
    assert Requested(r1, 0) && Enabled(r1, 0);
    var r2 := GbaIo.NewIo.regs[0x200 := 0x02][0x202 := 0x01];
    assert Requested(r2, 0) && Enabled(r2, 1);
  }

  /** Outside the VBlank arm the written test and the corrected one agree. */
  lemma PendingAsWrittenElsewhere(regs: seq<bv8>)
    requires |regs| == GbaIo.IoSize && !Requested(regs, 0)
    ensures PendingAsWritten(regs) <==> Pending(regs)
  {
    PendingIffSomeSource(regs);
    if Pending(regs) {
      var k :| 0 <= k < SourceCount && Requested(regs, k) && Enabled(regs, k);
      assert k != 0;
    }
  }

  /** The CPSR after set_irq_mode, with the IRQ bank selected. */
  function IrqModeCpsr(s: RegState): (r: RegState)
    ensures RegisterModeOf(r.cpsr) == Some(Irq)
    ensures r == s.(cpsr := WithMode(s.cpsr, 0x12))
  {
    WithModeSelects(s.cpsr);
    s.(cpsr := WithMode(s.cpsr, 0x12))
  }

  /**
   * The steps of irq_interrupt after the SPSR store: ARM state, IRQs
   * disabled, execution from the IRQ vector 0x18.
   */
  function VectorToIrq(s: RegState): RegState
  {
    s.(cpsr := ArmIrqsOff(s.cpsr), pc := 0x18)
  }

  /**
   * irq_interrupt as written: the mode switch comes first, so the value
   * stored into SPSR_irq is the CPSR already in IRQ mode, not the CPSR of
   * the interrupted code. r14_irq gets pc + 4 (wrapping at 32 bits).
   */
  function IrqEntryAsWritten(s: RegState): RegState
  {
    var s1 := IrqModeCpsr(s);
    var s2 := Set(s1, 14, s1.pc + 4);
    VectorToIrq(SetSpsr(s2, s2.cpsr))
  }

  /**
   * irq_interrupt as the exception entry of the ARM ARM (section A2.6.8)
   * has it: SPSR_irq receives the CPSR of the interrupted code.
   */
  function IrqEntry(s: RegState): RegState
  {
    var s1 := IrqModeCpsr(s);
    var s2 := Set(s1, 14, s1.pc + 4);
    VectorToIrq(SetSpsr(s2, s.cpsr))
  }

  /**
   * IRQ entry writes the entry CPSR, pc = 0x18, r14_irq = pc + 4 and
   * SPSR_irq = the old CPSR; every other register is as before.
   */
  lemma IrqEntryRegisters(s: RegState)
    ensures IrqEntry(s) == s.(cpsr := IrqEntryCpsrOf(s.cpsr), pc := 0x18,
      irq := s.irq.(r14 := s.pc + 4), spsr := s.spsr.(irq := s.cpsr))
  {
    var s2 := IrqModeCpsr(s).(irq := s.irq.(r14 := s.pc + 4));
    IrqLinkStore(IrqModeCpsr(s), s.pc + 4);
    IrqSpsrStore(s2, s.cpsr);
  }

  /** In IRQ mode, storing r14 writes r14_irq. */
  lemma IrqLinkStore(s: RegState, v: bv32)
    requires RegisterModeOf(s.cpsr) == Some(Irq)
    ensures Set(s, 14, v) == s.(irq := s.irq.(r14 := v))
  {
    assert BankMode(s) == Irq;
  }

  /** In IRQ mode, writing through get_spsr_mut writes SPSR_irq. */
  lemma IrqSpsrStore(s: RegState, v: bv32)
    requires RegisterModeOf(s.cpsr) == Some(Irq)
    ensures SetSpsr(s, v) == s.(spsr := s.spsr.(irq := v))
  {
  }

  /**
   * After IRQ entry the processor is in IRQ mode and ARM state with IRQs
   * disabled; the condition flags, the FIQ disable bit and the reserved
   * bits are as before.
   */
  lemma IrqEntryCpsr(s: RegState)
    ensures RegisterModeOf(IrqEntry(s).cpsr) == Some(Irq)
    ensures !Bit(IrqEntry(s).cpsr, ThumbBit) && Bit(IrqEntry(s).cpsr, IrqDisableBit)
    ensures IrqEntry(s).cpsr & OtherThanModeTI == s.cpsr & OtherThanModeTI
  {
    IrqEntryRegisters(s);
    IrqEntryCpsrControl(s.cpsr);
    IrqEntryCpsrKeeps(s.cpsr);
  }

  /**
   * As written, the saved SPSR_irq carries the IRQ mode bits, so a return
   * that restores the CPSR from it stays in IRQ mode unless the interrupted
   * code was itself in IRQ mode; otherwise the two entries agree.
   */
  lemma IrqEntrySavesNewMode(s: RegState)
    ensures ModeBitsOf(IrqEntryAsWritten(s).spsr.irq) == 0x12
    ensures ModeBitsOf(IrqEntry(s).spsr.irq) == ModeBitsOf(s.cpsr)
    ensures IrqEntryAsWritten(s) == IrqEntry(s).(spsr := IrqEntry(s).spsr.(irq := WithMode(s.cpsr, 0x12)))
    ensures ModeBitsOf(s.cpsr) != 0x12 ==> IrqEntryAsWritten(s) != IrqEntry(s)
  {
    var s1 := IrqModeCpsr(s);
    var s2 := Set(s1, 14, s1.pc + 4);
    assert SetSpsr(s2, s2.cpsr) == s2.(spsr := s.spsr.(irq := WithMode(s.cpsr, 0x12)));
    assert SetSpsr(s2, s.cpsr) == s2.(spsr := s.spsr.(irq := s.cpsr));
  }

  /**
   * maybe_handle_interrupts (corrected test): nothing happens while the
   * CPSR I bit is set or no source is pending; otherwise IRQ entry.
   */
  function HandleInterrupts(s: RegState, regs: seq<bv8>): (r: RegState)
    requires |regs| == GbaIo.IoSize
    ensures Bit(s.cpsr, IrqDisableBit) || !Pending(regs) ==> r == s
    ensures !Bit(s.cpsr, IrqDisableBit) && Pending(regs) ==> r.pc == 0x18 && r.spsr.irq == s.cpsr && Bit(r.cpsr, IrqDisableBit)
  {
    if Bit(s.cpsr, IrqDisableBit) then s
    else if Pending(regs) then (IrqEntryRegisters(s); IrqEntryCpsr(s); IrqEntry(s))
    else s
  }

  /** Once taken, an interrupt masks further ones: handling again does nothing. */
  lemma HandleInterruptsMasks(s: RegState, regs: seq<bv8>)
    requires |regs| == GbaIo.IoSize
    ensures var r := HandleInterrupts(s, regs); HandleInterrupts(r, regs) == r
  {
  }
}
