/**
 * The banked ARM register file of the GBA core (src/gba/mod.rs, struct
 * Registers): sixteen visible registers chosen by the processor mode in the
 * CPSR (ARM ARM section A2.3), the CPSR condition flags and control bits
 * (section A2.5) and the saved program status registers.
 */
module GbaRegisters {
  import opened Options
  import opened GbaDecode

  /** r0-r7: never banked. */
  datatype LowRegs = LowRegs(r0: bv32, r1: bv32, r2: bv32, r3: bv32, r4: bv32, r5: bv32, r6: bv32, r7: bv32)

  /** r8-r14 of one bank: the user copies (r8..r12, sp, lr) or the _fiq copies. */
  datatype HighRegs = HighRegs(r8: bv32, r9: bv32, r10: bv32, r11: bv32, r12: bv32, r13: bv32, r14: bv32)

  /** r13/r14 of the Supervisor, Abort, IRQ or Undefined bank. */
  datatype Banked = Banked(r13: bv32, r14: bv32)

  /** spsr_fiq, spsr_svc, spsr_abt, spsr_irq, spsr_und. */
  datatype Spsrs = Spsrs(fiq: bv32, svc: bv32, abt: bv32, irq: bv32, und: bv32)

  /** The value of a Registers struct, its 37 words grouped by bank. */
  datatype RegState = RegState(
    lo: LowRegs, usr: HighRegs, pc: bv32, fiq: HighRegs,
    svc: Banked, abt: Banked, irq: Banked, und: Banked,
    cpsr: bv32, spsr: Spsrs)

  const SupervisorIrqFiqDisabled: bv32 := 0xD3

  const ZeroHigh := HighRegs(0, 0, 0, 0, 0, 0, 0)
  const ZeroBanked := Banked(0, 0)

  /** Registers::new: everything zero, CPSR = IRQ and FIQ disabled, ARM state, Supervisor mode. */
  const NewRegs := RegState(
    LowRegs(0, 0, 0, 0, 0, 0, 0, 0), ZeroHigh, 0, ZeroHigh,
    ZeroBanked, ZeroBanked, ZeroBanked, ZeroBanked,
    SupervisorIrqFiqDisabled, Spsrs(0, 0, 0, 0, 0))

  /** The bit selected by a one-bit mask, as `(cpsr >> k) & 1 != 0` reads it. */
  function Bit(c: bv32, mask: bv32): bool
  {
    c & mask != 0
  }

  /** The word with the mask's bit cleared and then set to v, as every cpsr_set_* does. */
  function WithBit(c: bv32, mask: bv32, v: bool): (r: bv32)
    ensures mask != 0 && mask & (mask - 1) == 0 ==> Bit(r, mask) == v
    ensures r & !mask == c & !mask
  {
    (c & !mask) | (if v then mask else 0)
  }

  const SignBit: bv32 := 0x8000_0000
  const ZeroBit: bv32 := 0x4000_0000
  const CarryBit: bv32 := 0x2000_0000
  const OverflowBit: bv32 := 0x1000_0000
  const IrqDisableBit: bv32 := 0x80
  const FiqDisableBit: bv32 := 0x40
  const ThumbBit: bv32 := 0x20

  /** mode_bits: the low five bits of the CPSR. */
  function ModeBitsOf(cpsr: bv32): (m: bv8)
    ensures m <= 0x1F
  {
    (cpsr & 0x1F) as bv8
  }

  /** register_mode. */
  function RegisterModeOf(cpsr: bv32): Option<RegisterMode>
  {
    RegisterModeFromU8(ModeBitsOf(cpsr))
  }

  /** The mode that chooses the bank: an unrecognised mode falls back to Undefined. */
  function BankMode(s: RegState): RegisterMode
  {
    match RegisterModeOf(s.cpsr)
    case Some(m) => m
    case None => Undefined
  }

  /** The r8-r14 bank of a mode: FIQ has its own, all other modes use the user copies. */
  function HighBank(s: RegState, mode: RegisterMode): HighRegs
  {
    if mode == Fiq then s.fiq else s.usr
  }

  /** r13/r14 as the mode sees them. */
  function Banked1314(s: RegState, mode: RegisterMode): Banked
  {
    match mode
    case Fiq => Banked(s.fiq.r13, s.fiq.r14)
    case Supervisor => s.svc
    case Abort => s.abt
    case Irq => s.irq
    case Undefined => s.und
    case User => Banked(s.usr.r13, s.usr.r14)
  }

  function GetLow(lo: LowRegs, i: bv8): bv32
    requires i <= 7
  {
    match i
    case 0 => lo.r0
    case 1 => lo.r1
    case 2 => lo.r2
    case 3 => lo.r3
    case 4 => lo.r4
    case 5 => lo.r5
    case 6 => lo.r6
    case _ => lo.r7
  }

  function SetLow(lo: LowRegs, i: bv8, v: bv32): LowRegs
    requires i <= 7
  {
    match i
    case 0 => lo.(r0 := v)
    case 1 => lo.(r1 := v)
    case 2 => lo.(r2 := v)
    case 3 => lo.(r3 := v)
    case 4 => lo.(r4 := v)
    case 5 => lo.(r5 := v)
    case 6 => lo.(r6 := v)
    case _ => lo.(r7 := v)
  }

  function GetHigh(h: HighRegs, i: bv8): bv32
    requires 8 <= i <= 12
  {
    match i
    case 8 => h.r8
    case 9 => h.r9
    case 10 => h.r10
    case 11 => h.r11
    case _ => h.r12
  }

  function SetHigh(h: HighRegs, i: bv8, v: bv32): HighRegs
    requires 8 <= i <= 12
  {
    match i
    case 8 => h.(r8 := v)
    case 9 => h.(r9 := v)
    case 10 => h.(r10 := v)
    case 11 => h.(r11 := v)
    case _ => h.(r12 := v)
  }

  /** Stores r13 (or r14 when `r14`) of the mode's bank. */
  function SetBanked(s: RegState, mode: RegisterMode, r14: bool, v: bv32): (r: RegState)
    ensures r.lo == s.lo && r.pc == s.pc && r.cpsr == s.cpsr && r.spsr == s.spsr
  {
    match mode
    case Fiq => s.(fiq := if r14 then s.fiq.(r14 := v) else s.fiq.(r13 := v))
    case Supervisor => s.(svc := if r14 then s.svc.(r14 := v) else s.svc.(r13 := v))
    case Abort => s.(abt := if r14 then s.abt.(r14 := v) else s.abt.(r13 := v))
    case Irq => s.(irq := if r14 then s.irq.(r14 := v) else s.irq.(r13 := v))
    case Undefined => s.(und := if r14 then s.und.(r14 := v) else s.und.(r13 := v))
    case User => s.(usr := if r14 then s.usr.(r14 := v) else s.usr.(r13 := v))
  }

  /** Index<u8>: the register visible as r`index` in the current mode; above 15 is unimplemented!(). */
  function Get(s: RegState, index: bv8): bv32
    requires index <= 15
  {
    var mode := BankMode(s);
    if index <= 7 then GetLow(s.lo, index)
    else if index <= 12 then GetHigh(HighBank(s, mode), index)
    else if index == 13 then Banked1314(s, mode).r13
    else if index == 14 then Banked1314(s, mode).r14
    else s.pc
  }

  /** IndexMut<u8>: the same field as Get, overwritten with v. */
  function Set(s: RegState, index: bv8, v: bv32): (r: RegState)
    requires index <= 15
    ensures r.cpsr == s.cpsr && r.spsr == s.spsr
  {
    var mode := BankMode(s);
    if index <= 7 then s.(lo := SetLow(s.lo, index, v))
    else if index <= 12 then
      (if mode == Fiq then s.(fiq := SetHigh(s.fiq, index, v)) else s.(usr := SetHigh(s.usr, index, v)))
    else if index == 13 then SetBanked(s, mode, false, v)
    else if index == 14 then SetBanked(s, mode, true, v)
    else s.(pc := v)
  }

  /** A register written through IndexMut is read back through Index. */
  lemma GetAfterSet(s: RegState, i: bv8, v: bv32)
    requires i <= 15
    ensures Get(Set(s, i, v), i) == v
  {
    assert BankMode(Set(s, i, v)) == BankMode(s);
    if i <= 7 {
      SetLowGet(s.lo, i, v);
    } else if i <= 12 {
      SetHighKeeps1314(s.fiq, i, v);
      SetHighKeeps1314(s.usr, i, v);
    }
  }

  lemma SetLowOther(lo: LowRegs, i: bv8, j: bv8, v: bv32)
    requires i <= 7 && j <= 7 && i != j
    ensures GetLow(SetLow(lo, i, v), j) == GetLow(lo, j)
  {
  }

  lemma SetHighOther(h: HighRegs, i: bv8, j: bv8, v: bv32)
    requires 8 <= i <= 12 && 8 <= j <= 12 && i != j
    ensures GetHigh(SetHigh(h, i, v), j) == GetHigh(h, j)
  {
  }

  lemma SetHighKeeps1314(h: HighRegs, i: bv8, v: bv32)
    requires 8 <= i <= 12
    ensures SetHigh(h, i, v).r13 == h.r13 && SetHigh(h, i, v).r14 == h.r14
    ensures GetHigh(SetHigh(h, i, v), i) == v
  {
  }

  lemma SetLowGet(lo: LowRegs, i: bv8, v: bv32)
    requires i <= 7
    ensures GetLow(SetLow(lo, i, v), i) == v
  {
  }

  lemma SetLowFrame(s: RegState, i: bv8, j: bv8, v: bv32)
    requires i <= 7 && j <= 15 && i != j
    ensures Get(Set(s, i, v), j) == Get(s, j)
  {
    assert BankMode(Set(s, i, v)) == BankMode(s);
    if j <= 7 {
      SetLowOther(s.lo, i, j, v);
    }
  }

  lemma SetHighFrame(s: RegState, i: bv8, j: bv8, v: bv32)
    requires 8 <= i <= 12 && j <= 15 && i != j
    ensures Get(Set(s, i, v), j) == Get(s, j)
  {
    assert BankMode(Set(s, i, v)) == BankMode(s);
    if 8 <= j <= 12 {
      SetHighOther(s.fiq, i, j, v);
      SetHighOther(s.usr, i, j, v);
    } else if 13 <= j <= 14 {
      SetHighKeeps1314(s.fiq, i, v);
      SetHighKeeps1314(s.usr, i, v);
    }
  }

  lemma SetBankedFrame(s: RegState, i: bv8, j: bv8, v: bv32)
    requires 13 <= i <= 14 && j <= 15 && i != j
    ensures Get(Set(s, i, v), j) == Get(s, j)
  {
    assert BankMode(Set(s, i, v)) == BankMode(s);
  }

  /** Within one mode the sixteen visible registers are distinct fields: writing one leaves the others. */
  lemma GetAfterSetOther(s: RegState, i: bv8, j: bv8, v: bv32)
    requires i <= 15 && j <= 15 && i != j
    ensures Get(Set(s, i, v), j) == Get(s, j)
  {
    if i <= 7 {
      SetLowFrame(s, i, j, v);
    } else if i <= 12 {
      SetHighFrame(s, i, j, v);
    } else if i <= 14 {
      SetBankedFrame(s, i, j, v);
    } else {
      assert BankMode(Set(s, i, v)) == BankMode(s);
    }
  }

  /** r0-r7 and r15 are the same fields in every mode. */
  lemma UnbankedRegisters(s: RegState, c: bv32, i: bv8)
    requires i <= 7 || i == 15
    ensures Get(s.(cpsr := c), i) == Get(s, i)
  {
  }

  /** r8-r12 read the _fiq copies exactly in FIQ mode. */
  lemma FiqBankedRegisters(s: RegState, i: bv8)
    requires 8 <= i <= 12
    ensures BankMode(s) == Fiq ==> Get(s, i) == GetHigh(s.fiq, i)
    ensures BankMode(s) != Fiq ==> Get(s, i) == GetHigh(s.usr, i)
  {
  }

  /** r13 and r14 are the mode's own copies; User and System use sp and lr. */
  lemma BankedStackAndLink(s: RegState)
    ensures BankMode(s) == Supervisor ==> Get(s, 13) == s.svc.r13 && Get(s, 14) == s.svc.r14
    ensures BankMode(s) == Irq ==> Get(s, 13) == s.irq.r13 && Get(s, 14) == s.irq.r14
    ensures BankMode(s) == Abort ==> Get(s, 13) == s.abt.r13 && Get(s, 14) == s.abt.r14
    ensures BankMode(s) == Fiq ==> Get(s, 13) == s.fiq.r13 && Get(s, 14) == s.fiq.r14
    ensures BankMode(s) == User ==> Get(s, 13) == s.usr.r13 && Get(s, 14) == s.usr.r14
  {
  }

  /** An unrecognised mode field selects the Undefined bank for r13 and r14 and the user r8-r12. */
  lemma UnknownModeUsesUndefinedBank(s: RegState)
    requires RegisterModeOf(s.cpsr).None?
    ensures Get(s, 13) == s.und.r13 && Get(s, 14) == s.und.r14
    ensures Get(s, 8) == s.usr.r8
  {
  }

  /** Both User encodings, 0b10000 and 0b11111 (System), use the user registers. */
  lemma SystemModeUsesUserBank(s: RegState)
    requires ModeBitsOf(s.cpsr) == 0x1F
    ensures Get(s, 13) == s.usr.r13 && Get(s, 14) == s.usr.r14
  {
  }

  /** get_spsr: the SPSR of the current mode; in User mode or an unrecognised mode it panics. */
  function Spsr(s: RegState): bv32
    requires RegisterModeOf(s.cpsr).Some? && RegisterModeOf(s.cpsr) != Some(User)
  {
    match RegisterModeOf(s.cpsr).value
    case Fiq => s.spsr.fiq
    case Supervisor => s.spsr.svc
    case Abort => s.spsr.abt
    case Irq => s.spsr.irq
    case Undefined => s.spsr.und
  }

  /** Writing through get_spsr_mut: the mode's SPSR changes and nothing else. */
  function SetSpsr(s: RegState, v: bv32): (r: RegState)
    requires RegisterModeOf(s.cpsr).Some? && RegisterModeOf(s.cpsr) != Some(User)
    ensures r == s.(spsr := r.spsr) && Spsr(r) == v
  {
    var sp := s.spsr;
    match RegisterModeOf(s.cpsr).value
    case Fiq => s.(spsr := sp.(fiq := v))
    case Supervisor => s.(spsr := sp.(svc := v))
    case Abort => s.(spsr := sp.(abt := v))
    case Irq => s.(spsr := sp.(irq := v))
    case Undefined => s.(spsr := sp.(und := v))
  }

  /** lr(): the mode's r14; the mode must be recognised. */
  function Lr(s: RegState): (r: bv32)
    requires RegisterModeOf(s.cpsr).Some?
    ensures r == Get(s, 14)
  {
    match RegisterModeOf(s.cpsr).value
    case User => s.usr.r14
    case Fiq => s.fiq.r14
    case Supervisor => s.svc.r14
    case Abort => s.abt.r14
    case Irq => s.irq.r14
    case Undefined => s.und.r14
  }

  /** sp(): the mode's r13; the mode must be recognised. */
  function Sp(s: RegState): (r: bv32)
    requires RegisterModeOf(s.cpsr).Some?
    ensures r == Get(s, 13)
  {
    match RegisterModeOf(s.cpsr).value
    case User => s.usr.r13
    case Fiq => s.fiq.r13
    case Supervisor => s.svc.r13
    case Abort => s.abt.r13
    case Irq => s.irq.r13
    case Undefined => s.und.r13
  }

  /** set_svc_mode / set_irq_mode: bits 0-4 replaced, every other bit kept. */
  function WithMode(cpsr: bv32, m: bv32): (r: bv32)
    requires m <= 0x1F
    ensures r & 0x1F == m
    ensures r & !0x1F == cpsr & !0x1F
  {
    (cpsr & !0x1F) | m
  }

  /** After set_svc_mode / set_irq_mode the register mode is Supervisor / IRQ. */
  lemma WithModeSelects(cpsr: bv32)
    ensures RegisterModeOf(WithMode(cpsr, 0x13)) == Some(Supervisor)
    ensures RegisterModeOf(WithMode(cpsr, 0x12)) == Some(Irq)
  {
  }

  /** The bits other than the mode, T and I: the condition flags, F and the reserved bits. */
  const OtherThanModeTI: bv32 := 0xFFFF_FF40

  /** set_thumb(false) then cpsr_disable_irq. */
  function ArmIrqsOff(c: bv32): bv32
  {
    WithBit(WithBit(c, ThumbBit, false), IrqDisableBit, true)
  }

  /** The CPSR written by IRQ entry: set_irq_mode, set_thumb(false), cpsr_disable_irq. */
  function IrqEntryCpsrOf(c: bv32): bv32
  {
    ArmIrqsOff(WithMode(c, 0x12))
  }

  /** The IRQ entry CPSR keeps every bit other than the mode, T and I. */
  lemma IrqEntryCpsrKeeps(c: bv32)
    ensures IrqEntryCpsrOf(c) & OtherThanModeTI == c & OtherThanModeTI
  {
  }

  /** The IRQ entry CPSR selects IRQ mode, ARM state and IRQs disabled. */
  lemma IrqEntryCpsrControl(c: bv32)
    ensures RegisterModeOf(IrqEntryCpsrOf(c)) == Some(Irq)
    ensures !Bit(IrqEntryCpsrOf(c), ThumbBit) && Bit(IrqEntryCpsrOf(c), IrqDisableBit)
  {
    var m := WithMode(c, 0x12);
    var t := WithBit(m, ThumbBit, false);
    WithModeSelects(c);
    assert ModeBitsOf(t) == ModeBitsOf(m);
    assert ModeBitsOf(IrqEntryCpsrOf(c)) == ModeBitsOf(t);
  }

  /** Each flag setter makes its getter return the value written and keeps every other bit. */
  lemma FlagSetterGetter(c: bv32, v: bool)
    ensures Bit(WithBit(c, SignBit, v), SignBit) == v
    ensures Bit(WithBit(c, ZeroBit, v), ZeroBit) == v
    ensures Bit(WithBit(c, CarryBit, v), CarryBit) == v
    ensures Bit(WithBit(c, OverflowBit, v), OverflowBit) == v
    ensures Bit(WithBit(c, ThumbBit, v), ThumbBit) == v
    ensures Bit(WithBit(c, IrqDisableBit, v), IrqDisableBit) == v
  {
  }

  /** A flag setter leaves the mode, and so the register bank, unchanged. */
  lemma FlagSetterKeepsMode(s: RegState, mask: bv32, v: bool, i: bv8)
    requires mask & 0x1F == 0 && i <= 15
    ensures RegisterModeOf(WithBit(s.cpsr, mask, v)) == RegisterModeOf(s.cpsr)
    ensures Get(s.(cpsr := WithBit(s.cpsr, mask, v)), i) == Get(s, i)
  {
    assert ModeBitsOf(WithBit(s.cpsr, mask, v)) == ModeBitsOf(s.cpsr);
  }

  /** A new register file is in Supervisor mode, ARM state, with IRQ and FIQ disabled and flags clear. */
  lemma NewRegsState()
    ensures RegisterModeOf(NewRegs.cpsr) == Some(Supervisor)
    ensures Bit(NewRegs.cpsr, IrqDisableBit) && Bit(NewRegs.cpsr, FiqDisableBit) && !Bit(NewRegs.cpsr, ThumbBit)
    ensures !Bit(NewRegs.cpsr, SignBit) && !Bit(NewRegs.cpsr, ZeroBit)
    ensures !Bit(NewRegs.cpsr, CarryBit) && !Bit(NewRegs.cpsr, OverflowBit)
    ensures forall i :: 0 <= i <= 15 ==> Get(NewRegs, i) == 0
  {
  }

  /** cond_should_execute on the CPSR flags N, Z, C and V (ARM ARM section A3.2). */
  function CondHolds(cpsr: bv32, cond: Cond): bool
  {
    var n := Bit(cpsr, SignBit);
    var z := Bit(cpsr, ZeroBit);
    var c := Bit(cpsr, CarryBit);
    var v := Bit(cpsr, OverflowBit);
    match cond
    case Eq => z
    case Ne => !z
    case CsHs => c
    case CcLo => !c
    case Mi => n
    case Pl => !n
    case Vs => v
    case Vc => !v
    case Hi => c && !z
    case Ls => !c || z
    case Ge => n == v
    case Lt => n != v
    case Gt => !z && n == v
    case Le => z || n != v
    case Al => true
    case Nv => false
  }

  /** AL always passes, NV never, and each condition is the negation of its complement. */
  lemma CondComplements(cpsr: bv32, cond: Cond)
    ensures CondHolds(cpsr, Al) && !CondHolds(cpsr, Nv)
    ensures CondHolds(cpsr, Complement(cond)) <==> !CondHolds(cpsr, cond)
  {
  }

  /** A condition reads only the four flag bits 28-31. */
  lemma CondReadsOnlyFlags(c1: bv32, c2: bv32, cond: Cond)
    requires c1 & 0xF000_0000 == c2 & 0xF000_0000
    ensures CondHolds(c1, cond) == CondHolds(c2, cond)
  {
    assert Bit(c1, SignBit) == Bit(c2, SignBit);
    assert Bit(c1, ZeroBit) == Bit(c2, ZeroBit);
    assert Bit(c1, CarryBit) == Bit(c2, CarryBit);
    assert Bit(c1, OverflowBit) == Bit(c2, OverflowBit);
  }

  /** The register file, its fields grouped by bank and updated in place. */
  class Registers {
    var lo: LowRegs
    var usr: HighRegs
    var pc: bv32
    var fiq: HighRegs
    var svc: Banked
    var abt: Banked
    var irq: Banked
    var und: Banked
    var cpsr: bv32
    var spsr: Spsrs

    function State(): RegState
      reads this
    {
      RegState(lo, usr, pc, fiq, svc, abt, irq, und, cpsr, spsr)
    }

    constructor ()
      ensures State() == NewRegs
    {
      lo := LowRegs(0, 0, 0, 0, 0, 0, 0, 0);
      usr, pc, fiq := ZeroHigh, 0, ZeroHigh;
      svc, abt, irq, und := ZeroBanked, ZeroBanked, ZeroBanked, ZeroBanked;
      cpsr := SupervisorIrqFiqDisabled;
      spsr := Spsrs(0, 0, 0, 0, 0);
    }

    function Index(index: bv8): (r: bv32)
      requires index <= 15
      reads this
      ensures r == Get(State(), index)
    {
      Get(State(), index)
    }

    /** IndexMut<u8>: stores into the field Index reads. */
    method IndexMut(index: bv8, v: bv32)
      requires index <= 15
      modifies this
      ensures State() == Set(old(State()), index, v)
    {
      var mode := BankMode(State());
      if index <= 7 {
        lo := SetLow(lo, index, v);
      } else if index <= 12 {
        if mode == Fiq { fiq := SetHigh(fiq, index, v); } else { usr := SetHigh(usr, index, v); }
      } else if index == 15 {
        pc := v;
      } else {
        SetBankedMut(mode, index == 14, v);
      }
    }

    /** The r13/r14 store of IndexMut: one field of the mode's bank. */
    method SetBankedMut(mode: RegisterMode, r14: bool, v: bv32)
      modifies this
      ensures State() == SetBanked(old(State()), mode, r14, v)
    {
      match mode {
        case Fiq => fiq := if r14 then fiq.(r14 := v) else fiq.(r13 := v);
        case Supervisor => svc := if r14 then svc.(r14 := v) else svc.(r13 := v);
        case Abort => abt := if r14 then abt.(r14 := v) else abt.(r13 := v);
        case Irq => irq := if r14 then irq.(r14 := v) else irq.(r13 := v);
        case Undefined => und := if r14 then und.(r14 := v) else und.(r13 := v);
        case User => usr := if r14 then usr.(r14 := v) else usr.(r13 := v);
      }
    }

    method CpsrSetSignFlag(v: bool)
      modifies this
      ensures State() == old(State()).(cpsr := WithBit(old(cpsr), SignBit, v))
    {
      cpsr := WithBit(cpsr, SignBit, v);
    }

    method CpsrSetZeroFlag(v: bool)
      modifies this
      ensures State() == old(State()).(cpsr := WithBit(old(cpsr), ZeroBit, v))
    {
      cpsr := WithBit(cpsr, ZeroBit, v);
    }

    method CpsrSetCarryFlag(v: bool)
      modifies this
      ensures State() == old(State()).(cpsr := WithBit(old(cpsr), CarryBit, v))
    {
      cpsr := WithBit(cpsr, CarryBit, v);
    }

    method CpsrSetOverflowFlag(v: bool)
      modifies this
      ensures State() == old(State()).(cpsr := WithBit(old(cpsr), OverflowBit, v))
    {
      cpsr := WithBit(cpsr, OverflowBit, v);
    }

    method SetThumb(enabled: bool)
      modifies this
      ensures State() == old(State()).(cpsr := WithBit(old(cpsr), ThumbBit, enabled))
    {
      cpsr := WithBit(cpsr, ThumbBit, enabled);
    }

    /** cpsr_disable_irq: sets bit 7 only. */
    method CpsrDisableIrq()
      modifies this
      ensures State() == old(State()).(cpsr := WithBit(old(cpsr), IrqDisableBit, true))
    {
      cpsr := cpsr | IrqDisableBit;
    }

    method SetSvcMode()
      modifies this
      ensures State() == old(State()).(cpsr := WithMode(old(cpsr), 0x13))
    {
      cpsr := cpsr & !0x1F;
      cpsr := cpsr | 0x13;
    }

    method SetIrqMode()
      modifies this
      ensures State() == old(State()).(cpsr := WithMode(old(cpsr), 0x12))
    {
      cpsr := cpsr & !0x1F;
      cpsr := cpsr | 0x12;
    }

    /** Writing through get_spsr_mut. */
    method SetSpsrMut(v: bv32)
      requires RegisterModeOf(cpsr).Some? && RegisterModeOf(cpsr) != Some(User)
      modifies this
      ensures State() == SetSpsr(old(State()), v)
    {
      match RegisterModeOf(cpsr).value {
        case Fiq => spsr := spsr.(fiq := v);
        case Supervisor => spsr := spsr.(svc := v);
        case Abort => spsr := spsr.(abt := v);
        case Irq => spsr := spsr.(irq := v);
        case Undefined => spsr := spsr.(und := v);
      }
    }
  }
}
