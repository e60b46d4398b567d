/**
 * The bit-field decoders of the GBA core (src/gba/mod.rs): background and
 * DMA control registers, the condition field of an ARM instruction and the
 * processor-mode field of the CPSR.
 */
module GbaDecode {
  import opened Options

  /** A decoded BGxCNT register; the 2- and 5-bit fields are held in bytes, as in the source. */
  datatype PpuBgControl = PpuBgControl(
    priority: bv8,
    characterBaseBlock: bv8,
    mosaic: bool,
    colorMode: bool,
    screenBaseBlock: bv8,
    displayAreaOverflow: bool,
    screenSize: bv8)

  /** The fields of a control value fit their widths. */
  predicate BgControlOk(c: PpuBgControl)
  {
    c.priority <= 3 && c.characterBaseBlock <= 3 && c.screenBaseBlock <= 31 && c.screenSize <= 3
  }

  /** PpuBgControl::from_bits: bits 0-1, 2-3, 6, 7, 8-12, 13 and 14-15. */
  function BgControlFromBits(bits: bv16): (c: PpuBgControl)
    ensures BgControlOk(c)
    ensures c.mosaic <==> bits & 0x40 != 0
    ensures c.colorMode <==> bits & 0x80 != 0
    ensures c.displayAreaOverflow <==> bits & 0x2000 != 0
  {
    PpuBgControl(
      (bits & 0x3) as bv8,
      ((bits >> 2) & 0x3) as bv8,
      bits & 0x40 != 0,
      bits & 0x80 != 0,
      ((bits >> 8) & 0x1F) as bv8,
      bits & 0x2000 != 0,
      ((bits >> 14) & 0x3) as bv8)
  }

  /** The register value a control value is read from, with the unused bits 4 and 5 clear. */
  function BgControlToBits(c: PpuBgControl): bv16
    requires BgControlOk(c)
  {
    (c.priority as bv16)
    | (c.characterBaseBlock as bv16 << 2)
    | (if c.mosaic then 0x40 else 0)
    | (if c.colorMode then 0x80 else 0)
    | (c.screenBaseBlock as bv16 << 8)
    | (if c.displayAreaOverflow then 0x2000 else 0)
    | (c.screenSize as bv16 << 14)
  }

  /** Every well-formed control value is decoded back from its bits. */
  lemma BgControlRoundTrip(c: PpuBgControl)
    requires BgControlOk(c)
    ensures BgControlFromBits(BgControlToBits(c)) == c
  {
  }

  /** Decoding loses exactly bits 4 and 5. */
  lemma BgControlBitsRoundTrip(bits: bv16)
    ensures BgControlToBits(BgControlFromBits(bits)) == bits & 0xFFCF
  {
  }

  datatype DmaAddrControl = Increment | Decrement | Fixed | IncrementReload
  datatype DmaStartTiming = Immediately | VBlank | HBlank | Special

  /** DmaAddrControl::from_bits: any value above 3 is unreachable!(). */
  function AddrControlFromBits(v: bv8): DmaAddrControl
    requires v <= 3
  {
    if v == 0 then Increment else if v == 1 then Decrement else if v == 2 then Fixed else IncrementReload
  }

  function AddrControlBits(a: DmaAddrControl): (v: bv8)
    ensures v <= 3
  {
    match a
    case Increment => 0
    case Decrement => 1
    case Fixed => 2
    case IncrementReload => 3
  }

  /** The two-bit encoding and the decoder are inverse. */
  lemma AddrControlRoundTrip(a: DmaAddrControl, v: bv8)
    ensures AddrControlFromBits(AddrControlBits(a)) == a
    ensures v <= 3 ==> AddrControlBits(AddrControlFromBits(v)) == v
  {
  }

  /** DmaStartTiming::from_bits: any value above 3 is unreachable!(). */
  function StartTimingFromBits(v: bv8): DmaStartTiming
    requires v <= 3
  {
    if v == 0 then Immediately else if v == 1 then VBlank else if v == 2 then HBlank else Special
  }

  function StartTimingBits(t: DmaStartTiming): (v: bv8)
    ensures v <= 3
  {
    match t
    case Immediately => 0
    case VBlank => 1
    case HBlank => 2
    case Special => 3
  }

  lemma StartTimingRoundTrip(t: DmaStartTiming, v: bv8)
    ensures StartTimingFromBits(StartTimingBits(t)) == t
    ensures v <= 3 ==> StartTimingBits(StartTimingFromBits(v)) == v
  {
  }

  datatype DmaControl = DmaControl(
    destAddrControl: DmaAddrControl,
    sourceAddrControl: DmaAddrControl,
    repeat: bool,
    transferType: bool,
    gamePakDrq: bool,
    startTiming: DmaStartTiming,
    irqAtEnd: bool,
    enabled: bool)

  /**
   * DmaControl::from_bits: every field handed to a two-bit decoder is masked
   * with 0b11 first, so neither unreachable!() arm can be reached.
   */
  function DmaControlFromBits(bits: bv16): (c: DmaControl)
    ensures c.enabled <==> bits & 0x8000 != 0
    ensures c.irqAtEnd <==> bits & 0x4000 != 0
  {
    DmaControl(
      AddrControlFromBits(((bits >> 5) & 0x3) as bv8),
      AddrControlFromBits(((bits >> 7) & 0x3) as bv8),
      (bits >> 9) & 1 == 1,
      (bits >> 10) & 1 == 1,
      (bits >> 11) & 1 == 1,
      StartTimingFromBits(((bits >> 12) & 0x3) as bv8),
      (bits >> 14) & 1 == 1,
      (bits >> 15) & 1 == 1)
  }

  function DmaControlToBits(c: DmaControl): bv16
  {
    (AddrControlBits(c.destAddrControl) as bv16 << 5)
    | (AddrControlBits(c.sourceAddrControl) as bv16 << 7)
    | (if c.repeat then 0x200 else 0)
    | (if c.transferType then 0x400 else 0)
    | (if c.gamePakDrq then 0x800 else 0)
    | (StartTimingBits(c.startTiming) as bv16 << 12)
    | (if c.irqAtEnd then 0x4000 else 0)
    | (if c.enabled then 0x8000 else 0)
  }

  /** Every control value is decoded back from its bits. */
  lemma DmaControlRoundTrip(c: DmaControl)
    ensures DmaControlFromBits(DmaControlToBits(c)) == c
  {
    AddrControlRoundTrip(c.destAddrControl, 0);
    AddrControlRoundTrip(c.sourceAddrControl, 0);
    StartTimingRoundTrip(c.startTiming, 0);
  }

  /** Decoding loses exactly the low five bits, which DMA control does not use. */
  lemma DmaControlBitsRoundTrip(bits: bv16)
    ensures DmaControlToBits(DmaControlFromBits(bits)) == bits & 0xFFE0
  {
    var c := DmaControlFromBits(bits);
    AddrControlRoundTrip(c.destAddrControl, ((bits >> 5) & 0x3) as bv8);
    AddrControlRoundTrip(c.sourceAddrControl, ((bits >> 7) & 0x3) as bv8);
    StartTimingRoundTrip(c.startTiming, ((bits >> 12) & 0x3) as bv8);
  }

  /** The condition field of an ARM instruction (ARM ARM section A3.2). */
  datatype Cond = Eq | Ne | CsHs | CcLo | Mi | Pl | Vs | Vc | Hi | Ls | Ge | Lt | Gt | Le | Al | Nv

  /** Cond::from_u8: the sixteen four-bit encodings in order; above 15 is unreachable!(). */
  function CondFromU8(v: bv8): Cond
    requires v <= 15
  {
    match v
    case 0 => Eq
    case 1 => Ne
    case 2 => CsHs
    case 3 => CcLo
    case 4 => Mi
    case 5 => Pl
    case 6 => Vs
    case 7 => Vc
    case 8 => Hi
    case 9 => Ls
    case 10 => Ge
    case 11 => Lt
    case 12 => Gt
    case 13 => Le
    case 14 => Al
    case _ => Nv
  }

  function CondBits(c: Cond): (v: bv8)
    ensures v <= 15
  {
    match c
    case Eq => 0
    case Ne => 1
    case CsHs => 2
    case CcLo => 3
    case Mi => 4
    case Pl => 5
    case Vs => 6
    case Vc => 7
    case Hi => 8
    case Ls => 9
    case Ge => 10
    case Lt => 11
    case Gt => 12
    case Le => 13
    case Al => 14
    case Nv => 15
  }

  /** Decoding is a bijection from 0..=15 onto the conditions. */
  lemma CondRoundTrip(c: Cond, v: bv8)
    ensures CondFromU8(CondBits(c)) == c
    ensures v <= 15 ==> CondBits(CondFromU8(v)) == v
  {
  }

  /** The condition pairs differ only in bit 0 of the encoding: EQ/NE, CS/CC, ..., AL/NV. */
  lemma CondPairsDifferInBit0(v: bv8)
    requires v <= 15
    ensures CondFromU8(v ^ 1) == Complement(CondFromU8(v))
  {
  }

  /** The condition of the opposite meaning, per ARM ARM section A3.2. */
  function Complement(c: Cond): Cond
  {
    match c
    case Eq => Ne
    case Ne => Eq
    case CsHs => CcLo
    case CcLo => CsHs
    case Mi => Pl
    case Pl => Mi
    case Vs => Vc
    case Vc => Vs
    case Hi => Ls
    case Ls => Hi
    case Ge => Lt
    case Lt => Ge
    case Gt => Le
    case Le => Gt
    case Al => Nv
    case Nv => Al
  }

  /** The processor modes the register file distinguishes (ARM ARM section A2.2). */
  datatype RegisterMode = User | Fiq | Irq | Supervisor | Abort | Undefined

  /** RegisterMode::from_u8: seven encodings are recognised, User twice (as User and as System). */
  function RegisterModeFromU8(v: bv8): (r: Option<RegisterMode>)
    ensures r.Some? <==> v in {0x10, 0x11, 0x12, 0x13, 0x17, 0x1B, 0x1F}
    ensures r == Some(User) <==> v == 0x10 || v == 0x1F
  {
    match v
    case 0x10 => Some(User)
    case 0x11 => Some(Fiq)
    case 0x12 => Some(Irq)
    case 0x13 => Some(Supervisor)
    case 0x17 => Some(Abort)
    case 0x1B => Some(Undefined)
    case 0x1F => Some(User)
    case _ => None
  }

  /** The canonical five mode bits of each mode; User is written 0b10000. */
  function ModeBits(m: RegisterMode): bv8
  {
    match m
    case User => 0x10
    case Fiq => 0x11
    case Irq => 0x12
    case Supervisor => 0x13
    case Abort => 0x17
    case Undefined => 0x1B
  }

  /** Every mode is recognised from its own bits, which fit in five bits with bit 4 set. */
  lemma ModeBitsRoundTrip(m: RegisterMode)
    ensures RegisterModeFromU8(ModeBits(m)) == Some(m)
    ensures ModeBits(m) & 0xE0 == 0 && ModeBits(m) & 0x10 != 0
  {
  }

  /** Only User has two encodings: every other mode is recognised from its canonical bits alone. */
  lemma ModeDecodeInjective(v: bv8)
    requires RegisterModeFromU8(v).Some? && RegisterModeFromU8(v) != Some(User)
    ensures v == ModeBits(RegisterModeFromU8(v).value)
  {
  }

  /** The two-bit mode held in bits 0-1 of the old-style PC. */
  datatype Mode = ModeUser | ModeFiq | ModeIrq | ModeSupervisor

  /** Mode::from_u8: above 3 is unimplemented!(). */
  function ModeFromU8(v: bv8): (m: Mode)
    requires v <= 3
    ensures v == 0 <==> m == ModeUser
    ensures v == 3 <==> m == ModeSupervisor
  {
    if v == 0 then ModeUser else if v == 1 then ModeFiq else if v == 2 then ModeIrq else ModeSupervisor
  }

  /** split_pc: flags in bits 28-31, IRQ/FIQ disable in bits 27/26, the word address in bits 2-25, the mode in bits 0-1. */
  function SplitPc(pc: bv32): (r: (bv8, (bool, bool), bv32, Mode))
    ensures r.0 <= 15 && r.2 < 0x100_0000
    ensures r.1.0 <==> pc & 0x800_0000 != 0
    ensures r.1.1 <==> pc & 0x400_0000 != 0
  {
    var mode := ModeFromU8((pc & 3) as bv8);
    var addr := (pc >> 2) & 0xFF_FFFF;
    var flags := (pc >> 28) & 0xF;
    (flags as bv8, ((pc >> 27) & 1 == 1, (pc >> 26) & 1 == 1), addr, mode)
  }
}
