/**
 * The Game Boy CPU state of src/cpu/mod.rs together with the bit accessors
 * generated by the macros of src/cpu/macros.rs.
 *
 * Registers hold the bit pattern of the source's `i8` fields as `bv8`; the
 * 64 KiB address space is the `mem` array.  Rust's plain arithmetic panics
 * on overflow and indexing panics out of range: both become preconditions.
 */
module GbCpu {
  import opened Options
  import opened CpuConstants

  // ---------------------------------------------------------------------
  // Byte pairs and the flag byte
  // ---------------------------------------------------------------------

  function Hi(v: bv16): bv8 { ((v >> 8) & 0xFF) as bv8 }
  function Lo(v: bv16): bv8 { (v & 0xFF) as bv8 }

  /** The 16-bit value read by hl(), bc() and de(). */
  function Pair(hi: bv8, lo: bv8): (r: bv16)
    ensures Hi(r) == hi && Lo(r) == lo
  {
    ((hi as bv16) << 8) | (lo as bv16)
  }

  lemma PairOfHalves(v: bv16)
    ensures Pair(Hi(v), Lo(v)) == v
  {
  }

  /** An `i8` sign-extended to 16 bits, as Rust's `x as i16` / `x as u16`. */
  function SignExtend(x: bv8): (r: bv16)
    ensures Lo(r) == x
    ensures Hi(r) == (if x & 0x80 == 0 then 0 else 0xFF)
  {
    if x & 0x80 == 0 then x as bv16 else (x as bv16) | 0xFF00
  }

  function Bit(b: bool): bv8 { if b then 1 else 0 }

  /** set_flags: the byte stored in F. */
  function FlagsByte(z: bool, n: bool, h: bool, c: bool): (r: bv8)
    ensures (r & ZL == ZL) == z && (r & NLV == NLV) == n
    ensures (r & HL == HL) == h && (r & CL == CL) == c
    ensures r & 0x0F == 0
  {
    (Bit(z) << 7) | (Bit(n) << 6) | (Bit(h) << 5) | (Bit(c) << 4)
  }

  /** Reading the four flags back out of F and re-encoding them keeps the flag nibble. */
  lemma FlagsByteRoundTrip(f: bv8)
    ensures FlagsByte(f & ZL == ZL, f & NLV == NLV, f & HL == HL, f & CL == CL) == f & 0xF0
  {
  }

  // ---------------------------------------------------------------------
  // The register file
  // ---------------------------------------------------------------------

  datatype RegFile = RegFile(a: bv8, b: bv8, c: bv8, d: bv8, e: bv8, f: bv8,
                             h: bv8, l: bv8, sp: bv16, pc: bv16)
  {
    function PairBC(): bv16 { Pair(b, c) }
    function PairDE(): bv16 { Pair(d, e) }
    function PairHL(): bv16 { Pair(h, l) }

    /** access_register16; there is no arm for AF. */
    function Reg16(reg: CpuRegister16): bv16
      requires !reg.AF?
    {
      match reg
      case BC => PairBC()
      case DE => PairDE()
      case HL16 => PairHL()
      case SP => sp
      case Num16(v) => v
    }

    /** set_register16: only BC, DE, HL and SP are writable. */
    function WithReg16(reg: CpuRegister16, v: bv16): (r: RegFile)
      requires reg in {BC, DE, HL16, SP}
      ensures r.Reg16(reg) == v
      ensures r.a == a && r.f == f && r.pc == pc
      ensures forall other :: other in {BC, DE, HL16, SP} && other != reg ==> r.Reg16(other) == Reg16(other)
    {
      match reg
      case BC => this.(b := Hi(v), c := Lo(v))
      case DE => this.(d := Hi(v), e := Lo(v))
      case HL16 => this.(h := Hi(v), l := Lo(v))
      case SP => this.(sp := v)
    }

    /** set_register for the seven plain 8-bit registers. */
    function WithReg8(reg: CpuRegister, v: bv8): (r: RegFile)
      requires reg in {A, B, C, D, E, H, L}
    {
      match reg
      case A => this.(a := v)
      case B => this.(b := v)
      case C => this.(c := v)
      case D => this.(d := v)
      case E => this.(e := v)
      case H => this.(h := v)
      case L => this.(l := v)
    }

    /** access_register for the seven plain 8-bit registers. */
    function Reg8(reg: CpuRegister): bv8
      requires reg in {A, B, C, D, E, H, L}
    {
      match reg
      case A => a
      case B => b
      case C => c
      case D => d
      case E => e
      case H => h
      case L => l
    }
  }

  /** A write to one 8-bit register is read back and no other register moves. */
  lemma WithReg8ReadBack(rf: RegFile, reg: CpuRegister, v: bv8, other: CpuRegister)
    requires reg in {A, B, C, D, E, H, L} && other in {A, B, C, D, E, H, L}
    ensures rf.WithReg8(reg, v).Reg8(reg) == v
    ensures other != reg ==> rf.WithReg8(reg, v).Reg8(other) == rf.Reg8(other)
    ensures rf.WithReg8(reg, v).(a := rf.a, b := rf.b, c := rf.c, d := rf.d, e := rf.e,
                                 h := rf.h, l := rf.l) == rf
  {
  }

  /** The register values reset() establishes. */
  const PostBootRegs := RegFile(0x01, 0x00, 0x13, 0x00, 0xD8, 0xB0, 0x01, 0x4D, 0xFFFE, 0x0000)

  /** The bytes set_bc(0x0013), set_de(0x00D8) and set_hl(0x014D) store. */
  lemma PostBootPairs()
    ensures Hi(0x0013) == PostBootRegs.b && Lo(0x0013) == PostBootRegs.c
    ensures Hi(0x00D8) == PostBootRegs.d && Lo(0x00D8) == PostBootRegs.e
    ensures Hi(0x014D) == PostBootRegs.h && Lo(0x014D) == PostBootRegs.l
  {
  }

  // ---------------------------------------------------------------------
  // set_mem and OAM DMA as functions of the 64 KiB contents
  // ---------------------------------------------------------------------

  const MemSize := 0x10000

  /** The two ranges set_mem mirrors (the echo of work RAM). */
  predicate Echoed(ad: int) { 0xE000 <= ad <= 0xFE00 || 0xC000 <= ad <= 0xDE00 }

  /**
   * `ad ^ (0xE000 - 0xC000)` on the two echoed ranges: bit 13 is clear
   * throughout 0xC000..=0xDE00 and set throughout 0xE000..=0xFE00, so the
   * XOR adds or removes 0x2000 (MirrorIsXor).
   */
  function Mirror(ad: int): (r: int)
    requires Echoed(ad)
    ensures Echoed(r) && r != ad
  {
    if ad >= 0xE000 then ad - 0x2000 else ad + 0x2000
  }

  lemma MirrorIsXor(x: bv16)
    requires 0xC000 <= x <= 0xDE00 || 0xE000 <= x <= 0xFE00
    ensures x ^ 0x2000 == (if x >= 0xE000 then x - 0x2000 else x + 0x2000)
  {
  }

  /** Addresses set_mem stores to directly. */
  predicate Plain(ad: int) { !Echoed(ad) && ad != 0xFF04 && ad != 0xFF44 && ad != 0xFF46 }

  /** The source address of an OAM DMA: the byte written to 0xFF46, shifted left by 8. */
  function DmaSource(v: bv8): int { v as int * 256 }

  /** dma(): 0xA0 bytes from DmaSource(m[0xFF46]) to 0xFE00.., then 0xFF55 := 1. */
  function DmaSpec(m: seq<bv8>): (r: seq<bv8>)
    requires |m| == MemSize
    ensures |r| == MemSize
  {
    seq(MemSize, j requires 0 <= j < MemSize =>
      if 0xFE00 <= j < 0xFEA0 then m[DmaSource(m[0xFF46]) + (j - 0xFE00)]
      else if j == 0xFF55 then 1
      else m[j])
  }

  /** The memory after the first i iterations of dma()'s copy loop from src. */
  ghost function DmaCopied(m: seq<bv8>, src: int, i: int): (r: seq<bv8>)
    requires |m| == MemSize && 0 <= src <= 0xFF00 && src % 256 == 0 && 0 <= i <= 0xA0
    ensures |r| == MemSize
  {
    seq(MemSize, j requires 0 <= j < MemSize =>
      if 0xFE00 <= j < 0xFE00 + i then m[src + (j - 0xFE00)] else m[j])
  }

  /**
   * One iteration: the byte read at src + i has not been overwritten yet (src
   * is a multiple of 256, so src + i is below 0xFE00, at 0xFE00 + i, or from
   * 0xFF00 up), and storing it at 0xFE00 + i extends the copied prefix.
   */
  lemma DmaCopyStep(m: seq<bv8>, src: int, i: int)
    requires |m| == MemSize && 0 <= src <= 0xFF00 && src % 256 == 0 && 0 <= i < 0xA0
    ensures DmaCopied(m, src, i)[src + i] == m[src + i]
    ensures DmaCopied(m, src, i)[0xFE00 + i := m[src + i]] == DmaCopied(m, src, i + 1)
  {
    assert src + i < 0xFE00 || src + i >= 0xFE00 + i;
  }

  /** After 0xA0 iterations and the store to 0xFF55 the memory is DmaSpec's. */
  lemma DmaCopyDone(m: seq<bv8>)
    requires |m| == MemSize
    ensures DmaCopied(m, DmaSource(m[0xFF46]), 0xA0)[0xFF55 := 1] == DmaSpec(m)
  {
  }

  /** set_mem(address, value) on the memory contents `m`. */
  function SetMemSpec(m: seq<bv8>, ad: int, v: bv8): (r: seq<bv8>)
    requires |m| == MemSize && 0 <= ad < MemSize
    ensures |r| == MemSize
  {
    if Echoed(ad) then m[ad := v][Mirror(ad) := v]
    else if ad == 0xFF04 || ad == 0xFF44 then m[ad := 0]
    else if ad == 0xFF46 then DmaSpec(m[0xFF46 := v])
    else m[ad := v]
  }

  lemma SetMemEcho(m: seq<bv8>, ad: int, v: bv8)
    requires |m| == MemSize && 0 <= ad < MemSize && Echoed(ad)
    ensures var r := SetMemSpec(m, ad, v);
      r[ad] == v && r[Mirror(ad)] == v &&
      forall j :: 0 <= j < MemSize && j != ad && j != Mirror(ad) ==> r[j] == m[j]
  {
  }

  lemma SetMemCounters(m: seq<bv8>, ad: int, v: bv8)
    requires |m| == MemSize && (ad == 0xFF04 || ad == 0xFF44)
    ensures SetMemSpec(m, ad, v) == m[ad := 0]
  {
  }

  lemma SetMemDma(m: seq<bv8>, v: bv8)
    requires |m| == MemSize
    ensures var r := SetMemSpec(m, 0xFF46, v);
      r[0xFF46] == v && r[0xFF55] == 1 &&
      (forall j :: 0xFE00 <= j < 0xFEA0 ==>
         r[j] == (if DmaSource(v) + (j - 0xFE00) == 0xFF46 then v else m[DmaSource(v) + (j - 0xFE00)])) &&
      (forall j :: 0 <= j < MemSize && !(0xFE00 <= j < 0xFEA0) && j != 0xFF46 && j != 0xFF55 ==>
         r[j] == m[j])
  {
  }

  lemma SetMemPlain(m: seq<bv8>, ad: int, v: bv8)
    requires |m| == MemSize && 0 <= ad < MemSize && Plain(ad)
    ensures SetMemSpec(m, ad, v) == m[ad := v]
  {
  }

  /** A byte written by set_mem is read back, except at the two counters. */
  lemma SetMemReadBack(m: seq<bv8>, ad: int, v: bv8)
    requires |m| == MemSize && 0 <= ad < MemSize
    ensures SetMemSpec(m, ad, v)[ad] == (if ad == 0xFF04 || ad == 0xFF44 then 0 else v)
  {
  }

  /** push_onto_stack(nn): high byte at sp-3, low byte at sp-2. */
  function PushSpec(m: seq<bv8>, sp: int, nn: bv16): (r: seq<bv8>)
    requires |m| == MemSize && 3 <= sp < MemSize
    ensures |r| == MemSize
  {
    SetMemSpec(SetMemSpec(m, sp - 3, Hi(nn)), sp - 2, Lo(nn))
  }

  /**
   * pop_from_stack after push_onto_stack returns the pushed value: the push
   * leaves sp - 2, and pop reads the low byte at sp and the high byte at
   * sp - 1, which are exactly the bytes the push wrote.
   */
  lemma PushThenPop(m: seq<bv8>, sp: int, nn: bv16)
    requires |m| == MemSize && 3 <= sp < MemSize
    requires Plain(sp - 3) && Plain(sp - 2)
    ensures var r := PushSpec(m, sp, nn);
      Pair(r[sp - 3], r[sp - 2]) == nn
  {
    SetMemPlain(m, sp - 3, Hi(nn));
    SetMemPlain(m[sp - 3 := Hi(nn)], sp - 2, Lo(nn));
    PairOfHalves(nn);
  }

  // ---------------------------------------------------------------------
  // Counters, ALU results and flags
  // ---------------------------------------------------------------------

  /** The value inc_ly stores in LY; `ly() + 1` panics at 255. */
  function IncLyValue(ly: bv8): (r: bv8)
    requires ly != 0xFF
    ensures r < 154
    ensures ly < 153 ==> r == ly + 1
    ensures ly == 153 ==> r == 0
  {
    (ly + 1) % 154
  }

  /** inc_div: `(old as u16 & 0xFF) + 1` truncated to a byte. */
  function IncDivValue(v: bv8): (r: bv8)
    ensures r == v + 1
    ensures v == 0xFF ==> r == 0
  {
    ((((v as bv16) & 0xFF) + 1) & 0xFF) as bv8
  }

  /** dec16's new value. */
  function Dec16Value(v: bv16): (r: bv16)
    ensures r + 1 == v
    ensures v == 0 ==> r == 0xFFFF
    ensures v != 0 ==> r < v
  {
    if v == 0 then 0xFFFF else v - 1
  }

  /** inc16's new value: computed in u32 and truncated to u16. */
  function Inc16Value(v: bv16): (r: bv16)
    ensures r == v + 1
    ensures v == 0xFFFF ==> r == 0
    ensures v != 0xFFFF ==> r > v
  {
    (((v as bv32) + 1) & 0xFFFF) as bv16
  }

  lemma Inc16Dec16Inverse(v: bv16)
    ensures Dec16Value(Inc16Value(v)) == v && Inc16Value(Dec16Value(v)) == v
  {
  }

  /** swap's new value: `((top >> 4) & 0xF) | (bot << 4)`. */
  function SwapNibbles(v: bv8): (r: bv8)
    ensures r & 0x0F == v >> 4
    ensures r >> 4 == v & 0x0F
    ensures r == 0 <==> v == 0
  {
    (((v & 0xF0) >> 4) & 0xF) | ((v & 0x0F) << 4)
  }

  lemma SwapNibblesInvolution(v: bv8)
    ensures SwapNibbles(SwapNibbles(v)) == v
  {
  }

  /** swap's flag byte: exactly ZL when the operand was zero. */
  function SwapFlags(v: bv8): (r: bv8)
    ensures r == FlagsByte(v == 0, false, false, false)
  {
    if v == 0 then ZL else 0
  }

  /** cpl's flag byte. */
  function CplFlags(f: bv8): (r: bv8)
    ensures r & (ZL | CL) == f & (ZL | CL)
    ensures r & NLV == NLV && r & HL == HL
    ensures r & 0x0F == 0
  {
    (f & (ZL | CL)) | NLV | HL
  }

  /** ccf's flag byte. */
  function CcfFlags(f: bv8): (r: bv8)
    ensures r & ZL == f & ZL
    ensures (r & CL == CL) == (f & CL != CL)
    ensures r & (NLV | HL) == 0 && r & 0x0F == 0
  {
    (f & (ZL | CL)) ^ CL
  }

  /** scf's flag byte. */
  function ScfFlags(f: bv8): (r: bv8)
    ensures r & ZL == f & ZL
    ensures r & CL == CL
    ensures r & (NLV | HL) == 0 && r & 0x0F == 0
  {
    (f & ZL) | CL
  }

  /** The low byte and the zero test of the 16-bit AND, OR and XOR are those of the 8-bit ones. */
  lemma AndWide(x: bv8, y: bv8)
    ensures Lo(SignExtend(x) & SignExtend(y)) == x & y
    ensures (SignExtend(x) & SignExtend(y) == 0) == (x & y == 0)
  {
  }

  lemma OrWide(x: bv8, y: bv8)
    ensures Lo((SignExtend(x) & 0xFF) | (SignExtend(y) & 0xFF)) == x | y
    ensures ((SignExtend(x) & 0xFF) | (SignExtend(y) & 0xFF) == 0) == (x | y == 0)
  {
  }

  lemma XorWide(x: bv8, y: bv8)
    ensures Lo(SignExtend(x) ^ SignExtend(y)) == x ^ y
    ensures (SignExtend(x) ^ SignExtend(y) == 0) == (x ^ y == 0)
  {
  }

  /** and: the i16 AND of the sign-extended operands; returns (new A, new F). */
  function AndResult(x: bv8, y: bv8): (r: (bv8, bv8))
    ensures r.0 == x & y
    ensures r.1 == FlagsByte(r.0 == 0, false, true, false)
  {
    var wide := SignExtend(x) & SignExtend(y);
    AndWide(x, y);
    (Lo(wide), FlagsByte(wide == 0, false, true, false))
  }

  /** or: the OR of the zero-extended operands. */
  function OrResult(x: bv8, y: bv8): (r: (bv8, bv8))
    ensures r.0 == x | y
    ensures r.1 == FlagsByte(r.0 == 0, false, false, false)
  {
    var wide := (SignExtend(x) & 0xFF) | (SignExtend(y) & 0xFF);
    OrWide(x, y);
    (Lo(wide), FlagsByte(wide == 0, false, false, false))
  }

  /** xor: the i16 XOR of the sign-extended operands. */
  function XorResult(x: bv8, y: bv8): (r: (bv8, bv8))
    ensures r.0 == x ^ y
    ensures r.1 == FlagsByte(r.0 == 0, false, false, false)
  {
    var wide := SignExtend(x) ^ SignExtend(y);
    XorWide(x, y);
    (Lo(wide), FlagsByte(wide == 0, false, false, false))
  }

  /** The and/or/xor cases of the upstream tests in src/cpu/tests.rs (lines 69-81). */
  lemma AluTestCases()
    ensures AndResult(0x0F, 0x0F) == (0x0F, HL) && AndResult(0x0F, 0x01) == (0x01, HL)
    ensures AndResult(0x0F, 0x70) == (0x00, ZL | HL)
    ensures OrResult(0x0F, 0x0F) == (0x0F, 0) && OrResult(0x0F, 0x00) == (0x0F, 0)
    ensures OrResult(0x0F, 0xF0) == (0xFF, 0) && OrResult(0x00, 0x00) == (0x00, ZL)
    ensures XorResult(0x0F, 0x0F) == (0x00, ZL) && XorResult(0x0F, 0x00) == (0x0F, 0)
    ensures XorResult(0x0F, 0xF0) == (0xFF, 0) && XorResult(0x00, 0x00) == (0x00, ZL)
  {
  }

  // ---------------------------------------------------------------------
  // The macro-generated bit accessors
  // ---------------------------------------------------------------------

  /** The four memory bytes setter_unsetter_and_getter! is instantiated on. */
  datatype BitRegister = SoundOn | InterruptRequest | InterruptEnable | Stat

  function Location(r: BitRegister): (ad: int)
    ensures 0xFF00 <= ad < MemSize && Plain(ad)
  {
    match r
    case SoundOn => 0xFF26
    case InterruptRequest => 0xFF0F
    case InterruptEnable => 0xFFFF
    case Stat => 0xFF41
  }

  /** A generated getter: every bit of the mask must be set. */
  predicate BitsSet(v: bv8, mask: bv8) { v & mask == mask }

  /** A generated setter's new byte. */
  function SetBits(v: bv8, mask: bv8): (r: bv8)
    ensures BitsSet(r, mask)
    ensures r & !mask == v & !mask
  {
    v | mask
  }

  /** A generated unsetter's new byte. */
  function ClearBits(v: bv8, mask: bv8): (r: bv8)
    ensures r & mask == 0
    ensures mask != 0 ==> !BitsSet(r, mask)
    ensures r & !mask == v & !mask
  {
    v & !mask
  }

  /** A multi-bit getter such as get_interrupts_enabled (0x1F) needs every bit. */
  lemma BitsSetNeedsEveryBit(v: bv8, mask: bv8, part: bv8)
    requires part & !mask == 0
    ensures BitsSet(v, mask) ==> BitsSet(v, part)
    ensures BitsSet(v, part) && BitsSet(v, mask & !part) ==> BitsSet(v, mask)
  {
  }

  // Masks of the generated accessors (src/cpu/mod.rs).
  const VBLANK_BIT: bv8 := 0x01
  const LCDC_BIT: bv8 := 0x02
  const TIMER_BIT: bv8 := 0x04
  const SERIAL_BIT: bv8 := 0x08
  const INPUT_BIT: bv8 := 0x10
  const ALL_INTERRUPTS: bv8 := 0x1F
  const STAT_COINCIDENCE_INTERRUPT: bv8 := 0x40
  const STAT_OAM_INTERRUPT: bv8 := 0x20
  const STAT_VBLANK_INTERRUPT: bv8 := 0x10
  const STAT_HBLANK_INTERRUPT: bv8 := 0x08
  const STAT_COINCIDENCE_FLAG: bv8 := 0x04

  // ---------------------------------------------------------------------
  // Interrupts and buttons
  // ---------------------------------------------------------------------

  datatype Interrupt = VBlankInt | LcdcInt | TimerInt | SerialInt | InputInt

  function InterruptMask(i: Interrupt): bv8
  {
    match i
    case VBlankInt => VBLANK_BIT
    case LcdcInt => LCDC_BIT
    case TimerInt => TIMER_BIT
    case SerialInt => SERIAL_BIT
    case InputInt => INPUT_BIT
  }

  function InterruptVector(i: Interrupt): bv16
  {
    match i
    case VBlankInt => VBLANK_INTERRUPT_ADDRESS
    case LcdcInt => LCDC_INTERRUPT_ADDRESS
    case TimerInt => TIMER_OVERFLOW_INTERRUPT_ADDRESS
    case SerialInt => SERIAL_TRANSFER_INTERRUPT_ADDRESS
    case InputInt => P1013_INTERRUPT_ADDRESS
  }

  /** Priority order handle_interrupts tests its sources in. */
  function Rank(i: Interrupt): nat
  {
    match i
    case VBlankInt => 0
    case LcdcInt => 1
    case TimerInt => 2
    case SerialInt => 3
    case InputInt => 4
  }

  predicate Ready(ie: bv8, iflag: bv8, i: Interrupt)
  {
    BitsSet(ie, InterruptMask(i)) && BitsSet(iflag, InterruptMask(i))
  }

  /** The source handle_interrupts services: the first of VBlank, LCDC, Timer, Serial that is ready. */
  function PendingInterrupt(ie: bv8, iflag: bv8): (r: Option<Interrupt>)
    ensures r.Some? ==> r.value != InputInt && Ready(ie, iflag, r.value)
    ensures r.Some? ==> forall j :: Rank(j) < Rank(r.value) ==> !Ready(ie, iflag, j)
    ensures r.None? ==> forall j :: j != InputInt ==> !Ready(ie, iflag, j)
  {
    if Ready(ie, iflag, VBlankInt) then Some(VBlankInt)
    else if Ready(ie, iflag, LcdcInt) then Some(LcdcInt)
    else if Ready(ie, iflag, TimerInt) then Some(TimerInt)
    else if Ready(ie, iflag, SerialInt) then Some(SerialInt)
    else None
  }

  /** Memory after servicing interrupt i: IE := 0, request bit cleared, PC pushed. */
  function ServiceMem(m: seq<bv8>, i: Interrupt, sp: int, pc: bv16): (r: seq<bv8>)
    requires |m| == MemSize && 3 <= sp < MemSize
    ensures |r| == MemSize
  {
    var m1 := SetMemSpec(m, 0xFFFF, 0);
    var m2 := m1[0xFF0F := ClearBits(m1[0xFF0F], InterruptMask(i))];
    PushSpec(m2, sp, pc)
  }

  /** With the stack in ordinary memory, servicing leaves exactly the expected marks. */
  lemma ServiceMemEffects(m: seq<bv8>, i: Interrupt, sp: int, pc: bv16)
    requires |m| == MemSize && 3 <= sp < MemSize
    requires Plain(sp - 3) && Plain(sp - 2)
    requires sp - 2 != 0xFF0F && sp - 3 != 0xFF0F
    requires sp - 2 != 0xFFFF
    ensures var r := ServiceMem(m, i, sp, pc);
      r[0xFFFF] == 0 && r[0xFF0F] == ClearBits(m[0xFF0F], InterruptMask(i)) &&
      r[sp - 3] == Hi(pc) && r[sp - 2] == Lo(pc) &&
      forall j :: 0 <= j < MemSize && j !in {0xFFFF, 0xFF0F, sp - 3, sp - 2} ==> r[j] == m[j]
  {
  }

  datatype Button = StartButton | SelectButton | BButton | AButton
                  | DownButton | UpButton | LeftButton | RightButton

  /** The input_state bit of each button. */
  function ButtonMask(b: Button): (r: bv8)
    ensures r != 0 && r & (r - 1) == 0
  {
    match b
    case StartButton => 0x80
    case SelectButton => 0x40
    case BButton => 0x20
    case AButton => 0x10
    case DownButton => 0x8
    case UpButton => 0x4
    case LeftButton => 0x2
    case RightButton => 0x1
  }

  lemma ButtonMasksDistinct(x: Button, y: Button)
    requires x != y
    ensures ButtonMask(x) & ButtonMask(y) == 0
  {
  }

  /** A palette register split into its four 2-bit shades, lowest first (bgp, obp0, obp1). */
  function Shades(v: bv8): (r: (bv8, bv8, bv8, bv8))
    ensures r.0 <= 3 && r.1 <= 3 && r.2 <= 3 && r.3 <= 3
    ensures r.0 | (r.1 << 2) | (r.2 << 4) | (r.3 << 6) == v
  {
    ((v >> 0) & 3, (v >> 2) & 3, (v >> 4) & 3, (v >> 6) & 3)
  }

  /** The timer and square-channel register values reset() stores. */
  const PostBootTimerSquareIo: map<int, bv8> := map[
    0xFF05 := 0x00, 0xFF06 := 0x00, 0xFF07 := 0x00, 0xFF10 := 0x80,
    0xFF11 := 0xBF, 0xFF12 := 0xF3, 0xFF14 := 0xBF, 0xFF16 := 0x3F,
    0xFF17 := 0x00, 0xFF19 := 0xBF]

  /** The wave, noise and control register values reset() stores. */
  const PostBootWaveNoiseIo: map<int, bv8> := map[
    0xFF1A := 0x7F, 0xFF1B := 0xFF,
    0xFF1C := 0x9F, 0xFF1E := 0xBF, 0xFF20 := 0xFF, 0xFF21 := 0x00,
    0xFF22 := 0x00, 0xFF23 := 0xBF, 0xFF24 := 0x77, 0xFF25 := 0xF3,
    0xFF26 := 0xF1]

  /** The timer and sound register values reset() stores. */
  const PostBootSoundIo: map<int, bv8> := PostBootTimerSquareIo + PostBootWaveNoiseIo

  /** The LCD and interrupt-enable register values reset() stores. */
  const PostBootVideoIo: map<int, bv8> := map[
    0xFF40 := 0x91, 0xFF42 := 0x00, 0xFF43 := 0x00,
    0xFF45 := 0x00, 0xFF47 := 0xFC, 0xFF48 := 0xFF, 0xFF49 := 0xFF,
    0xFF4A := 0x00, 0xFF4B := 0x00, 0xFFFF := 0x00]

  /** The post-boot I/O register table of reset(). */
  const PostBootIo: map<int, bv8> := PostBootSoundIo + PostBootVideoIo

  /** reset()'s stores into the timer and the two square channels. */
  function ResetTimerSquareMem(m: seq<bv8>): (r: seq<bv8>)
    requires |m| == MemSize
    ensures |r| == MemSize
  {
    m[0xFF05 := 0x00][0xFF06 := 0x00][0xFF07 := 0x00][0xFF10 := 0x80]
     [0xFF11 := 0xBF][0xFF12 := 0xF3][0xFF14 := 0xBF][0xFF16 := 0x3F]
     [0xFF17 := 0x00][0xFF19 := 0xBF]
  }

  /** reset()'s stores into the wave and noise channels and the sound control registers. */
  function ResetWaveNoiseMem(m: seq<bv8>): (r: seq<bv8>)
    requires |m| == MemSize
    ensures |r| == MemSize
  {
    m[0xFF1A := 0x7F][0xFF1B := 0xFF]
     [0xFF1C := 0x9F][0xFF1E := 0xBF][0xFF20 := 0xFF][0xFF21 := 0x00]
     [0xFF22 := 0x00][0xFF23 := 0xBF][0xFF24 := 0x77][0xFF25 := 0xF3]
     [0xFF26 := 0xF1]
  }

  /** reset()'s stores into the timer and sound registers. */
  function ResetSoundMem(m: seq<bv8>): (r: seq<bv8>)
    requires |m| == MemSize
    ensures |r| == MemSize
  {
    ResetWaveNoiseMem(ResetTimerSquareMem(m))
  }

  /** reset()'s stores into the LCD registers and the interrupt enable register. */
  function ResetVideoMem(m: seq<bv8>): (r: seq<bv8>)
    requires |m| == MemSize
    ensures |r| == MemSize
  {
    m[0xFF40 := 0x91][0xFF42 := 0x00][0xFF43 := 0x00]
     [0xFF45 := 0x00][0xFF47 := 0xFC][0xFF48 := 0xFF][0xFF49 := 0xFF]
     [0xFF4A := 0x00][0xFF4B := 0x00][0xFFFF := 0x00]
  }

  /** The memory after reset()'s stores. */
  function ResetMem(m: seq<bv8>): (r: seq<bv8>)
    requires |m| == MemSize
    ensures |r| == MemSize
  {
    ResetVideoMem(ResetSoundMem(m))
  }

  lemma ResetTimerSquareMemMatchesTable(m: seq<bv8>)
    requires |m| == MemSize
    ensures forall j :: j in PostBootTimerSquareIo ==> 0 <= j < MemSize && ResetTimerSquareMem(m)[j] == PostBootTimerSquareIo[j]
    ensures forall j :: 0 <= j < MemSize && j !in PostBootTimerSquareIo ==> ResetTimerSquareMem(m)[j] == m[j]
  {
  }

  lemma ResetWaveNoiseMemMatchesTable(m: seq<bv8>)
    requires |m| == MemSize
    ensures forall j :: j in PostBootWaveNoiseIo ==> 0 <= j < MemSize && ResetWaveNoiseMem(m)[j] == PostBootWaveNoiseIo[j]
    ensures forall j :: 0 <= j < MemSize && j !in PostBootWaveNoiseIo ==> ResetWaveNoiseMem(m)[j] == m[j]
  {
  }

  lemma ResetSoundMemMatchesTable(m: seq<bv8>)
    requires |m| == MemSize
    ensures forall j :: j in PostBootSoundIo ==> 0 <= j < MemSize && ResetSoundMem(m)[j] == PostBootSoundIo[j]
    ensures forall j :: 0 <= j < MemSize && j !in PostBootSoundIo ==> ResetSoundMem(m)[j] == m[j]
  {
    ResetTimerSquareMemMatchesTable(m);
    ResetWaveNoiseMemMatchesTable(ResetTimerSquareMem(m));
  }

  lemma ResetVideoMemMatchesTable(m: seq<bv8>)
    requires |m| == MemSize
    ensures forall j :: j in PostBootVideoIo ==> 0 <= j < MemSize && ResetVideoMem(m)[j] == PostBootVideoIo[j]
    ensures forall j :: 0 <= j < MemSize && j !in PostBootVideoIo ==> ResetVideoMem(m)[j] == m[j]
  {
  }

  /** reset() stores exactly the post-boot table and leaves every other byte alone. */
  lemma ResetMemMatchesTable(m: seq<bv8>)
    requires |m| == MemSize
    ensures forall j :: j in PostBootIo ==> 0 <= j < MemSize && ResetMem(m)[j] == PostBootIo[j]
    ensures forall j :: 0 <= j < MemSize && j !in PostBootIo ==> ResetMem(m)[j] == m[j]
  {
    ResetSoundMemMatchesTable(m);
    ResetVideoMemMatchesTable(ResetSoundMem(m));
  }

  /** The PC after k calls of inc_pc, starting from p (16-bit wrapping adds). */
  function AdvancePc(p: bv16, k: nat): bv16
  {
    if k == 0 then p else AdvancePc(p, k - 1) + 1
  }

  // ---------------------------------------------------------------------
  // The CPU
  // ---------------------------------------------------------------------

  class Cpu {
    var a: bv8
    var b: bv8
    var c: bv8
    var d: bv8
    var e: bv8
    var f: bv8
    var h: bv8
    var l: bv8
    var sp: bv16
    var pc: bv16
    var state: CpuState
    /** The joypad byte the button methods update (not declared in the Cpu struct). */
    var inputState: bv8
    const mem: array<bv8>

    ghost predicate Valid()
      reads this
    {
      mem.Length == MemSize
    }

    function Regs(): RegFile
      reads this
    {
      RegFile(a, b, c, d, e, f, h, l, sp, pc)
    }

    /** new(): a zeroed memory followed by reset(). */
    constructor ()
      ensures Valid() && fresh(mem)
      ensures Regs() == PostBootRegs && state == Normal && inputState == 0xFF
      ensures mem[..] == ResetMem(seq(MemSize, _ => 0))
    {
      a, b, c, d, e, f, h, l := 0x01, 0, 0, 0, 0, 0xB0, 0, 0;
      sp, pc := 0xFFFE, 0;
      state := Normal;
      inputState := 0xFF;
      mem := new bv8[MemSize](_ => 0);
      new;
      Reset();
    }

    method Reset()
      requires Valid()
      modifies this, mem
      ensures Valid() && state == Normal && inputState == old(inputState)
      ensures Regs() == PostBootRegs
      ensures mem[..] == ResetMem(old(mem[..]))
    {
      ResetRegisters();
      ResetSoundRegisters();
      ResetVideoRegisters();
    }

    /** reset()'s register assignments, including its set_bc/set_de/set_hl calls. */
    method ResetRegisters()
      modifies this`a, this`b, this`c, this`d, this`e, this`f, this`h, this`l, this`sp, this`pc, this`state
      ensures state == Normal && inputState == old(inputState)
      ensures Regs() == PostBootRegs
    {
      state := Normal;
      a, b, c, d, e, f, h, l := 0x01, 0, 0, 0, 0, 0xB0, 0, 0;
      sp, pc := 0xFFFE, 0;
      SetPostBootPairs();
    }

    /** reset()'s set_bc(0x0013), set_de(0x00D8) and set_hl(0x014D). */
    method SetPostBootPairs()
      modifies this`b, this`c, this`d, this`e, this`h, this`l
      ensures b == PostBootRegs.b && c == PostBootRegs.c && d == PostBootRegs.d
      ensures e == PostBootRegs.e && h == PostBootRegs.h && l == PostBootRegs.l
    {
      PostBootPairs();
      SetBC(0x0013);
      SetDE(0x00D8);
      SetHL(0x014D);
    }

    method ResetSoundRegisters()
      requires Valid()
      modifies mem
      ensures mem[..] == ResetSoundMem(old(mem[..]))
    {
      mem[0xFF05] := 0x00;
      mem[0xFF06] := 0x00;
      mem[0xFF07] := 0x00;
      mem[0xFF10] := 0x80;
      mem[0xFF11] := 0xBF;
      mem[0xFF12] := 0xF3;
      mem[0xFF14] := 0xBF;
      mem[0xFF16] := 0x3F;
      mem[0xFF17] := 0x00;
      mem[0xFF19] := 0xBF;
      mem[0xFF1A] := 0x7F;
      mem[0xFF1B] := 0xFF;
      mem[0xFF1C] := 0x9F;
      mem[0xFF1E] := 0xBF;
      mem[0xFF20] := 0xFF;
      mem[0xFF21] := 0x00;
      mem[0xFF22] := 0x00;
      mem[0xFF23] := 0xBF;
      mem[0xFF24] := 0x77;
      mem[0xFF25] := 0xF3;
      mem[0xFF26] := 0xF1;
    }

    method ResetVideoRegisters()
      requires Valid()
      modifies mem
      ensures mem[..] == ResetVideoMem(old(mem[..]))
    {
      mem[0xFF40] := 0x91;
      mem[0xFF42] := 0x00;
      mem[0xFF43] := 0x00;
      mem[0xFF45] := 0x00;
      mem[0xFF47] := 0xFC;
      mem[0xFF48] := 0xFF;
      mem[0xFF49] := 0xFF;
      mem[0xFF4A] := 0x00;
      mem[0xFF4B] := 0x00;
      mem[0xFFFF] := 0x00;
    }

    // --- register pairs ---

    method SetHL(v: bv16)
      modifies this`h, this`l
      ensures Regs() == old(Regs()).(h := Hi(v), l := Lo(v))
      ensures Regs().PairHL() == v
      ensures state == old(state) && inputState == old(inputState)
    {
      h := Hi(v);
      l := Lo(v);
    }

    method SetBC(v: bv16)
      modifies this`b, this`c
      ensures Regs() == old(Regs()).(b := Hi(v), c := Lo(v))
      ensures Regs().PairBC() == v
      ensures state == old(state) && inputState == old(inputState)
    {
      b := Hi(v);
      c := Lo(v);
    }

    method SetDE(v: bv16)
      modifies this`d, this`e
      ensures Regs() == old(Regs()).(d := Hi(v), e := Lo(v))
      ensures Regs().PairDE() == v
      ensures state == old(state) && inputState == old(inputState)
    {
      d := Hi(v);
      e := Lo(v);
    }

    method SetRegister16(reg: CpuRegister16, v: bv16)
      requires reg in {BC, DE, HL16, SP}
      modifies this
      ensures Regs() == old(Regs()).WithReg16(reg, v)
      ensures state == old(state) && inputState == old(inputState)
    {
      match reg
      case BC => SetBC(v);
      case DE => SetDE(v);
      case HL16 => SetHL(v);
      case SP => sp := v;
    }

    method SetFlags(z: bool, n: bool, hf: bool, cf: bool)
      modifies this
      ensures Regs() == old(Regs()).(f := FlagsByte(z, n, hf, cf))
      ensures state == old(state) && inputState == old(inputState)
    {
      f := FlagsByte(z, n, hf, cf);
    }

    // --- memory ---

    /** A direct store `self.mem[ad] = v`, bypassing set_mem. */
    method WriteByte(ad: int, v: bv8)
      requires Valid() && 0 <= ad < MemSize
      modifies mem
      ensures mem[..] == old(mem[..])[ad := v]
      ensures Regs() == old(Regs()) && state == old(state) && inputState == old(inputState)
    {
      mem[ad] := v;
    }

    method SetMem(address: int, value: bv8)
      requires Valid() && 0 <= address < MemSize
      modifies mem
      ensures mem[..] == SetMemSpec(old(mem[..]), address, value)
    {
      if Echoed(address) {
        mem[address] := value;
        mem[Mirror(address)] := value;
      } else if address == 0xFF04 {
        mem[0xFF04] := 0;
      } else if address == 0xFF44 {
        mem[0xFF44] := 0;
      } else if address == 0xFF46 {
        mem[0xFF46] := value;
        Dma();
      } else {
        mem[address] := value;
      }
    }

    method Dma()
      requires Valid()
      modifies mem
      ensures mem[..] == DmaSpec(old(mem[..]))
    {
      var addr := DmaSource(mem[0xFF46]);
      var i := 0;
      while i < 0xA0
        invariant 0 <= i <= 0xA0
        invariant mem[..] == DmaCopied(old(mem[..]), addr, i)
      {
        DmaCopyStep(old(mem[..]), addr, i);
        mem[0xFE00 + i] := mem[addr + i];
        i := i + 1;
      }
      DmaCopyDone(old(mem[..]));
      mem[0xFF55] := 1;
    }

    // --- registers through the operand encoding ---

    function HLValue(): bv16 reads this { Pair(h, l) }

    /** alu_dispatch's second operand. */
    function Operand(reg: CpuRegister): bv8
      requires Valid()
      reads this, mem
    {
      match reg
      case HLInd => mem[HLValue() as int]
      case Num(i) => i
      case _ => Regs().Reg8(reg)
    }

    /** access_register: None for an immediate operand. */
    function AccessRegister(reg: CpuRegister): (r: Option<bv8>)
      requires Valid()
      reads this, mem
      ensures r.None? <==> reg.Num?
      ensures r.Some? ==> r.value == Operand(reg)
    {
      match reg
      case Num(_) => None
      case HLInd => Some(mem[HLValue() as int])
      case _ => Some(Regs().Reg8(reg))
    }

    method SetRegister(reg: CpuRegister, v: bv8)
      requires Valid() && !reg.Num?
      modifies this, mem
      ensures reg != HLInd ==> Regs() == old(Regs()).WithReg8(reg, v) && mem[..] == old(mem[..])
      ensures reg == HLInd ==> Regs() == old(Regs()) && mem[..] == SetMemSpec(old(mem[..]), old(HLValue()) as int, v)
      ensures state == old(state) && inputState == old(inputState)
    {
      match reg
      case A => a := v;
      case B => b := v;
      case C => c := v;
      case D => d := v;
      case E => e := v;
      case H => h := v;
      case L => l := v;
      case HLInd => SetMem(HLValue() as int, v);
    }

    // --- ALU ---

    method And(reg: CpuRegister)
      requires Valid()
      modifies this
      ensures Regs() == old(Regs()).(a := AndResult(old(a), old(Operand(reg))).0,
                                     f := AndResult(old(a), old(Operand(reg))).1)
      ensures state == old(state) && inputState == old(inputState)
    {
      var r := AndResult(a, Operand(reg));
      a := r.0;
      f := r.1;
    }

    method Or(reg: CpuRegister)
      requires Valid()
      modifies this
      ensures Regs() == old(Regs()).(a := OrResult(old(a), old(Operand(reg))).0,
                                     f := OrResult(old(a), old(Operand(reg))).1)
      ensures state == old(state) && inputState == old(inputState)
    {
      var r := OrResult(a, Operand(reg));
      a := r.0;
      f := r.1;
    }

    method Xor(reg: CpuRegister)
      requires Valid()
      modifies this
      ensures Regs() == old(Regs()).(a := XorResult(old(a), old(Operand(reg))).0,
                                     f := XorResult(old(a), old(Operand(reg))).1)
      ensures state == old(state) && inputState == old(inputState)
    {
      var r := XorResult(a, Operand(reg));
      a := r.0;
      f := r.1;
    }

    /** access_register16; AF has no arm there. */
    function Register16(reg: CpuRegister16): bv16
      requires !reg.AF?
      reads this
    {
      Regs().Reg16(reg)
    }

    method Dec16(reg: CpuRegister16)
      requires reg in {BC, DE, HL16, SP}
      modifies this
      ensures Regs() == old(Regs()).WithReg16(reg, Dec16Value(old(Register16(reg))))
      ensures state == old(state) && inputState == old(inputState)
    {
      SetRegister16(reg, Dec16Value(Register16(reg)));
    }

    method Inc16(reg: CpuRegister16)
      requires reg in {BC, DE, HL16, SP}
      modifies this
      ensures Regs() == old(Regs()).WithReg16(reg, Inc16Value(old(Register16(reg))))
      ensures state == old(state) && inputState == old(inputState)
    {
      SetRegister16(reg, Inc16Value(Register16(reg)));
    }

    method Swap(reg: CpuRegister)
      requires Valid() && !reg.Num?
      modifies this, mem
      ensures reg != HLInd ==>
        Regs() == old(Regs()).WithReg8(reg, SwapNibbles(old(Operand(reg)))).(f := SwapFlags(old(Operand(reg)))) &&
        mem[..] == old(mem[..])
      ensures reg == HLInd ==>
        Regs() == old(Regs()).(f := SwapFlags(old(Operand(reg)))) &&
        mem[..] == SetMemSpec(old(mem[..]), old(HLValue()) as int, SwapNibbles(old(Operand(reg))))
      ensures state == old(state) && inputState == old(inputState)
    {
      var val := AccessRegister(reg).value;
      SetRegister(reg, SwapNibbles(val));
      f := SwapFlags(val);
    }

    method Cpl()
      modifies this
      ensures Regs() == old(Regs()).(a := !old(a), f := CplFlags(old(f)))
      ensures state == old(state) && inputState == old(inputState)
    {
      var new_val := !a;
      f := CplFlags(f);
      a := new_val;
    }

    method Ccf()
      modifies this
      ensures Regs() == old(Regs()).(f := CcfFlags(old(f)))
      ensures state == old(state) && inputState == old(inputState)
    {
      f := CcfFlags(f);
    }

    method Scf()
      modifies this
      ensures Regs() == old(Regs()).(f := ScfFlags(old(f)))
      ensures state == old(state) && inputState == old(inputState)
    {
      f := ScfFlags(f);
    }

    // --- counters ---

    function Ly(): bv8 requires Valid() reads this, mem { mem[0xFF44] }

    method IncLy()
      requires Valid() && mem[0xFF44] != 0xFF
      modifies mem
      ensures var v := IncLyValue(old(mem[0xFF44]));
        mem[..] == old(mem[..])[0xFF44 := v]
                               [0xFF0F := if v > 143 then SetBits(old(mem[0xFF0F]), VBLANK_BIT)
                                          else old(mem[0xFF0F])]
    {
      var v := IncLyValue(mem[0xFF44]);
      WriteByte(0xFF44, v);
      if v > 143 {
        SetBit(InterruptRequest, VBLANK_BIT);
      }
    }

    method IncDiv()
      requires Valid()
      modifies mem
      ensures mem[..] == old(mem[..])[0xFF04 := IncDivValue(old(mem[0xFF04]))]
    {
      WriteByte(0xFF04, IncDivValue(mem[0xFF04]));
    }

    // --- generated bit accessors ---

    method SetBit(r: BitRegister, mask: bv8)
      requires Valid()
      modifies mem
      ensures mem[..] == old(mem[..])[Location(r) := SetBits(old(mem[Location(r)]), mask)]
      ensures GetBit(r, mask)
    {
      var orig_val := mem[Location(r)];
      WriteByte(Location(r), SetBits(orig_val, mask));
    }

    method UnsetBit(r: BitRegister, mask: bv8)
      requires Valid()
      modifies mem
      ensures mem[..] == old(mem[..])[Location(r) := ClearBits(old(mem[Location(r)]), mask)]
      ensures mask != 0 ==> !GetBit(r, mask)
    {
      var orig_val := mem[Location(r)];
      WriteByte(Location(r), ClearBits(orig_val, mask));
    }

    predicate GetBit(r: BitRegister, mask: bv8)
      requires Valid()
      reads this, mem
    {
      BitsSet(mem[Location(r)], mask)
    }

    // --- buttons ---

    method Press(btn: Button)
      requires Valid()
      modifies this, mem
      ensures inputState == ClearBits(old(inputState), ButtonMask(btn))
      ensures state == (if old(state) == Stop then Normal else old(state))
      ensures Regs() == old(Regs())
      ensures mem[..] == old(mem[..])[0xFF0F := SetBits(old(mem[0xFF0F]), INPUT_BIT)]
    {
      inputState := ClearBits(inputState, ButtonMask(btn));
      if state == Stop {
        state := Normal;
      }
      SetBit(InterruptRequest, INPUT_BIT);
    }

    method Unpress(btn: Button)
      modifies this
      ensures inputState == SetBits(old(inputState), ButtonMask(btn))
      ensures state == old(state) && Regs() == old(Regs())
    {
      inputState := SetBits(inputState, ButtonMask(btn));
    }

    // --- stack and interrupts ---

    /** The two set_mem calls of push_onto_stack, at the int address s of the stack pointer. */
    method PushBytes(s: int, hi: bv8, lo: bv8)
      requires Valid() && 3 <= s < MemSize
      modifies mem
      ensures mem[..] == SetMemSpec(SetMemSpec(old(mem[..]), s - 3, hi), s - 2, lo)
    {
      SetMem(s - 3, hi);
      SetMem(s - 2, lo);
    }

    method PushOntoStack(nn: bv16)
      requires Valid() && 3 <= sp as int
      modifies this, mem
      ensures mem[..] == PushSpec(old(mem[..]), old(sp) as int, nn)
      ensures Regs() == old(Regs()).(sp := old(sp) - 2)
      ensures state == old(state) && inputState == old(inputState)
    {
      var s: int := sp as int;
      sp := sp - 2;
      PushBytes(s, Hi(nn), Lo(nn));
    }

    method PopFromStack() returns (v: bv16)
      requires Valid() && 1 <= sp as int <= 0xFFFD
      modifies this
      ensures v == Pair(mem[old(sp) as int - 1], mem[old(sp) as int])
      ensures Regs() == old(Regs()).(sp := old(sp) + 2)
      ensures state == old(state) && inputState == old(inputState)
    {
      var sp_idx: int := sp as int;
      var val1 := mem[sp_idx];
      var val2 := mem[sp_idx - 1];
      sp := sp + 2;
      v := Pair(val2, val1);
    }

    method DisableInterrupts()
      requires Valid()
      modifies mem
      ensures mem[..] == SetMemSpec(old(mem[..]), 0xFFFF, 0)
    {
      SetMem(0xFFFF, 0);
    }

    method EnableInterrupts()
      requires Valid()
      modifies mem
      ensures mem[..] == SetMemSpec(old(mem[..]), 0xFFFF, ALL_INTERRUPTS)
    {
      SetMem(0xFFFF, ALL_INTERRUPTS);
    }

    method ServiceInterrupt(i: Interrupt)
      requires Valid() && 3 <= sp as int
      modifies this, mem
      ensures mem[..] == ServiceMem(old(mem[..]), i, old(sp) as int, old(pc))
      ensures Regs() == old(Regs()).(sp := old(sp) - 2, pc := InterruptVector(i))
      ensures state == old(state) && inputState == old(inputState)
    {
      var old_pc := pc;
      DisableInterrupts();
      UnsetBit(InterruptRequest, InterruptMask(i));
      PushOntoStack(old_pc);
      pc := InterruptVector(i);
    }

    /**
     * handle_interrupts.  The input interrupt arm is `unimplemented!()`, so
     * a call that would reach it is excluded.
     */
    method HandleInterrupts()
      requires Valid()
      requires (BitsSet(mem[0xFFFF], ALL_INTERRUPTS) && PendingInterrupt(mem[0xFFFF], mem[0xFF0F]).Some?) ==> 3 <= sp as int
      requires (BitsSet(mem[0xFFFF], ALL_INTERRUPTS) && PendingInterrupt(mem[0xFFFF], mem[0xFF0F]).None?) ==>
        !Ready(mem[0xFFFF], mem[0xFF0F], InputInt)
      modifies this, mem
      ensures state == old(state) && inputState == old(inputState)
      ensures !BitsSet(old(mem[0xFFFF]), ALL_INTERRUPTS) ==> Regs() == old(Regs()) && mem[..] == old(mem[..])
      ensures var p := PendingInterrupt(old(mem[0xFFFF]), old(mem[0xFF0F]));
        (BitsSet(old(mem[0xFFFF]), ALL_INTERRUPTS) && p.Some?) ==>
          mem[..] == ServiceMem(old(mem[..]), p.value, old(sp) as int, old(pc)) &&
          Regs() == old(Regs()).(sp := old(sp) - 2, pc := InterruptVector(p.value))
      ensures (BitsSet(old(mem[0xFFFF]), ALL_INTERRUPTS) &&
               PendingInterrupt(old(mem[0xFFFF]), old(mem[0xFF0F])).None?) ==>
          Regs() == old(Regs()) && mem[..] == old(mem[..])
    {
      if !GetBit(InterruptEnable, ALL_INTERRUPTS) {
        return;
      }
      if GetBit(InterruptEnable, VBLANK_BIT) && GetBit(InterruptRequest, VBLANK_BIT) {
        ServiceInterrupt(VBlankInt);
      } else if GetBit(InterruptEnable, LCDC_BIT) && GetBit(InterruptRequest, LCDC_BIT) {
        ServiceInterrupt(LcdcInt);
      } else if GetBit(InterruptEnable, TIMER_BIT) && GetBit(InterruptRequest, TIMER_BIT) {
        ServiceInterrupt(TimerInt);
      } else if GetBit(InterruptEnable, SERIAL_BIT) && GetBit(InterruptRequest, SERIAL_BIT) {
        ServiceInterrupt(SerialInt);
      } else if GetBit(InterruptEnable, INPUT_BIT) && GetBit(InterruptRequest, INPUT_BIT) {
        assert false;
      }
    }

    // --- dispatch helpers ---

    /** inc_pc: `self.pc += 1`, which overflows (a panic) at 0xFFFF. */
    method IncPc()
      requires pc != 0xFFFF
      modifies this
      ensures pc == old(pc) + 1
      ensures Regs() == old(Regs()).(pc := pc)
      ensures state == old(state) && inputState == old(inputState)
    {
      pc := pc + 1;
    }

    /**
     * The `for _ in 1..n { inc_pc() }` loop: PC is incremented n - 1 times, or
     * not at all when n is 0 (the range 1..0 is empty); no PC it passes through
     * may be 0xFFFF.
     */
    method IncPcLoop(n: nat)
      requires forall j :: 0 <= j < n - 1 ==> AdvancePc(pc, j) != 0xFFFF
      modifies this
      ensures pc == AdvancePc(old(pc), if n == 0 then 0 else n - 1)
      ensures Regs() == old(Regs()).(pc := pc)
      ensures state == old(state) && inputState == old(inputState)
    {
      ghost var start := Regs();
      var k := 1;
      while k < n
        invariant if n == 0 then k == 1 else 1 <= k <= n
        invariant Regs() == start.(pc := AdvancePc(start.pc, k - 1))
        invariant state == old(state) && inputState == old(inputState)
      {
        assert AdvancePc(start.pc, k - 1) != 0xFFFF;
        IncPc();
        k := k + 1;
      }
    }

    /**
     * even_odd_dispatch! as instantiated for inc16/dec16 over cpu16_dispatch:
     * inc16 for an even number, dec16 for an odd one, each on register num / 2,
     * then the PC loop for that parity.
     */
    method EvenOddDispatch(num: bv8, f0pcincs: nat, f1pcincs: nat)
      requires num / 2 <= 3
      requires var incs := if num % 2 == 0 then f0pcincs else f1pcincs;
        forall j :: 0 <= j < incs - 1 ==> AdvancePc(pc, j) != 0xFFFF
      modifies this
      ensures var reg := Cpu16Dispatch(num / 2);
        var v := if num % 2 == 0 then Inc16Value(old(Register16(reg))) else Dec16Value(old(Register16(reg)));
        Regs() == old(Regs()).WithReg16(reg, v).(pc := pc)
      ensures var incs := if num % 2 == 0 then f0pcincs else f1pcincs;
        pc == AdvancePc(old(pc), if incs == 0 then 0 else incs - 1)
      ensures state == old(state) && inputState == old(inputState)
    {
      var adjusted_number := num / 2;
      if num % 2 == 0 {
        Inc16(Cpu16Dispatch(adjusted_number));
        IncPcLoop(f0pcincs);
      } else {
        Dec16(Cpu16Dispatch(adjusted_number));
        IncPcLoop(f1pcincs);
      }
    }

    // --- LCD register views ---

    function Lcdc(): bv8 requires Valid() reads this, mem { mem[0xFF40] }
    function Scy(): bv8 requires Valid() reads this, mem { mem[0xFF42] }
    function Scx(): bv8 requires Valid() reads this, mem { mem[0xFF43] }
    function Wy(): bv8 requires Valid() reads this, mem { mem[0xFF4A] }
    function Wx(): bv8 requires Valid() reads this, mem { mem[0xFF4B] }
    function Bgp(): (bv8, bv8, bv8, bv8) requires Valid() reads this, mem { Shades(mem[0xFF47]) }
    function Obp0(): (bv8, bv8, bv8, bv8) requires Valid() reads this, mem { Shades(mem[0xFF48]) }
    function Obp1(): (bv8, bv8, bv8, bv8) requires Valid() reads this, mem { Shades(mem[0xFF49]) }
  }
}
