/**
 * Flag masks, decode tables and enumerations of the Game Boy CPU
 * (src/cpu/constants.rs).
 */
module CpuConstants {
  import opened Options

  /** Position of the Z flag in F. */
  const ZL: bv8 := 0x80
  /** Position of the N flag in F. */
  const NLV: bv8 := 0x40
  /** Position of the H flag in F. */
  const HL: bv8 := 0x20
  /** Position of the C flag in F. */
  const CL: bv8 := 0x10

  const VBLANK_INTERRUPT_ADDRESS: bv16 := 0x40
  const LCDC_INTERRUPT_ADDRESS: bv16 := 0x48
  const TIMER_OVERFLOW_INTERRUPT_ADDRESS: bv16 := 0x50
  const SERIAL_TRANSFER_INTERRUPT_ADDRESS: bv16 := 0x58
  const P1013_INTERRUPT_ADDRESS: bv16 := 0x60

  datatype CpuState = Normal | Halt | Stop | Crashed

  /** The eight 8-bit operands of the CPU, `(HL)` included, and an 8-bit literal. */
  datatype CpuRegister = A | B | C | D | E | H | L | HLInd | Num(n: bv8)

  /** The 16-bit register pairs and a 16-bit literal. */
  datatype CpuRegister16 = BC | DE | HL16 | SP | AF | Num16(v: bv16)

  /** Condition codes of the conditional jumps, calls and returns. */
  datatype Cc = NZ | Z | NC | CC

  datatype CartridgeType =
    | RomOnly | RomMBC1 | RomMBC1Ram | RomMBC1RamBatt | RomMBC2 | RomMBC2Batt
    | RomRam | RomRamBatt | RomMMM01 | RomMMM01SRam | RomMMM01SRamBatt
    | RomMBC3TimerRamBatt | RomMBC3 | RomMBC3Ram | RomMBC3RamBatt
    | RomMBC5 | RomMBC5Ram | RomMBC5RamBatt | RomMBC5RumbleSRam | RomMBC5RumbleSRamBatt
    | PocketCamera | BandaiTAMA5 | HudsonHuC3 | HudsonHuC1

  /** The explicit discriminant each variant carries in the enum declaration. */
  function Discriminant(t: CartridgeType): bv8
  {
    match t
    case RomOnly => 0
    case RomMBC1 => 1
    case RomMBC1Ram => 2
    case RomMBC1RamBatt => 3
    case RomMBC2 => 5
    case RomMBC2Batt => 6
    case RomRam => 8
    case RomRamBatt => 9
    case RomMMM01 => 0xB
    case RomMMM01SRam => 0xC
    case RomMMM01SRamBatt => 0xD
    case RomMBC3TimerRamBatt => 0x10
    case RomMBC3 => 0x11
    case RomMBC3Ram => 0x12
    case RomMBC3RamBatt => 0x13
    case RomMBC5 => 0x19
    case RomMBC5Ram => 0x1A
    case RomMBC5RamBatt => 0x1B
    case RomMBC5RumbleSRam => 0x1D
    case RomMBC5RumbleSRamBatt => 0x1E
    case PocketCamera => 0x1F
    case BandaiTAMA5 => 0xFD
    case HudsonHuC3 => 0xFE
    case HudsonHuC1 => 0xFF
  }

  /** The 24 header codes that name a cartridge type. */
  const CartridgeCodes: set<bv8> :=
    {0, 1, 2, 3, 5, 6, 8, 9, 0xB, 0xC, 0xD, 0x10, 0x11, 0x12, 0x13,
     0x19, 0x1A, 0x1B, 0x1D, 0x1E, 0x1F, 0xFD, 0xFE, 0xFF}

  /** Decodes the cartridge-type byte of the ROM header. */
  function ToCartridgeType(v: bv8): (r: Option<CartridgeType>)
    ensures r.Some? <==> v in CartridgeCodes
    ensures r.Some? ==> Discriminant(r.value) == v
  {
    match v
    case 0 => Some(RomOnly)
    case 1 => Some(RomMBC1)
    case 2 => Some(RomMBC1Ram)
    case 3 => Some(RomMBC1RamBatt)
    case 5 => Some(RomMBC2)
    case 6 => Some(RomMBC2Batt)
    case 8 => Some(RomRam)
    case 9 => Some(RomRamBatt)
    case 0xB => Some(RomMMM01)
    case 0xC => Some(RomMMM01SRam)
    case 0xD => Some(RomMMM01SRamBatt)
    case 0x10 => Some(RomMBC3TimerRamBatt)
    case 0x11 => Some(RomMBC3)
    case 0x12 => Some(RomMBC3Ram)
    case 0x13 => Some(RomMBC3RamBatt)
    case 0x19 => Some(RomMBC5)
    case 0x1A => Some(RomMBC5Ram)
    case 0x1B => Some(RomMBC5RamBatt)
    case 0x1D => Some(RomMBC5RumbleSRam)
    case 0x1E => Some(RomMBC5RumbleSRamBatt)
    case 0x1F => Some(PocketCamera)
    case 0xFD => Some(BandaiTAMA5)
    case 0xFE => Some(HudsonHuC3)
    case 0xFF => Some(HudsonHuC1)
    case _ => None
  }

  /** Every cartridge type is recovered from its own discriminant. */
  lemma ToCartridgeTypeOfDiscriminant(t: CartridgeType)
    ensures ToCartridgeType(Discriminant(t)) == Some(t)
  {
  }

  /** The position of a condition code in the opcode table. */
  function CcIndex(c: Cc): bv8
  {
    match c
    case NZ => 0
    case Z => 1
    case NC => 2
    case CC => 3
  }

  /** Turns the two condition bits of an opcode into a condition code; larger values panic. */
  function CcDispatch(num: bv8): (r: Cc)
    requires num <= 3
    ensures CcIndex(r) == num
  {
    match num
    case 0 => NZ
    case 1 => Z
    case 2 => NC
    case 3 => CC
  }

  /** Turns the three register bits of an opcode into an 8-bit operand; values above 7 panic. */
  function CpuDispatch(num: bv8): (r: CpuRegister)
    requires num <= 7
    ensures !r.Num?
    ensures r == A <==> num == 7
    ensures r == HLInd <==> num == 6
  {
    match num
    case 0 => B
    case 1 => C
    case 2 => D
    case 3 => E
    case 4 => H
    case 5 => L
    case 6 => HLInd
    case 7 => A
  }

  /** cpu_dispatch is injective on 0..=7. */
  lemma CpuDispatchInjective(m: bv8, n: bv8)
    requires m <= 7 && n <= 7 && m != n
    ensures CpuDispatch(m) != CpuDispatch(n)
  {
  }

  /** cpu_dispatch reaches every register operand. */
  lemma CpuDispatchOnto(r: CpuRegister)
    requires !r.Num?
    ensures exists n: bv8 :: n <= 7 && CpuDispatch(n) == r
  {
    match r
    case B => assert CpuDispatch(0) == r;
    case C => assert CpuDispatch(1) == r;
    case D => assert CpuDispatch(2) == r;
    case E => assert CpuDispatch(3) == r;
    case H => assert CpuDispatch(4) == r;
    case L => assert CpuDispatch(5) == r;
    case HLInd => assert CpuDispatch(6) == r;
    case A => assert CpuDispatch(7) == r;
  }

  /** Register-pair operand of the 16-bit load and arithmetic opcodes; values above 3 panic. */
  function Cpu16Dispatch(num: bv8): (r: CpuRegister16)
    requires num <= 3
    ensures r in {BC, DE, HL16, SP}
  {
    match num
    case 0 => BC
    case 1 => DE
    case 2 => HL16
    case 3 => SP
  }

  /** Register-pair operand of PUSH and POP; values above 3 panic. */
  function Cpu16DispatchPushPop(num: bv8): (r: CpuRegister16)
    requires num <= 3
    ensures r in {BC, DE, HL16, AF}
  {
    match num
    case 0 => BC
    case 1 => DE
    case 2 => HL16
    case 3 => AF
  }

  /** The two pair tables agree on 0..=2 and differ only at 3, where one names SP and the other AF. */
  lemma Cpu16DispatchTablesDiffer(num: bv8)
    requires num <= 3
    ensures Cpu16Dispatch(num) == Cpu16DispatchPushPop(num) <==> num != 3
    ensures num == 3 ==> Cpu16Dispatch(num) == SP && Cpu16DispatchPushPop(num) == AF
  {
  }

  /** The four flag masks are single bits 7, 6, 5 and 4 and pairwise disjoint. */
  lemma FlagMasksAreBits()
    ensures ZL == 1 << 7 && NLV == 1 << 6 && HL == 1 << 5 && CL == 1 << 4
    ensures ZL & NLV == 0 && ZL & HL == 0 && ZL & CL == 0
    ensures NLV & HL == 0 && NLV & CL == 0 && HL & CL == 0
    ensures ZL | NLV | HL | CL == 0xF0
  {
  }
}
