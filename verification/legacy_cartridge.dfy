/**
 * The older cartridge (src/cpu/cartridge.rs), which still holds the work RAM,
 * OAM, high RAM and interrupt byte itself: its read decoding Index and its
 * write path index_set, including the MBC1 bank-number rule.
 */
module LegacyCartridge {
  const BankSize := 0x4000
  const VideoRamSize := 0x2000
  const InternalRamSize := 0x2000
  const OamSize := 0xA0
  const InternalRam2Size := 0x80
  /** (2 << 13) + (2 << 21) - 0x4000 bytes of MBC1 banks. */
  const Mbc1BanksSize := 0x4000 + 0x40_0000 - 0x4000
  const U32Modulus := 0x1_0000_0000

  datatype Mbc1Type = SixteenEight | FourThirtytwo

  /** CartridgeSubType, its banks held as values. */
  datatype SubType =
    | RomOnly(memoryBank1: seq<bv8>)
    | Mbc1(memoryModel: Mbc1Type, memoryBanks: seq<bv8>, ramActive: bool, memBankSelector: int)

  predicate SubOk(sub: SubType)
  {
    match sub
    case RomOnly(b1) => |b1| == BankSize
    case Mbc1(_, mb, _, sel) => |mb| == Mbc1BanksSize && 0 <= sel < U32Modulus
  }

  /** The contents of the legacy Cartridge as a value. */
  datatype LegacyState = LegacyState(
    memoryBank0: seq<bv8>,
    cartSub: SubType,
    videoRam: seq<bv8>,
    internalRam: seq<bv8>,
    oam: seq<bv8>,
    internalRam2: seq<bv8>,
    interruptFlag: bv8)

  predicate StateOk(s: LegacyState)
  {
    |s.memoryBank0| == BankSize && SubOk(s.cartSub) && |s.videoRam| == VideoRamSize &&
    |s.internalRam| == InternalRamSize && |s.oam| == OamSize && |s.internalRam2| == InternalRam2Size
  }

  predicate IsAddr(ind: int) { 0 <= ind < 0x10000 }

  /** The element an address reaches; Unmapped where the source panics outright. */
  datatype Loc =
    | Bank0(off: int)
    | Bank1(off: int)
    | MbcBank(off: int)
    | InternalRam(off: int)
    | Oam(off: int)
    | InternalRam2(off: int)
    | InterruptFlag
    | Unmapped

  /**
   * Index<u16>: arms tried in order. The OAM arm spans 0xFE00-0xFF9F, so it
   * takes the I/O range 0xFF00-0xFF4B and 0xFF80-0xFF9F before their own arms.
   */
  function Decode(sub: SubType, ind: int): (r: Loc)
    requires SubOk(sub) && IsAddr(ind)
    ensures r.Bank0? ==> 0 <= r.off < BankSize
    ensures r.Bank1? ==> 0 <= r.off < BankSize
    ensures r.MbcBank? ==> 0 <= r.off
    ensures r.InternalRam? ==> 0 <= r.off < InternalRamSize
    ensures r.Oam? ==> 0 <= r.off
    ensures r.InternalRam2? ==> 0 <= r.off < InternalRam2Size
  {
    if ind <= 0x3FFF then Bank0(ind)
    else if ind <= 0x7FFF then
      match sub
      case RomOnly(_) => Bank1(ind - 0x4000)
      case Mbc1(SixteenEight, _, _, sel) =>
        if sel * 0x4000 < U32Modulus then MbcBank(ind - 0x4000 + sel * 0x4000) else Unmapped
      case Mbc1(FourThirtytwo, _, _, _) => Unmapped
    else if ind <= 0xBFFF then Unmapped
    else if ind <= 0xDFFF then InternalRam(ind - 0xC000)
    else if ind <= 0xFDFF then InternalRam(ind - 0xE000)
    else if ind <= 0xFF9F then Oam(ind - 0xFE00)
    else if ind <= 0xFFFE then InternalRam2(ind - 0xFF80)
    else InterruptFlag
  }

  /** Index does not panic at this address. */
  predicate Defined(s: LegacyState, ind: int)
    requires StateOk(s) && IsAddr(ind)
  {
    match Decode(s.cartSub, ind)
    case Unmapped => false
    case MbcBank(o) => o < Mbc1BanksSize
    case Oam(o) => o < OamSize
    case _ => true
  }

  function Read(s: LegacyState, ind: int): bv8
    requires StateOk(s) && IsAddr(ind) && Defined(s, ind)
  {
    match Decode(s.cartSub, ind)
    case Bank0(o) => s.memoryBank0[o]
    case Bank1(o) => s.cartSub.memoryBank1[o]
    case MbcBank(o) => s.cartSub.memoryBanks[o]
    case InternalRam(o) => s.internalRam[o]
    case Oam(o) => s.oam[o]
    case InternalRam2(o) => s.internalRam2[o]
    case InterruptFlag => s.interruptFlag
  }

  /**
   * The addresses a ROM-only legacy cartridge reads without a panic: ROM,
   * work RAM and its echo, the 0xA0 OAM bytes, 0xFFA0-0xFFFE and the interrupt byte.
   */
  lemma RomOnlyReadable(s: LegacyState, ind: int)
    requires StateOk(s) && IsAddr(ind) && s.cartSub.RomOnly?
    ensures Defined(s, ind) <==> ind <= 0x7FFF || 0xC000 <= ind <= 0xFE9F || 0xFFA0 <= ind
  {
  }

  /** The echo range reads the same bytes as 0xC000-0xDDFF. */
  lemma EchoReadsWorkRam(s: LegacyState, ind: int)
    requires StateOk(s) && 0xE000 <= ind <= 0xFDFF
    ensures Defined(s, ind) && Defined(s, ind - 0x2000)
    ensures Read(s, ind) == Read(s, ind - 0x2000)
  {
  }

  /**
   * The OAM arm shadows the I/O ports and the bottom of high RAM: addresses
   * 0xFEA0-0xFF9F decode to OAM offsets past its 0xA0 bytes, so reading them
   * panics.
   */
  lemma OamArmShadowsLaterArms(s: LegacyState, ind: int)
    requires StateOk(s) && 0xFEA0 <= ind <= 0xFF9F
    ensures Decode(s.cartSub, ind) == Oam(ind - 0xFE00) && ind - 0xFE00 >= OamSize
    ensures !Defined(s, ind)
  {
  }

  /** The MBC1 second-ROM-bank number: the low five bits of the value, with 0 read as 1. */
  function BankSelect(val: bv8): (r: int)
    ensures 1 <= r <= 31
    ensures val & 0x1F != 0 ==> r == (val & 0x1F) as int
    ensures val & 0x1F == 0 ==> r == 1
  {
    if val & 0x1F == 0 then 1 else (val & 0x1F) as int
  }

  /** index_set does not panic for this write. */
  predicate SetOk(s: LegacyState, ind: int, val: bv8)
    requires StateOk(s)
  {
    IsAddr(ind) &&
    match s.cartSub
    case RomOnly(_) => 0xFF80 <= ind <= 0xFFFE || 0xC000 <= ind <= 0xFDFF || ind <= 0x7FFF
    case Mbc1(SixteenEight, _, _, _) => 0x2000 <= ind <= 0x3FFF || (0x6000 <= ind <= 0x7FFF && val & 1 != 1)
    case Mbc1(FourThirtytwo, _, _, _) => false
  }

  /**
   * index_set as written: ROM-only writes go to high RAM and work RAM (both
   * echo ranges), ROM writes are ignored; on MBC1 the bank number is computed
   * into a copy of the selector bound by the match, so nothing changes.
   */
  function IndexSetAsWritten(s: LegacyState, ind: int, val: bv8): (r: LegacyState)
    requires StateOk(s) && SetOk(s, ind, val)
    ensures StateOk(r)
  {
    match s.cartSub
    case RomOnly(_) =>
      if 0xFF80 <= ind <= 0xFFFE then s.(internalRam2 := s.internalRam2[ind - 0xFF80 := val])
      else if 0xC000 <= ind <= 0xDFFF then s.(internalRam := s.internalRam[ind - 0xC000 := val])
      else if 0xE000 <= ind <= 0xFDFF then s.(internalRam := s.internalRam[ind - 0xE000 := val])
      else s
    case Mbc1(_, _, _, _) => s
  }

  /** A write to 0x2000-0x3FFF of an MBC1 cartridge, as written, leaves the bank selector unchanged. */
  lemma BankSelectLost(s: LegacyState, ind: int, val: bv8)
    requires StateOk(s) && s.cartSub.Mbc1? && s.cartSub.memoryModel == SixteenEight
    requires 0x2000 <= ind <= 0x3FFF && s.cartSub.memBankSelector != BankSelect(val)
    ensures SetOk(s, ind, val)
    ensures IndexSetAsWritten(s, ind, val).cartSub.memBankSelector != BankSelect(val)
  {
  }

  /** index_set with the MBC1 bank number stored in the cartridge's own selector. */
  function IndexSetSpec(s: LegacyState, ind: int, val: bv8): (r: LegacyState)
    requires StateOk(s) && SetOk(s, ind, val)
    ensures StateOk(r)
  {
    match s.cartSub
    case RomOnly(_) => IndexSetAsWritten(s, ind, val)
    case Mbc1(_, _, _, _) =>
      if 0x2000 <= ind <= 0x3FFF then s.(cartSub := s.cartSub.(memBankSelector := BankSelect(val)))
      else s
  }

  /** The corrected bank switch selects a bank in 1..=31, changing nothing else. */
  lemma BankSelectStored(s: LegacyState, ind: int, val: bv8)
    requires StateOk(s) && s.cartSub.Mbc1? && s.cartSub.memoryModel == SixteenEight && 0x2000 <= ind <= 0x3FFF
    ensures SetOk(s, ind, val)
    ensures IndexSetSpec(s, ind, val).cartSub.memBankSelector == BankSelect(val)
    ensures 1 <= IndexSetSpec(s, ind, val).cartSub.memBankSelector <= 31
    ensures IndexSetSpec(s, ind, val) == s.(cartSub := s.cartSub.(memBankSelector := BankSelect(val)))
  {
  }

  /** On a ROM-only cartridge, writes to ROM change nothing. */
  lemma RomWritesIgnored(s: LegacyState, ind: int, val: bv8)
    requires StateOk(s) && s.cartSub.RomOnly? && 0 <= ind <= 0x7FFF
    ensures SetOk(s, ind, val) && IndexSetSpec(s, ind, val) == s
  {
  }

  /**
   * On a ROM-only cartridge a byte written to work RAM, its echo or high RAM
   * from 0xFFA0 is read back at the same address and at its echo partner.
   */
  lemma ReadAfterIndexSet(s: LegacyState, ind: int, val: bv8)
    requires StateOk(s) && s.cartSub.RomOnly?
    requires 0xC000 <= ind <= 0xFDFF || 0xFFA0 <= ind <= 0xFFFE
    ensures SetOk(s, ind, val)
    ensures Defined(IndexSetSpec(s, ind, val), ind) && Read(IndexSetSpec(s, ind, val), ind) == val
    ensures 0xC000 <= ind <= 0xDDFF ==> Read(IndexSetSpec(s, ind, val), ind + 0x2000) == val
    ensures 0xE000 <= ind <= 0xFDFF ==> Read(IndexSetSpec(s, ind, val), ind - 0x2000) == val
  {
  }

  /** High RAM bytes 0xFF80-0xFF9F are written by index_set but cannot be read back: the OAM arm panics first. */
  lemma HighRamBottomWriteOnly(s: LegacyState, ind: int, val: bv8)
    requires StateOk(s) && s.cartSub.RomOnly? && 0xFF80 <= ind <= 0xFF9F
    ensures SetOk(s, ind, val)
    ensures IndexSetSpec(s, ind, val).internalRam2[ind - 0xFF80] == val
    ensures !Defined(IndexSetSpec(s, ind, val), ind)
  {
  }

  /** The legacy Cartridge: fixed arrays plus the sub-type value and the interrupt byte. */
  class Cartridge {
    const memoryBank0: array<bv8>
    var cartSub: SubType
    const videoRam: array<bv8>
    const internalRam: array<bv8>
    const oam: array<bv8>
    const internalRam2: array<bv8>
    var interruptFlag: bv8

    ghost predicate Valid()
      reads this
    {
      memoryBank0.Length == BankSize && SubOk(cartSub) && videoRam.Length == VideoRamSize &&
      internalRam.Length == InternalRamSize && oam.Length == OamSize && internalRam2.Length == InternalRam2Size &&
      internalRam != internalRam2 && internalRam != videoRam
    }

    function State(): LegacyState
      reads this, memoryBank0, videoRam, internalRam, oam, internalRam2
    {
      LegacyState(memoryBank0[..], cartSub, videoRam[..], internalRam[..], oam[..], internalRam2[..], interruptFlag)
    }

    /** Index<u16> on the arrays. */
    function Index(ind: int): (r: bv8)
      reads this, memoryBank0, videoRam, internalRam, oam, internalRam2
      requires Valid() && IsAddr(ind) && Defined(State(), ind)
      ensures r == Read(State(), ind)
    {
      if ind <= 0x3FFF then memoryBank0[ind]
      else if ind <= 0x7FFF then
        match cartSub
        case RomOnly(b1) => b1[ind - 0x4000]
        case Mbc1(_, mb, _, sel) => mb[ind - 0x4000 + sel * 0x4000]
      else if ind <= 0xDFFF then internalRam[ind - 0xC000]
      else if ind <= 0xFDFF then internalRam[ind - 0xE000]
      else if ind <= 0xFF9F then oam[ind - 0xFE00]
      else if ind <= 0xFFFE then internalRam2[ind - 0xFF80]
      else interruptFlag
    }

    /** index_set, with the MBC1 bank number kept in the selector. */
    method IndexSet(ind: int, val: bv8)
      requires Valid() && StateOk(State()) && SetOk(State(), ind, val)
      modifies this, internalRam, internalRam2
      ensures Valid()
      ensures State() == IndexSetSpec(old(State()), ind, val)
    {
      match cartSub
      case RomOnly(_) =>
        if 0xFF80 <= ind <= 0xFFFE {
          internalRam2[ind - 0xFF80] := val;
        } else if 0xC000 <= ind <= 0xDFFF {
          internalRam[ind - 0xC000] := val;
        } else if 0xE000 <= ind <= 0xFDFF {
          internalRam[ind - 0xE000] := val;
        }
      case Mbc1(_, _, _, _) =>
        if 0x2000 <= ind <= 0x3FFF {
          var bankSelect := BankSelect(val);
          cartSub := cartSub.(memBankSelector := bankSelect);
        }
    }
  }
}
