/**
 * The Game Boy cartridge (src/cpu/cartridge/mod.rs): ROM bank 0, an optional
 * sub-type holding the further banks, and the address decoding shared by
 * Index and IndexMut. Every address the decoding does not map is a panic in
 * the source and a precondition here.
 */
module GbCartridge {
  import opened Options
  import CpuConstants

  const BankSize := 0x4000
  const RamBankSize := 0x2000
  const U32Modulus := 0x1_0000_0000
  /** Header offset of the cartridge-type byte. */
  const CartridgeTypeOffset := 0x147

  datatype Mbc1Type = SixteenEight | FourThirtytwo

  /** CartridgeSubType: the banks beyond bank 0, held as values. */
  datatype CartSub =
    | RomOnly(memoryBank1: seq<bv8>, ramBank: seq<bv8>)
    | Mbc1(memoryModel: Mbc1Type, memoryBanks: seq<bv8>, ramActive: bool, memBankSelector: int)

  predicate SubOk(sub: Option<CartSub>)
  {
    match sub
    case None => true
    case Some(RomOnly(b1, ram)) => |b1| == BankSize && |ram| == RamBankSize
    case Some(Mbc1(_, banks, _, sel)) => |banks| == BankSize && 0 <= sel < U32Modulus
  }

  /** The contents of a Cartridge as a value. */
  datatype CartState = CartState(bank0: seq<bv8>, sub: Option<CartSub>)

  predicate StateOk(s: CartState)
  {
    |s.bank0| == BankSize && SubOk(s.sub)
  }

  predicate IsAddr(ind: int) { 0 <= ind < 0x10000 }

  /** The two address ranges the cartridge serves. */
  predicate CartRange(ind: int)
  {
    0 <= ind <= 0x7FFF || 0xA000 <= ind <= 0xBFFF
  }

  /** The byte an address reaches, or Unmapped where the source panics. */
  datatype CartLoc = Bank0(off: int) | Bank1(off: int) | MbcBank(off: int) | RamBank(off: int) | Unmapped

  /**
   * The decoding of index and index_mut: bank 0 below 0x4000, the sub-type's
   * second bank up to 0x7FFF (MBC1 in 16/8 mode offsets it by the selector
   * times 0x4000, a u32 product that must not overflow), the RAM bank of a
   * ROM-only cartridge at 0xA000-0xBFFF, and nothing else.
   */
  function Decode(sub: Option<CartSub>, ind: int): (r: CartLoc)
    requires SubOk(sub) && IsAddr(ind)
    ensures r != Unmapped ==> CartRange(ind)
    ensures r.Bank0? ==> 0 <= r.off < BankSize
    ensures r.Bank1? ==> 0 <= r.off < BankSize
    ensures r.RamBank? ==> 0 <= r.off < RamBankSize
    ensures r.MbcBank? ==> 0 <= r.off
  {
    if ind <= 0x3FFF then Bank0(ind)
    else if ind <= 0x7FFF then
      match sub
      case Some(RomOnly(_, _)) => Bank1(ind - 0x4000)
      case Some(Mbc1(SixteenEight, _, _, sel)) =>
        if sel * 0x4000 < U32Modulus then MbcBank(ind - 0x4000 + sel * 0x4000) else Unmapped
      case _ => Unmapped
    else if 0xA000 <= ind <= 0xBFFF then
      match sub
      case Some(RomOnly(_, _)) => RamBank(ind - 0xA000)
      case _ => Unmapped
    else Unmapped
  }

  /** The address is served without a panic. */
  predicate Defined(s: CartState, ind: int)
    requires StateOk(s) && IsAddr(ind)
  {
    match Decode(s.sub, ind)
    case Unmapped => false
    case MbcBank(o) => o < |s.sub.value.memoryBanks|
    case _ => true
  }

  /** Index<u16>: the byte an address reads. */
  function Read(s: CartState, ind: int): bv8
    requires StateOk(s) && IsAddr(ind) && Defined(s, ind)
  {
    match Decode(s.sub, ind)
    case Bank0(o) => s.bank0[o]
    case Bank1(o) => s.sub.value.memoryBank1[o]
    case MbcBank(o) => s.sub.value.memoryBanks[o]
    case RamBank(o) => s.sub.value.ramBank[o]
  }

  /** A store through IndexMut<u16>. */
  function Write(s: CartState, ind: int, v: bv8): (r: CartState)
    requires StateOk(s) && IsAddr(ind) && Defined(s, ind)
    ensures StateOk(r)
  {
    match Decode(s.sub, ind)
    case Bank0(o) => s.(bank0 := s.bank0[o := v])
    case Bank1(o) => s.(sub := Some(s.sub.value.(memoryBank1 := s.sub.value.memoryBank1[o := v])))
    case MbcBank(o) => s.(sub := Some(s.sub.value.(memoryBanks := s.sub.value.memoryBanks[o := v])))
    case RamBank(o) => s.(sub := Some(s.sub.value.(ramBank := s.sub.value.ramBank[o := v])))
  }

  /** A write does not change which addresses are served. */
  lemma WriteKeepsDefined(s: CartState, ind: int, v: bv8, j: int)
    requires StateOk(s) && IsAddr(ind) && Defined(s, ind) && IsAddr(j)
    ensures Defined(Write(s, ind, v), j) <==> Defined(s, j)
  {
    assert Write(s, ind, v).sub.Some? <==> s.sub.Some?;
    assert s.sub.Some? ==> Write(s, ind, v).sub.value.Mbc1? == s.sub.value.Mbc1?;
  }

  /** index_mut uses index's mapping: a stored byte is read back. */
  lemma ReadAfterWrite(s: CartState, ind: int, v: bv8)
    requires StateOk(s) && IsAddr(ind) && Defined(s, ind)
    ensures Defined(Write(s, ind, v), ind)
    ensures Read(Write(s, ind, v), ind) == v
  {
    WriteKeepsDefined(s, ind, v, ind);
  }

  /** A store changes the byte of no other address. */
  lemma ReadAfterWriteOther(s: CartState, ind: int, v: bv8, j: int)
    requires StateOk(s) && IsAddr(ind) && Defined(s, ind)
    requires IsAddr(j) && Defined(s, j) && j != ind
    ensures Defined(Write(s, ind, v), j)
    ensures Read(Write(s, ind, v), j) == Read(s, j)
  {
    WriteKeepsDefined(s, ind, v, j);
  }

  /** A ROM-only cartridge serves exactly the two cartridge ranges. */
  lemma RomOnlyServesCartRange(s: CartState, ind: int)
    requires StateOk(s) && IsAddr(ind) && s.sub.Some? && s.sub.value.RomOnly?
    ensures Defined(s, ind) <==> CartRange(ind)
  {
  }

  /**
   * MBC1 in 16/8 mode holds one bank of 0x4000 bytes, so the second-bank
   * range is served only while the bank selector is 0.
   */
  lemma Mbc1SecondBankNeedsSelectorZero(s: CartState, ind: int)
    requires StateOk(s) && 0x4000 <= ind <= 0x7FFF
    requires s.sub.Some? && s.sub.value.Mbc1? && s.sub.value.memoryModel == SixteenEight
    ensures Defined(s, ind) <==> s.sub.value.memBankSelector == 0
  {
  }

  /** The cartridge Cartridge::new builds: a zeroed bank 0 and no sub-type. */
  function NewState(): (r: CartState)
    ensures StateOk(r)
  {
    CartState(seq(BankSize, _ => 0), None)
  }

  /** A new cartridge serves bank 0 only: every other access panics. */
  lemma NewServesBank0Only(ind: int)
    requires IsAddr(ind)
    ensures Defined(NewState(), ind) <==> ind < BankSize
    ensures ind < BankSize ==> Read(NewState(), ind) == 0
  {
  }

  /** read_rom_value: a stub answering 3 for every address. */
  function ReadRomValue(s: CartState, ind: int): bv8
  {
    3
  }

  /** read_ram_value: a stub answering 4 for every address. */
  function ReadRamValue(s: CartState, ind: int): bv8
  {
    4
  }

  /**
   * write_ram_value stores through index_mut, but the read stubs never see
   * it: a byte other than 4 written to RAM is not what read_ram_value says.
   */
  lemma RamStubIgnoresWrites(s: CartState, ind: int, v: bv8)
    requires StateOk(s) && IsAddr(ind) && Defined(s, ind) && v != 4
    ensures Defined(Write(s, ind, v), ind)
    ensures ReadRamValue(Write(s, ind, v), ind) != Read(Write(s, ind, v), ind)
  {
    ReadAfterWrite(s, ind, v);
  }

  /** The outcome of Cartridgey::load once the file has been read. */
  datatype LoadResult =
    | Loaded(state: CartState)
    | Unsupported(cartType: CpuConstants.CartridgeType)
    | NoCartridgeType

  /** The cartridge types load accepts. */
  predicate Supported(t: CpuConstants.CartridgeType)
  {
    t == CpuConstants.RomOnly || t == CpuConstants.RomRam || t == CpuConstants.RomRamBatt
  }

  /**
   * The header decision of load on the file's first 0x8000 bytes: header
   * byte 0x147 must name a cartridge type, and only the ROM-only types are
   * built (bank 0, bank 1 and a zeroed RAM bank); the other outcomes are the
   * two panics.
   */
  function Load(rom: seq<bv8>): (r: LoadResult)
    requires |rom| >= 2 * BankSize
    ensures r.NoCartridgeType? <==> rom[CartridgeTypeOffset] !in CpuConstants.CartridgeCodes
    ensures r.Loaded? <==> CpuConstants.ToCartridgeType(rom[CartridgeTypeOffset]).Some? &&
                           Supported(CpuConstants.ToCartridgeType(rom[CartridgeTypeOffset]).value)
    ensures r.Unsupported? ==> CpuConstants.Discriminant(r.cartType) == rom[CartridgeTypeOffset]
    ensures r.Loaded? ==> StateOk(r.state) && r.state.bank0 == rom[..BankSize]
    ensures r.Loaded? ==> r.state.sub == Some(RomOnly(rom[BankSize..2 * BankSize], seq(RamBankSize, _ => 0)))
  {
    match CpuConstants.ToCartridgeType(rom[CartridgeTypeOffset])
    case None => NoCartridgeType
    case Some(t) =>
      if Supported(t) then
        Loaded(CartState(rom[..BankSize], Some(RomOnly(rom[BankSize..2 * BankSize], seq(RamBankSize, _ => 0)))))
      else Unsupported(t)
  }

  /** A loaded cartridge serves every address of both cartridge ranges. */
  lemma LoadedServesCartRange(rom: seq<bv8>, ind: int)
    requires |rom| >= 2 * BankSize && Load(rom).Loaded? && IsAddr(ind)
    ensures Defined(Load(rom).state, ind) <==> CartRange(ind)
  {
    RomOnlyServesCartRange(Load(rom).state, ind);
  }

  /** Copies one bank into a zeroed buffer byte by byte, as clone does. */
  method CopyBank(src: seq<bv8>) returns (dst: seq<bv8>)
    ensures dst == src
  {
    dst := seq(|src|, _ => 0);
    var i := 0;
    while i < |src|
      invariant 0 <= i <= |src| && |dst| == |src|
      invariant dst[..i] == src[..i]
    {
      dst := dst[i := src[i]];
      i := i + 1;
    }
  }

  /** Cartridge: bank 0 is a fixed array; the sub-type is a value the writes replace. */
  class Cartridge {
    const memoryBank0: array<bv8>
    var cartSub: Option<CartSub>

    ghost predicate Valid()
      reads this
    {
      memoryBank0.Length == BankSize && SubOk(cartSub)
    }

    function State(): (r: CartState)
      reads this, memoryBank0
    {
      CartState(memoryBank0[..], cartSub)
    }

    /** Cartridge::new. */
    constructor ()
      ensures Valid() && fresh(memoryBank0)
      ensures State() == NewState()
    {
      memoryBank0 := new bv8[BankSize](_ => 0);
      cartSub := None;
    }

    /** Index<u16>, on the arrays. */
    function Index(ind: int): (r: bv8)
      reads this, memoryBank0
      requires Valid() && IsAddr(ind) && Defined(State(), ind)
      ensures r == Read(State(), ind)
    {
      if ind <= 0x3FFF then memoryBank0[ind]
      else if ind <= 0x7FFF then
        match cartSub
        case Some(RomOnly(b1, _)) => b1[ind - 0x4000]
        case Some(Mbc1(_, mb, _, sel)) => mb[ind - 0x4000 + sel * 0x4000]
      else
        match cartSub
        case Some(RomOnly(_, ram)) => ram[ind - 0xA000]
    }

    /** IndexMut<u16> and a store through the reference it returns. */
    method IndexMut(ind: int, value: bv8)
      requires Valid() && IsAddr(ind) && Defined(State(), ind)
      modifies this, memoryBank0
      ensures Valid()
      ensures State() == Write(old(State()), ind, value)
    {
      if ind <= 0x3FFF {
        memoryBank0[ind] := value;
      } else if ind <= 0x7FFF {
        match cartSub
        case Some(RomOnly(b1, ram)) =>
          cartSub := Some(RomOnly(b1[ind - 0x4000 := value], ram));
        case Some(Mbc1(model, mb, ra, sel)) =>
          cartSub := Some(Mbc1(model, mb[ind - 0x4000 + sel * 0x4000 := value], ra, sel));
      } else {
        match cartSub
        case Some(RomOnly(b1, ram)) =>
          cartSub := Some(RomOnly(b1, ram[ind - 0xA000 := value]));
      }
    }

    /** write_ram_value: a store through index_mut. */
    method WriteRamValue(ind: int, value: bv8)
      requires Valid() && IsAddr(ind) && Defined(State(), ind)
      modifies this, memoryBank0
      ensures Valid()
      ensures State() == Write(old(State()), ind, value)
    {
      IndexMut(ind, value);
    }

    /**
     * clone: a fresh cartridge with bank 0 and the ROM-only banks copied
     * byte by byte; cloning an MBC1 sub-type panics.
     */
    method Clone() returns (c: Cartridge)
      requires Valid() && (cartSub.Some? ==> cartSub.value.RomOnly?)
      ensures fresh(c) && fresh(c.memoryBank0) && c.Valid()
      ensures c.State() == State()
    {
      var buf := new bv8[BankSize](_ => 0);
      var i := 0;
      while i < BankSize
        invariant 0 <= i <= BankSize
        invariant buf[..i] == memoryBank0[..i]
        modifies buf
      {
        buf[i] := memoryBank0[i];
        i := i + 1;
      }
      var sub := None;
      if cartSub.Some? {
        var b1 := CopyBank(cartSub.value.memoryBank1);
        var ram := CopyBank(cartSub.value.ramBank);
        sub := Some(RomOnly(b1, ram));
      }
      c := new Cartridge.FromParts(buf, sub);
      assert buf[..] == buf[..BankSize];
      assert memoryBank0[..] == memoryBank0[..BankSize];
    }

    /** A cartridge made of the given bank 0 and sub-type. */
    constructor FromParts(bank0: array<bv8>, sub: Option<CartSub>)
      requires bank0.Length == BankSize && SubOk(sub)
      ensures memoryBank0 == bank0 && cartSub == sub && Valid()
    {
      memoryBank0 := bank0;
      cartSub := sub;
    }
  }
}
