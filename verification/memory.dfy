/**
 * The Game Boy memory map (src/cpu/memory.rs): the decoding of a 16-bit
 * address into the cartridge, the banked video and work RAM, OAM, the
 * unusable area, the I/O ports, high RAM and the interrupt-enable byte, and
 * the operations that read and write through it.
 *
 * The two-dimensional bank arrays are flattened: video RAM bank b byte i is
 * element b * 0x2000 + i, work RAM bank b byte i is element b * 0x1000 + i.
 */
module GbMemory {
  import opened Options
  import Cart = GbCartridge

  const VramBankSize := 0x2000
  const VramBanks := 2
  const WramBankSize := 0x1000
  const WramBanks := 8
  const EmptySize := 0x6F
  const OamSize := 0xA0
  const IoSize := 0x80
  const HramSize := 0x80
  const AddrSpace := 0x1_0000

  /** The contents of a Memory as a value. */
  datatype MemState = MemState(
    cart: Cart.CartState,
    videoRam: seq<bv8>,
    gbcVramBank: int,
    internalRam: seq<bv8>,
    gbcWramBank: int,
    empty: seq<bv8>,
    oam: seq<bv8>,
    ioPorts: seq<bv8>,
    hram: seq<bv8>,
    interruptFlag: bv8,
    iteratorIndex: int)

  /**
   * Array sizes, and bank numbers within their arrays (indexing with a larger
   * bank panics or, through get_unchecked_mut, is undefined).
   */
  predicate MemOk(s: MemState)
  {
    Cart.StateOk(s.cart) &&
    |s.videoRam| == VramBanks * VramBankSize && 0 <= s.gbcVramBank < VramBanks &&
    |s.internalRam| == WramBanks * WramBankSize && 0 <= s.gbcWramBank < WramBanks &&
    |s.empty| == EmptySize && |s.oam| == OamSize && |s.ioPorts| == IoSize && |s.hram| == HramSize &&
    0 <= s.iteratorIndex < AddrSpace
  }

  /** A backing byte: the cartridge at an address, or an element of one array. */
  datatype Loc =
    | Cart(addr: int)
    | Vram(off: int)
    | Wram(off: int)
    | Oam(off: int)
    | Unusable(off: int)
    | Io(off: int)
    | Hram(off: int)
    | InterruptFlag

  predicate LocInBounds(l: Loc)
  {
    match l
    case Cart(a) => Cart.IsAddr(a) && Cart.CartRange(a)
    case Vram(o) => 0 <= o < VramBanks * VramBankSize
    case Wram(o) => 0 <= o < WramBanks * WramBankSize
    case Oam(o) => 0 <= o < OamSize
    case Unusable(o) => 0 <= o < EmptySize
    case Io(o) => 0 <= o < IoSize
    case Hram(o) => 0 <= o < HramSize
    case InterruptFlag => true
  }

  predicate BanksOk(vb: int, wb: int)
  {
    0 <= vb < VramBanks && 0 <= wb < WramBanks
  }

  /**
   * Index<u16> as written: defined for every address. Its 0xE000-0xEFFF arm
   * reads the switchable work RAM bank, unlike IndexMut.
   */
  function IndexLocAsWritten(addr: int, vb: int, wb: int): (r: Loc)
    requires Cart.IsAddr(addr) && BanksOk(vb, wb)
    ensures LocInBounds(r)
    ensures r.Cart? <==> Cart.CartRange(addr)
    ensures r.Cart? ==> r.addr == addr
  {
    if Cart.CartRange(addr) then Cart(addr)
    else if addr <= 0x9FFF then Vram(vb * VramBankSize + (addr - 0x8000))
    else if addr <= 0xCFFF then Wram(addr - 0xC000)
    else if addr <= 0xDFFF then Wram(wb * WramBankSize + (addr - 0xD000))
    else if addr <= 0xEFFF then Wram(wb * WramBankSize + (addr - 0xE000))
    else if addr <= 0xFDFF then Wram(wb * WramBankSize + (addr - 0xF000))
    else if addr <= 0xFE9F then Oam(addr - 0xFE00)
    else if addr <= 0xFEFF then Unusable(addr - 0xFEA0)
    else if addr <= 0xFF7F then Io(addr - 0xFF00)
    else if addr <= 0xFFFE then Hram(addr - 0xFF80)
    else InterruptFlag
  }

  /**
   * The read decoding the model uses: Index<u16> with 0xE000-0xEFFF reading
   * work RAM bank 0, the bank IndexMut writes and initialize_logger reads,
   * so that 0xE000-0xFDFF echoes 0xC000-0xDDFF.
   */
  function ReadLoc(addr: int, vb: int, wb: int): (r: Loc)
    requires Cart.IsAddr(addr) && BanksOk(vb, wb)
    ensures LocInBounds(r)
    ensures r.Cart? <==> Cart.CartRange(addr)
    ensures r.Cart? ==> r.addr == addr
  {
    if 0xE000 <= addr <= 0xEFFF then Wram(addr - 0xE000)
    else IndexLocAsWritten(addr, vb, wb)
  }

  /**
   * The indices IndexMut<usize> accepts: it decodes index % 0x10000 but
   * offsets into the arrays by the full index, so above 0xFFFF only the
   * cartridge arms (which truncate to u16) and the interrupt byte are in range.
   */
  predicate MutIndex(index: int)
  {
    0 <= index &&
    (index < AddrSpace || Cart.CartRange(index % AddrSpace) || index % AddrSpace == 0xFFFF)
  }

  /** IndexMut<usize>: the byte a store through index_mut reaches. */
  function MutLoc(index: int, vb: int, wb: int): (r: Loc)
    requires MutIndex(index) && BanksOk(vb, wb)
    ensures LocInBounds(r)
    ensures r.Cart? <==> Cart.CartRange(index % AddrSpace)
    ensures r.Cart? ==> r.addr == index % AddrSpace
  {
    var a := index % AddrSpace;
    if Cart.CartRange(a) then Cart(a)
    else if a <= 0x9FFF then Vram(vb * VramBankSize + (index - 0x8000))
    else if a <= 0xCFFF then Wram(index - 0xC000)
    else if a <= 0xDFFF then Wram(wb * WramBankSize + (index - 0xD000))
    else if a <= 0xEFFF then Wram(index - 0xE000)
    else if a <= 0xFDFF then Wram(wb * WramBankSize + (index - 0xF000))
    else if a <= 0xFE9F then Oam(index - 0xFE00)
    else if a <= 0xFEFF then Unusable(index - 0xFEA0)
    else if a <= 0xFF7F then Io(index - 0xFF00)
    else if a <= 0xFFFE then Hram(index - 0xFF80)
    else InterruptFlag
  }

  /** The byte can be reached without a panic (the cartridge serves its addresses). */
  predicate LocOk(s: MemState, l: Loc)
    requires MemOk(s)
  {
    LocInBounds(l) && (l.Cart? ==> Cart.Defined(s.cart, l.addr))
  }

  function LocValue(s: MemState, l: Loc): bv8
    requires MemOk(s) && LocOk(s, l)
  {
    match l
    case Cart(a) => Cart.Read(s.cart, a)
    case Vram(o) => s.videoRam[o]
    case Wram(o) => s.internalRam[o]
    case Oam(o) => s.oam[o]
    case Unusable(o) => s.empty[o]
    case Io(o) => s.ioPorts[o]
    case Hram(o) => s.hram[o]
    case InterruptFlag => s.interruptFlag
  }

  function LocStore(s: MemState, l: Loc, v: bv8): (r: MemState)
    requires MemOk(s) && LocOk(s, l)
    ensures MemOk(r)
  {
    match l
    case Cart(a) => s.(cart := Cart.Write(s.cart, a, v))
    case Vram(o) => s.(videoRam := s.videoRam[o := v])
    case Wram(o) => s.(internalRam := s.internalRam[o := v])
    case Oam(o) => s.(oam := s.oam[o := v])
    case Unusable(o) => s.(empty := s.empty[o := v])
    case Io(o) => s.(ioPorts := s.ioPorts[o := v])
    case Hram(o) => s.(hram := s.hram[o := v])
    case InterruptFlag => s.(interruptFlag := v)
  }

  /** Storing a byte does not change which cartridge addresses are served. */
  lemma LocStoreKeepsLocOk(s: MemState, l: Loc, v: bv8, l2: Loc)
    requires MemOk(s) && LocOk(s, l)
    ensures LocOk(LocStore(s, l, v), l2) <==> LocOk(s, l2)
  {
    if l.Cart? && l2.Cart? && Cart.IsAddr(l2.addr) {
      Cart.WriteKeepsDefined(s.cart, l.addr, v, l2.addr);
    }
  }

  /** A stored byte is read back from the same location. */
  lemma LocStoreThenValue(s: MemState, l: Loc, v: bv8)
    requires MemOk(s) && LocOk(s, l)
    ensures LocOk(LocStore(s, l, v), l)
    ensures LocValue(LocStore(s, l, v), l) == v
  {
    LocStoreKeepsLocOk(s, l, v, l);
    if l.Cart? {
      Cart.ReadAfterWrite(s.cart, l.addr, v);
    }
  }

  /** Storing a byte leaves every other location as it was. */
  lemma LocStoreOther(s: MemState, l: Loc, v: bv8, l2: Loc)
    requires MemOk(s) && LocOk(s, l) && LocOk(s, l2) && l2 != l
    ensures LocOk(LocStore(s, l, v), l2)
    ensures LocValue(LocStore(s, l, v), l2) == LocValue(s, l2)
  {
    LocStoreKeepsLocOk(s, l, v, l2);
    if l.Cart? && l2.Cart? {
      Cart.ReadAfterWriteOther(s.cart, l.addr, v, l2.addr);
    }
  }

  /** The address can be read without a panic. */
  predicate ReadOk(s: MemState, addr: int)
    requires MemOk(s)
  {
    Cart.IsAddr(addr) && (Cart.CartRange(addr) ==> Cart.Defined(s.cart, addr))
  }

  /** A read of a 16-bit address. */
  function Get(s: MemState, addr: int): bv8
    requires MemOk(s) && ReadOk(s, addr)
  {
    LocValue(s, ReadLoc(addr, s.gbcVramBank, s.gbcWramBank))
  }

  /** A read of a 16-bit address through Index<u16> as written. */
  function GetAsWritten(s: MemState, addr: int): bv8
    requires MemOk(s) && ReadOk(s, addr)
  {
    LocValue(s, IndexLocAsWritten(addr, s.gbcVramBank, s.gbcWramBank))
  }

  /** Index<usize>: the address reduced modulo 0x10000, then read. */
  function GetUsize(s: MemState, index: int): bv8
    requires MemOk(s) && 0 <= index && ReadOk(s, index % AddrSpace)
  {
    Get(s, index % AddrSpace)
  }

  /** The index can be written without a panic. */
  predicate PutOk(s: MemState, index: int)
    requires MemOk(s)
  {
    MutIndex(index) && (Cart.CartRange(index % AddrSpace) ==> Cart.Defined(s.cart, index % AddrSpace))
  }

  /** A store through IndexMut<usize>. */
  function Put(s: MemState, index: int, v: bv8): (r: MemState)
    requires MemOk(s) && PutOk(s, index)
    ensures MemOk(r)
  {
    LocStore(s, MutLoc(index, s.gbcVramBank, s.gbcWramBank), v)
  }

  /** Index<usize> gives the same byte for indices 0x10000 apart. */
  lemma GetUsizePeriodic(s: MemState, index: int)
    requires MemOk(s) && 0 <= index && ReadOk(s, index % AddrSpace)
    ensures ReadOk(s, (index + AddrSpace) % AddrSpace)
    ensures GetUsize(s, index + AddrSpace) == GetUsize(s, index)
  {
    assert (index + AddrSpace) % AddrSpace == index % AddrSpace;
  }

  /** Wherever IndexMut<usize> does not panic, it acts on the index reduced modulo 0x10000. */
  lemma MutLocReduces(index: int, vb: int, wb: int)
    requires MutIndex(index) && BanksOk(vb, wb)
    ensures MutIndex(index % AddrSpace)
    ensures MutLoc(index, vb, wb) == MutLoc(index % AddrSpace, vb, wb)
  {
  }

  /** Below 0x10000, IndexMut reaches the byte the read decoding reads. */
  lemma MutLocIsReadLoc(addr: int, vb: int, wb: int)
    requires Cart.IsAddr(addr) && BanksOk(vb, wb)
    ensures MutIndex(addr)
    ensures MutLoc(addr, vb, wb) == ReadLoc(addr, vb, wb)
  {
  }

  /**
   * Index<u16> as written and IndexMut reach the same byte everywhere except
   * 0xE000-0xEFFF while the work RAM bank is not 0.
   */
  lemma MutLocVsIndexAsWritten(addr: int, vb: int, wb: int)
    requires Cart.IsAddr(addr) && BanksOk(vb, wb)
    ensures MutIndex(addr)
    ensures MutLoc(addr, vb, wb) == IndexLocAsWritten(addr, vb, wb) <==> !(0xE000 <= addr <= 0xEFFF && wb != 0)
  {
  }

  /** A byte written through IndexMut is read back at the same address. */
  lemma ReadAfterPut(s: MemState, index: int, v: bv8)
    requires MemOk(s) && PutOk(s, index)
    ensures ReadOk(Put(s, index, v), index % AddrSpace)
    ensures Get(Put(s, index, v), index % AddrSpace) == v
  {
    MutLocReduces(index, s.gbcVramBank, s.gbcWramBank);
    MutLocIsReadLoc(index % AddrSpace, s.gbcVramBank, s.gbcWramBank);
    LocStoreThenValue(s, MutLoc(index, s.gbcVramBank, s.gbcWramBank), v);
  }

  /** A write leaves every address that decodes to another byte as it was. */
  lemma ReadAfterPutOther(s: MemState, index: int, v: bv8, addr: int)
    requires MemOk(s) && PutOk(s, index) && ReadOk(s, addr)
    requires ReadLoc(addr, s.gbcVramBank, s.gbcWramBank) != MutLoc(index, s.gbcVramBank, s.gbcWramBank)
    ensures ReadOk(Put(s, index, v), addr)
    ensures Get(Put(s, index, v), addr) == Get(s, addr)
  {
    LocStoreOther(s, MutLoc(index, s.gbcVramBank, s.gbcWramBank), v, ReadLoc(addr, s.gbcVramBank, s.gbcWramBank));
  }

  /** Echo RAM: a write at 0xE000 + k is read back at 0xC000 + k, with either read decoding. */
  lemma EchoWriteReadBelow(s: MemState, k: int, v: bv8)
    requires MemOk(s) && 0 <= k < 0x1E00
    ensures PutOk(s, 0xE000 + k) && ReadOk(Put(s, 0xE000 + k, v), 0xC000 + k)
    ensures Get(Put(s, 0xE000 + k, v), 0xC000 + k) == v
    ensures GetAsWritten(Put(s, 0xE000 + k, v), 0xC000 + k) == v
  {
    var vb, wb := s.gbcVramBank, s.gbcWramBank;
    assert MutLoc(0xE000 + k, vb, wb) == ReadLoc(0xC000 + k, vb, wb);
    assert ReadLoc(0xC000 + k, vb, wb) == IndexLocAsWritten(0xC000 + k, vb, wb);
    LocStoreThenValue(s, MutLoc(0xE000 + k, vb, wb), v);
  }

  /**
   * With the work RAM bank at 1, a byte written at 0xE000 through IndexMut is
   * not what Index<u16> as written reads back there: the write lands in bank
   * 0 and the read comes from bank 1.
   */
  lemma IndexAsWrittenMissesEchoWrite(s: MemState, v: bv8)
    requires MemOk(s) && s.gbcWramBank == 1 && s.internalRam[WramBankSize] != v
    ensures PutOk(s, 0xE000) && ReadOk(Put(s, 0xE000, v), 0xE000)
    ensures GetAsWritten(Put(s, 0xE000, v), 0xE000) != v
  {
    assert MutLoc(0xE000, s.gbcVramBank, 1) == Wram(0);
    assert IndexLocAsWritten(0xE000, s.gbcVramBank, 1) == Wram(WramBankSize);
  }

  /**
   * Distinct addresses decode to distinct bytes, except the echo pairs
   * 0x2000 apart at 0xC000-0xDDFF and 0xE000-0xFDFF (while the work RAM bank
   * is not 0).
   */
  lemma ReadLocInjective(a: int, b: int, vb: int, wb: int)
    requires Cart.IsAddr(a) && Cart.IsAddr(b) && BanksOk(vb, wb) && wb != 0 && a < b
    ensures ReadLoc(a, vb, wb) == ReadLoc(b, vb, wb) <==> 0xC000 <= a <= 0xDDFF && b == a + 0x2000
  {
  }

  /** write_ram_value: the cartridge ranges go to the cartridge's write_ram_value, the rest through IndexMut. */
  function WriteRamValueSpec(s: MemState, index: int, v: bv8): (r: MemState)
    requires MemOk(s) && Cart.IsAddr(index) && PutOk(s, index)
    ensures MemOk(r)
  {
    if Cart.CartRange(index) then s.(cart := Cart.Write(s.cart, index, v))
    else Put(s, index, v)
  }

  /** Routing to the cartridge changes nothing: write_ram_value is a store through IndexMut. */
  lemma WriteRamValueIsPut(s: MemState, index: int, v: bv8)
    requires MemOk(s) && Cart.IsAddr(index) && PutOk(s, index)
    ensures WriteRamValueSpec(s, index, v) == Put(s, index, v)
  {
  }

  /** The memory Memory::new builds. */
  function NewState(): (r: MemState)
    ensures MemOk(r)
  {
    MemState(Cart.NewState(), seq(VramBanks * VramBankSize, _ => 0), 0,
             seq(WramBanks * WramBankSize, _ => 0), 1, seq(EmptySize, _ => 0), seq(OamSize, _ => 0),
             seq(IoSize, _ => 0), seq(HramSize, _ => 0), 0, 0)
  }

  /**
   * A new memory reads 0 at every address outside the cartridge and in ROM
   * bank 0; the rest of the cartridge ranges panic.
   */
  lemma NewReadsZero(addr: int)
    requires Cart.IsAddr(addr)
    ensures ReadOk(NewState(), addr) <==> !Cart.CartRange(addr) || addr < Cart.BankSize
    ensures ReadOk(NewState(), addr) ==> Get(NewState(), addr) == 0
  {
    Cart.NewServesBank0Only(addr);
  }

  /**
   * After set_gbc_mode the work RAM bank is 0, so 0xD000-0xDFFF reads the
   * same bytes as 0xC000-0xCFFF.
   */
  lemma GbcModeAliasesBank0(s: MemState, k: int)
    requires MemOk(s) && 0 <= k < WramBankSize
    ensures Get(s.(gbcWramBank := 0), 0xD000 + k) == Get(s.(gbcWramBank := 0), 0xC000 + k)
  {
  }

  /** The I/O port bytes reset writes; 0xFF26 is 0xF0 in SGB mode and 0xF1 otherwise. */
  function ResetIo(io: seq<bv8>, sgb: bool): (r: seq<bv8>)
    requires |io| == IoSize
    ensures |r| == IoSize
  {
    io[0x00 := 0xCF][0x01 := 0x00][0x02 := 0x7E][0x04 := 0xAB][0x05 := 0x00][0x06 := 0x00][0x07 := 0xF8]
      [0x0F := 0xE1][0x10 := 0x80][0x11 := 0xBF][0x12 := 0xF3][0x13 := 0xFF][0x14 := 0xBF][0x16 := 0x3F]
      [0x17 := 0x00][0x18 := 0xFF][0x19 := 0xBF][0x1A := 0x7F][0x1B := 0xFF][0x1C := 0x9F][0x1E := 0xBF]
      [0x20 := 0xFF][0x21 := 0x00][0x22 := 0x00][0x23 := 0xBF][0x24 := 0x77][0x25 := 0xF3]
      [0x26 := if sgb then 0xF0 else 0xF1]
      [0x40 := 0x91][0x41 := 0x85][0x42 := 0x00][0x43 := 0x00][0x44 := 0x00][0x45 := 0x00][0x46 := 0xFF]
      [0x47 := 0xFC][0x48 := 0xFF][0x49 := 0xFF][0x4A := 0x00][0x4B := 0x00]
  }

  /** Memory::reset: the post-boot I/O values and a zero interrupt-enable byte. */
  function ResetSpec(s: MemState, sgb: bool): (r: MemState)
    requires MemOk(s)
    ensures MemOk(r)
  {
    s.(ioPorts := ResetIo(s.ioPorts, sgb), interruptFlag := 0)
  }

  /** The sound and video registers after reset, read through the memory map. */
  lemma ResetRegisterValues(s: MemState, sgb: bool)
    requires MemOk(s)
    ensures Get(ResetSpec(s, sgb), 0xFF26) == if sgb then 0xF0 else 0xF1
    ensures Get(ResetSpec(s, sgb), 0xFF00) == 0xCF && Get(ResetSpec(s, sgb), 0xFF04) == 0xAB
    ensures Get(ResetSpec(s, sgb), 0xFF0F) == 0xE1 && Get(ResetSpec(s, sgb), 0xFF40) == 0x91
    ensures Get(ResetSpec(s, sgb), 0xFF41) == 0x85 && Get(ResetSpec(s, sgb), 0xFF44) == 0x00
    ensures Get(ResetSpec(s, sgb), 0xFF46) == 0xFF && Get(ResetSpec(s, sgb), 0xFF47) == 0xFC
    ensures Get(ResetSpec(s, sgb), 0xFFFF) == 0
  {
    ResetIoValues(s.ioPorts, sgb);
  }

  /** The listed port bytes reset writes, by port offset. */
  lemma ResetIoValues(io: seq<bv8>, sgb: bool)
    requires |io| == IoSize
    ensures var r := ResetIo(io, sgb);
      r[0x00] == 0xCF && r[0x04] == 0xAB && r[0x0F] == 0xE1 && r[0x26] == (if sgb then 0xF0 else 0xF1)
    ensures var r := ResetIo(io, sgb);
      r[0x40] == 0x91 && r[0x41] == 0x85 && r[0x44] == 0x00 && r[0x46] == 0xFF && r[0x47] == 0xFC
  {
  }

  /** The I/O ports reset does not list keep their bytes. */
  lemma ResetKeepsUnlistedPorts(s: MemState, sgb: bool, k: int)
    requires MemOk(s) && 0 <= k < IoSize
    requires k in {0x03, 0x08, 0x09, 0x0A, 0x0B, 0x0C, 0x0D, 0x0E, 0x15, 0x1D, 0x1F} || 0x27 <= k <= 0x3F || k >= 0x4C
    ensures Get(ResetSpec(s, sgb), 0xFF00 + k) == Get(s, 0xFF00 + k)
  {
    ResetIoKeeps(s.ioPorts, sgb, k);
    assert ReadLoc(0xFF00 + k, s.gbcVramBank, s.gbcWramBank) == Io(k);
  }

  /** The port bytes reset does not list keep their values. */
  lemma ResetIoKeeps(io: seq<bv8>, sgb: bool, k: int)
    requires |io| == IoSize && 0 <= k < IoSize
    requires k in {0x03, 0x08, 0x09, 0x0A, 0x0B, 0x0C, 0x0D, 0x0E, 0x15, 0x1D, 0x1F} || 0x27 <= k <= 0x3F || k >= 0x4C
    ensures ResetIo(io, sgb)[k] == io[k]
  {
  }

  /** Reset touches only the I/O ports and the interrupt-enable byte. */
  lemma ResetKeepsRam(s: MemState, sgb: bool, addr: int)
    requires MemOk(s) && ReadOk(s, addr) && !(0xFF00 <= addr <= 0xFF7F) && addr != 0xFFFF
    ensures ReadOk(ResetSpec(s, sgb), addr)
    ensures Get(ResetSpec(s, sgb), addr) == Get(s, addr)
  {
  }

  /** Iterator::next: the byte at iterator_index, advancing it, until it reaches 0xFFFF. */
  function NextSpec(s: MemState): (r: (MemState, Option<bv8>))
    requires MemOk(s) && ReadOk(s, s.iteratorIndex)
    ensures MemOk(r.0) && r.0 == s.(iteratorIndex := r.0.iteratorIndex)
  {
    if s.iteratorIndex < 0xFFFF then
      (s.(iteratorIndex := s.iteratorIndex + 1), Some(GetUsize(s, s.iteratorIndex)))
    else (s, None)
  }

  /** The cartridge serves all of its addresses, so every address of the map can be read. */
  predicate AllReadable(s: MemState)
    requires MemOk(s)
  {
    forall a :: 0 <= a < AddrSpace && Cart.CartRange(a) ==> Cart.Defined(s.cart, a)
  }

  /** The iterator position plays no part in a read. */
  lemma GetIgnoresIterator(s: MemState, j: int, a: int)
    requires MemOk(s) && 0 <= j < AddrSpace && ReadOk(s, a)
    ensures MemOk(s.(iteratorIndex := j)) && ReadOk(s.(iteratorIndex := j), a)
    ensures Get(s.(iteratorIndex := j), a) == Get(s, a)
  {
  }

  /** The items of n calls to next. */
  function Items(s: MemState, n: nat): (r: seq<Option<bv8>>)
    requires MemOk(s) && AllReadable(s)
    ensures |r| == n
    decreases n
  {
    if n == 0 then []
    else [NextSpec(s).1] + Items(NextSpec(s).0, n - 1)
  }

  /** From index k, the next 0xFFFF - k calls yield the bytes at k..0xFFFE in order. */
  lemma {:induction false} ItemsFrom(s: MemState, k: int)
    requires MemOk(s) && AllReadable(s) && 0 <= k <= 0xFFFF
    ensures MemOk(s.(iteratorIndex := k))
    ensures forall a :: k <= a < 0xFFFF ==> Items(s.(iteratorIndex := k), 0xFFFF - k)[a - k] == Some(Get(s, a))
    decreases 0xFFFF - k
  {
    if k < 0xFFFF {
      ItemsHead(s, k);
      ItemsFrom(s, k + 1);
      var items := Items(s.(iteratorIndex := k), 0xFFFF - k);
      var rest := Items(s.(iteratorIndex := k + 1), 0xFFFF - (k + 1));
      forall a | k <= a < 0xFFFF
        ensures items[a - k] == Some(Get(s, a))
      {
        if a > k {
          assert items[a - k] == rest[a - (k + 1)];
        }
      }
    }
  }

  /** The call at index k yields the byte at k and moves the iterator on to k + 1. */
  lemma ItemsHead(s: MemState, k: int)
    requires MemOk(s) && AllReadable(s) && 0 <= k < 0xFFFF
    ensures MemOk(s.(iteratorIndex := k)) && MemOk(s.(iteratorIndex := k + 1))
    ensures Items(s.(iteratorIndex := k), 0xFFFF - k) == [Some(Get(s, k))] + Items(s.(iteratorIndex := k + 1), 0xFFFF - (k + 1))
  {
    var t := s.(iteratorIndex := k);
    assert NextSpec(t).0 == s.(iteratorIndex := k + 1);
    GetIgnoresIterator(s, k, k);
    assert NextSpec(t).1 == Some(Get(s, k));
  }

  /**
   * The memory iterator started at 0 yields the bytes of addresses 0..=0xFFFE
   * in order, 0xFFFF items in all, and then stops.
   */
  lemma IterationYieldsAddressSpace(s: MemState)
    requires MemOk(s) && AllReadable(s) && s.iteratorIndex == 0
    ensures |Items(s, 0xFFFF)| == 0xFFFF
    ensures forall a :: 0 <= a < 0xFFFF ==> Items(s, 0xFFFF)[a] == Some(Get(s, a))
    ensures NextSpec(s.(iteratorIndex := 0xFFFF)).1 == None
  {
    ItemsFrom(s, 0);
    assert s.(iteratorIndex := 0) == s;
  }

  /** Memory: the bank arrays and the fields the methods update. */
  class Memory {
    const cartridge: Cart.Cartridge
    const videoRam: array<bv8>
    var gbcVramBank: int
    const internalRam: array<bv8>
    var gbcWramBank: int
    const empty: array<bv8>
    const oam: array<bv8>
    const ioPorts: array<bv8>
    const hram: array<bv8>
    var interruptFlag: bv8
    var iteratorIndex: int

    ghost predicate Valid()
      reads this, cartridge
    {
      cartridge.Valid() &&
      videoRam.Length == VramBanks * VramBankSize && 0 <= gbcVramBank < VramBanks &&
      internalRam.Length == WramBanks * WramBankSize && 0 <= gbcWramBank < WramBanks &&
      empty.Length == EmptySize && oam.Length == OamSize && ioPorts.Length == IoSize &&
      hram.Length == HramSize && 0 <= iteratorIndex < AddrSpace &&
      cartridge.memoryBank0 != videoRam && cartridge.memoryBank0 != internalRam &&
      cartridge.memoryBank0 != empty && cartridge.memoryBank0 != oam &&
      cartridge.memoryBank0 != ioPorts && cartridge.memoryBank0 != hram &&
      videoRam != internalRam && videoRam != empty && videoRam != oam && videoRam != ioPorts && videoRam != hram &&
      internalRam != empty && internalRam != oam && internalRam != ioPorts && internalRam != hram &&
      empty != oam && empty != ioPorts && empty != hram &&
      oam != ioPorts && oam != hram && ioPorts != hram
    }

    function State(): (r: MemState)
      reads this, cartridge, cartridge.memoryBank0, videoRam, internalRam, empty, oam, ioPorts, hram
    {
      MemState(cartridge.State(), videoRam[..], gbcVramBank, internalRam[..], gbcWramBank,
               empty[..], oam[..], ioPorts[..], hram[..], interruptFlag, iteratorIndex)
    }

    lemma ValidState()
      requires Valid()
      ensures MemOk(State())
    {
    }

    /** Memory::new: an empty cartridge, zeroed RAM, work RAM bank 1 and video RAM bank 0. */
    constructor ()
      ensures Valid() && State() == NewState()
      ensures fresh(cartridge) && fresh(cartridge.memoryBank0)
      ensures fresh(videoRam) && fresh(internalRam) && fresh(empty) && fresh(oam) && fresh(ioPorts) && fresh(hram)
    {
      cartridge := new Cart.Cartridge();
      videoRam := new bv8[VramBanks * VramBankSize](_ => 0);
      internalRam := new bv8[WramBanks * WramBankSize](_ => 0);
      empty := new bv8[EmptySize](_ => 0);
      oam := new bv8[OamSize](_ => 0);
      ioPorts := new bv8[IoSize](_ => 0);
      hram := new bv8[HramSize](_ => 0);
      interruptFlag := 0;
      iteratorIndex := 0;
      gbcWramBank := 1;
      gbcVramBank := 0;
    }

    /**
     * Index<u16> on the arrays, with 0xE000-0xEFFF reading work RAM bank 0
     * (the correction of the read decoding).
     */
    function Index(addr: int): (r: bv8)
      reads this, cartridge, cartridge.memoryBank0, videoRam, internalRam, empty, oam, ioPorts, hram
      requires Valid() && MemOk(State()) && ReadOk(State(), addr)
      ensures r == Get(State(), addr)
    {
      if Cart.CartRange(addr) then cartridge.Index(addr)
      else if addr <= 0x9FFF then videoRam[gbcVramBank * VramBankSize + (addr - 0x8000)]
      else if addr <= 0xCFFF then internalRam[addr - 0xC000]
      else if addr <= 0xDFFF then internalRam[gbcWramBank * WramBankSize + (addr - 0xD000)]
      else if addr <= 0xEFFF then internalRam[addr - 0xE000]
      else if addr <= 0xFDFF then internalRam[gbcWramBank * WramBankSize + (addr - 0xF000)]
      else if addr <= 0xFE9F then oam[addr - 0xFE00]
      else if addr <= 0xFEFF then empty[addr - 0xFEA0]
      else if addr <= 0xFF7F then ioPorts[addr - 0xFF00]
      else if addr <= 0xFFFE then hram[addr - 0xFF80]
      else interruptFlag
    }

    /** Stores one byte of an array other than the cartridge's. */
    method StoreIn(a: array<bv8>, off: int, value: bv8)
      requires Valid() && 0 <= off < a.Length
      requires a == videoRam || a == internalRam || a == empty || a == oam || a == ioPorts || a == hram
      modifies a
      ensures Valid()
      ensures a[..] == old(a[..])[off := value]
    {
      a[off] := value;
    }

    /**
     * IndexMut<usize> and a store through the reference it returns (the
     * serial-port arm at 0xFF02 prints a character and stores like the other
     * I/O ports).
     */
    method IndexMut(index: int, value: bv8)
      requires Valid() && MemOk(State()) && PutOk(State(), index)
      modifies this`interruptFlag, cartridge, cartridge.memoryBank0, videoRam, internalRam, empty, oam, ioPorts, hram
      ensures Valid()
      ensures State() == Put(old(State()), index, value)
    {
      var a := index % AddrSpace;
      if Cart.CartRange(a) {
        cartridge.IndexMut(a, value);
      } else if a <= 0xDFFF {
        StoreBanked(index, value);
      } else {
        StoreHigh(index, value);
      }
    }

    /** The arms of IndexMut for video RAM and the two work RAM windows. */
    method StoreBanked(index: int, value: bv8)
      requires Valid() && MemOk(State()) && PutOk(State(), index)
      requires !Cart.CartRange(index % AddrSpace) && index % AddrSpace <= 0xDFFF
      modifies videoRam, internalRam
      ensures State() == Put(old(State()), index, value)
    {
      var a := index % AddrSpace;
      if a <= 0x9FFF {
        StoreIn(videoRam, gbcVramBank * VramBankSize + (index - 0x8000), value);
      } else if a <= 0xCFFF {
        StoreIn(internalRam, index - 0xC000, value);
      } else {
        StoreIn(internalRam, gbcWramBank * WramBankSize + (index - 0xD000), value);
      }
    }

    /** The arms of IndexMut from echo RAM to the interrupt-enable byte. */
    method StoreHigh(index: int, value: bv8)
      requires Valid() && MemOk(State()) && PutOk(State(), index)
      requires 0xE000 <= index % AddrSpace
      modifies this`interruptFlag, internalRam, empty, oam, ioPorts, hram
      ensures State() == Put(old(State()), index, value)
    {
      var a := index % AddrSpace;
      if a <= 0xEFFF {
        StoreIn(internalRam, index - 0xE000, value);
      } else if a <= 0xFDFF {
        StoreIn(internalRam, gbcWramBank * WramBankSize + (index - 0xF000), value);
      } else if a <= 0xFE9F {
        StoreIn(oam, index - 0xFE00, value);
      } else if a <= 0xFEFF {
        StoreIn(empty, index - 0xFEA0, value);
      } else if a <= 0xFF7F {
        StoreIn(ioPorts, index - 0xFF00, value);
      } else if a <= 0xFFFE {
        StoreIn(hram, index - 0xFF80, value);
      } else {
        interruptFlag := value;
      }
    }

    /** write_ram_value. */
    method WriteRamValue(index: int, value: bv8)
      requires Valid() && MemOk(State()) && Cart.IsAddr(index) && PutOk(State(), index)
      modifies this, cartridge, cartridge.memoryBank0, videoRam, internalRam, empty, oam, ioPorts, hram
      ensures Valid()
      ensures State() == WriteRamValueSpec(old(State()), index, value)
    {
      if Cart.CartRange(index) {
        cartridge.WriteRamValue(index, value);
      } else {
        IndexMut(index, value);
      }
    }

    /** set_gbc_mode: work RAM bank 0. */
    method SetGbcMode()
      requires Valid()
      modifies this
      ensures Valid()
      ensures State() == old(State()).(gbcWramBank := 0)
    {
      gbcWramBank := 0;
    }

    /** The I/O-port stores of reset, each through IndexMut's I/O arm. */
    method WriteBootIo(sgbMode: bool)
      requires ioPorts.Length == IoSize
      modifies ioPorts
      ensures ioPorts[..] == ResetIo(old(ioPorts[..]), sgbMode)
    {
      ioPorts[0x00] := 0xCF;
      ioPorts[0x01] := 0x00;
      ioPorts[0x02] := 0x7E;
      ioPorts[0x04] := 0xAB;
      ioPorts[0x05] := 0x00;
      ioPorts[0x06] := 0x00;
      ioPorts[0x07] := 0xF8;
      ioPorts[0x0F] := 0xE1;
      ioPorts[0x10] := 0x80;
      ioPorts[0x11] := 0xBF;
      ioPorts[0x12] := 0xF3;
      ioPorts[0x13] := 0xFF;
      ioPorts[0x14] := 0xBF;
      ioPorts[0x16] := 0x3F;
      ioPorts[0x17] := 0x00;
      ioPorts[0x18] := 0xFF;
      ioPorts[0x19] := 0xBF;
      ioPorts[0x1A] := 0x7F;
      ioPorts[0x1B] := 0xFF;
      ioPorts[0x1C] := 0x9F;
      ioPorts[0x1E] := 0xBF;
      ioPorts[0x20] := 0xFF;
      ioPorts[0x21] := 0x00;
      ioPorts[0x22] := 0x00;
      ioPorts[0x23] := 0xBF;
      ioPorts[0x24] := 0x77;
      ioPorts[0x25] := 0xF3;
      ioPorts[0x26] := if sgbMode then 0xF0 else 0xF1;
      ioPorts[0x40] := 0x91;
      ioPorts[0x41] := 0x85;
      ioPorts[0x42] := 0x00;
      ioPorts[0x43] := 0x00;
      ioPorts[0x44] := 0x00;
      ioPorts[0x45] := 0x00;
      ioPorts[0x46] := 0xFF;
      ioPorts[0x47] := 0xFC;
      ioPorts[0x48] := 0xFF;
      ioPorts[0x49] := 0xFF;
      ioPorts[0x4A] := 0x00;
      ioPorts[0x4B] := 0x00;
    }

    /** Memory::reset. */
    method Reset(sgbMode: bool)
      requires Valid()
      modifies this, ioPorts
      ensures Valid()
      ensures State() == ResetSpec(old(State()), sgbMode)
    {
      WriteBootIo(sgbMode);
      interruptFlag := 0;
    }

    /** Iterator::next. */
    method Next() returns (r: Option<bv8>)
      requires Valid() && MemOk(State()) && ReadOk(State(), iteratorIndex)
      modifies this
      ensures Valid()
      ensures (State(), r) == NextSpec(old(State()))
    {
      if iteratorIndex < 0xFFFF {
        iteratorIndex := iteratorIndex + 1;
        r := Some(Index((iteratorIndex - 1) % AddrSpace));
      } else {
        r := None;
      }
    }
  }
}
