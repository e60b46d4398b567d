/**
 * The GBA I/O register block (src/gba/mod.rs, struct IoRegisters): 0x400
 * bytes of registers, the interrupt-acknowledge rule for IF, the DMA start
 * latches, and the DMA channel registers read back as words.
 */
module GbaIo {
  import opened GbaDecode

  const IoSize := 0x400

  /** The value of an IoRegisters struct. */
  datatype IoState = IoState(regs: seq<bv8>, dma0: bool, dma1: bool, dma2: bool, dma3: bool)

  predicate IoOk(s: IoState)
  {
    |s.regs| == IoSize
  }

  /** The debug_assert! of every set_mem*: the address lies in the I/O region. */
  predicate InIoRegion(addr: int)
  {
    0x400_0000 <= addr <= 0x4FF_FFFF
  }

  /** `addr & 0x3FF`, for a non-negative address. */
  function Offset(addr: int): int
    requires 0 <= addr
  {
    addr % IoSize
  }

  /** IF, the interrupt request flags: writes acknowledge (clear) the bits set in the value. */
  predicate IsIf(off: int)
  {
    0x200 <= off <= 0x203
  }

  /** IoRegisters::new: all registers zero and no DMA latched. */
  const NewIo := IoState(seq(IoSize, _ => 0), false, false, false, false)

  /** The start latches after a write of val at offset off in 0xB0..=0xE0: bit 7 of a control high byte sets its channel's latch. */
  function Latch(s: IoState, off: int, val: bv8): (r: IoState)
    ensures r.regs == s.regs
  {
    if val & 0x80 == 0 then s
    else if off == 0xBB then s.(dma0 := true)
    else if off == 0xC7 then s.(dma1 := true)
    else if off == 0xD3 then s.(dma2 := true)
    else if off == 0xDF then s.(dma3 := true)
    else s
  }

  /** IoRegisters::set_mem8. */
  function SetMem8Spec(s: IoState, addr: int, val: bv8): (r: IoState)
    requires IoOk(s) && InIoRegion(addr)
    ensures IoOk(r)
  {
    var off := Offset(addr);
    if IsIf(off) then s.(regs := s.regs[off := s.regs[off] & !val])
    else if 0xB0 <= off <= 0xE0 then Latch(s, off, val).(regs := s.regs[off := val])
    else s.(regs := s.regs[off := val])
  }

  /** Only the addressed byte changes. */
  lemma SetMem8Frame(s: IoState, addr: int, val: bv8, j: int)
    requires IoOk(s) && InIoRegion(addr) && 0 <= j < IoSize && j != Offset(addr)
    ensures SetMem8Spec(s, addr, val).regs[j] == s.regs[j]
  {
  }

  /** Writes to IF can only clear bits, and they clear exactly the bits written as 1. */
  lemma IfWritesOnlyClear(s: IoState, addr: int, val: bv8)
    requires IoOk(s) && InIoRegion(addr) && IsIf(Offset(addr))
    ensures SetMem8Spec(s, addr, val).regs[Offset(addr)] & !s.regs[Offset(addr)] == 0
    ensures SetMem8Spec(s, addr, val).regs[Offset(addr)] & val == 0
    ensures SetMem8Spec(s, addr, val).regs[Offset(addr)] | val == s.regs[Offset(addr)] | val
  {
  }

  /** Every other offset stores the byte verbatim. */
  lemma OtherWritesStore(s: IoState, addr: int, val: bv8)
    requires IoOk(s) && InIoRegion(addr) && !IsIf(Offset(addr))
    ensures SetMem8Spec(s, addr, val).regs[Offset(addr)] == val
  {
  }

  /** A latch is set by a write with bit 7 set to its control high byte, and no write ever clears it. */
  lemma LatchRule(s: IoState, addr: int, val: bv8)
    requires IoOk(s) && InIoRegion(addr)
    ensures SetMem8Spec(s, addr, val).dma0 <==> s.dma0 || (Offset(addr) == 0xBB && val & 0x80 != 0)
    ensures SetMem8Spec(s, addr, val).dma1 <==> s.dma1 || (Offset(addr) == 0xC7 && val & 0x80 != 0)
    ensures SetMem8Spec(s, addr, val).dma2 <==> s.dma2 || (Offset(addr) == 0xD3 && val & 0x80 != 0)
    ensures SetMem8Spec(s, addr, val).dma3 <==> s.dma3 || (Offset(addr) == 0xDF && val & 0x80 != 0)
  {
  }

  /** `addr & !1`, for a non-negative address; `addr | 1` is one more. */
  function AlignDown2(addr: int): (r: int)
    requires 0 <= addr
    ensures r % 2 == 0 && addr - 1 <= r <= addr
    ensures InIoRegion(addr) ==> InIoRegion(r) && InIoRegion(r + 1)
  {
    addr - addr % 2
  }

  /** `addr & !3`, for a non-negative address. */
  function AlignDown4(addr: int): (r: int)
    requires 0 <= addr
    ensures r % 4 == 0 && addr - 3 <= r <= addr && AlignDown2(r) == r
    ensures InIoRegion(addr) ==> InIoRegion(r) && InIoRegion(r + 3)
  {
    addr - addr % 4
  }

  /** `addr | 2`: the address itself when bit 1 is set, else two more. */
  function OrTwo(addr: int): (r: int)
    requires 0 <= addr
    ensures addr <= r
  {
    if addr % 4 >= 2 then addr else addr + 2
  }

  /** `addr | 2` is the upper half-word of the word at `addr & !3`, inside the same region. */
  lemma OrTwoFacts(addr: int)
    requires 0 <= addr
    ensures AlignDown2(OrTwo(addr)) == AlignDown4(addr) + 2
    ensures InIoRegion(addr) ==> InIoRegion(OrTwo(addr))
  {
    var q := addr / 4;
    var b := addr % 4 % 2;
    var r := OrTwo(addr);
    assert addr == 4 * q + addr % 4;
    assert r == 2 * (2 * q + 1) + b;
    assert r % 2 == b;
    assert r <= 4 * q + 3;
  }

  /** Offsets of the bytes of an aligned word are consecutive: the word does not wrap at 0x400. */
  lemma OffsetsOfWord(lo: int)
    requires 0 <= lo && lo % 4 == 0
    ensures Offset(lo) % 4 == 0 && Offset(lo) + 3 < IoSize
    ensures Offset(lo + 1) == Offset(lo) + 1 && Offset(lo + 2) == Offset(lo) + 2 && Offset(lo + 3) == Offset(lo) + 3
  {
    var q := lo / IoSize;
    var k := lo / 4;
    assert lo == 4 * k;
    assert lo == IoSize * q + Offset(lo);
    assert Offset(lo) == 4 * (k - 0x100 * q);
  }

  /** Offsets of the bytes of an aligned half-word are consecutive. */
  lemma OffsetsOfHalf(lo: int)
    requires 0 <= lo && lo % 2 == 0
    ensures Offset(lo) % 2 == 0 && Offset(lo) + 1 < IoSize && Offset(lo + 1) == Offset(lo) + 1
  {
    var q := lo / IoSize;
    var k := lo / 2;
    assert lo == 2 * k;
    assert lo == IoSize * q + Offset(lo);
    assert Offset(lo) == 2 * (k - 0x200 * q);
  }

  function LowByte(v: bv16): bv8
  {
    (v & 0xFF) as bv8
  }

  function HighByte(v: bv16): bv8
  {
    (v >> 8) as bv8
  }

  function LowHalf(v: bv32): bv16
  {
    (v & 0xFFFF) as bv16
  }

  function HighHalf(v: bv32): bv16
  {
    (v >> 16) as bv16
  }

  /** IoRegisters::set_mem16: the low byte at `addr & !1`, then the high byte at `addr | 1`. */
  function SetMem16Spec(s: IoState, addr: int, val: bv16): (r: IoState)
    requires IoOk(s) && InIoRegion(addr)
    ensures IoOk(r)
  {
    var lo := AlignDown2(addr);
    SetMem8Spec(SetMem8Spec(s, lo, LowByte(val)), lo + 1, HighByte(val))
  }

  /** IoRegisters::set_mem32: the low half-word at `addr & !3`, then the high half at `addr | 2`. */
  function SetMem32Spec(s: IoState, addr: int, val: bv32): (r: IoState)
    requires IoOk(s) && InIoRegion(addr)
    ensures IoOk(r)
  {
    OrTwoFacts(addr);
    SetMem16Spec(SetMem16Spec(s, AlignDown4(addr), LowHalf(val)), OrTwo(addr), HighHalf(val))
  }

  /** The little-endian half-word at an offset. */
  function Half(regs: seq<bv8>, off: int): bv16
    requires 0 <= off && off + 1 < |regs|
  {
    regs[off] as bv16 | (regs[off + 1] as bv16 << 8)
  }

  /** The little-endian word at an offset. */
  function Word(regs: seq<bv8>, off: int): bv32
    requires 0 <= off && off + 3 < |regs|
  {
    regs[off] as bv32 | (regs[off + 1] as bv32 << 8) | (regs[off + 2] as bv32 << 16) | (regs[off + 3] as bv32 << 24)
  }

  lemma HalfOfBytes(v: bv16)
    ensures LowByte(v) as bv16 | (HighByte(v) as bv16 << 8) == v
  {
  }

  lemma WordOfHalves(v: bv32)
    ensures LowByte(LowHalf(v)) as bv32 | (HighByte(LowHalf(v)) as bv32 << 8)
      | (LowByte(HighHalf(v)) as bv32 << 16) | (HighByte(HighHalf(v)) as bv32 << 24) == v
  {
  }

  /** A 16-bit write outside IF stores the low byte at `addr & !1`, the high byte after it, and nothing else. */
  lemma SetMem16Bytes(s: IoState, addr: int, val: bv16)
    requires IoOk(s) && InIoRegion(addr)
    requires !IsIf(Offset(AlignDown2(addr)))
    ensures Offset(AlignDown2(addr)) + 1 < IoSize
    ensures SetMem16Spec(s, addr, val).regs[Offset(AlignDown2(addr))] == LowByte(val)
    ensures SetMem16Spec(s, addr, val).regs[Offset(AlignDown2(addr)) + 1] == HighByte(val)
    ensures forall j :: 0 <= j < IoSize && j != Offset(AlignDown2(addr)) && j != Offset(AlignDown2(addr)) + 1 ==>
      SetMem16Spec(s, addr, val).regs[j] == s.regs[j]
  {
    var lo := AlignDown2(addr);
    var o := Offset(lo);
    OffsetsOfHalf(lo);
    var s1 := SetMem8Spec(s, lo, LowByte(val));
    OtherWritesStore(s, lo, LowByte(val));
    OtherWritesStore(s1, lo + 1, HighByte(val));
    SetMem8Frame(s1, lo + 1, HighByte(val), o);
  }

  /** A 16-bit write outside IF reads back as the same half-word. */
  lemma SetMem16Stores(s: IoState, addr: int, val: bv16)
    requires IoOk(s) && InIoRegion(addr)
    requires !IsIf(Offset(AlignDown2(addr)))
    ensures Offset(AlignDown2(addr)) + 1 < IoSize
    ensures Half(SetMem16Spec(s, addr, val).regs, Offset(AlignDown2(addr))) == val
  {
    SetMem16Bytes(s, addr, val);
    HalfOfBytes(val);
  }

  /** A 32-bit write outside IF stores the four bytes little-endian at `addr & !3`. */
  lemma SetMem32Bytes(s: IoState, addr: int, val: bv32)
    requires IoOk(s) && InIoRegion(addr)
    requires !IsIf(Offset(AlignDown4(addr))) && !IsIf(Offset(AlignDown4(addr)) + 2)
    ensures Offset(AlignDown4(addr)) + 3 < IoSize
    ensures SetMem32Spec(s, addr, val).regs[Offset(AlignDown4(addr))] == LowByte(LowHalf(val))
    ensures SetMem32Spec(s, addr, val).regs[Offset(AlignDown4(addr)) + 1] == HighByte(LowHalf(val))
    ensures SetMem32Spec(s, addr, val).regs[Offset(AlignDown4(addr)) + 2] == LowByte(HighHalf(val))
    ensures SetMem32Spec(s, addr, val).regs[Offset(AlignDown4(addr)) + 3] == HighByte(HighHalf(val))
  {
    var lo := AlignDown4(addr);
    var hi := OrTwo(addr);
    OrTwoFacts(addr);
    OffsetsOfWord(lo);
    var s1 := SetMem16Spec(s, lo, LowHalf(val));
    SetMem16Bytes(s, lo, LowHalf(val));
    SetMem16Bytes(s1, hi, HighHalf(val));
  }

  /** A 32-bit write outside IF reads back as the same word. */
  lemma SetMem32Stores(s: IoState, addr: int, val: bv32)
    requires IoOk(s) && InIoRegion(addr)
    requires !IsIf(Offset(AlignDown4(addr))) && !IsIf(Offset(AlignDown4(addr)) + 2)
    ensures Offset(AlignDown4(addr)) + 3 < IoSize
    ensures Word(SetMem32Spec(s, addr, val).regs, Offset(AlignDown4(addr))) == val
  {
    SetMem32Bytes(s, addr, val);
    WordOfBytes(SetMem32Spec(s, addr, val).regs, Offset(AlignDown4(addr)), val);
  }

  /** Four bytes holding a word's little-endian bytes read back as that word. */
  lemma WordOfBytes(regs: seq<bv8>, off: int, v: bv32)
    requires 0 <= off && off + 3 < |regs|
    requires regs[off] == LowByte(LowHalf(v)) && regs[off + 1] == HighByte(LowHalf(v))
    requires regs[off + 2] == LowByte(HighHalf(v)) && regs[off + 3] == HighByte(HighHalf(v))
    ensures Word(regs, off) == v
  {
    WordOfHalves(v);
  }

  /** Channel k's registers: source at 0xB0 + 12k, destination at +4, word count at +8, control at +10. */
  function DmaBase(k: int): int
  {
    0xB0 + 12 * k
  }

  /** dmaN_source_addr. */
  function DmaSourceAddr(regs: seq<bv8>, k: int): bv32
    requires |regs| == IoSize && 0 <= k <= 3
  {
    Word(regs, DmaBase(k))
  }

  /** dmaN_dest_addr, with channel 1 read from 0xC0 like the other channels. */
  function DmaDestAddr(regs: seq<bv8>, k: int): bv32
    requires |regs| == IoSize && 0 <= k <= 3
  {
    Word(regs, DmaBase(k) + 4)
  }

  /** dma1_dest_addr as written: the bytes at 0xC2..=0xC5. */
  function Dma1DestAddrAsWritten(regs: seq<bv8>): bv32
    requires |regs| == IoSize
  {
    Word(regs, 0xC2)
  }

  /** dmaN_word_count. */
  function DmaWordCount(regs: seq<bv8>, k: int): bv16
    requires |regs| == IoSize && 0 <= k <= 3
  {
    Half(regs, DmaBase(k) + 8)
  }

  /** dma0..dma3: the control half-word decoded. */
  function DmaControlOf(regs: seq<bv8>, k: int): DmaControl
    requires |regs| == IoSize && 0 <= k <= 3
  {
    DmaControlFromBits(Half(regs, DmaBase(k) + 10))
  }

  /** The per-channel getters read the byte offsets the source names: 0xB0/0xB4/0xB8/0xBA, 0xBC/-/0xC4/0xC6, 0xC8/0xCC/0xD0/0xD2, 0xD4/0xD8/0xDC/0xDE. */
  lemma DmaLayout()
    ensures DmaBase(0) == 0xB0 && DmaBase(1) == 0xBC && DmaBase(2) == 0xC8 && DmaBase(3) == 0xD4
    ensures DmaBase(0) + 10 == 0xBA && DmaBase(1) + 10 == 0xC6 && DmaBase(2) + 10 == 0xD2 && DmaBase(3) + 10 == 0xDE
    ensures DmaBase(1) + 4 == 0xC0 && DmaBase(1) + 8 == 0xC4
  {
  }

  /** The control high bytes are the latch offsets, and a latched write decodes as an enabled channel. */
  lemma LatchMatchesControl(s: IoState, addr: int, val: bv8, k: int)
    requires IoOk(s) && InIoRegion(addr) && 0 <= k <= 3 && Offset(addr) == DmaBase(k) + 11 && val & 0x80 != 0
    ensures DmaControlOf(SetMem8Spec(s, addr, val).regs, k).enabled
    ensures [SetMem8Spec(s, addr, val).dma0, SetMem8Spec(s, addr, val).dma1,
             SetMem8Spec(s, addr, val).dma2, SetMem8Spec(s, addr, val).dma3][k]
  {
  }

  /** As written, the top half of channel 1's destination is its word count. */
  lemma Dma1DestOverlapsWordCount(regs: seq<bv8>)
    requires |regs| == IoSize
    ensures Dma1DestAddrAsWritten(regs) >> 16 == DmaWordCount(regs, 1) as bv32
  {
  }

  /** A destination of 1 with a zero word count reads back as 0 through the as-written getter. */
  lemma Dma1DestAsWrittenLosesAddress()
    ensures Dma1DestAddrAsWritten(seq(IoSize, i => if i == 0xC0 then 1 else 0)) == 0
    ensures DmaDestAddr(seq(IoSize, i => if i == 0xC0 then 1 else 0), 1) == 1
  {
  }

  /** The destination register of every channel is disjoint from its word count and control. */
  lemma DmaDestIsOwnRegister(regs: seq<bv8>, k: int, j: int, v: bv8)
    requires |regs| == IoSize && 0 <= k <= 3 && 0 <= j < IoSize
    requires !(DmaBase(k) + 4 <= j < DmaBase(k) + 8)
    ensures DmaDestAddr(regs[j := v], k) == DmaDestAddr(regs, k)
  {
  }

  /** disable_dmaN: bit 7 of the control high byte cleared. */
  function DisableDma(s: IoState, k: int): (r: IoState)
    requires IoOk(s) && 0 <= k <= 3
    ensures IoOk(r) && !DmaControlOf(r.regs, k).enabled
    ensures r.dma0 == s.dma0 && r.dma1 == s.dma1 && r.dma2 == s.dma2 && r.dma3 == s.dma3
  {
    var hi := DmaBase(k) + 11;
    s.(regs := s.regs[hi := s.regs[hi] & !0x80])
  }

  /** dma_waiting: some start latch is set. */
  predicate DmaWaiting(s: IoState)
  {
    s.dma0 || s.dma1 || s.dma2 || s.dma3
  }

  /** A fresh block has no DMA waiting; a write that latches a channel leaves one waiting. */
  lemma DmaWaitingAfterLatch(s: IoState, addr: int, val: bv8)
    requires IoOk(s) && InIoRegion(addr)
    requires Offset(addr) in {0xBB, 0xC7, 0xD3, 0xDF} && val & 0x80 != 0
    ensures !DmaWaiting(NewIo)
    ensures DmaWaiting(SetMem8Spec(s, addr, val))
  {
  }

  class IoRegisters {
    const regs: array<bv8>
    var dma0Enabled: bool
    var dma1Enabled: bool
    var dma2Enabled: bool
    var dma3Enabled: bool

    ghost predicate Valid()
      reads this
    {
      regs.Length == IoSize
    }

    function State(): IoState
      reads this, regs
    {
      IoState(regs[..], dma0Enabled, dma1Enabled, dma2Enabled, dma3Enabled)
    }

    constructor ()
      ensures Valid() && State() == NewIo && fresh(regs)
    {
      regs := new bv8[IoSize](_ => 0);
      dma0Enabled, dma1Enabled, dma2Enabled, dma3Enabled := false, false, false, false;
    }

    method SetMem8(addr: int, val: bv8)
      requires Valid() && InIoRegion(addr)
      modifies this, regs
      ensures Valid() && State() == SetMem8Spec(old(State()), addr, val)
    {
      var off := Offset(addr);
      if IsIf(off) {
        regs[off] := regs[off] & !val;
      } else {
        if 0xB0 <= off <= 0xE0 {
          var latched := Latch(State(), off, val);
          dma0Enabled, dma1Enabled, dma2Enabled, dma3Enabled := latched.dma0, latched.dma1, latched.dma2, latched.dma3;
        }
        regs[off] := val;
      }
    }

    method SetMem16(addr: int, val: bv16)
      requires Valid() && InIoRegion(addr)
      modifies this, regs
      ensures Valid() && State() == SetMem16Spec(old(State()), addr, val)
    {
      var loAddr := AlignDown2(addr);
      var hiAddr := loAddr + 1;
      SetMem8(loAddr, LowByte(val));
      SetMem8(hiAddr, HighByte(val));
    }

    method SetMem32(addr: int, val: bv32)
      requires Valid() && InIoRegion(addr)
      modifies this, regs
      ensures Valid() && State() == SetMem32Spec(old(State()), addr, val)
    {
      var loAddr := AlignDown4(addr);
      var hiAddr := OrTwo(addr);
      OrTwoFacts(addr);
      SetMem16(loAddr, LowHalf(val));
      SetMem16(hiAddr, HighHalf(val));
    }

    method DisableDmaMut(k: int)
      requires Valid() && 0 <= k <= 3
      modifies regs
      ensures State() == DisableDma(old(State()), k)
    {
      var hi := DmaBase(k) + 11;
      regs[hi] := regs[hi] & !0x80;
    }
  }
}
