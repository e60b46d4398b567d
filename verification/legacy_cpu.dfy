/**
 * The older Game Boy CPU (src/cpu.rs). Its registers are i8, held here as
 * their two's-complement bits in bv8; every `as i16`, `as i32` or `as u16`
 * of an i8 sign-extends, and that extension is written out.
 */
module LegacyCpu {
  import opened Options
  import opened CpuConstants
  import GbCpu

  const MemSize := 0x10000

  /** An i8 widened to 16 bits by `as i16` or `as u16`: bit 7 is copied upwards. */
  function SignExtend(x: bv8): (r: bv16)
    ensures r & 0xFF == x as bv16
    ensures x & 0x80 == 0 ==> r == x as bv16
    ensures x & 0x80 != 0 ==> r & 0xFF00 == 0xFF00
  {
    if x & 0x80 == 0 then x as bv16 else 0xFF00 | x as bv16
  }

  /** `as i8` of a 16-bit value: its low byte. */
  function LowByte(x: bv16): bv8
  {
    (x & 0xFF) as bv8
  }

  /** The value of an i16 held as bits. */
  function I16(x: bv16): int
  {
    if x & 0x8000 == 0 then x as int else x as int - 0x10000
  }

  /** The value of an i8 held as bits. */
  function I8(x: bv8): int
  {
    if x & 0x80 == 0 then x as int else x as int - 0x100
  }

  /**
   * set_flags: every shift takes the z argument, so all four flag bits
   * become z and n, h and c are ignored.
   */
  function SetFlagsByte(z: bool, n: bool, h: bool, c: bool): (r: bv8)
    ensures r == if z then 0xF0 else 0
    ensures r & ZL != 0 <==> z
    ensures r & 0x0F == 0
  {
    var zi: bv8 := if z then 1 else 0;
    (zi << 7) | (zi << 6) | (zi << 5) | (zi << 4)
  }

  /** hl(): the two i8 halves widened with `as u16`, so the low byte's sign fills the top. */
  function Hl(r: GbCpu.RegFile): bv16
  {
    (SignExtend(r.h) << 8) | SignExtend(r.l)
  }

  /** hl() is H:L when bit 7 of L is clear; otherwise L's sign covers H and the result is 0xFF00 | L. */
  lemma HlSignFill(r: GbCpu.RegFile)
    ensures r.l & 0x80 == 0 ==> Hl(r) == (r.h as bv16 << 8) | r.l as bv16
    ensures r.l & 0x80 != 0 ==> Hl(r) == 0xFF00 | r.l as bv16
  {
  }

  /** set_mem: the echoed ranges store at the address and at address ^ 0x2000; others directly. */
  function SetMemSpec(m: seq<bv8>, ad: int, v: bv8): (r: seq<bv8>)
    requires |m| == MemSize && 0 <= ad < MemSize
    ensures |r| == MemSize
  {
    if GbCpu.Echoed(ad) then m[ad := v][GbCpu.Mirror(ad) := v] else m[ad := v]
  }

  /** A mirrored write lands at both addresses and nowhere else. */
  lemma SetMemMirrors(m: seq<bv8>, ad: int, v: bv8)
    requires |m| == MemSize && GbCpu.Echoed(ad)
    ensures SetMemSpec(m, ad, v)[ad] == v && SetMemSpec(m, ad, v)[GbCpu.Mirror(ad)] == v
    ensures forall j :: 0 <= j < MemSize && j != ad && j != GbCpu.Mirror(ad) ==> SetMemSpec(m, ad, v)[j] == m[j]
  {
  }

  /** Every other address is stored directly, changing nothing else. */
  lemma SetMemDirect(m: seq<bv8>, ad: int, v: bv8)
    requires |m| == MemSize && 0 <= ad < MemSize && !GbCpu.Echoed(ad)
    ensures SetMemSpec(m, ad, v) == m[ad := v]
  {
  }

  /** alu_dispatch's second operand: a register, the byte at hl(), or the literal. */
  function Operand(r: GbCpu.RegFile, m: seq<bv8>, reg: CpuRegister): bv8
    requires |m| == MemSize
  {
    match reg
    case A => r.a
    case B => r.b
    case C => r.c
    case D => r.d
    case E => r.e
    case H => r.h
    case L => r.l
    case HLInd => m[Hl(r) as int]
    case Num(i) => i
  }

  /** access_register: the operand, or None for a literal. */
  function AccessRegister(r: GbCpu.RegFile, m: seq<bv8>, reg: CpuRegister): (o: Option<bv8>)
    requires |m| == MemSize
    ensures o.None? <==> reg.Num?
    ensures o.Some? ==> o.value == Operand(r, m, reg)
  {
    if reg.Num? then None else Some(Operand(r, m, reg))
  }

  /** set_register: a register takes the value, HL stores it through set_mem at hl(); a literal panics. */
  function SetRegisterSpec(r: GbCpu.RegFile, m: seq<bv8>, reg: CpuRegister, v: bv8): (o: (GbCpu.RegFile, seq<bv8>))
    requires |m| == MemSize && !reg.Num?
    ensures |o.1| == MemSize
  {
    match reg
    case A => (r.(a := v), m)
    case B => (r.(b := v), m)
    case C => (r.(c := v), m)
    case D => (r.(d := v), m)
    case E => (r.(e := v), m)
    case H => (r.(h := v), m)
    case L => (r.(l := v), m)
    case HLInd => (r, SetMemSpec(m, Hl(r) as int, v))
  }

  /** Reading a register back after setting it yields the value set. */
  lemma AccessAfterSet(r: GbCpu.RegFile, m: seq<bv8>, reg: CpuRegister, v: bv8)
    requires |m| == MemSize && !reg.Num?
    ensures AccessRegister(SetRegisterSpec(r, m, reg, v).0, SetRegisterSpec(r, m, reg, v).1, reg) == Some(v)
  {
  }

  /** Setting a register changes no other register, and memory only for HL. */
  lemma SetRegisterFrame(r: GbCpu.RegFile, m: seq<bv8>, reg: CpuRegister, v: bv8, other: CpuRegister)
    requires |m| == MemSize && !reg.Num? && reg != HLInd
    requires other != reg && other != HLInd
    ensures SetRegisterSpec(r, m, reg, v).1 == m
    ensures Operand(SetRegisterSpec(r, m, reg, v).0, m, other) == Operand(r, m, other)
  {
  }

  /** The i16 sum `(a as i16) + (b as i16)`, as bits; it cannot overflow. */
  function AddWide(a: bv8, b: bv8): (r: bv16)
    ensures LowByte(r) == a + b
  {
    SignExtend(a) + SignExtend(b)
  }

  /** The i16 difference `(a as i16) - (b as i16)`, as bits. */
  function SubWide(a: bv8, b: bv8): (r: bv16)
    ensures LowByte(r) == a - b
  {
    SignExtend(a) - SignExtend(b)
  }

  /** add: A := the wrapped sum, F := Z in all four flag bits. */
  function AddRegs(r: GbCpu.RegFile, m: seq<bv8>, reg: CpuRegister): (o: GbCpu.RegFile)
    requires |m| == MemSize
    ensures o.a == r.a + Operand(r, m, reg)
    ensures o.f == if o.a == 0 then 0xF0 else 0
    ensures o == r.(a := o.a, f := o.f)
  {
    var newA := AddWide(r.a, Operand(r, m, reg));
    r.(a := LowByte(newA), f := SetFlagsByte(LowByte(newA) == 0, false, I16(newA) > 255, false))
  }

  /** sub: A := the wrapped difference, F := Z in all four flag bits. */
  function SubRegs(r: GbCpu.RegFile, m: seq<bv8>, reg: CpuRegister): (o: GbCpu.RegFile)
    requires |m| == MemSize
    ensures o.a == r.a - Operand(r, m, reg)
    ensures o.f == if o.a == 0 then 0xF0 else 0
    ensures o == r.(a := o.a, f := o.f)
  {
    var newA := SubWide(r.a, Operand(r, m, reg));
    r.(a := LowByte(newA), f := SetFlagsByte(LowByte(newA) == 0, true, I16(newA) > 255, false))
  }

  /** The register file Cpu::new builds. */
  const NewRegs := GbCpu.RegFile(0, 0, 0, 0, 0, 0, 0, 0, 0xFFFE, 0x100)

  /** The add test: 5 + 5 is 10 with Z clear, then adding B = -10 gives 0 with Z set. */
  lemma AddTestSequence(m: seq<bv8>)
    requires |m| == MemSize
    ensures AddRegs(NewRegs.(a := 5), m, Num(5)).a == 10
    ensures AddRegs(NewRegs.(a := 5), m, Num(5)).f & ZL == 0
    ensures AddRegs(AddRegs(NewRegs.(a := 5), m, Num(5)).(b := 0xF6), m, B).a == 0
    ensures AddRegs(AddRegs(NewRegs.(a := 5), m, Num(5)).(b := 0xF6), m, B).f & ZL == ZL
  {
  }

  /** The sub test: 5 - 5 is 0 with Z set, then subtracting B = -10 gives 10 with Z clear. */
  lemma SubTestSequence(m: seq<bv8>)
    requires |m| == MemSize
    ensures SubRegs(NewRegs.(a := 5), m, Num(5)).a == 0
    ensures SubRegs(NewRegs.(a := 5), m, Num(5)).f & ZL == ZL
    ensures SubRegs(SubRegs(NewRegs.(a := 5), m, Num(5)).(b := 0xF6), m, B).a == 10
    ensures SubRegs(SubRegs(NewRegs.(a := 5), m, Num(5)).(b := 0xF6), m, B).f & ZL == 0
  {
  }

  /**
   * swap's new value: `(top >> 4) | (bot << 4)` on i8, where `>>` is an
   * arithmetic shift, so a set bit 7 fills the top nibble with ones.
   */
  function SwapValue(val: bv8): (r: bv8)
    ensures val & 0x80 == 0 ==> r == (val >> 4) | (val << 4)
    ensures val & 0x80 != 0 ==> r == 0xF0 | (val >> 4)
  {
    var top := val & 0xF0;
    var bot := val & 0x0F;
    var shifted := if top & 0x80 == 0 then top >> 4 else (top >> 4) | 0xF0;
    shifted | (bot << 4)
  }

  /** swap exchanges the nibbles exactly when bit 7 is clear. */
  lemma SwapExchangesIffBit7Clear(val: bv8)
    ensures SwapValue(val) == (val >> 4) | (val << 4) <==> val & 0x80 == 0 || val & 0x0F == 0x0F
  {
  }

  /** swap as a whole: the swapped value is set, then F is ZL exactly when the old value was 0. */
  function SwapSpec(r: GbCpu.RegFile, m: seq<bv8>, reg: CpuRegister): (o: (GbCpu.RegFile, seq<bv8>))
    requires |m| == MemSize && !reg.Num?
    ensures |o.1| == MemSize
    ensures o.0.f == if Operand(r, m, reg) == 0 then ZL else 0
  {
    var val := Operand(r, m, reg);
    var (r', m') := SetRegisterSpec(r, m, reg, SwapValue(val));
    (r'.(f := if val == 0 then ZL else 0), m')
  }

  /** swap sets the swapped value and then F. */
  lemma SwapSpecSets(r: GbCpu.RegFile, m: seq<bv8>, reg: CpuRegister)
    requires |m| == MemSize && !reg.Num?
    ensures var val := Operand(r, m, reg);
      var written := SetRegisterSpec(r, m, reg, SwapValue(val));
      SwapSpec(r, m, reg).0 == written.0.(f := if val == 0 then ZL else 0) && SwapSpec(r, m, reg).1 == written.1
  {
  }

  /** Swapping a register twice restores it when its bit 7 is clear and it does not swap into bit 7. */
  lemma SwapTwiceRestoresSmall(r: GbCpu.RegFile, m: seq<bv8>)
    requires |m| == MemSize && r.b & 0x88 == 0
    ensures SwapSpec(SwapSpec(r, m, B).0, m, B).0.b == r.b
  {
  }

  /** A value is packed BCD: two decimal digits. */
  predicate IsBcd(x: bv8)
  {
    x & 0x0F <= 9 && x >> 4 <= 9
  }

  /**
   * daa's new A: the low nibble above 9 gets 6 added (carrying 0x10 into the
   * high nibble), then a high nibble above 9 gets 6 added, each truncated to
   * its nibble. A is widened with `as u16` first, which only the ignored
   * carry argument sees.
   */
  function DaaValue(a: bv8): (r: bv8)
    ensures IsBcd(r)
  {
    var reducedA := SignExtend(a);
    var lowestBits := reducedA & 0xF;
    var lowestDigit := if lowestBits > 9 then (lowestBits + 6) & 0xF else lowestBits;
    var highestBits := ((reducedA & 0xF0) + (if lowestDigit == lowestBits then 0 else 0x10)) & 0xF0;
    var highestDigit := if highestBits > 0x90 then (highestBits + 0x60) & 0xF0 else highestBits & 0xF0;
    LowByte(highestDigit | lowestDigit)
  }

  /** daa leaves a packed BCD value unchanged. */
  lemma DaaKeepsBcd(a: bv8)
    requires IsBcd(a)
    ensures DaaValue(a) == a
  {
  }

  /** The bcd test: 0x15, 0x70 and 0x79 are kept and 0x3F becomes 0x45. */
  lemma DaaTestCases()
    ensures DaaValue(0x15) == 0x15 && DaaValue(0x70) == 0x70 && DaaValue(0x79) == 0x79
    ensures DaaValue(0x3F) == 0x45
  {
    DaaKeepsBcd(0x15);
    DaaKeepsBcd(0x70);
    DaaKeepsBcd(0x79);
  }

  /** jrn's target: `(pc as i32 + n as i32) as u16`, the signed offset added modulo 0x10000. */
  function JumpTarget(pc: bv16, n: bv8): bv16
  {
    pc + SignExtend(n)
  }

  /** The offset jrn adds is n's signed value. */
  lemma JumpOffsetIsSigned(n: bv8)
    ensures I16(SignExtend(n)) == I8(n)
  {
  }

  /** jrn moves PC forward by n when n is non-negative, and back by -n otherwise, wrapping at 16 bits. */
  lemma JumpTargetIsSignedOffset(pc: bv16, n: bv8)
    ensures n & 0x80 == 0 ==> JumpTarget(pc, n) == pc + n as bv16
    ensures n & 0x80 != 0 ==> JumpTarget(pc, n) == pc - (-n) as bv16
  {
  }

  /** The legacy Cpu: i8 registers as bits, and 64 KiB of memory. */
  class Cpu {
    var a: bv8
    var b: bv8
    var c: bv8
    var d: bv8
    var e: bv8
    var f: bv8
    var h: bv8
    var l: bv8
    var sp: bv16
    var pc: bv16
    const mem: array<bv8>

    ghost predicate Valid()
      reads this
    {
      mem.Length == MemSize
    }

    function Regs(): GbCpu.RegFile
      reads this
    {
      GbCpu.RegFile(a, b, c, d, e, f, h, l, sp, pc)
    }

    /** Cpu::new: every register zero, SP = 0xFFFE, PC = 0x100, zeroed memory. */
    constructor ()
      ensures Valid() && fresh(mem)
      ensures Regs() == NewRegs && mem[..] == seq(MemSize, _ => 0)
    {
      a, b, c, d, e, f, h, l := 0, 0, 0, 0, 0, 0, 0, 0;
      sp, pc := 0xFFFE, 0x100;
      mem := new bv8[MemSize](_ => 0);
    }

    method SetFlags(z: bool, n: bool, h': bool, c': bool)
      modifies this
      ensures Regs() == old(Regs()).(f := SetFlagsByte(z, n, h', c'))
    {
      f := SetFlagsByte(z, n, h', c');
    }

    method SetMem(address: int, value: bv8)
      requires Valid() && 0 <= address < MemSize
      modifies mem
      ensures mem[..] == SetMemSpec(old(mem[..]), address, value)
    {
      if GbCpu.Echoed(address) {
        mem[address] := value;
        mem[GbCpu.Mirror(address)] := value;
      } else {
        mem[address] := value;
      }
    }

    method Add(reg: CpuRegister)
      requires Valid()
      modifies this
      ensures Regs() == AddRegs(old(Regs()), mem[..], reg)
    {
      var newA := AddWide(a, Operand(Regs(), mem[..], reg));
      a := LowByte(newA);
      SetFlags(LowByte(newA) == 0, false, I16(newA) > 255, false);
    }

    method Sub(reg: CpuRegister)
      requires Valid()
      modifies this
      ensures Regs() == SubRegs(old(Regs()), mem[..], reg)
    {
      var newA := SubWide(a, Operand(Regs(), mem[..], reg));
      a := LowByte(newA);
      SetFlags(LowByte(newA) == 0, true, I16(newA) > 255, false);
    }

    method SetRegister(reg: CpuRegister, val: bv8)
      requires Valid() && !reg.Num?
      modifies this, mem
      ensures (Regs(), mem[..]) == SetRegisterSpec(old(Regs()), old(mem[..]), reg, val)
    {
      match reg {
        case A => a := val;
        case B => b := val;
        case C => c := val;
        case D => d := val;
        case E => e := val;
        case H => h := val;
        case L => l := val;
        case HLInd =>
          var hlv := Hl(Regs());
          SetMem(hlv as int, val);
      }
    }

    /** swap: a literal operand panics. */
    method Swap(reg: CpuRegister)
      requires Valid() && !reg.Num?
      modifies this, mem
      ensures Regs() == SwapSpec(old(Regs()), old(mem[..]), reg).0 && mem[..] == SwapSpec(old(Regs()), old(mem[..]), reg).1
    {
      SwapSpecSets(Regs(), mem[..], reg);
      var val := AccessRegister(Regs(), mem[..], reg).value;
      var newVal := SwapValue(val);
      SetRegister(reg, newVal);
      f := if val == 0 then ZL else 0;
    }

    /** daa: A := DaaValue(A), F := Z in all four flag bits. */
    method Daa()
      modifies this
      ensures Regs() == old(Regs()).(a := DaaValue(old(a)), f := if DaaValue(old(a)) == 0 then 0xF0 else 0)
    {
      var reducedA := SignExtend(a);
      var newA := DaaValue(a);
      a := newA;
      var oldNflag := f & NLV == NLV;
      SetFlags(newA == 0, oldNflag, false, 0x99 < reducedA);
    }

    /** cpl: A complemented, N and H set, Z and C kept, the low nibble cleared. */
    method Cpl()
      modifies this
      ensures a == !old(a)
      ensures f & (ZL | CL) == old(f) & (ZL | CL) && f & NLV == NLV && f & HL == HL && f & 0x0F == 0
      ensures Regs() == old(Regs()).(a := a, f := f)
    {
      var newVal := !a;
      var oldFlags := f & (ZL | CL);
      f := oldFlags | NLV | HL;
      a := newVal;
    }

    /** ccf: C flipped, Z kept, everything else cleared. */
    method Ccf()
      modifies this
      ensures f & ZL == old(f) & ZL && f & CL == (old(f) & CL) ^ CL && f & !(ZL | CL) == 0
      ensures Regs() == old(Regs()).(f := f)
    {
      var oldFlags := f & (ZL | CL);
      f := oldFlags ^ CL;
    }

    /** scf: C set, Z kept, everything else cleared. */
    method Scf()
      modifies this
      ensures f & ZL == old(f) & ZL && f & CL == CL && f & !(ZL | CL) == 0
      ensures Regs() == old(Regs()).(f := f)
    {
      var oldFlags := f & ZL;
      f := oldFlags | CL;
    }

    /** jrn: PC moves by the signed offset n, wrapping at 16 bits. */
    method Jrn(n: bv8)
      modifies this
      ensures Regs() == old(Regs()).(pc := JumpTarget(old(pc), n))
    {
      var oldPc := pc;
      pc := JumpTarget(oldPc, n);
    }
  }
}
