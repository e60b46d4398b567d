/**
 * The legacy memory visualisation helpers (src/io/memvis.rs): the mapping
 * between points of the 256-wide memory picture and addresses, the
 * saturating colour helpers, and the pruning of faded events.
 */
module MemVis {
  import opened Options
  import opened CpuMemVis

  const MemDispWidth := 0x100
  /** 0xFFFF / MEM_DISP_WIDTH with integer division. */
  const MemDispHeight := 0xFF
  /**
   * CPU_CYCLES_PER_VBLANK * 15, where CPU_CYCLES_PER_VBLANK is
   * 4194304 / 59.73 computed in f32 and truncated, 70221.
   */
  const FadeDelay := 70221 * 15

  predicate IsI32(v: int) { -0x8000_0000 <= v < 0x8000_0000 }

  /** `v as u16` for an i32: the low 16 bits, two's complement. */
  function AsU16(v: int): (r: int)
    ensures 0 <= r < 0x10000
    ensures 0 <= v < 0x10000 ==> r == v
  {
    v % 0x10000
  }

  /**
   * screen_coord_to_mem_addr: Some(x + 256 * y) truncated to 16 bits when
   * x < 256 and y < 256, None otherwise. Negative coordinates pass the check.
   * The i32 arithmetic must not overflow (a panic in the source).
   */
  function ScreenCoordToMemAddr(x: int, y: int): (r: Option<int>)
    requires IsI32(x) && IsI32(y)
    requires x < MemDispWidth && y < MemDispHeight + 1 ==> IsI32(y * MemDispWidth) && IsI32(x + y * MemDispWidth)
    ensures r.Some? <==> x < 256 && y < 256
    ensures 0 <= x && 0 <= y && r.Some? ==> r.value == x + 256 * y
    ensures r.Some? ==> 0 <= r.value < 0x10000
  {
    if x < MemDispWidth && y < MemDispHeight + 1 then Some(AsU16(x + y * MemDispWidth)) else None
  }

  /** The check lets negative coordinates through: (-1, 0) is address 0xFFFF. */
  lemma NegativeCoordinateAccepted()
    ensures ScreenCoordToMemAddr(-1, 0) == Some(0xFFFF)
  {
  }

  /** addr_to_point: column addr % 256, row addr / 256. */
  function AddrToPoint(addr: int): (p: (int, int))
    requires 0 <= addr < 0x10000
    ensures 0 <= p.0 < 256 && 0 <= p.1 < 256
    ensures p.0 + 256 * p.1 == addr
  {
    (addr % MemDispWidth, addr / MemDispWidth)
  }

  /** Mapping an address to its point and back gives the address, for every u16. */
  lemma AddrToPointRoundTrip(addr: int)
    requires 0 <= addr < 0x10000
    ensures ScreenCoordToMemAddr(AddrToPoint(addr).0, AddrToPoint(addr).1) == Some(addr)
  {
  }

  /** Every point of the 256 x 256 picture is the point of its address. */
  lemma PointToAddrRoundTrip(x: int, y: int)
    requires 0 <= x < 256 && 0 <= y < 256
    ensures ScreenCoordToMemAddr(x, y).Some?
    ensures AddrToPoint(ScreenCoordToMemAddr(x, y).value) == (x, y)
  {
    var a := x + 256 * y;
    assert a % 256 == x && a / 256 == y;
  }

  /** clamp_color on an i16. */
  function ClampColor(v: int): (r: int)
    requires -0x8000 <= v < 0x8000
    ensures 0 <= r <= 255
    ensures v < 0 ==> r == 0
    ensures v > 255 ==> r == 255
    ensures 0 <= v <= 255 ==> r == v
  {
    if v < 0 then 0 else if v > 255 then 255 else v
  }

  predicate IsU8(v: int) { 0 <= v < 256 }

  function MinInt(a: int, b: int): int { if a < b then a else b }

  /** mix_color: channel-wise addition saturating at 255. */
  function MixColor(r1: int, g1: int, b1: int, r2: int, g2: int, b2: int): (c: (int, int, int))
    requires IsU8(r1) && IsU8(g1) && IsU8(b1) && IsU8(r2) && IsU8(g2) && IsU8(b2)
    ensures c == (MinInt(r1 + r2, 255), MinInt(g1 + g2, 255), MinInt(b1 + b2, 255))
  {
    (ClampColor(r1 + r2), ClampColor(g1 + g2), ClampColor(b1 + b2))
  }

  /** The age test of draw_memory_events: a plain u64 subtraction. */
  predicate Faded(cycles: nat, e: EventLogEntry)
    requires e.timestamp <= cycles
  {
    cycles - e.timestamp >= FadeDelay
  }

  /**
   * The pruning loop of draw_memory_events: pops events from the front while
   * the front one has faded. Every timestamp is at most `cycles`, since the
   * drawing loop that follows subtracts each of them.
   */
  method PruneEvents(deq: seq<EventLogEntry>, cycles: nat) returns (rest: seq<EventLogEntry>)
    requires forall e :: e in deq ==> e.timestamp <= cycles
    ensures |rest| <= |deq| && rest == deq[|deq| - |rest|..]
    ensures forall i :: 0 <= i < |deq| - |rest| ==> Faded(cycles, deq[i])
    ensures rest == [] || !Faded(cycles, rest[0])
  {
    rest := deq;
    while rest != []
      invariant |rest| <= |deq| && rest == deq[|deq| - |rest|..]
      invariant forall i :: 0 <= i < |deq| - |rest| ==> Faded(cycles, deq[i])
    {
      var timestamp := rest[0].timestamp;
      if cycles - timestamp >= FadeDelay {
        rest := rest[1..];
      } else {
        break;
      }
    }
  }
}
