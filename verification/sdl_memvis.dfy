/**
 * The SDL2 memory visualisation state (src/io/graphics/sdl2/memvis.rs): the
 * point/address mapping, mouse clicks, and the walk over the event deque that
 * draws recent events. Its addr_to_point, clamp_color and mix_color are the
 * legacy helpers of module MemVis.
 */
module SdlMemVis {
  import opened Options
  import opened CpuConstants
  import opened CpuMemVis
  import GbCpu
  import MemVis

  const MemDispWidth := 0x100
  const MemDispHeight := 0xFF
  const U64Modulus := 0x1_0000_0000_0000_0000

  predicate IsI32(v: int) { -0x8000_0000 <= v < 0x8000_0000 }

  /** A u16 address held as an int, as the CPU's 16-bit program counter. */
  function AsAddr(v: int): bv16
    requires 0 <= v < 0x10000
  {
    v as bv16
  }

  datatype MouseButton = Left | Middle | Right | X1 | X2 | Unknown

  class MemVisState {
    var memValDisplayEnabled: bool

    /** new(): value display on. */
    constructor ()
      ensures memValDisplayEnabled
    {
      memValDisplayEnabled := true;
    }

    /**
     * screen_coord_to_mem_addr on a point: Some((x + 256 * y) as u16) when
     * x < 256 and y < 256.
     */
    function ScreenCoordToMemAddr(x: int, y: int): (r: Option<int>)
      requires IsI32(x) && IsI32(y)
      requires x < MemDispWidth && y < MemDispHeight + 1 ==> IsI32(y * MemDispWidth) && IsI32(x + y * MemDispWidth)
      ensures r.Some? <==> x < 256 && y < 256
      ensures r.Some? ==> 0 <= r.value < 0x10000
      ensures 0 <= x && 0 <= y && r.Some? ==> r.value == x + 256 * y
    {
      if x < MemDispWidth && y < MemDispHeight + 1 then Some((x + y * MemDispWidth) % 0x10000) else None
    }

    /**
     * click: a right click on a mapped point jumps the CPU there and forces it
     * to run; a left click only prints, and other buttons do nothing.
     */
    method Click(button: MouseButton, x: int, y: int, cpu: GbCpu.Cpu)
      requires IsI32(x) && IsI32(y)
      requires x < MemDispWidth && y < MemDispHeight + 1 ==> IsI32(y * MemDispWidth) && IsI32(x + y * MemDispWidth)
      modifies cpu
      ensures button == Right && ScreenCoordToMemAddr(x, y).Some? ==>
        cpu.pc == AsAddr(ScreenCoordToMemAddr(x, y).value) && cpu.state == Normal
      ensures button == Right && ScreenCoordToMemAddr(x, y).Some? ==>
        cpu.Regs() == old(cpu.Regs()).(pc := cpu.pc) && cpu.inputState == old(cpu.inputState)
      ensures !(button == Right && ScreenCoordToMemAddr(x, y).Some?) ==>
        cpu.Regs() == old(cpu.Regs()) && cpu.state == old(cpu.state) && cpu.inputState == old(cpu.inputState)
      ensures memValDisplayEnabled == old(memValDisplayEnabled)
    {
      match button {
        case Left =>
        case Right =>
          var target := ScreenCoordToMemAddr(x, y);
          if target.Some? {
            cpu.pc := AsAddr(target.value);
            if cpu.state != Normal {
              cpu.state := Normal;
            }
          }
        case _ =>
      }
    }
  }

  /** MemVisState's mapping is the legacy screen_coord_to_mem_addr. */
  lemma SameMappingAsLegacy(s: MemVisState, x: int, y: int)
    requires IsI32(x) && IsI32(y)
    requires x < MemDispWidth && y < MemDispHeight + 1 ==> IsI32(y * MemDispWidth) && IsI32(x + y * MemDispWidth)
    ensures s.ScreenCoordToMemAddr(x, y) == MemVis.ScreenCoordToMemAddr(x, y)
  {
  }

  /**
   * addr_to_point (the same helper as the legacy one) is inverted by this
   * state's screen_coord_to_mem_addr over every u16 address.
   */
  lemma AddrToPointInverse(s: MemVisState, addr: int)
    requires 0 <= addr < 0x10000
    ensures s.ScreenCoordToMemAddr(MemVis.AddrToPoint(addr).0, MemVis.AddrToPoint(addr).1) == Some(addr)
  {
  }

  /** The age of an event: a wrapping u64 subtraction. */
  function WrappingAge(cycles: nat, timestamp: nat): (age: nat)
    requires cycles < U64Modulus && timestamp < U64Modulus
    ensures age < U64Modulus
    ensures timestamp <= cycles ==> age == cycles - timestamp
  {
    (cycles - timestamp) % U64Modulus
  }

  predicate Young(cycles: nat, e: EventLogEntry)
    requires cycles < U64Modulus && e.timestamp < U64Modulus
  {
    WrappingAge(cycles, e.timestamp) < MemVis.FadeDelay
  }

  /**
   * The loop of draw_memory_events: it walks the deque from the front and
   * stops at the first event whose age has reached FADE_DELAY. Returns the
   * number of events drawn.
   */
  method DrawnEvents(deq: seq<EventLogEntry>, cycles: nat) returns (n: nat)
    requires cycles < U64Modulus
    requires forall e :: e in deq ==> e.timestamp < U64Modulus
    ensures n <= |deq|
    ensures forall i :: 0 <= i < n ==> Young(cycles, deq[i])
    ensures n < |deq| ==> !Young(cycles, deq[n])
  {
    n := 0;
    while n < |deq|
      invariant n <= |deq|
      invariant forall i :: 0 <= i < n ==> Young(cycles, deq[i])
    {
      var timeDiff := WrappingAge(cycles, deq[n].timestamp);
      if timeDiff < MemVis.FadeDelay {
        n := n + 1;
      } else {
        break;
      }
    }
  }
}
