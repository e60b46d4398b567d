/**
 * The CPU event logger behind the memory visualisation
 * (src/cpu/memvis/cpumemvis.rs): three RGBA textures with one 4-byte texel
 * per memory address, and a deque of logged events.
 */
module CpuMemVis {
  import opened Options
  import opened CpuConstants

  const ColorDepth := 4
  /** (0xFFFF + 0x100) texels of ColorDepth bytes. */
  const TextureSize := (0xFFFF + 0x100) * ColorDepth
  const AccessTypeAlpha: bv8 := 76

  datatype EventPlace = Addr(addr: bv16) | Register(r: CpuRegister) | Register16(r16: CpuRegister16)

  datatype CpuEvent =
    | Read(from: bv16)
    | Write(to: bv16)
    | Execute(at: bv16)
    | Move(src: EventPlace, dst: EventPlace)
    | Jump(jumpFrom: bv16, jumpTo: bv16)

  datatype EventLogEntry = EventLogEntry(timestamp: nat, event: CpuEvent)

  /** The first byte of the texel of an address. */
  function TexelBase(addr: bv16): (pi: nat)
    ensures pi % ColorDepth == 0 && pi + 3 < TextureSize
  {
    addr as int * ColorDepth
  }

  /** The value texture new(Some(mem)) builds: alpha 255, then value / 4 three times. */
  function InitValue(mem: seq<bv8>, j: nat): bv8
  {
    if j < ColorDepth * |mem| then (if j % ColorDepth == 0 then 255 else mem[j / ColorDepth] / 4) else 0
  }

  function InitFlag(mem: seq<bv8>, j: nat): bv8
  {
    if j < ColorDepth * |mem| && j % ColorDepth == 0 then AccessTypeAlpha else 0
  }

  function InitTime(mem: seq<bv8>, j: nat): bv8
  {
    if j < ColorDepth * |mem| && j % ColorDepth == 0 then 255 else 0
  }

  class DeqCpuEventLogger {
    var eventsDeq: seq<EventLogEntry>
    const values: array<bv8>
    const accessFlags: array<bv8>
    const accessTimes: array<bv8>

    ghost predicate Valid()
      reads this
    {
      values.Length == TextureSize && accessFlags.Length == TextureSize && accessTimes.Length == TextureSize
      && values != accessFlags && values != accessTimes && accessFlags != accessTimes
    }

    /**
     * new(mem): an empty deque and zeroed textures; with Some(mem), the texel
     * of every address i < |mem| mirrors mem[i]. A memory longer than the
     * texture holds makes the indexing panic.
     */
    constructor (mem: Option<seq<bv8>>)
      requires mem.Some? ==> ColorDepth * |mem.value| <= TextureSize
      ensures Valid() && fresh(values) && fresh(accessFlags) && fresh(accessTimes)
      ensures eventsDeq == []
      ensures var m := if mem.Some? then mem.value else [];
        forall j :: 0 <= j < TextureSize ==>
          values[j] == InitValue(m, j) && accessFlags[j] == InitFlag(m, j) && accessTimes[j] == InitTime(m, j)
    {
      eventsDeq := [];
      values := new bv8[TextureSize](_ => 0);
      accessFlags := new bv8[TextureSize](_ => 0);
      accessTimes := new bv8[TextureSize](_ => 0);
      new;
      if mem.Some? {
        MirrorMemory(mem.value);
      }
    }

    /** new()'s loop over mem: one texel per byte, in every texture. */
    method MirrorMemory(m: seq<bv8>)
      requires Valid() && ColorDepth * |m| <= TextureSize
      requires forall j :: 0 <= j < TextureSize ==> values[j] == 0 && accessFlags[j] == 0 && accessTimes[j] == 0
      modifies values, accessFlags, accessTimes
      ensures forall j :: 0 <= j < TextureSize ==>
        values[j] == InitValue(m, j) && accessFlags[j] == InitFlag(m, j) && accessTimes[j] == InitTime(m, j)
    {
      var i := 0;
      while i < |m|
        invariant 0 <= i <= |m|
        invariant forall j :: 0 <= j < TextureSize ==> values[j] == InitValue(m[..i], j)
        invariant forall j :: 0 <= j < TextureSize ==>
          accessFlags[j] == InitFlag(m[..i], j) && accessTimes[j] == InitTime(m[..i], j)
      {
        MirrorValue(m, i);
        MirrorAccess(m, i);
        i := i + 1;
      }
      assert m[..|m|] == m;
    }

    /** One byte of new()'s loop in the value texture: alpha 255 and value / 4 in the colour channels. */
    method MirrorValue(m: seq<bv8>, i: nat)
      requires Valid() && i < |m| && ColorDepth * |m| <= TextureSize
      requires forall j :: 0 <= j < TextureSize ==> values[j] == InitValue(m[..i], j)
      modifies values
      ensures forall j :: 0 <= j < TextureSize ==> values[j] == InitValue(m[..i + 1], j)
    {
      var p := m[i];
      var pi := i * ColorDepth;
      InitStep(m, i);
      values[pi] := 255;
      values[pi + 1] := p / 4;
      values[pi + 2] := p / 4;
      values[pi + 3] := p / 4;
    }

    /** One byte of new()'s loop in the access textures: the alpha channel is marked. */
    method MirrorAccess(m: seq<bv8>, i: nat)
      requires Valid() && i < |m| && ColorDepth * |m| <= TextureSize
      requires forall j :: 0 <= j < TextureSize ==>
        accessFlags[j] == InitFlag(m[..i], j) && accessTimes[j] == InitTime(m[..i], j)
      modifies accessFlags, accessTimes
      ensures forall j :: 0 <= j < TextureSize ==>
        accessFlags[j] == InitFlag(m[..i + 1], j) && accessTimes[j] == InitTime(m[..i + 1], j)
    {
      var pi := i * ColorDepth;
      InitStep(m, i);
      accessFlags[pi] := AccessTypeAlpha;
      accessTimes[pi] := 255;
    }

    /** log_read: channel 1 of the address's access texels becomes 255. */
    method LogRead(timestamp: nat, addr: bv16)
      requires Valid()
      modifies accessFlags, accessTimes
      ensures accessFlags[..] == old(accessFlags[..])[TexelBase(addr) + 1 := 255]
      ensures accessTimes[..] == old(accessTimes[..])[TexelBase(addr) + 1 := 255]
    {
      var pi := TexelBase(addr);
      accessFlags[pi + 1] := 255;
      accessTimes[pi + 1] := 255;
    }

    /** log_write: mirrors value / 4 into the value texel, and marks channel 3 of the access texels. */
    method LogWrite(timestamp: nat, addr: bv16, value: bv8)
      requires Valid()
      modifies values, accessFlags, accessTimes
      ensures values[..] == old(values[..])[TexelBase(addr) := 255][TexelBase(addr) + 1 := value / 4]
                                           [TexelBase(addr) + 2 := value / 4][TexelBase(addr) + 3 := value / 4]
      ensures accessFlags[..] == old(accessFlags[..])[TexelBase(addr) + 3 := 255]
      ensures accessTimes[..] == old(accessTimes[..])[TexelBase(addr) + 3 := 255]
    {
      var pi := TexelBase(addr);
      values[pi] := 255;
      values[pi + 1] := value / 4;
      values[pi + 2] := value / 4;
      values[pi + 3] := value / 4;
      accessFlags[pi + 3] := 255;
      accessTimes[pi + 3] := 255;
    }

    /** log_exec: channel 2 of the address's access texels becomes 255. */
    method LogExec(timestamp: nat, addr: bv16)
      requires Valid()
      modifies accessFlags, accessTimes
      ensures accessFlags[..] == old(accessFlags[..])[TexelBase(addr) + 2 := 255]
      ensures accessTimes[..] == old(accessTimes[..])[TexelBase(addr) + 2 := 255]
    {
      var pi := TexelBase(addr);
      accessFlags[pi + 2] := 255;
      accessTimes[pi + 2] := 255;
    }

    /** log_jump: one Jump entry at the back of the deque; the textures are untouched. */
    method LogJump(timestamp: nat, src: bv16, dst: bv16)
      modifies this
      ensures eventsDeq == old(eventsDeq) + [EventLogEntry(timestamp, Jump(src, dst))]
    {
      eventsDeq := eventsDeq + [EventLogEntry(timestamp, Jump(src, dst))];
    }

    /** clone: not a copy; a fresh logger as new(None) makes it. */
    method Clone() returns (r: DeqCpuEventLogger)
      ensures fresh(r) && fresh(r.values) && fresh(r.accessFlags) && fresh(r.accessTimes)
      ensures r.Valid() && r.eventsDeq == []
      ensures forall j :: 0 <= j < TextureSize ==>
        r.values[j] == 0 && r.accessFlags[j] == 0 && r.accessTimes[j] == 0
    {
      r := new DeqCpuEventLogger(None);
    }
  }

  /** The per-index effect of one iteration of new()'s copy loop. */
  lemma InitStep(m: seq<bv8>, i: nat)
    requires i < |m|
    ensures forall j :: 0 <= j < TextureSize && (j < ColorDepth * i || j >= ColorDepth * (i + 1)) ==>
      InitValue(m[..i + 1], j) == InitValue(m[..i], j) && InitFlag(m[..i + 1], j) == InitFlag(m[..i], j)
      && InitTime(m[..i + 1], j) == InitTime(m[..i], j)
    ensures InitValue(m[..i + 1], ColorDepth * i) == 255
    ensures InitFlag(m[..i + 1], ColorDepth * i) == AccessTypeAlpha && InitTime(m[..i + 1], ColorDepth * i) == 255
    ensures InitValue(m[..i + 1], ColorDepth * i + 1) == m[i] / 4
    ensures InitValue(m[..i + 1], ColorDepth * i + 2) == m[i] / 4
    ensures InitValue(m[..i + 1], ColorDepth * i + 3) == m[i] / 4
    ensures InitFlag(m[..i + 1], ColorDepth * i + 1) == 0 && InitTime(m[..i + 1], ColorDepth * i + 1) == 0
    ensures InitFlag(m[..i + 1], ColorDepth * i + 2) == 0 && InitTime(m[..i + 1], ColorDepth * i + 2) == 0
    ensures InitFlag(m[..i + 1], ColorDepth * i + 3) == 0 && InitTime(m[..i + 1], ColorDepth * i + 3) == 0
  {
    forall j | 0 <= j < TextureSize && j < ColorDepth * i
      ensures InitValue(m[..i + 1], j) == InitValue(m[..i], j)
    {
      assert j / ColorDepth < i;
      assert m[..i + 1][j / ColorDepth] == m[..i][j / ColorDepth];
    }
    assert (ColorDepth * i + 1) / ColorDepth == i;
    assert (ColorDepth * i + 2) / ColorDepth == i;
    assert (ColorDepth * i + 3) / ColorDepth == i;
  }
}
