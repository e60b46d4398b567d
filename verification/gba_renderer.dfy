/**
 * The GBA pixel pipeline (src/io/deferred_renderer_gba.rs): 15-bit colours,
 * the OAM object attributes, the iterator over the 128 OAM entries, the
 * background layer order and the per-pixel composition of a scanline.
 * The per-layer renderers (text, rotated and bitmap backgrounds, the naive
 * object layer) are not part of this model: their output lines are inputs.
 */
module GbaRenderer {
  import opened Options
  import opened GbaDecode
  import GbaIo
  import GbaBus
  import Gba

  /** The GBA LCD is 240 pixels wide and 160 lines high. */
  const ScreenWidth := 240
  const ScreenHeight := 160

  // ---------------------------------------------------------------------
  // Rgb15: five bits per channel, red lowest, bit 15 marking transparency.
  // ---------------------------------------------------------------------

  datatype Rgb15 = Rgb15(bits: bv16)

  /** An 8-bit-per-channel colour as handed to the display back end. */
  type Rgb = (bv8, bv8, bv8)

  /** Rgb15::new: the top five bits of each 8-bit channel. */
  function NewRgb(red: bv8, green: bv8, blue: bv8): (c: Rgb15)
    ensures !IsTransparent(c)
  {
    Rgb15((((blue >> 3) as bv16) << 10) | (((green >> 3) as bv16) << 5) | (red >> 3) as bv16)
  }

  /** Rgb15::from_bits: only the 15 colour bits are kept. */
  function FromBits(bits: bv16): (c: Rgb15)
    ensures !IsTransparent(c)
    ensures c.bits & 0x7FFF == bits & 0x7FFF
  {
    Rgb15(bits & 0x7FFF)
  }

  /** Rgb15::from_lo_hi: a little-endian palette entry. */
  function FromLoHi(lo: bv8, hi: bv8): (c: Rgb15)
    ensures !IsTransparent(c)
  {
    Rgb15((((hi as bv16) << 8) | lo as bv16) & 0x7FFF)
  }

  const Transparent := Rgb15(0x8000)
  const Black := Rgb15(0)
  const White := Rgb15(0x7FFF)

  /** Rgb15::is_transparent reads bit 15. */
  predicate IsTransparent(c: Rgb15)
  {
    c.bits & 0x8000 != 0
  }

  /** Rgb15::to_rgb: each 5-bit channel moved to the top of a byte. */
  function ToRgb(c: Rgb15): Rgb
  {
    (((c.bits & 0x1F) as bv8) << 3, (((c.bits >> 5) & 0x1F) as bv8) << 3, (((c.bits >> 10) & 0x1F) as bv8) << 3)
  }

  /** from_lo_hi is from_bits applied to the little-endian half-word. */
  lemma FromLoHiIsFromBits(lo: bv8, hi: bv8)
    ensures FromLoHi(lo, hi) == FromBits(lo as bv16 | ((hi as bv16) << 8))
  {
  }

  /** Of the named colours only transparent() carries bit 15. */
  lemma OnlyTransparentIsTransparent()
    ensures IsTransparent(Transparent) && !IsTransparent(Black) && !IsTransparent(White)
  {
  }

  /** Encoding an 8-bit colour and expanding it again keeps the top five bits of each channel. */
  lemma NewToRgb(red: bv8, green: bv8, blue: bv8)
    ensures ToRgb(NewRgb(red, green, blue)) == (red & 0xF8, green & 0xF8, blue & 0xF8)
  {
  }

  /** Expanding a colour and encoding it again loses only the transparency bit. */
  lemma ToRgbNew(c: Rgb15)
    ensures var rgb := ToRgb(c); NewRgb(rgb.0, rgb.1, rgb.2) == FromBits(c.bits)
  {
  }

  /** White expands to the brightest value each channel can reach. */
  lemma WhiteToRgb()
    ensures ToRgb(White) == (0xF8, 0xF8, 0xF8)
  {
  }

  // ---------------------------------------------------------------------
  // OAM objects: attributes 0, 1 and 2 as one little-endian 64-bit word.
  // ---------------------------------------------------------------------

  datatype ObjectMode = Normal | SemiTransparent | ObjectWindow | ModeProhibited
  datatype ObjectShape = Square | Horizontal | Vertical | ShapeProhibited

  /** ObjectMode::from_bits, which panics above 3. */
  function ObjectModeFromBits(bits: bv8): ObjectMode
    requires bits <= 3
  {
    match bits
    case 0 => Normal
    case 1 => SemiTransparent
    case 2 => ObjectWindow
    case 3 => ModeProhibited
  }

  /** The field value of an object mode. */
  function ObjectModeBits(m: ObjectMode): (bits: bv8)
    ensures bits <= 3
  {
    match m
    case Normal => 0
    case SemiTransparent => 1
    case ObjectWindow => 2
    case ModeProhibited => 3
  }

  /** The mode decoder is a bijection between 0..=3 and the four modes. */
  lemma ObjectModeRoundTrip(m: ObjectMode, bits: bv8)
    ensures ObjectModeFromBits(ObjectModeBits(m)) == m
    ensures bits <= 3 ==> ObjectModeBits(ObjectModeFromBits(bits)) == bits
  {
  }

  /** ObjectShape::from_bits, which panics above 3. */
  function ObjectShapeFromBits(bits: bv8): ObjectShape
    requires bits <= 3
  {
    match bits
    case 0 => Square
    case 1 => Horizontal
    case 2 => Vertical
    case 3 => ShapeProhibited
  }

  /** The field value of an object shape. */
  function ObjectShapeBits(s: ObjectShape): (bits: bv8)
    ensures bits <= 3
  {
    match s
    case Square => 0
    case Horizontal => 1
    case Vertical => 2
    case ShapeProhibited => 3
  }

  /** The shape decoder is a bijection between 0..=3 and the four shapes. */
  lemma ObjectShapeRoundTrip(s: ObjectShape, bits: bv8)
    ensures ObjectShapeFromBits(ObjectShapeBits(s)) == s
    ensures bits <= 3 ==> ObjectShapeBits(ObjectShapeFromBits(bits)) == bits
  {
  }

  datatype Object = Object(bits: bv64)

  /** Object::from_bytes: u64::from_le_bytes. */
  function ObjectFromBytes(b: seq<bv8>): Object
    requires |b| == 8
  {
    Object(b[0] as bv64 | ((b[1] as bv64) << 8) | ((b[2] as bv64) << 16) | ((b[3] as bv64) << 24)
      | ((b[4] as bv64) << 32) | ((b[5] as bv64) << 40) | ((b[6] as bv64) << 48) | ((b[7] as bv64) << 56))
  }

  /** The raw y field, bits 0-7. */
  function RawY(o: Object): bv8 { (o.bits & 0xFF) as bv8 }

  /** The raw x field, bits 16-24. */
  function RawX(o: Object): bv9 { ((o.bits >> 16) & 0x1FF) as bv9 }

  /** A field value from `limit` on stands for the negative value `span` below it. */
  function Wrapped(v: int, limit: int, span: int): int
  {
    if v >= limit then v - span else v
  }

  /** Object::y: the 8-bit field, read as negative from the screen height on. */
  function ObjectY(o: Object): int
  {
    Wrapped(RawY(o) as int, ScreenHeight, 256)
  }

  /** Object::x: the 9-bit field, read as negative from the screen width on. */
  function ObjectX(o: Object): int
  {
    Wrapped(RawX(o) as int, ScreenWidth, 512)
  }

  predicate RotationEnabled(o: Object) { o.bits & 0x100 != 0 }
  predicate DoubleSize(o: Object) { o.bits & 0x200 != 0 }

  /** Object::object_disabled, tested on the shifted bits 8 and 9. */
  predicate ObjectDisabled(o: Object)
  {
    (o.bits >> 8) & 1 == 0 && (o.bits >> 9) & 1 == 1
  }

  function ObjectModeOf(o: Object): ObjectMode { ObjectModeFromBits(((o.bits >> 10) & 0x3) as bv8) }
  predicate Mosaic(o: Object) { (o.bits >> 12) & 1 == 1 }
  predicate FullColor(o: Object) { (o.bits >> 13) & 1 == 1 }
  function ShapeOf(o: Object): ObjectShape { ObjectShapeFromBits(((o.bits >> 14) & 0x3) as bv8) }
  function RotationScalingParam(o: Object): bv8 { ((o.bits >> 25) & 0x1F) as bv8 }
  predicate HorizontalFlip(o: Object) { (o.bits >> 28) & 1 == 1 }
  predicate VerticalFlip(o: Object) { (o.bits >> 29) & 1 == 1 }
  function SizeIndex(o: Object): bv8 { ((o.bits >> 30) & 0x3) as bv8 }
  function CharacterName(o: Object): bv16 { ((o.bits >> 32) & 0x3FF) as bv16 }
  function ObjectPriority(o: Object): bv8 { ((o.bits >> 42) & 0x3) as bv8 }
  function PaletteNumber(o: Object): bv8 { ((o.bits >> 44) & 0xF) as bv8 }

  /** A side of an object in pixels is 8, 16, 32 or 64. */
  predicate IsSide(n: int) { n == 8 || n == 16 || n == 32 || n == 64 }

  /** Object::size: the shape by size-index table; the Prohibited shape panics. */
  function ObjectSize(o: Object): (wh: (int, int))
    requires ShapeOf(o) != ShapeProhibited
    ensures IsSide(wh.0) && IsSide(wh.1)
    ensures ShapeOf(o) == Square ==> wh.0 == wh.1
    ensures ShapeOf(o) == Horizontal ==> wh.0 > wh.1
    ensures ShapeOf(o) == Vertical ==> wh.0 < wh.1
  {
    var idx := SizeIndex(o);
    match ShapeOf(o)
    case Square =>
      if idx == 0 then (8, 8) else if idx == 1 then (16, 16) else if idx == 2 then (32, 32) else (64, 64)
    case Horizontal =>
      if idx == 0 then (16, 8) else if idx == 1 then (32, 8) else if idx == 2 then (32, 16) else (64, 32)
    case Vertical =>
      if idx == 0 then (8, 16) else if idx == 1 then (8, 32) else if idx == 2 then (16, 32) else (32, 64)
  }

  /** The signed y coordinate lies on or above the screen and agrees with the raw field modulo 256. */
  lemma ObjectYRange(o: Object)
    ensures ScreenHeight - 256 <= ObjectY(o) < ScreenHeight
    ensures ObjectY(o) % 256 == RawY(o) as int
  {
    var v := RawY(o) as int;
    if v >= ScreenHeight {
      assert (v - 256) % 256 == v;
    }
  }

  /** The signed x coordinate lies left of the screen's right edge and agrees with the raw field modulo 512. */
  lemma ObjectXRange(o: Object)
    ensures ScreenWidth - 512 <= ObjectX(o) < ScreenWidth
    ensures ObjectX(o) % 512 == RawX(o) as int
  {
    var v := RawX(o) as int;
    if v >= ScreenWidth {
      assert (v - 512) % 512 == v;
    }
  }

  /** Attribute 0 (bytes 0-1): the y field is byte 0 and the shape field the top two bits of byte 1. */
  lemma Attribute0Bytes(b: seq<bv8>)
    requires |b| == 8
    ensures RawY(ObjectFromBytes(b)) == b[0]
    ensures ((ObjectFromBytes(b).bits >> 14) & 0x3) as bv8 == b[1] >> 6
  {
  }

  /** Attribute 1 (bytes 2-3): the x field is byte 2 plus bit 0 of byte 3, the size index the top two bits of byte 3. */
  lemma Attribute1Bytes(b: seq<bv8>)
    requires |b| == 8
    ensures RawX(ObjectFromBytes(b)) == (b[2] as bv9) | (((b[3] & 1) as bv9) << 8)
    ensures SizeIndex(ObjectFromBytes(b)) == b[3] >> 6
  {
  }

  /** Attribute 2 (bytes 4-5): tile number, priority and palette number. */
  lemma Attribute2Bytes(b: seq<bv8>)
    requires |b| == 8
    ensures CharacterName(ObjectFromBytes(b)) == (b[4] as bv16) | (((b[5] & 3) as bv16) << 8)
    ensures ObjectPriority(ObjectFromBytes(b)) == (b[5] >> 2) & 3
    ensures PaletteNumber(ObjectFromBytes(b)) == b[5] >> 4
  {
  }

  /** An object is disabled exactly when rotation is off and the double-size bit is set. */
  lemma ObjectDisabledIff(o: Object)
    ensures ObjectDisabled(o) <==> !RotationEnabled(o) && DoubleSize(o)
  {
  }

  /** Square objects are 8 << size-index pixels on a side. */
  lemma SquareSize(o: Object)
    requires ShapeOf(o) == Square
    ensures ObjectSize(o).0 == 8 * (if SizeIndex(o) == 0 then 1 else if SizeIndex(o) == 1 then 2 else if SizeIndex(o) == 2 then 4 else 8)
  {
  }

  /** With the same size index, the vertical shape is the horizontal shape turned on its side. */
  lemma VerticalIsTransposed(h: Object, v: Object)
    requires ShapeOf(h) == Horizontal && ShapeOf(v) == Vertical && SizeIndex(h) == SizeIndex(v)
    ensures ObjectSize(v) == (ObjectSize(h).1, ObjectSize(h).0)
  {
  }

  // ---------------------------------------------------------------------
  // ObjectIter: the 128 OAM entries, six bytes each read of eight.
  // ---------------------------------------------------------------------

  const ObjectCount := 128

  /** Entry i of OAM: bytes 8i..8i+5 with the two top bytes zero. */
  function ObjectAt(oam: seq<bv8>, i: int): (o: Object)
    requires |oam| == GbaBus.OamSize && 0 <= i < ObjectCount
  {
    ObjectFromBytes(oam[8 * i .. 8 * i + 6] + [0, 0])
  }

  /** Entry i spelled out byte by byte. */
  lemma ObjectAtBytes(oam: seq<bv8>, i: int)
    requires |oam| == GbaBus.OamSize && 0 <= i < ObjectCount
    ensures ObjectAt(oam, i) == ObjectFromBytes([oam[8 * i], oam[8 * i + 1], oam[8 * i + 2],
      oam[8 * i + 3], oam[8 * i + 4], oam[8 * i + 5], 0, 0])
  {
    assert oam[8 * i .. 8 * i + 6] + [0, 0] == [oam[8 * i], oam[8 * i + 1], oam[8 * i + 2],
      oam[8 * i + 3], oam[8 * i + 4], oam[8 * i + 5], 0, 0];
  }

  /** An OAM entry never has bits 48-63 set. */
  lemma ObjectAtTopZero(oam: seq<bv8>, i: int)
    requires |oam| == GbaBus.OamSize && 0 <= i < ObjectCount
    ensures ObjectAt(oam, i).bits >> 48 == 0
  {
  }

  /** The objects an iterator at position i has still to yield. */
  function Remaining(oam: seq<bv8>, i: nat): seq<Object>
    requires |oam| == GbaBus.OamSize
    decreases ObjectCount - i
  {
    if i >= ObjectCount then [] else [ObjectAt(oam, i)] + Remaining(oam, i + 1)
  }

  /** From position i the iterator yields entries i..127 in order, 128 - i of them. */
  lemma {:induction false} RemainingObjects(oam: seq<bv8>, i: nat)
    requires |oam| == GbaBus.OamSize && i <= ObjectCount
    ensures |Remaining(oam, i)| == ObjectCount - i
    ensures forall j :: 0 <= j < ObjectCount - i ==> Remaining(oam, i)[j] == ObjectAt(oam, i + j)
    decreases ObjectCount - i
  {
    if i < ObjectCount {
      RemainingObjects(oam, i + 1);
    }
  }

  /** One step of the iterator: entry i, then the rest; nothing from 128 on. */
  lemma RemainingStep(oam: seq<bv8>, i: nat)
    requires |oam| == GbaBus.OamSize
    ensures i < ObjectCount ==> Remaining(oam, i) == [ObjectAt(oam, i)] + Remaining(oam, i + 1)
    ensures i >= ObjectCount ==> Remaining(oam, i) == []
  {
  }

  /** A fresh iterator yields exactly the 128 OAM entries. */
  lemma AllObjects(oam: seq<bv8>)
    requires |oam| == GbaBus.OamSize
    ensures |Remaining(oam, 0)| == ObjectCount
    ensures forall j :: 0 <= j < ObjectCount ==> Remaining(oam, 0)[j] == ObjectAt(oam, j)
  {
    RemainingObjects(oam, 0);
  }

  /** ObjectIter: a borrowed GameboyAdvance and the index of the next entry. */
  class ObjectIter {
    const gba: Gba.GameboyAdvance
    var idx: nat

    ghost predicate Valid()
      reads this, gba
    {
      gba.oam.Length == GbaBus.OamSize && idx <= ObjectCount
    }

    /** ObjectIter::new. */
    constructor (gba: Gba.GameboyAdvance)
      requires gba.oam.Length == GbaBus.OamSize
      ensures Valid() && this.gba == gba && idx == 0
    {
      this.gba := gba;
      idx := 0;
    }

    /** next: the entry at idx, or None once all 128 have been yielded. */
    method Next() returns (obj: Option<Object>)
      requires Valid()
      modifies this`idx
      ensures Valid()
      ensures old(Remaining(gba.oam[..], idx)) == (if obj.Some? then [obj.value] + Remaining(gba.oam[..], idx) else [])
      ensures obj.None? ==> idx == old(idx)
    {
      ghost var oam := gba.oam[..];
      RemainingStep(oam, idx);
      if idx >= ObjectCount {
        obj := None;
      } else {
        ObjectAtBytes(oam, idx);
        var base := idx * 8;
        var bytes := [gba.oam[base], gba.oam[base + 1], gba.oam[base + 2],
          gba.oam[base + 3], gba.oam[base + 4], gba.oam[base + 5], 0, 0];
        assert bytes == [oam[8 * idx], oam[8 * idx + 1], oam[8 * idx + 2],
          oam[8 * idx + 3], oam[8 * idx + 4], oam[8 * idx + 5], 0, 0];
        obj := Some(ObjectFromBytes(bytes));
        assert obj.value == ObjectAt(oam, idx);
        idx := idx + 1;
      }
    }

    /** size_hint: exact, the number of objects still to come. */
    function SizeHint(): (r: (int, Option<int>))
      requires Valid()
      reads this, gba, gba.oam
      ensures r.0 == |Remaining(gba.oam[..], idx)| && r.1 == Some(r.0)
    {
      RemainingObjects(gba.oam[..], idx);
      (ObjectCount - idx, Some(ObjectCount - idx))
    }
  }

  // ---------------------------------------------------------------------
  // DISPCNT and BGxCNT as read by the renderer.
  // ---------------------------------------------------------------------

  /** ppu_bg_mode: DISPCNT bits 0-2. */
  function BgMode(io: seq<bv8>): bv8
    requires |io| == GbaIo.IoSize
  {
    io[0] & 7
  }

  /** ppu_bgN_enabled (n in 0..3) and ppu_obj_enabled (n == 4): DISPCNT bit 8 + n. */
  predicate LayerEnabled(io: seq<bv8>, n: int)
    requires |io| == GbaIo.IoSize && 0 <= n <= 4
  {
    match n
    case 0 => io[1] & 1 == 1
    case 1 => (io[1] >> 1) & 1 == 1
    case 2 => (io[1] >> 2) & 1 == 1
    case 3 => (io[1] >> 3) & 1 == 1
    case 4 => (io[1] >> 4) & 1 == 1
  }

  /**
   * ppu_bgN_control's register value: the byte at 0x8 + 2n shifted into the
   * high half and the byte at 0x9 + 2n, masked to five bits, in the low half.
   */
  function BgControlBits(io: seq<bv8>, n: int): bv16
    requires |io| == GbaIo.IoSize && 0 <= n < 4
  {
    ((io[8 + 2 * n] as bv16) << 8) | ((io[9 + 2 * n] as bv16) & 0x1F)
  }

  /** The priority of background n as layer_order reads it. */
  function BgPriority(io: seq<bv8>, n: int): bv8
    requires |io| == GbaIo.IoSize && 0 <= n < 4
  {
    BgControlFromBits(BgControlBits(io, n)).priority
  }

  /** The priority is taken from the two low bits of the byte at 0x9 + 2n. */
  lemma BgPriorityByte(io: seq<bv8>, n: int)
    requires |io| == GbaIo.IoSize && 0 <= n < 4
    ensures BgPriority(io, n) == io[9 + 2 * n] & 3
    ensures BgPriority(io, n) <= 3
  {
    var b := io[9 + 2 * n];
    assert BgControlBits(io, n) & 3 == (b & 3) as bv16;
  }

  // ---------------------------------------------------------------------
  // layer_order: objects first, then the enabled backgrounds by priority.
  // ---------------------------------------------------------------------

  /** A (background number, priority) pair of bg_order. */
  type Entry = (int, bv8)

  /** The push for background n, if it is enabled. */
  function EntryOf(io: seq<bv8>, n: int): seq<Entry>
    requires |io| == GbaIo.IoSize && 0 <= n < 4
  {
    if LayerEnabled(io, n) then [(n, BgPriority(io, n))] else []
  }

  /** bg_order before sorting: the four conditional pushes in background order. */
  function BgEntries(io: seq<bv8>): seq<Entry>
    requires |io| == GbaIo.IoSize
  {
    EntryOf(io, 0) + EntryOf(io, 1) + EntryOf(io, 2) + EntryOf(io, 3)
  }

  /** One step of a stable insertion: e goes after every entry whose priority is not greater. */
  function InsertByPriority(e: Entry, s: seq<Entry>): (r: seq<Entry>)
    ensures multiset(r) == multiset(s) + multiset{e}
    ensures |r| == |s| + 1
  {
    if s == [] then [e]
    else if s[|s| - 1].1 <= e.1 then s + [e]
    else
      assert s == s[..|s| - 1] + [s[|s| - 1]];
      InsertByPriority(e, s[..|s| - 1]) + [s[|s| - 1]]
  }

  /** sort_by_key on the priority, as a stable insertion sort. */
  function SortByPriority(s: seq<Entry>): (r: seq<Entry>)
    ensures multiset(r) == multiset(s)
    ensures |r| == |s|
  {
    if s == [] then []
    else
      assert s == s[..|s| - 1] + [s[|s| - 1]];
      InsertByPriority(s[|s| - 1], SortByPriority(s[..|s| - 1]))
  }

  /** a comes before b in a stable sort of entries listed by increasing background number. */
  predicate Precedes(a: Entry, b: Entry)
  {
    a.1 < b.1 || (a.1 == b.1 && a.0 < b.0)
  }

  predicate Ordered(s: seq<Entry>)
  {
    forall i, j :: 0 <= i < j < |s| ==> Precedes(s[i], s[j])
  }

  /** Background numbers strictly increase along s. */
  predicate NumbersIncrease(s: seq<Entry>)
  {
    forall i, j :: 0 <= i < j < |s| ==> s[i].0 < s[j].0
  }

  /** Appending an entry that every entry precedes keeps a sequence ordered. */
  lemma AppendOrdered(s: seq<Entry>, e: Entry)
    requires Ordered(s)
    requires forall k :: 0 <= k < |s| ==> Precedes(s[k], e)
    ensures Ordered(s + [e])
  {
    var r := s + [e];
    forall i, j | 0 <= i < j < |r|
      ensures Precedes(r[i], r[j])
    {
      assert r[i] == s[i];
      if j < |s| {
        assert r[j] == s[j];
      }
    }
  }

  /** Inserting an entry numbered above every entry of an ordered sequence keeps it ordered. */
  lemma {:induction false} InsertOrdered(e: Entry, s: seq<Entry>)
    requires Ordered(s)
    requires forall k :: 0 <= k < |s| ==> s[k].0 < e.0
    ensures Ordered(InsertByPriority(e, s))
    decreases |s|
  {
    if s == [] {
    } else if s[|s| - 1].1 <= e.1 {
      forall k | 0 <= k < |s|
        ensures Precedes(s[k], e)
      {
        if k < |s| - 1 {
          assert Precedes(s[k], s[|s| - 1]);
        }
      }
      AppendOrdered(s, e);
    } else {
      var init := s[..|s| - 1];
      var last := s[|s| - 1];
      InsertOrdered(e, init);
      forall k | 0 <= k < |init|
        ensures Precedes(init[k], last)
      {
        assert Precedes(s[k], s[|s| - 1]);
      }
      InsertedPrecede(e, init, last);
      AppendOrdered(InsertByPriority(e, init), last);
    }
  }

  /** If e and every entry of s precede last, so does every entry of s with e inserted. */
  lemma InsertedPrecede(e: Entry, s: seq<Entry>, last: Entry)
    requires Precedes(e, last)
    requires forall k :: 0 <= k < |s| ==> Precedes(s[k], last)
    ensures forall k :: 0 <= k < |InsertByPriority(e, s)| ==> Precedes(InsertByPriority(e, s)[k], last)
  {
    var ins := InsertByPriority(e, s);
    forall k | 0 <= k < |ins|
      ensures Precedes(ins[k], last)
    {
      assert ins[k] in multiset(s) + multiset{e};
      if ins[k] != e {
        assert ins[k] in s;
      }
    }
  }

  /** Sorting entries listed by increasing background number orders them by (priority, number). */
  lemma {:induction false} SortOrdered(s: seq<Entry>)
    requires NumbersIncrease(s)
    ensures Ordered(SortByPriority(s))
    decreases |s|
  {
    if s != [] {
      var init := s[..|s| - 1];
      SortOrdered(init);
      var sorted := SortByPriority(init);
      forall k | 0 <= k < |sorted|
        ensures sorted[k].0 < s[|s| - 1].0
      {
        assert sorted[k] in multiset(init);
        var m :| 0 <= m < |init| && init[m] == sorted[k];
      }
      InsertOrdered(s[|s| - 1], sorted);
    }
  }

  /** Sorting keeps exactly the entries it is given. */
  lemma SortKeepsEntries(s: seq<Entry>)
    ensures forall e :: e in SortByPriority(s) <==> e in s
  {
    forall e
      ensures e in SortByPriority(s) <==> e in s
    {
      assert e in SortByPriority(s) <==> e in multiset(SortByPriority(s));
      assert e in s <==> e in multiset(s);
    }
  }

  /** bg_order after sort_by_key. */
  function SortedBgEntries(io: seq<bv8>): seq<Entry>
    requires |io| == GbaIo.IoSize
  {
    SortByPriority(BgEntries(io))
  }

  /** The collected layer order for sorted entries: objects, then the entries' background numbers. */
  function LayerOrderOf(sorted: seq<Entry>): (order: seq<int>)
    requires forall k :: 0 <= k < |sorted| ==> 0 <= sorted[k].0 < 4
    ensures OrderOk(order) && |order| == 1 + |sorted| && order[0] == 4
    ensures forall k :: 0 <= k < |sorted| ==> order[k + 1] == sorted[k].0
  {
    [4] + seq(|sorted|, k requires 0 <= k < |sorted| => sorted[k].0)
  }

  /** layer_order: 4 (objects), then the background numbers of the sorted bg_order. */
  function LayerOrder(io: seq<bv8>): (order: seq<int>)
    requires |io| == GbaIo.IoSize
    ensures OrderOk(order)
  {
    SortedBgNumbers(io);
    LayerOrderOf(SortedBgEntries(io))
  }

  /** The enabled backgrounds among 0..3. */
  function EnabledCount(io: seq<bv8>): int
    requires |io| == GbaIo.IoSize
  {
    (if LayerEnabled(io, 0) then 1 else 0) + (if LayerEnabled(io, 1) then 1 else 0)
    + (if LayerEnabled(io, 2) then 1 else 0) + (if LayerEnabled(io, 3) then 1 else 0)
  }

  /** bg_order holds each enabled background once, with its priority, by increasing number. */
  lemma BgEntriesContents(io: seq<bv8>)
    requires |io| == GbaIo.IoSize
    ensures |BgEntries(io)| == EnabledCount(io)
    ensures NumbersIncrease(BgEntries(io))
    ensures forall e :: e in BgEntries(io) <==> 0 <= e.0 < 4 && LayerEnabled(io, e.0) && e.1 == BgPriority(io, e.0)
  {
  }

  /** Sorting keeps exactly the entries of bg_order, each enabled background once. */
  lemma SortedBgEntriesContents(io: seq<bv8>)
    requires |io| == GbaIo.IoSize
    ensures |SortedBgEntries(io)| == EnabledCount(io)
    ensures forall e :: e in SortedBgEntries(io) <==> 0 <= e.0 < 4 && LayerEnabled(io, e.0) && e.1 == BgPriority(io, e.0)
  {
    BgEntriesContents(io);
    SortKeepsEntries(BgEntries(io));
  }

  /** Every sorted entry names a background 0..3. */
  lemma SortedBgNumbers(io: seq<bv8>)
    requires |io| == GbaIo.IoSize
    ensures forall k :: 0 <= k < |SortedBgEntries(io)| ==> 0 <= SortedBgEntries(io)[k].0 < 4
  {
    var sorted := SortedBgEntries(io);
    SortedBgEntriesContents(io);
    forall k | 0 <= k < |sorted|
      ensures 0 <= sorted[k].0 < 4
    {
      assert sorted[k] in sorted;
    }
  }

  /** Sorted bg_order is ordered by priority, ties by background number. */
  lemma SortedBgEntriesOrdered(io: seq<bv8>)
    requires |io| == GbaIo.IoSize
    ensures Ordered(SortedBgEntries(io))
  {
    BgEntriesContents(io);
    SortOrdered(BgEntries(io));
  }

  /** Objects come first and one entry follows for each enabled background. */
  lemma LayerOrderShape(io: seq<bv8>)
    requires |io| == GbaIo.IoSize
    ensures LayerOrder(io)[0] == 4
    ensures |LayerOrder(io)| == 1 + EnabledCount(io)
  {
    SortedBgNumbers(io);
    SortedBgEntriesContents(io);
  }

  /** After the objects come only enabled backgrounds. */
  lemma LayerOrderEnabledOnly(io: seq<bv8>)
    requires |io| == GbaIo.IoSize
    ensures forall k :: 1 <= k < |LayerOrder(io)| ==> 0 <= LayerOrder(io)[k] < 4 && LayerEnabled(io, LayerOrder(io)[k])
  {
    var sorted := SortedBgEntries(io);
    SortedBgNumbers(io);
    var order := LayerOrderOf(sorted);
    assert LayerOrder(io) == order;
    forall k | 1 <= k < |order|
      ensures 0 <= order[k] < 4 && LayerEnabled(io, order[k])
    {
      assert order[k] == sorted[k - 1].0;
      SortedEntryEnabled(io, sorted[k - 1]);
    }
  }

  /** Every enabled background appears in the layer order. */
  lemma LayerOrderHasEnabled(io: seq<bv8>)
    requires |io| == GbaIo.IoSize
    ensures forall n :: 0 <= n < 4 && LayerEnabled(io, n) ==> n in LayerOrder(io)
  {
    var sorted := SortedBgEntries(io);
    SortedBgNumbers(io);
    var order := LayerOrderOf(sorted);
    assert LayerOrder(io) == order;
    forall n | 0 <= n < 4 && LayerEnabled(io, n)
      ensures n in order
    {
      EnabledEntrySorted(io, n);
      var k :| 0 <= k < |sorted| && sorted[k] == (n, BgPriority(io, n));
      assert order[k + 1] == n;
    }
  }

  /** A sorted entry names an enabled background. */
  lemma SortedEntryEnabled(io: seq<bv8>, e: Entry)
    requires |io| == GbaIo.IoSize && e in SortedBgEntries(io)
    ensures 0 <= e.0 < 4 && LayerEnabled(io, e.0)
  {
    SortedBgEntriesContents(io);
  }

  /** Every enabled background has its entry among the sorted ones. */
  lemma EnabledEntrySorted(io: seq<bv8>, n: int)
    requires |io| == GbaIo.IoSize && 0 <= n < 4 && LayerEnabled(io, n)
    ensures (n, BgPriority(io, n)) in SortedBgEntries(io)
  {
    SortedBgEntriesContents(io);
  }

  /** The backgrounds follow by ascending priority, ties broken by background number (a stable sort). */
  lemma LayerOrderSorted(io: seq<bv8>)
    requires |io| == GbaIo.IoSize
    ensures forall i, j :: 1 <= i < j < |LayerOrder(io)| ==>
      (0 <= LayerOrder(io)[i] < 4 && 0 <= LayerOrder(io)[j] < 4
       && (BgPriority(io, LayerOrder(io)[i]) < BgPriority(io, LayerOrder(io)[j])
           || (BgPriority(io, LayerOrder(io)[i]) == BgPriority(io, LayerOrder(io)[j]) && LayerOrder(io)[i] < LayerOrder(io)[j])))
  {
    var sorted := SortedBgEntries(io);
    SortedBgNumbers(io);
    var order := LayerOrderOf(sorted);
    assert LayerOrder(io) == order;
    SortedBgEntriesOrdered(io);
    forall i, j | 1 <= i < j < |order|
      ensures 0 <= order[i] < 4 && 0 <= order[j] < 4
      ensures BgPriority(io, order[i]) < BgPriority(io, order[j])
        || (BgPriority(io, order[i]) == BgPriority(io, order[j]) && order[i] < order[j])
    {
      assert order[i] == sorted[i - 1].0 && order[j] == sorted[j - 1].0;
      SortedEntryPriority(io, sorted[i - 1]);
      SortedEntryPriority(io, sorted[j - 1]);
      assert Precedes(sorted[i - 1], sorted[j - 1]);
    }
  }

  /** A sorted entry carries its background's priority. */
  lemma SortedEntryPriority(io: seq<bv8>, e: Entry)
    requires |io| == GbaIo.IoSize && e in SortedBgEntries(io)
    ensures 0 <= e.0 < 4 && e.1 == BgPriority(io, e.0)
  {
    SortedBgEntriesContents(io);
  }

  // ---------------------------------------------------------------------
  // scanline_blend and the force-blank path.
  // ---------------------------------------------------------------------

  /** Five layer lines (backgrounds 0..3, objects) of one screen width each. */
  predicate LayersOk(layers: seq<seq<Rgb15>>)
  {
    |layers| == 5 && forall l :: 0 <= l < 5 ==> |layers[l]| == ScreenWidth
  }

  predicate OrderOk(order: seq<int>)
  {
    forall k :: 0 <= k < |order| ==> 0 <= order[k] < 5
  }

  /** The position in order, from k on, of the first layer whose pixel x is not transparent. */
  function FirstOpaque(layers: seq<seq<Rgb15>>, order: seq<int>, x: int, k: nat): (r: Option<nat>)
    requires LayersOk(layers) && OrderOk(order) && 0 <= x < ScreenWidth
    ensures r.Some? ==> (k <= r.value < |order| && !IsTransparent(layers[order[r.value]][x])
      && forall j :: k <= j < r.value ==> IsTransparent(layers[order[j]][x]))
    ensures r.None? <==> forall j :: k <= j < |order| ==> IsTransparent(layers[order[j]][x])
    decreases |order| - k
  {
    if k >= |order| then None
    else if !IsTransparent(layers[order[k]][x]) then Some(k)
    else FirstOpaque(layers, order, x, k + 1)
  }

  /** The colour of pixel x: the first opaque layer in order, else the backdrop. */
  function BlendedPixel(backdrop: Rgb15, layers: seq<seq<Rgb15>>, order: seq<int>, x: int): Rgb
    requires LayersOk(layers) && OrderOk(order) && 0 <= x < ScreenWidth
  {
    match FirstOpaque(layers, order, x, 0)
    case Some(k) => ToRgb(layers[order[k]][x])
    case None => ToRgb(backdrop)
  }

  /** The backdrop colour: palette entry 0. */
  function Backdrop(palette: seq<bv8>): Rgb15
    requires |palette| == GbaBus.PaletteSize
  {
    FromLoHi(palette[0], palette[1])
  }

  /** A pixel shows a layer's colour only if that layer is opaque there and every layer before it is transparent. */
  lemma BlendedPixelChoice(backdrop: Rgb15, layers: seq<seq<Rgb15>>, order: seq<int>, x: int)
    requires LayersOk(layers) && OrderOk(order) && 0 <= x < ScreenWidth
    ensures (forall k :: 0 <= k < |order| ==> IsTransparent(layers[order[k]][x])) ==>
      BlendedPixel(backdrop, layers, order, x) == ToRgb(backdrop)
    ensures forall k :: (0 <= k < |order| && !IsTransparent(layers[order[k]][x])
      && forall j :: 0 <= j < k ==> IsTransparent(layers[order[j]][x])) ==>
      BlendedPixel(backdrop, layers, order, x) == ToRgb(layers[order[k]][x])
  {
    var r := FirstOpaque(layers, order, x, 0);
    forall k | (0 <= k < |order| && !IsTransparent(layers[order[k]][x])
      && forall j :: 0 <= j < k ==> IsTransparent(layers[order[j]][x]))
      ensures BlendedPixel(backdrop, layers, order, x) == ToRgb(layers[order[k]][x])
    {
      assert r.Some?;
      assert r.value == k;
    }
  }

  /** scanline_blend over a given layer order: one pass per pixel, stopping at the first opaque layer. */
  method ScanlineBlend(palette: seq<bv8>, order: seq<int>, layers: seq<seq<Rgb15>>) returns (blended: seq<Rgb>)
    requires |palette| == GbaBus.PaletteSize && LayersOk(layers) && OrderOk(order)
    ensures |blended| == ScreenWidth
    ensures forall x :: 0 <= x < ScreenWidth ==> blended[x] == BlendedPixel(Backdrop(palette), layers, order, x)
  {
    var backdrop := FromLoHi(palette[0], palette[1]);
    var pixels := new Rgb[ScreenWidth](_ => ToRgb(backdrop));
    var pixelWritten := new bool[ScreenWidth](_ => false);
    for x := 0 to ScreenWidth
      invariant forall x' :: 0 <= x' < x ==> pixels[x'] == BlendedPixel(backdrop, layers, order, x')
      invariant forall x' :: x <= x' < ScreenWidth ==> pixels[x'] == ToRgb(backdrop) && !pixelWritten[x']
    {
      BlendPixel(pixels, pixelWritten, backdrop, layers, order, x);
    }
    blended := pixels[..];
  }

  /** The inner loop of scanline_blend for pixel x: the first opaque layer in order, if any, is written. */
  method BlendPixel(pixels: array<Rgb>, pixelWritten: array<bool>, backdrop: Rgb15,
                    layers: seq<seq<Rgb15>>, order: seq<int>, x: int)
    requires LayersOk(layers) && OrderOk(order) && 0 <= x < ScreenWidth
    requires pixels.Length == ScreenWidth && pixelWritten.Length == ScreenWidth
    requires pixels[x] == ToRgb(backdrop) && !pixelWritten[x]
    modifies pixels, pixelWritten
    ensures pixels[..] == old(pixels[..])[x := BlendedPixel(backdrop, layers, order, x)]
    ensures pixelWritten[..] == old(pixelWritten[..])[x := FirstOpaque(layers, order, x, 0).Some?]
  {
    var k := 0;
    while k < |order|
      invariant 0 <= k <= |order|
      invariant FirstOpaque(layers, order, x, 0) == FirstOpaque(layers, order, x, k)
      invariant pixels[..] == old(pixels[..]) && pixelWritten[..] == old(pixelWritten[..])
    {
      var layer := order[k];
      if !pixelWritten[x] && !IsTransparent(layers[layer][x]) {
        pixels[x] := ToRgb(layers[layer][x]);
        pixelWritten[x] := true;
        break;
      }
      k := k + 1;
    }
  }

  /** The layers drawn in each background mode (the match of deferred_renderer_draw_gba_scanline). */
  predicate LayerDrawn(io: seq<bv8>, n: int)
    requires |io| == GbaIo.IoSize && 0 <= n < 5
  {
    var mode := BgMode(io);
    LayerEnabled(io, n)
    && (n == 4
        || (mode == 0)
        || (mode == 1 && n <= 2)
        || (mode == 2 && n >= 2)
        || (mode == 3 && n == 3)
        || (mode == 4 && n == 2))
  }

  /** The out array: the rendered line of each drawn layer, a transparent line otherwise. */
  function LayerLines(io: seq<bv8>, rendered: seq<seq<Rgb15>>): (out: seq<seq<Rgb15>>)
    requires |io| == GbaIo.IoSize && LayersOk(rendered)
    ensures LayersOk(out)
    ensures forall n :: 0 <= n < 5 && !LayerDrawn(io, n) ==> forall x :: 0 <= x < ScreenWidth ==> IsTransparent(out[n][x])
  {
    seq(5, n requires 0 <= n < 5 => if LayerDrawn(io, n) then rendered[n] else seq(ScreenWidth, _ => Transparent))
  }

  /**
   * deferred_renderer_draw_gba_scanline: an all-white line under forced
   * blank, otherwise the drawn layers blended in layer order. `forceBlank`
   * is the DISPCNT forced-blank bit and `rendered` the lines the per-layer
   * renderers produce; mode 5 (todo!) and modes 6 and 7 (panic) are excluded.
   */
  method DrawGbaScanline(gba: Gba.GameboyAdvance, forceBlank: bool, rendered: seq<seq<Rgb15>>) returns (line: seq<Rgb>)
    requires gba.Valid() && LayersOk(rendered)
    requires !forceBlank ==> BgMode(gba.ioRegisters.regs[..]) <= 4
    ensures |line| == ScreenWidth
    ensures forceBlank ==> forall x :: 0 <= x < ScreenWidth ==> line[x] == ToRgb(White)
    ensures !forceBlank ==> forall x :: 0 <= x < ScreenWidth ==>
      line[x] == BlendedPixel(Backdrop(gba.objPaletteRam[..]), LayerLines(gba.ioRegisters.regs[..], rendered),
        LayerOrder(gba.ioRegisters.regs[..]), x)
  {
    if forceBlank {
      return seq(ScreenWidth, _ => ToRgb(White));
    }
    var io := gba.ioRegisters.regs[..];
    var palette := gba.objPaletteRam[..];
    var order := LayerOrder(io);
    var layers := LayerLines(io, rendered);
    line := ScanlineBlend(palette, order, layers);
  }
}
