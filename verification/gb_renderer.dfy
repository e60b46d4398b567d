/**
 * The Game Boy scanline renderer (src/io/deferred_renderer.rs,
 * deferred_renderer_draw_scanline): one line of 160 two-bit shades from the
 * background map, the window map and the 40 OAM entries, with the window line
 * counter the caller keeps between lines.
 *
 * The renderer reads the 64 KiB the memory's index operator yields; the model
 * takes that view as `mem`.  `window_x_pos`, `window_y_pos` and
 * `get_nth_background_tile` are called but not defined in the modelled
 * source, so they are the inputs `wx`, `wy` and `bgTile` of a Scene.
 */
module GbRenderer {
  import opened Options

  const ScreenWidth := 160
  const ScreenHeight := 144
  const TileMap1Start := 0x9800
  const TileMap2Start := 0x9C00
  const TilePatternTable1Start := 0x8000
  const ObjectAttributeStart := 0xFE00
  const ObjectAttributeBlockSize := 4
  /** The last OAM index the sprite loop visits (`0..=40`). */
  const LastObject := 40
  /** The loop stops once this many sprite origins have been met on the line. */
  const SpriteLimit := 11

  /** What one scanline is drawn from. */
  datatype Scene = Scene(mem: seq<bv8>, wx: int, wy: int, bgTile: seq<int>)

  /** A 64 KiB view, u8 window coordinates, and tile starts whose 16 bytes are addressable. */
  predicate ValidScene(s: Scene)
  {
    |s.mem| == 0x1_0000 && 0 <= s.wx < 256 && 0 <= s.wy < 256 && |s.bgTile| == 256 &&
    forall i :: 0 <= i < 256 ==> 0 <= s.bgTile[i] && s.bgTile[i] + 15 < 0x1_0000
  }

  // ---------------------------------------------------------------------
  // Registers (src/cpu/mod.rs accessors)
  // ---------------------------------------------------------------------

  predicate BgWinDisplay(s: Scene) requires ValidScene(s) { s.mem[0xFF40] & 1 == 1 }
  predicate SpriteDisplay(s: Scene) requires ValidScene(s) { (s.mem[0xFF40] >> 1) & 1 == 1 }
  predicate TallSprites(s: Scene) requires ValidScene(s) { (s.mem[0xFF40] >> 2) & 1 == 1 }
  predicate BgTileMap(s: Scene) requires ValidScene(s) { (s.mem[0xFF40] >> 3) & 1 == 1 }
  predicate WindowOn(s: Scene) requires ValidScene(s) { (s.mem[0xFF40] >> 5) & 1 == 1 }
  predicate WindowTileMap(s: Scene) requires ValidScene(s) { (s.mem[0xFF40] >> 6) & 1 == 1 }

  function Scy(s: Scene): int requires ValidScene(s) { s.mem[0xFF42] as int }
  function Scx(s: Scene): int requires ValidScene(s) { s.mem[0xFF43] as int }
  function Bgp(s: Scene): bv8 requires ValidScene(s) { s.mem[0xFF47] }
  function Obp0(s: Scene): bv8 requires ValidScene(s) { s.mem[0xFF48] }

  /** Entry c of the four two-bit fields bgp() and obp0() unpack, lowest field first. */
  function Shade(palette: bv8, c: int): (v: int)
    requires 0 <= c < 4
    ensures 0 <= v < 4
  {
    if c == 0 then (palette & 3) as int
    else if c == 1 then ((palette >> 2) & 3) as int
    else if c == 2 then ((palette >> 4) & 3) as int
    else ((palette >> 6) & 3) as int
  }

  /** The byte with only bit n set. */
  function BitMask(n: int): bv8
    requires 0 <= n < 8
  {
    if n == 0 then 0x01 else if n == 1 then 0x02 else if n == 2 then 0x04 else if n == 3 then 0x08
    else if n == 4 then 0x10 else if n == 5 then 0x20 else if n == 6 then 0x40 else 0x80
  }

  /** `(b >> n) & 0x1`: bit n of a byte, as 0 or 1. */
  function Bit(b: bv8, n: int): (v: int)
    requires 0 <= n < 8
    ensures v == 0 || v == 1
  {
    if b & BitMask(n) == 0 then 0 else 1
  }

  /**
   * The colour number of pixel `px` (0 leftmost) of the tile line starting at
   * `at`: the bit 7 - px of the second byte above the same bit of the first.
   */
  function TileColor(s: Scene, at: int, px: int): (c: int)
    requires ValidScene(s) && 0 <= at && at + 1 < 0x1_0000 && 0 <= px < 8
    ensures 0 <= c < 4
  {
    2 * Bit(s.mem[at + 1], 7 - px) + Bit(s.mem[at], 7 - px)
  }

  // ---------------------------------------------------------------------
  // Background and window
  // ---------------------------------------------------------------------

  /** adj_y: the line plus SCY, wrapping as a u8. */
  function AdjY(s: Scene, y: int): int requires ValidScene(s) { (y + Scy(s)) % 256 }
  /** adj_x: the column plus SCX, wrapping as a u8. */
  function AdjX(s: Scene, x: int): int requires ValidScene(s) { (x + Scx(s)) % 256 }

  function BgMap(s: Scene): int requires ValidScene(s)
  {
    if BgTileMap(s) then TileMap2Start else TileMap1Start
  }

  function WindowMap(s: Scene): int requires ValidScene(s)
  {
    if WindowTileMap(s) then TileMap2Start else TileMap1Start
  }

  /** The colour number of the background at column x of line y. */
  function BgColor(s: Scene, y: int, x: int): (c: int)
    requires ValidScene(s) && 0 <= y && 0 <= x
    ensures 0 <= c < 4
  {
    var ay, ax := AdjY(s, y), AdjX(s, x);
    var tile := s.mem[BgMap(s) + (ay / 8) * 32 + ax / 8];
    TileColor(s, s.bgTile[tile as int] + (ay % 8) * 2, ax % 8)
  }

  /** `window_x_pos().wrapping_sub(7)`: the column the window starts after. */
  function WindowLeft(s: Scene): int requires ValidScene(s) { (s.wx - 7) % 256 }

  /** The window covers column x of line y: right of WindowLeft and below WY. */
  predicate InWindow(s: Scene, y: int, x: int) requires ValidScene(s)
  {
    x > WindowLeft(s) && y > s.wy
  }

  /** A window pixel is drawn at (x, y): the background and the window are on and it is inside. */
  predicate WindowDrawn(s: Scene, y: int, x: int) requires ValidScene(s)
  {
    BgWinDisplay(s) && WindowOn(s) && InWindow(s, y, x)
  }

  /** win_x: x minus WindowLeft, or adj_x when adj_x lies left of WindowLeft. */
  function WindowX(s: Scene, x: int): (w: int)
    requires ValidScene(s) && WindowLeft(s) < x < 256
    ensures 0 <= w < 256
  {
    if AdjX(s, x) >= WindowLeft(s) then x - WindowLeft(s) else AdjX(s, x)
  }

  /** The u16 `row << 5`, which drops the bits shifted past bit 15. */
  function RowOffset(row: int): int { (row * 32) % 0x1_0000 }

  /**
   * The tile-map address of the window at column x (a u16 addition), on
   * window line `counter`: the line the window counter says is next, as the
   * commented-out alternative at the subtraction suggests (see Findings).
   */
  function WindowMapIndex(s: Scene, counter: int, x: int): int
    requires ValidScene(s) && WindowLeft(s) < x < 256
  {
    WindowMap(s) + RowOffset(counter / 8) + WindowX(s, x) / 8
  }

  /** The u16 counter and the map-address sum do not overflow. */
  predicate WindowFits(s: Scene, counter: int, x: int)
    requires ValidScene(s) && WindowLeft(s) < x < 256
  {
    0 <= counter < 0x1_0000 && WindowMapIndex(s, counter, x) < 0x1_0000
  }

  /** The colour number of the window at column x, on window line `counter`. */
  function WindowColor(s: Scene, counter: int, x: int): (c: int)
    requires ValidScene(s) && WindowLeft(s) < x < 256 && WindowFits(s, counter, x)
    ensures 0 <= c < 4
  {
    var tile := s.mem[WindowMapIndex(s, counter, x)];
    TileColor(s, s.bgTile[tile as int] + (counter % 8) * 2, AdjX(s, x) % 8)
  }

  /**
   * Where the source panics drawing line y: at a window pixel whose u16
   * arithmetic overflows, or when the counter is incremented past 0xFFFF.
   */
  predicate LineSafe(s: Scene, y: int, counter: int)
    requires ValidScene(s)
  {
    forall x :: 0 <= x < ScreenWidth && WindowDrawn(s, y, x) ==>
      WindowFits(s, counter, x) && counter < 0xFFFF
  }

  /** On screen the window counter stays below 144, so the window's map address never overflows. */
  lemma WindowFitsOnScreen(s: Scene, counter: int, x: int)
    requires ValidScene(s) && WindowLeft(s) < x < 256 && 0 <= counter < ScreenHeight
    ensures WindowFits(s, counter, x)
  {
    assert RowOffset(counter / 8) <= 17 * 32;
  }

  /** A visible line drawn with a counter no larger than its number never panics. */
  lemma LineSafeOnScreen(s: Scene, y: int, counter: int)
    requires ValidScene(s) && 0 <= counter <= y < ScreenHeight
    ensures LineSafe(s, y, counter)
  {
    forall x | 0 <= x < ScreenWidth && WindowDrawn(s, y, x)
      ensures WindowFits(s, counter, x)
    {
      WindowFitsOnScreen(s, counter, x);
    }
  }

  /**
   * As written, the window line is the u16 `*window_counter - window_y_pos()`,
   * which underflows (a panic) when the counter is below WY.
   */
  predicate WindowFitsAsWritten(s: Scene, counter: int, x: int)
    requires ValidScene(s) && WindowLeft(s) < x < 256
  {
    s.wy <= counter < 0x1_0000 && WindowMap(s) + RowOffset((counter - s.wy) / 8) + WindowX(s, x) / 8 < 0x1_0000
  }

  /** Where the source as written panics drawing line y. */
  predicate LineSafeAsWritten(s: Scene, y: int, counter: int)
    requires ValidScene(s)
  {
    forall x :: 0 <= x < ScreenWidth && WindowDrawn(s, y, x) ==>
      WindowFitsAsWritten(s, counter, x) && counter < 0xFFFF
  }

  /** As written, a window pixel drawn while the counter is below WY panics. */
  lemma WindowUnderflowAsWritten(s: Scene, y: int, counter: int, x: int)
    requires ValidScene(s) && 0 <= x < ScreenWidth && WindowDrawn(s, y, x) && counter < s.wy
    ensures !LineSafeAsWritten(s, y, counter)
  {
  }

  /**
   * The background layer at one column: the shade, whether its colour
   * number is nonzero, whether the `continue` outside the window skips the
   * sprites, and whether a window pixel was drawn.
   */
  datatype Backdrop = Backdrop(pixel: int, solid: bool, skipSprites: bool, window: bool)

  function BackdropAt(s: Scene, y: int, counter: int, x: int): (b: Backdrop)
    requires ValidScene(s) && 0 <= y < ScreenHeight && 0 <= x < ScreenWidth && LineSafe(s, y, counter)
    ensures 0 <= b.pixel < 4
    ensures b.window <==> WindowDrawn(s, y, x)
    ensures b.skipSprites <==> BgWinDisplay(s) && WindowOn(s) && !InWindow(s, y, x)
    ensures !BgWinDisplay(s) ==> b == Backdrop(0, false, false, false)
  {
    if !BgWinDisplay(s) then Backdrop(0, false, false, false)
    else
      var c := BgColor(s, y, x);
      if !WindowOn(s) then Backdrop(Shade(Bgp(s), c), c != 0, false, false)
      else if !InWindow(s, y, x) then Backdrop(Shade(Bgp(s), c), c != 0, true, false)
      else
        var w := WindowColor(s, counter, x);
        Backdrop(Shade(Bgp(s), w), c != 0 || w != 0, false, true)
  }

  // ---------------------------------------------------------------------
  // Sprites
  // ---------------------------------------------------------------------

  /** The four bytes of an OAM entry: Y, X, tile number and flags. */
  datatype Oam = Oam(y: int, x: int, tile: int, flags: bv8)

  /** Entry `obj` read at 0xFE00 + 4 * obj (entry 40 lies just past OAM, at 0xFEA0). */
  function OamEntry(s: Scene, obj: int): (e: Oam)
    requires ValidScene(s) && 0 <= obj <= LastObject
    ensures 0 <= e.y < 256 && 0 <= e.x < 256 && 0 <= e.tile < 256
  {
    var offset := ObjectAttributeStart + obj * ObjectAttributeBlockSize;
    Oam(s.mem[offset] as int, s.mem[offset + 1] as int, s.mem[offset + 2] as int, s.mem[offset + 3])
  }

  /** An entry the loop skips: X is 0 or at least 168, and Y is 0 or at least 160. */
  predicate Hidden(e: Oam) { (e.x == 0 || e.x >= 168) && (e.y == 0 || e.y >= 160) }

  predicate FlipX(e: Oam) { (e.flags >> 5) & 1 == 1 }
  predicate FlipY(e: Oam) { (e.flags >> 6) & 1 == 1 }
  /** Flag bit 7: the sprite is hidden behind nonzero background and window colours. */
  predicate BehindBackground(e: Oam) { (e.flags >> 7) & 1 == 1 }

  /** The sprite's screen corner: X - 8 and Y - 16, wrapping as u8. */
  function SpriteLeft(e: Oam): int { (e.x - 8) % 256 }
  function SpriteTop(e: Oam): int { (e.y - 16) % 256 }

  function SpriteHeight(s: Scene): (h: int)
    requires ValidScene(s)
    ensures h == 8 || h == 16
  {
    if TallSprites(s) then 16 else 8
  }

  /** The sprite covers (x, y), with the u8 wrapping additions of the source's test. */
  predicate Covers(s: Scene, e: Oam, y: int, x: int)
    requires ValidScene(s)
  {
    x < (SpriteLeft(e) + 8) % 256 && x >= SpriteLeft(e) &&
    y < (SpriteTop(e) + SpriteHeight(s)) % 256 && y >= SpriteTop(e)
  }

  /** (x, y) is the sprite's corner, the pixel at which num_sprites_drawn counts it. */
  predicate AtCorner(e: Oam, y: int, x: int) { x == SpriteLeft(e) && y == SpriteTop(e) }

  /**
   * The tile line a sprite row reads: row `yth` of the sprite, or with
   * Y-flip row height - 1 - yth, so that a 16-line sprite is flipped as a
   * whole.
   */
  function SpriteRow(yth: int, flip: bool, height: int): (r: int)
    requires 0 <= yth < height
    ensures 0 <= r < height
    ensures flip ==> r + yth == height - 1
    ensures !flip ==> r == yth
  {
    if flip then height - 1 - yth else yth
  }

  /**
   * Line 177 as written: the u8 subtraction `7 - yth_pixel`, which panics
   * (None) for the rows 8..15 of a 16-line sprite.
   */
  function SpriteRowAsWritten(yth: int, flip: bool): (r: Option<int>)
    requires 0 <= yth < 256
    ensures r.Some? <==> !flip || yth <= 7
  {
    if !flip then Some(yth) else if yth <= 7 then Some(7 - yth) else None
  }

  /**
   * The tile a sprite row is read from: in 8x16 mode the tile number with bit
   * 0 cleared for rows 0..7 and set for rows 8..15.
   */
  function SpriteTile(tile: int, row: int, tall: bool): (t: int)
    requires 0 <= tile < 256 && 0 <= row
    ensures 0 <= t < 256
    ensures !tall ==> t == tile
    ensures tall ==> t / 2 == tile / 2 && t % 2 == (if row >= 8 then 1 else 0)
  {
    if tall then tile / 2 * 2 + (if row >= 8 then 1 else 0) else tile
  }

  /** The colour number of the sprite at a pixel it covers. */
  function SpriteColor(s: Scene, e: Oam, y: int, x: int): (c: int)
    requires ValidScene(s) && 0 <= y < ScreenHeight && 0 <= x < ScreenWidth
    requires 0 <= e.y < 256 && 0 <= e.x < 256 && 0 <= e.tile < 256 && Covers(s, e, y, x)
    ensures 0 <= c < 4
  {
    var xth := x - SpriteLeft(e);
    var yth := y - SpriteTop(e);
    var col := if FlipX(e) then 7 - xth else xth;
    var row := SpriteRow(yth, FlipY(e), SpriteHeight(s));
    var tile := SpriteTile(e.tile, row, TallSprites(s));
    TileColor(s, TilePatternTable1Start + tile * 16 + (row % 8) * 2, col % 8)
  }

  /**
   * Lines 173-194 as written: the colour number read with the row of
   * SpriteRowAsWritten, or None where `7 - yth_pixel` underflows. On a
   * Y-flipped 16-line sprite, rows 0..7 are flipped within the first tile of
   * the pair.
   */
  function SpriteColorAsWritten(s: Scene, e: Oam, y: int, x: int): (c: Option<int>)
    requires ValidScene(s) && 0 <= y < ScreenHeight && 0 <= x < ScreenWidth
    requires 0 <= e.y < 256 && 0 <= e.x < 256 && 0 <= e.tile < 256 && Covers(s, e, y, x)
    ensures c.Some? <==> !FlipY(e) || y - SpriteTop(e) <= 7
    ensures c.Some? ==> 0 <= c.value < 4
    ensures !FlipY(e) ==> c == Some(SpriteColor(s, e, y, x))
  {
    var xth := x - SpriteLeft(e);
    var yth := y - SpriteTop(e);
    var col := if FlipX(e) then 7 - xth else xth;
    match SpriteRowAsWritten(yth, FlipY(e))
    case None => None
    case Some(row) =>
      var tile := SpriteTile(e.tile, row, TallSprites(s));
      Some(TileColor(s, TilePatternTable1Start + tile * 16 + (row % 8) * 2, col % 8))
  }

  /** The pixel under construction and the line's num_sprites_drawn. */
  datatype Dot = Dot(pixel: int, count: int)

  /**
   * Entry obj paints pixel (x, y): it is not hidden, covers the pixel, its
   * colour number there is nonzero, and it is not behind an opaque backdrop.
   */
  predicate Paints(s: Scene, y: int, x: int, solid: bool, obj: int)
    requires ValidScene(s) && 0 <= y < ScreenHeight && 0 <= x < ScreenWidth && 0 <= obj <= LastObject
  {
    var e := OamEntry(s, obj);
    !Hidden(e) && Covers(s, e, y, x) && SpriteColor(s, e, y, x) != 0 && !(BehindBackground(e) && solid)
  }

  /** The shade entry obj gives a pixel it covers, always through OBP0. */
  function SpriteShade(s: Scene, y: int, x: int, obj: int): (v: int)
    requires ValidScene(s) && 0 <= y < ScreenHeight && 0 <= x < ScreenWidth && 0 <= obj <= LastObject
    requires Covers(s, OamEntry(s, obj), y, x)
    ensures 0 <= v < 4
  {
    Shade(Obp0(s), SpriteColor(s, OamEntry(s, obj), y, x))
  }

  /**
   * One iteration of the OAM loop: a hidden entry or one that does not cover
   * the pixel changes nothing; one that does is counted at its corner and
   * paints the pixel when Paints holds.
   */
  function SpriteStep(s: Scene, y: int, x: int, solid: bool, obj: int, d: Dot): (r: Dot)
    requires ValidScene(s) && 0 <= y < ScreenHeight && 0 <= x < ScreenWidth && 0 <= obj <= LastObject
    ensures r.count == d.count || r.count == d.count + 1
  {
    var e := OamEntry(s, obj);
    if Hidden(e) || !Covers(s, e, y, x) then d
    else
      var count := if AtCorner(e, y, x) then d.count + 1 else d.count;
      if Paints(s, y, x, solid, obj) then Dot(SpriteShade(s, y, x, obj), count)
      else Dot(d.pixel, count)
  }

  /** The OAM loop from entry obj on, breaking once the count reaches SpriteLimit. */
  function SpriteScan(s: Scene, y: int, x: int, solid: bool, obj: int, d: Dot): Dot
    requires ValidScene(s) && 0 <= y < ScreenHeight && 0 <= x < ScreenWidth && 0 <= obj
    decreases LastObject + 1 - obj
  {
    if obj > LastObject || d.count >= SpriteLimit then d
    else SpriteScan(s, y, x, solid, obj + 1, SpriteStep(s, y, x, solid, obj, d))
  }

  // ---------------------------------------------------------------------
  // The line
  // ---------------------------------------------------------------------

  /** One column drawn: its shade, the count after it, and whether it drew the window. */
  datatype Column = Column(pixel: int, count: int, window: bool)

  function ColumnAt(s: Scene, y: int, counter: int, x: int, count: int): Column
    requires ValidScene(s) && 0 <= y < ScreenHeight && 0 <= x < ScreenWidth && LineSafe(s, y, counter)
  {
    var b := BackdropAt(s, y, counter, x);
    if b.skipSprites || !SpriteDisplay(s) then Column(b.pixel, count, b.window)
    else
      var d := SpriteScan(s, y, x, b.solid, 0, Dot(b.pixel, count));
      Column(d.pixel, d.count, b.window)
  }

  /** The first n columns, the count after them, and whether any of them drew the window. */
  datatype Partial = Partial(pixels: seq<int>, count: int, window: bool)

  function LineUpTo(s: Scene, y: int, counter: int, n: int): (p: Partial)
    requires ValidScene(s) && 0 <= y < ScreenHeight && 0 <= n <= ScreenWidth && LineSafe(s, y, counter)
    ensures |p.pixels| == n
  {
    if n == 0 then Partial([], 0, false)
    else
      var p := LineUpTo(s, y, counter, n - 1);
      var c := ColumnAt(s, y, counter, n - 1, p.count);
      Partial(p.pixels + [c.pixel], c.count, p.window || c.window)
  }

  /** The line deferred_renderer_draw_scanline returns for y. */
  function Scanline(s: Scene, y: int, counter: int): seq<int>
    requires ValidScene(s) && 0 <= y < 256 && (y < ScreenHeight ==> LineSafe(s, y, counter))
  {
    if y >= ScreenHeight then seq(ScreenWidth, _ => 0) else LineUpTo(s, y, counter, ScreenWidth).pixels
  }

  /** The window counter after line y: one more when the line drew any window pixel. */
  function CounterAfter(s: Scene, y: int, counter: int): int
    requires ValidScene(s) && 0 <= y < 256 && (y < ScreenHeight ==> LineSafe(s, y, counter))
  {
    if y < ScreenHeight && LineUpTo(s, y, counter, ScreenWidth).window then counter + 1 else counter
  }

  /**
   * The window block of one column: the colour number of the window tile
   * pixel, on the window line the counter holds (the corrected win_y).
   */
  method WindowPixel(s: Scene, y: int, counter: int, x: int) returns (winColor: int)
    requires ValidScene(s) && 0 <= y < ScreenHeight && 0 <= x < ScreenWidth && LineSafe(s, y, counter)
    requires WindowDrawn(s, y, x)
    ensures winColor == WindowColor(s, counter, x)
  {
    var adjX := (x + Scx(s)) % 256;
    var winY := counter;
    var winX := if adjX >= WindowLeft(s) then x - WindowLeft(s) else adjX;
    var mapIdx := WindowMap(s) + RowOffset(winY / 8) + winX / 8;
    assert mapIdx == WindowMapIndex(s, counter, x);
    var winIdx := s.mem[mapIdx];
    var winStart := s.bgTile[winIdx as int];
    winColor := TileColor(s, winStart + (winY % 8) * 2, adjX % 8);
  }

  /**
   * The background half of one column of deferred_renderer_draw_scanline:
   * the background tile pixel, then, with the window on, either the skip of
   * the rest of the column outside the window or the window tile pixel.
   */
  method DrawBackdrop(s: Scene, y: int, counter: int, x: int) returns (b: Backdrop)
    requires ValidScene(s) && 0 <= y < ScreenHeight && 0 <= x < ScreenWidth && LineSafe(s, y, counter)
    ensures b == BackdropAt(s, y, counter, x)
  {
    b := Backdrop(0, false, false, false);
    if BgWinDisplay(s) {
      var adjY := (y + Scy(s)) % 256;
      var adjX := (x + Scx(s)) % 256;
      var tileIdx := s.mem[BgMap(s) + (adjY / 8) * 32 + adjX / 8];
      var tileStart := s.bgTile[tileIdx as int];
      var pxColor := TileColor(s, tileStart + (adjY % 8) * 2, adjX % 8);
      assert pxColor == BgColor(s, y, x);
      b := Backdrop(Shade(Bgp(s), pxColor), pxColor != 0, false, false);
      if WindowOn(s) {
        if !(x > WindowLeft(s) && y > s.wy) {
          b := b.(skipSprites := true);
        } else {
          var winColor := WindowPixel(s, y, counter, x);
          b := Backdrop(Shade(Bgp(s), winColor), b.solid || winColor != 0, false, true);
        }
      }
    }
  }

  /**
   * The sprite half of one column: the `0..=40` OAM loop over the pixel,
   * breaking once num_sprites_drawn reaches SpriteLimit.
   */
  method DrawSprites(s: Scene, y: int, x: int, solid: bool, pixel: int, count: int) returns (d: Dot)
    requires ValidScene(s) && 0 <= y < ScreenHeight && 0 <= x < ScreenWidth
    ensures d == SpriteScan(s, y, x, solid, 0, Dot(pixel, count))
  {
    d := Dot(pixel, count);
    for obj := 0 to LastObject + 1
      invariant SpriteScan(s, y, x, solid, obj, d) == SpriteScan(s, y, x, solid, 0, Dot(pixel, count))
    {
      if d.count >= SpriteLimit {
        break;
      }
      var e := OamEntry(s, obj);
      if Hidden(e) || !Covers(s, e, y, x) {
        continue;
      }
      if AtCorner(e, y, x) {
        d := d.(count := d.count + 1);
      }
      var pxColor := SpriteColor(s, e, y, x);
      if pxColor != 0 {
        if BehindBackground(e) && solid {
          continue;
        }
        d := d.(pixel := Shade(Obp0(s), pxColor));
      }
    }
  }

  /**
   * One iteration of the column loop: the backdrop into bg_pixels[x] and
   * bg_opacities[x] when the background is on, then, unless the window test
   * continued the loop, the OAM loop over bg_pixels[x].
   */
  method DrawColumn(s: Scene, y: int, counter: int, x: int, count: int,
                    bgPixels: array<int>, bgOpacities: array<bool>) returns (c: Column)
    requires ValidScene(s) && 0 <= y < ScreenHeight && 0 <= x < ScreenWidth && LineSafe(s, y, counter)
    requires bgPixels.Length == ScreenWidth && bgOpacities.Length == ScreenWidth
    requires bgPixels[x] == 0 && !bgOpacities[x]
    modifies bgPixels, bgOpacities
    ensures c == ColumnAt(s, y, counter, x, count) && bgPixels[x] == c.pixel
    ensures forall j :: 0 <= j < ScreenWidth && j != x ==> bgPixels[j] == old(bgPixels[j])
    ensures forall j :: 0 <= j < ScreenWidth && j != x ==> bgOpacities[j] == old(bgOpacities[j])
  {
    var b := DrawBackdrop(s, y, counter, x);
    if BgWinDisplay(s) {
      bgPixels[x] := b.pixel;
      bgOpacities[x] := b.solid;
    }
    c := Column(bgPixels[x], count, b.window);
    if !b.skipSprites && SpriteDisplay(s) {
      var d := DrawSprites(s, y, x, bgOpacities[x], bgPixels[x], count);
      bgPixels[x] := d.pixel;
      c := Column(d.pixel, d.count, b.window);
    }
  }

  /**
   * deferred_renderer_draw_scanline: the columns left to right, then the
   * window counter one higher if any column drew a window pixel.
   */
  method DrawScanline(s: Scene, y: int, windowCounter: int) returns (line: seq<int>, counter: int)
    requires ValidScene(s) && 0 <= y < 256 && 0 <= windowCounter < 0x1_0000
    requires y < ScreenHeight ==> LineSafe(s, y, windowCounter)
    ensures line == Scanline(s, y, windowCounter)
    ensures counter == CounterAfter(s, y, windowCounter)
  {
    var bgPixels := new int[ScreenWidth](_ => 0);
    var bgOpacities := new bool[ScreenWidth](_ => false);
    if y >= ScreenHeight {
      return bgPixels[..], windowCounter;
    }
    var numSpritesDrawn := 0;
    var incWindowCounter := false;
    for x := 0 to ScreenWidth
      invariant bgPixels[..x] == LineUpTo(s, y, windowCounter, x).pixels
      invariant numSpritesDrawn == LineUpTo(s, y, windowCounter, x).count
      invariant incWindowCounter == LineUpTo(s, y, windowCounter, x).window
      invariant forall j :: x <= j < ScreenWidth ==> bgPixels[j] == 0
      invariant forall j :: x <= j < ScreenWidth ==> !bgOpacities[j]
    {
      var c := DrawColumn(s, y, windowCounter, x, numSpritesDrawn, bgPixels, bgOpacities);
      numSpritesDrawn := c.count;
      incWindowCounter := incWindowCounter || c.window;
      assert bgPixels[..x + 1] == bgPixels[..x] + [bgPixels[x]];
    }
    line := bgPixels[..];
    assert line == bgPixels[..ScreenWidth];
    counter := if incWindowCounter then windowCounter + 1 else windowCounter;
  }

  // ---------------------------------------------------------------------
  // Properties
  // ---------------------------------------------------------------------

  /**
   * One OAM entry leaves the pixel alone unless it paints it, and a hidden
   * entry leaves the pixel and the count alone.
   */
  lemma StepEffect(s: Scene, y: int, x: int, solid: bool, obj: int, d: Dot)
    requires ValidScene(s) && 0 <= y < ScreenHeight && 0 <= x < ScreenWidth && 0 <= obj <= LastObject
    ensures var r := SpriteStep(s, y, x, solid, obj, d);
      (Hidden(OamEntry(s, obj)) ==> r == d) &&
      (r.pixel == d.pixel || (Paints(s, y, x, solid, obj) && r.pixel == SpriteShade(s, y, x, obj)))
  {
  }

  /**
   * The OAM loop never lowers the count nor lifts it past SpriteLimit, and
   * it leaves a two-bit shade in a pixel that held one.
   */
  lemma {:induction false} ScanBounds(s: Scene, y: int, x: int, solid: bool, obj: int, d: Dot)
    requires ValidScene(s) && 0 <= y < ScreenHeight && 0 <= x < ScreenWidth && 0 <= obj
    ensures var r := SpriteScan(s, y, x, solid, obj, d);
      d.count <= r.count && (d.count <= SpriteLimit ==> r.count <= SpriteLimit) &&
      (0 <= d.pixel < 4 ==> 0 <= r.pixel < 4)
    decreases LastObject + 1 - obj
  {
    if obj <= LastObject && d.count < SpriteLimit {
      var d' := SpriteStep(s, y, x, solid, obj, d);
      StepEffect(s, y, x, solid, obj, d);
      ScanBounds(s, y, x, solid, obj + 1, d');
    }
  }

  /**
   * The pixel the OAM loop leaves is the one it started from or the shade of
   * an entry that paints it.
   */
  lemma {:induction false} ScanSource(s: Scene, y: int, x: int, solid: bool, obj: int, d: Dot)
    requires ValidScene(s) && 0 <= y < ScreenHeight && 0 <= x < ScreenWidth && 0 <= obj
    ensures var r := SpriteScan(s, y, x, solid, obj, d);
      r.pixel == d.pixel ||
      exists k :: obj <= k <= LastObject && Paints(s, y, x, solid, k) && r.pixel == SpriteShade(s, y, x, k)
    decreases LastObject + 1 - obj
  {
    if obj <= LastObject && d.count < SpriteLimit {
      var d' := SpriteStep(s, y, x, solid, obj, d);
      StepEffect(s, y, x, solid, obj, d);
      ScanSource(s, y, x, solid, obj + 1, d');
    }
  }

  /** A column's count lies between the one it started with and SpriteLimit. */
  lemma ColumnCount(s: Scene, y: int, counter: int, x: int, count: int)
    requires ValidScene(s) && 0 <= y < ScreenHeight && 0 <= x < ScreenWidth && LineSafe(s, y, counter)
    requires 0 <= count <= SpriteLimit
    ensures count <= ColumnAt(s, y, counter, x, count).count <= SpriteLimit
  {
    var b := BackdropAt(s, y, counter, x);
    if !b.skipSprites && SpriteDisplay(s) {
      ScanBounds(s, y, x, b.solid, 0, Dot(b.pixel, count));
    }
  }

  /** A column's pixel is a two-bit shade. */
  lemma ColumnShade(s: Scene, y: int, counter: int, x: int, count: int)
    requires ValidScene(s) && 0 <= y < ScreenHeight && 0 <= x < ScreenWidth && LineSafe(s, y, counter)
    ensures 0 <= ColumnAt(s, y, counter, x, count).pixel < 4
  {
    var b := BackdropAt(s, y, counter, x);
    if !b.skipSprites && SpriteDisplay(s) {
      ScanBounds(s, y, x, b.solid, 0, Dot(b.pixel, count));
    }
  }

  /** With the limit reached, a column shows its backdrop and keeps the count. */
  lemma ColumnAtLimit(s: Scene, y: int, counter: int, x: int, count: int)
    requires ValidScene(s) && 0 <= y < ScreenHeight && 0 <= x < ScreenWidth && LineSafe(s, y, counter)
    requires count >= SpriteLimit
    ensures ColumnAt(s, y, counter, x, count).count == count
    ensures ColumnAt(s, y, counter, x, count).pixel == BackdropAt(s, y, counter, x).pixel
  {
  }

  /** The line's sprite count stays within SpriteLimit. */
  lemma {:induction false} LineCount(s: Scene, y: int, counter: int, n: int)
    requires ValidScene(s) && 0 <= y < ScreenHeight && 0 <= n <= ScreenWidth && LineSafe(s, y, counter)
    ensures 0 <= LineUpTo(s, y, counter, n).count <= SpriteLimit
  {
    if n > 0 {
      var p := LineUpTo(s, y, counter, n - 1);
      LineCount(s, y, counter, n - 1);
      ColumnCount(s, y, counter, n - 1, p.count);
    }
  }

  /** Every pixel of a line is a two-bit shade. */
  lemma {:induction false} LineShades(s: Scene, y: int, counter: int, n: int)
    requires ValidScene(s) && 0 <= y < ScreenHeight && 0 <= n <= ScreenWidth && LineSafe(s, y, counter)
    ensures forall i :: 0 <= i < n ==> 0 <= LineUpTo(s, y, counter, n).pixels[i] < 4
  {
    if n > 0 {
      var p := LineUpTo(s, y, counter, n - 1);
      LineShades(s, y, counter, n - 1);
      ColumnShade(s, y, counter, n - 1, p.count);
      var c := ColumnAt(s, y, counter, n - 1, p.count);
      assert LineUpTo(s, y, counter, n).pixels == p.pixels + [c.pixel];
      AppendShades(p.pixels, c.pixel);
    }
  }

  /** Appending a shade to a sequence of shades. */
  lemma AppendShades(p: seq<int>, c: int)
    requires forall i :: 0 <= i < |p| ==> 0 <= p[i] < 4
    requires 0 <= c < 4
    ensures forall i :: 0 <= i < |p| + 1 ==> 0 <= (p + [c])[i] < 4
  {
  }

  /** A line's window flag is set exactly when one of its columns drew a window pixel. */
  lemma {:induction false} LineWindow(s: Scene, y: int, counter: int, n: int)
    requires ValidScene(s) && 0 <= y < ScreenHeight && 0 <= n <= ScreenWidth && LineSafe(s, y, counter)
    ensures LineUpTo(s, y, counter, n).window <==> exists x :: 0 <= x < n && WindowDrawn(s, y, x)
  {
    if n > 0 {
      LineWindow(s, y, counter, n - 1);
      if WindowDrawn(s, y, n - 1) {
        assert LineUpTo(s, y, counter, n).window;
      }
    }
  }

  /**
   * The window is visible on line y: background and window are on, the line
   * is below WY, and WX - 7 leaves at least one column to its right.
   */
  predicate WindowOnLine(s: Scene, y: int) requires ValidScene(s)
  {
    BgWinDisplay(s) && WindowOn(s) && y > s.wy && WindowLeft(s) < ScreenWidth - 1
  }

  /**
   * The window counter counts the visible lines on which the window shows:
   * it rises by one exactly on those, whatever the sprites and maps hold.
   */
  lemma WindowCounterStep(s: Scene, y: int, counter: int)
    requires ValidScene(s) && 0 <= y < 256 && (y < ScreenHeight ==> LineSafe(s, y, counter))
    ensures CounterAfter(s, y, counter) == counter + (if y < ScreenHeight && WindowOnLine(s, y) then 1 else 0)
  {
    if y < ScreenHeight {
      LineWindow(s, y, counter, ScreenWidth);
      if WindowOnLine(s, y) {
        assert WindowDrawn(s, y, WindowLeft(s) + 1);
      }
    }
  }

  /**
   * Once SpriteLimit sprite corners have been met on a line, every later
   * column shows its background or window pixel and the count stays put.
   */
  lemma {:induction false} LimitFreezesSprites(s: Scene, y: int, counter: int, n: int, m: int)
    requires ValidScene(s) && 0 <= y < ScreenHeight && 0 <= n <= m <= ScreenWidth && LineSafe(s, y, counter)
    requires LineUpTo(s, y, counter, n).count == SpriteLimit
    ensures LineUpTo(s, y, counter, m).count == SpriteLimit
    ensures forall i :: n <= i < m ==> LineUpTo(s, y, counter, m).pixels[i] == BackdropAt(s, y, counter, i).pixel
    decreases m
  {
    if m > n {
      LimitFreezesSprites(s, y, counter, n, m - 1);
      var p := LineUpTo(s, y, counter, m - 1);
      ColumnAtLimit(s, y, counter, m - 1, p.count);
      var c := ColumnAt(s, y, counter, m - 1, p.count);
      var q := LineUpTo(s, y, counter, m).pixels;
      assert q == p.pixels + [c.pixel];
      forall i | n <= i < m
        ensures q[i] == BackdropAt(s, y, counter, i).pixel
      {
        if i < m - 1 {
          assert q[i] == p.pixels[i];
        }
      }
    }
  }

  /**
   * Outside the window the `continue` of the window test also skips the
   * sprites: with background and window on, such a column shows the
   * background whatever OAM holds.
   */
  lemma OutsideWindowHidesSprites(s: Scene, y: int, counter: int, x: int, count: int)
    requires ValidScene(s) && 0 <= y < ScreenHeight && 0 <= x < ScreenWidth && LineSafe(s, y, counter)
    requires BgWinDisplay(s) && WindowOn(s) && !InWindow(s, y, x)
    ensures ColumnAt(s, y, counter, x, count) == Column(Shade(Bgp(s), BgColor(s, y, x)), count, false)
  {
  }

  /**
   * A Y-flipped 16-line sprite is mirrored as a whole: each row is read from
   * the other tile of the pair, at the mirrored line of that tile.
   */
  lemma TallFlipMirrors(tile: int, yth: int)
    requires 0 <= tile < 256 && 0 <= yth < 16
    ensures var row := SpriteRow(yth, true, 16);
      SpriteTile(tile, row, true) == SpriteTile(tile, yth, true) + (if yth < 8 then 1 else -1) &&
      row % 8 == 7 - yth % 8
  {
  }

  /**
   * As written, line 177 panics on the lower half of a Y-flipped 16-line
   * sprite: every row it covers from the ninth on underflows `7 - yth_pixel`.
   */
  lemma TallFlipPanicsAsWritten(s: Scene, y: int, x: int, obj: int)
    requires ValidScene(s) && 0 <= y < ScreenHeight && 0 <= x < ScreenWidth && 0 <= obj <= LastObject
    requires TallSprites(s) && FlipY(OamEntry(s, obj)) && Covers(s, OamEntry(s, obj), y, x)
    requires y - SpriteTop(OamEntry(s, obj)) >= 8
    ensures SpriteRowAsWritten(y - SpriteTop(OamEntry(s, obj)), true) == None
  {
  }

  /**
   * A scene with sprites on in 8x16 mode and entry 0 at Y = 16, X = 8 with
   * the Y-flip flag, tile 0; only the leftmost pixel of the last line of tile
   * 0 has colour number 1.
   */
  function TallFlipScene(): Scene
  {
    Scene(seq(0x1_0000, i => if i == 0xFF40 then 0x06 else if i == 0xFE00 then 16
                             else if i == 0xFE01 then 8 else if i == 0xFE03 then 0x40
                             else if i == 0x800E then 0x80 else 0),
          0, 0, seq(256, _ => TilePatternTable1Start))
  }

  /**
   * The scene reaches the panic: on line 8, column 0 is the sprite's ninth
   * row, which the corrected flip reads as row 7 of the 16.
   */
  lemma TallFlipExample()
    ensures var s := TallFlipScene(); var e := OamEntry(s, 0);
      ValidScene(s) && SpriteDisplay(s) && TallSprites(s) && !Hidden(e) && FlipY(e) && Covers(s, e, 8, 0) &&
      SpriteRowAsWritten(8 - SpriteTop(e), true) == None && SpriteRow(8 - SpriteTop(e), true, 16) == 7
  {
    var s := TallFlipScene();
    assert s.mem[0xFF40] == 0x06 && s.mem[0xFE00] == 16 && s.mem[0xFE01] == 8 && s.mem[0xFE03] == 0x40;
  }

  /**
   * On the first line of the same scene the two flips read different tiles:
   * as written, the sprite's top row shows line 7 of tile 0 (colour number
   * 1); the whole-sprite flip shows line 7 of tile 1 (colour number 0).
   */
  lemma TallFlipTopRowsDiffer()
    ensures var s := TallFlipScene(); var e := OamEntry(s, 0);
      ValidScene(s) && TallSprites(s) && FlipY(e) && Covers(s, e, 0, 0) &&
      SpriteColorAsWritten(s, e, 0, 0) == Some(1) && SpriteColor(s, e, 0, 0) == 0
  {
    var s := TallFlipScene();
    assert s.mem[0xFF40] == 0x06 && s.mem[0xFE00] == 16 && s.mem[0xFE01] == 8 && s.mem[0xFE03] == 0x40;
    assert s.mem[0x800E] == 0x80 && s.mem[0x800F] == 0 && s.mem[0x801E] == 0 && s.mem[0x801F] == 0;
  }
}
