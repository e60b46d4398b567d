/**
 * One frame of emulation: ApplicationState::step (src/io/applicationstate.rs:123-327).
 *
 * Each of the 144 visible lines runs OamScan, VramScan and HBlank, counting the
 * cycles of the opcodes dispatched meanwhile. At the end of HBlank the line is
 * drawn by the deferred renderer. After the last visible line, nine VBlank line
 * periods follow, and then the frame goes to the renderer.
 *
 * dispatch_opcode is an oracle here: `dispatch(i)` is the number of cycles of
 * the i-th opcode the step dispatches, and opcodes are not modelled as writing
 * the registers below. The renderer sees line y through `scenes[y]`.
 */
module PpuStep {
  import opened GbRenderer
  import GbCpu

  const OamScanCycles: nat := 80
  const VramScanCycles: nat := 168
  const HBlankCycles: nat := 208
  /** The VBlank line periods a frame runs before it is drawn. */
  const VBlankLines: nat := 9

  datatype Mode = OamScan | VramScan | HBlank | VBlank

  // ---------------------------------------------------------------------
  // Timing
  // ---------------------------------------------------------------------

  /** The cycle budgets of one step: OAM scan, VRAM scan, HBlank, and the divider period. */
  datatype Timing = Timing(oam: nat, vram: nat, hblank: nat, divider: nat)

  /** The cycles of one whole scanline. */
  function LineCycles(t: Timing): nat { t.hblank + t.vram + t.oam }

  /**
   * The budgets step picks: GBC double speed doubles each of them. A line
   * leaves OamScan at 80 cycles, VramScan at 248 and HBlank at 456.
   */
  function StepTiming(doubled: bool, dividerStep: nat): (t: Timing)
    ensures var k := if doubled then 2 else 1;
      t.oam == 80 * k && t.oam + t.vram == 248 * k && LineCycles(t) == 456 * k &&
      t.divider == dividerStep * k
  {
    if doubled then Timing(OamScanCycles * 2, VramScanCycles * 2, HBlankCycles * 2, dividerStep * 2)
    else Timing(OamScanCycles, VramScanCycles, HBlankCycles, dividerStep)
  }

  /** The cycles of the first n opcodes dispatched. */
  function Cycles(dispatch: nat -> nat, n: nat): nat
  {
    if n == 0 then 0 else Cycles(dispatch, n - 1) + dispatch(n - 1)
  }

  /** k periods of m cycles, as a sum, which keeps the loop's bookkeeping linear. */
  function Times(k: nat, m: nat): nat
  {
    if k == 0 then 0 else Times(k - 1, m) + m
  }

  /** k periods of m cycles are k * m cycles. */
  lemma {:induction false} TimesProduct(k: nat, m: nat)
    ensures Times(k, m) == k * m
  {
    if k > 0 {
      TimesProduct(k - 1, m);
      assert k * m == (k - 1) * m + m;
    }
  }

  // ---------------------------------------------------------------------
  // The calls a frame makes on the Game Boy and on the renderer
  // ---------------------------------------------------------------------

  /**
   * set_oam_lock, set_oam_and_display_lock, set_hblank and set_vblank (not
   * part of this model beyond the call itself), inc_ly, and draw_frame.
   */
  datatype Call = SetOamLock | SetOamAndDisplayLock | SetHBlank | SetVBlank | IncLy | DrawFrame

  /** Before the first line: the OAM lock, then the inc_ly that rolls LY over to 0. */
  function StartCalls(ly0: bv8): seq<Call>
  {
    [SetOamLock] + (if ly0 != 0 then [IncLy] else [])
  }

  /** Line y after its OamScan: VramScan, HBlank, the LY step, then the next mode. */
  function LineCalls(y: int): seq<Call>
  {
    [SetOamAndDisplayLock, SetHBlank, IncLy, if y + 1 == ScreenHeight then SetVBlank else SetOamLock]
  }

  /** The calls of the first n lines, four per line. */
  function LinesCalls(n: nat): (s: seq<Call>)
    ensures |s| == 4 * n
  {
    seq(4 * n, i requires 0 <= i < 4 * n => LineCalls(i / 4)[i % 4])
  }

  /** The calls of n + 1 lines are those of n lines followed by those of line n. */
  lemma LinesSplit(n: nat)
    ensures LinesCalls(n + 1) == LinesCalls(n) + LineCalls(n)
  {
    var a, b := LinesCalls(n + 1), LinesCalls(n) + LineCalls(n);
    forall i | 0 <= i < 4 * (n + 1)
      ensures a[i] == b[i]
    {
      if i < 4 * n {
        assert b[i] == LinesCalls(n)[i];
      } else {
        assert i / 4 == n && b[i] == LineCalls(n)[i % 4];
      }
    }
  }

  /** The calls of the current line made so far in a visible mode. */
  function ModeCalls(m: Mode): seq<Call>
  {
    match m
    case OamScan => []
    case VramScan => [SetOamAndDisplayLock]
    case HBlank => [SetOamAndDisplayLock, SetHBlank]
    case VBlank => []
  }

  function VBlankCalls(k: nat): seq<Call> { seq(k, _ => IncLy) }

  /** The calls made so far in the frame. */
  function Progress(ly0: bv8, m: Mode, y: nat, vblankIterations: nat): seq<Call>
  {
    StartCalls(ly0) +
    if m == VBlank then LinesCalls(ScreenHeight) + VBlankCalls(vblankIterations)
    else LinesCalls(y) + ModeCalls(m)
  }

  /** All the calls of one step. */
  function FrameCalls(ly0: bv8): seq<Call>
  {
    Progress(ly0, VBlank, ScreenHeight, VBlankLines) + [DrawFrame]
  }

  /** The calls of the mode changes within a visible line. */
  lemma ProgressInLine(ly0: bv8, y: nat)
    ensures Progress(ly0, OamScan, y, 0) + [SetOamAndDisplayLock] == Progress(ly0, VramScan, y, 0)
    ensures Progress(ly0, VramScan, y, 0) + [SetHBlank] == Progress(ly0, HBlank, y, 0)
  {
  }

  /** The calls at the end of a visible line's HBlank complete the line. */
  lemma ProgressEndLine(ly0: bv8, y: nat)
    requires y < ScreenHeight
    ensures var next := if y + 1 == ScreenHeight then VBlank else OamScan;
      Progress(ly0, HBlank, y, 0) + [IncLy, if y + 1 == ScreenHeight then SetVBlank else SetOamLock] ==
      Progress(ly0, next, y + 1, 0)
  {
    LinesSplit(y);
    assert VBlankCalls(0) == [];
  }

  /** A VBlank line period adds one LY step. */
  lemma ProgressVBlankLine(ly0: bv8, k: nat)
    ensures Progress(ly0, VBlank, ScreenHeight, k) + [IncLy] == Progress(ly0, VBlank, ScreenHeight, k + 1)
  {
    assert VBlankCalls(k) + [IncLy] == VBlankCalls(k + 1);
  }

  /** How many times the first n lines make call c. */
  function LinesCount(c: Call, n: nat): nat
  {
    match c
    case SetOamAndDisplayLock => n
    case SetHBlank => n
    case IncLy => n
    case SetOamLock => if n == ScreenHeight then n - 1 else n
    case SetVBlank => if n == ScreenHeight then 1 else 0
    case DrawFrame => 0
  }

  /** The first n lines make call c as often as LinesCount says. */
  lemma {:induction false} LinesCallCount(c: Call, n: nat)
    requires n <= ScreenHeight
    ensures multiset(LinesCalls(n))[c] == LinesCount(c, n)
  {
    if n > 0 {
      LinesCallsStep(c, n - 1);
      LinesCallCount(c, n - 1);
      LineCallCount(c, n - 1);
    }
  }

  /** Line n adds its own occurrences of c to those of the lines before it. */
  lemma LinesCallsStep(c: Call, n: nat)
    ensures multiset(LinesCalls(n + 1))[c] == multiset(LinesCalls(n))[c] + multiset(LineCalls(n))[c]
  {
    var a, b := LinesCalls(n), LineCalls(n);
    LinesSplit(n);
    assert multiset(a + b) == multiset(a) + multiset(b);
  }

  /** Line y makes call c as often as it adds to LinesCount. */
  lemma LineCallCount(c: Call, y: nat)
    requires y < ScreenHeight
    ensures LinesCount(c, y) + multiset(LineCalls(y))[c] == LinesCount(c, y + 1)
  {
    var last := if y + 1 == ScreenHeight then SetVBlank else SetOamLock;
    assert multiset(LineCalls(y)) == multiset{SetOamAndDisplayLock, SetHBlank, IncLy, last};
  }

  /**
   * The first n lines make four calls each. Each line locks OAM and the
   * display, enters HBlank and steps LY once. Every line but the last goes
   * back to OamScan; the last goes to VBlank.
   */
  lemma LinesCallCounts(n: nat)
    requires n <= ScreenHeight
    ensures multiset(LinesCalls(n))[SetOamAndDisplayLock] == n
    ensures multiset(LinesCalls(n))[SetHBlank] == n
    ensures multiset(LinesCalls(n))[IncLy] == n
    ensures multiset(LinesCalls(n))[SetOamLock] == (if n == ScreenHeight then n - 1 else n)
    ensures multiset(LinesCalls(n))[SetVBlank] == (if n == ScreenHeight then 1 else 0)
    ensures multiset(LinesCalls(n))[DrawFrame] == 0
  {
    LinesCallCount(SetOamAndDisplayLock, n);
    LinesCallCount(SetHBlank, n);
    LinesCallCount(IncLy, n);
    LinesCallCount(SetOamLock, n);
    LinesCallCount(SetVBlank, n);
    LinesCallCount(DrawFrame, n);
  }

  /** The calls of a frame: its start, its lines, its nine VBlank LY steps and the draw. */
  lemma FrameConcat(ly0: bv8)
    ensures FrameCalls(ly0) ==
      StartCalls(ly0) + LinesCalls(ScreenHeight) + [IncLy, IncLy, IncLy, IncLy, IncLy, IncLy, IncLy, IncLy, IncLy] +
      [DrawFrame]
  {
    assert VBlankCalls(VBlankLines) == [IncLy, IncLy, IncLy, IncLy, IncLy, IncLy, IncLy, IncLy, IncLy];
  }

  /** The calls of a frame, as a multiset. */
  lemma FrameMultiset(ly0: bv8)
    ensures multiset(FrameCalls(ly0)) ==
      multiset(StartCalls(ly0)) + multiset(LinesCalls(ScreenHeight)) +
      multiset{IncLy, IncLy, IncLy, IncLy, IncLy, IncLy, IncLy, IncLy, IncLy} + multiset{DrawFrame}
  {
    FrameConcat(ly0);
  }

  /** A step ends with its only draw_frame. */
  lemma FrameDrawsOnce(ly0: bv8)
    ensures var f := FrameCalls(ly0); f[|f| - 1] == DrawFrame && multiset(f)[DrawFrame] == 1
  {
    FrameMultiset(ly0);
    LinesCallCounts(ScreenHeight);
  }

  /** Within a frame's lines, call 4y + j is call j of line y. */
  lemma FrameLineCall(ly0: bv8, y: nat, j: nat)
    requires y < ScreenHeight && j < 4
    ensures FrameCalls(ly0)[|StartCalls(ly0)| + 4 * y + j] == LineCalls(y)[j]
  {
    FrameConcat(ly0);
    var lines := LinesCalls(ScreenHeight);
    assert lines[4 * y + j] == LineCalls((4 * y + j) / 4)[(4 * y + j) % 4];
  }

  /** A step requests set_vblank exactly once. */
  lemma FrameVBlankOnce(ly0: bv8)
    ensures multiset(FrameCalls(ly0))[SetVBlank] == 1
  {
    FrameMultiset(ly0);
    LinesCallCounts(ScreenHeight);
  }

  /** VBlank is entered right after the HBlank and LY step of the last visible line. */
  lemma FrameEntersVBlank(ly0: bv8)
    ensures var f := FrameCalls(ly0); var k := |StartCalls(ly0)| + 4 * ScreenHeight;
      f[k - 1] == SetVBlank && f[k - 2] == IncLy && f[k - 3] == SetHBlank
  {
    FrameLineCall(ly0, ScreenHeight - 1, 1);
    FrameLineCall(ly0, ScreenHeight - 1, 2);
    FrameLineCall(ly0, ScreenHeight - 1, 3);
  }

  /** Each visible line of a step locks OAM, then OAM and the display, then enters HBlank. */
  lemma FrameLineCalls(ly0: bv8)
    ensures var f := FrameCalls(ly0);
      multiset(f)[SetOamLock] == ScreenHeight && multiset(f)[SetOamAndDisplayLock] == ScreenHeight &&
      multiset(f)[SetHBlank] == ScreenHeight
  {
    FrameMultiset(ly0);
    LinesCallCounts(ScreenHeight);
  }

  /** A step steps LY 153 times, or 154 when LY first had to roll over to 0. */
  lemma FrameLySteps(ly0: bv8)
    ensures multiset(FrameCalls(ly0))[IncLy] == ScreenHeight + VBlankLines + (if ly0 != 0 then 1 else 0)
  {
    FrameMultiset(ly0);
    LinesCallCounts(ScreenHeight);
  }

  // ---------------------------------------------------------------------
  // Interrupt requests
  // ---------------------------------------------------------------------

  /**
   * get_interrupts_enabled && get_lcdc_interrupt_enabled && the STAT
   * source: when an LCD mode change may request the LCDC interrupt.
   */
  predicate LcdcSourceOn(ie: bv8, stat: bv8, source: bv8)
  {
    GbCpu.BitsSet(ie, GbCpu.ALL_INTERRUPTS) && GbCpu.BitsSet(ie, GbCpu.LCDC_BIT) &&
    GbCpu.BitsSet(stat, source)
  }

  /** The LCDC request bit value of a condition. */
  function LcdcIf(b: bool): bv8 { if b then GbCpu.LCDC_BIT else 0 }

  /**
   * IF after entering OamScan or HBlank: the LCDC request bit is set only
   * when its source is enabled and it was clear. The rising-edge test
   * changes nothing: the result is IF with the bit or-ed in.
   */
  function LcdcRequest(iflag: bv8, ie: bv8, stat: bv8, source: bv8): (r: bv8)
    ensures GbCpu.BitsSet(r, GbCpu.LCDC_BIT) <==>
      GbCpu.BitsSet(iflag, GbCpu.LCDC_BIT) || LcdcSourceOn(ie, stat, source)
    ensures r & !GbCpu.LCDC_BIT == iflag & !GbCpu.LCDC_BIT
    ensures r == iflag | LcdcIf(LcdcSourceOn(ie, stat, source))
  {
    if LcdcSourceOn(ie, stat, source) && !GbCpu.BitsSet(iflag, GbCpu.LCDC_BIT) then
      GbCpu.SetBits(iflag, GbCpu.LCDC_BIT)
    else iflag
  }

  /**
   * IF after entering VBlank: with interrupts enabled, the VBlank request
   * when the VBlank interrupt is enabled, and the LCDC request when the
   * VBlank STAT source is on.
   */
  function VBlankRequest(iflag: bv8, ie: bv8, stat: bv8): (r: bv8)
    ensures GbCpu.BitsSet(r, GbCpu.VBLANK_BIT) <==>
      GbCpu.BitsSet(iflag, GbCpu.VBLANK_BIT) || GbCpu.BitsSet(ie, GbCpu.ALL_INTERRUPTS)
    ensures GbCpu.BitsSet(r, GbCpu.LCDC_BIT) <==>
      GbCpu.BitsSet(iflag, GbCpu.LCDC_BIT) || LcdcSourceOn(ie, stat, GbCpu.STAT_VBLANK_INTERRUPT)
    ensures r & 0xFC == iflag & 0xFC
  {
    if !GbCpu.BitsSet(ie, GbCpu.ALL_INTERRUPTS) then iflag
    else
      var v := if GbCpu.BitsSet(ie, GbCpu.VBLANK_BIT) then GbCpu.SetBits(iflag, GbCpu.VBLANK_BIT) else iflag;
      if GbCpu.BitsSet(ie, GbCpu.LCDC_BIT) && GbCpu.BitsSet(stat, GbCpu.STAT_VBLANK_INTERRUPT) then
        GbCpu.SetBits(v, GbCpu.LCDC_BIT)
      else v
  }

  /** IF after inc_ly: the VBlank request once LY passes the last visible line. */
  function IncLyRequest(iflag: bv8, ly: bv8): bv8
    requires ly != 0xFF
  {
    if GbCpu.IncLyValue(ly) > 143 then GbCpu.SetBits(iflag, GbCpu.VBLANK_BIT) else iflag
  }

  /** Below 153, inc_ly steps LY by one, and requests VBlank from line 144 on. */
  lemma IncLyCounts(ly: bv8)
    requires ly as int < 153
    ensures GbCpu.IncLyValue(ly) as int == ly as int + 1
    ensures GbCpu.IncLyValue(ly) > 143 <==> ly as int >= 143
  {
    assert GbCpu.IncLyValue(ly) == ly + 1;
  }

  /** LY after n steps of inc_ly from 0, within the 154 lines of a frame. */
  function LyAt(n: nat): bv8
  {
    if n == 0 then 0 else LyAt(n - 1) + 1
  }

  /** After n steps from 0, LY reads n. */
  lemma {:induction false} LyAtValue(n: nat)
    requires n < 154
    ensures LyAt(n) as int == n
  {
    if n > 0 {
      LyAtValue(n - 1);
      assert (LyAt(n - 1) + 1) as int == LyAt(n - 1) as int + 1;
    }
  }

  /**
   * Below line 153, inc_ly takes LY from line n to line n + 1, and requests
   * VBlank exactly from the step onto line 144 on.
   */
  lemma IncLyAt(n: nat)
    requires n < 153
    ensures LyAt(n) != 0xFF
    ensures GbCpu.IncLyValue(LyAt(n)) == LyAt(n + 1)
    ensures GbCpu.IncLyValue(LyAt(n)) > 143 <==> n >= 143
  {
    LyAtValue(n);
    LyAtValue(n + 1);
    IncLyCounts(LyAt(n));
  }

  /** Any of the STAT sources a frame passes through (OAM, HBlank, VBlank) can request LCDC. */
  predicate FrameLcdcOn(ie: bv8, stat: bv8)
  {
    LcdcSourceOn(ie, stat, GbCpu.STAT_OAM_INTERRUPT) ||
    LcdcSourceOn(ie, stat, GbCpu.STAT_HBLANK_INTERRUPT) ||
    LcdcSourceOn(ie, stat, GbCpu.STAT_VBLANK_INTERRUPT)
  }

  /** IF as i0 with the LCDC and VBlank requests or-ed in. */
  function Flags(i0: bv8, lcdc: bool, vblank: bool): bv8
  {
    i0 | LcdcIf(lcdc) | (if vblank then GbCpu.VBLANK_BIT else 0)
  }

  /**
   * Requests accumulate: a mode change or an LY step adds its request to
   * the ones already made, and a request made twice is the same as one.
   */
  lemma RequestsAccumulate(i0: bv8, lcdc: bool, vblank: bool, ie: bv8, stat: bv8, source: bv8)
    ensures LcdcRequest(Flags(i0, lcdc, vblank), ie, stat, source) ==
      Flags(i0, lcdc || LcdcSourceOn(ie, stat, source), vblank)
    ensures GbCpu.SetBits(Flags(i0, lcdc, vblank), GbCpu.VBLANK_BIT) == Flags(i0, lcdc, true)
    ensures VBlankRequest(Flags(i0, lcdc, true), ie, stat) ==
      Flags(i0, lcdc || LcdcSourceOn(ie, stat, GbCpu.STAT_VBLANK_INTERRUPT), true)
  {
  }

  /** Whether an LCDC request has been made by the head of the step loop in mode m on line y. */
  ghost predicate LcdcSoFar(ie: bv8, stat: bv8, m: Mode, y: nat)
  {
    LcdcSourceOn(ie, stat, GbCpu.STAT_OAM_INTERRUPT) ||
    ((y > 0 || m == HBlank) && LcdcSourceOn(ie, stat, GbCpu.STAT_HBLANK_INTERRUPT)) ||
    (m == VBlank && LcdcSourceOn(ie, stat, GbCpu.STAT_VBLANK_INTERRUPT))
  }

  /** After a frame, IF holds the VBlank request, and the LCDC request when any source of the frame is on. */
  lemma FinalFlags(i0: bv8, ie: bv8, stat: bv8)
    ensures Flags(i0, LcdcSoFar(ie, stat, VBlank, ScreenHeight), true) ==
      i0 | GbCpu.VBLANK_BIT | LcdcIf(FrameLcdcOn(ie, stat))
  {
  }

  // ---------------------------------------------------------------------
  // The window counter and the frame
  // ---------------------------------------------------------------------

  /** Line y shows the window. */
  predicate ShowsWindow(scenes: seq<Scene>, y: nat)
    requires y < |scenes|
  {
    ValidScene(scenes[y]) && WindowOnLine(scenes[y], y)
  }

  /** The window counter when line y is drawn: the window_counter threaded through the lines above. */
  function WindowCounter(scenes: seq<Scene>, y: nat): (c: nat)
    requires y <= |scenes|
    ensures c <= y
  {
    if y == 0 then 0 else WindowCounter(scenes, y - 1) + (if ShowsWindow(scenes, y - 1) then 1 else 0)
  }

  /**
   * Lines 0 to n - 1 are visible, and each can be drawn without a panic with
   * the window counter it is drawn with.
   */
  predicate SafeUpTo(scenes: seq<Scene>, n: nat)
  {
    n <= |scenes| && n <= ScreenHeight &&
    forall y {:trigger WindowCounter(scenes, y)} :: 0 <= y < n ==>
      ValidScene(scenes[y]) && LineSafe(scenes[y], y, WindowCounter(scenes, y))
  }

  /** The scenes of the 144 visible lines are well-formed. */
  predicate ValidScenes(scenes: seq<Scene>)
  {
    ScreenHeight <= |scenes| && forall y :: 0 <= y < ScreenHeight ==> ValidScene(scenes[y])
  }

  /**
   * With the corrected window line every frame of well-formed scenes is
   * drawn without a panic: the counter never exceeds the line number.
   */
  lemma EveryFrameSafe(scenes: seq<Scene>)
    requires ValidScenes(scenes)
    ensures SafeUpTo(scenes, ScreenHeight)
  {
    forall y | 0 <= y < ScreenHeight
      ensures LineSafe(scenes[y], y, WindowCounter(scenes, y))
    {
      LineSafeOnScreen(scenes[y], y, WindowCounter(scenes, y));
    }
  }

  /** As written: every visible line can be drawn without the window-line underflow. */
  predicate FrameSafeAsWritten(scenes: seq<Scene>)
    requires ValidScenes(scenes)
  {
    forall y {:trigger WindowCounter(scenes, y)} :: 0 <= y < ScreenHeight ==>
      LineSafeAsWritten(scenes[y], y, WindowCounter(scenes, y))
  }

  /** No line above y shows the window, so the counter at y is still 0. */
  lemma {:induction false} CounterZeroBeforeWindow(scenes: seq<Scene>, y: nat)
    requires y <= |scenes|
    requires forall i :: 0 <= i < y ==> !ShowsWindow(scenes, i)
    ensures WindowCounter(scenes, y) == 0
  {
    if y > 0 {
      CounterZeroBeforeWindow(scenes, y - 1);
    }
  }

  /**
   * As written, a frame whose window first shows on line y with WY >= 1 panics
   * there: the counter is 0 and `0 - WY` underflows the u16.
   */
  lemma FirstWindowLinePanicsAsWritten(scenes: seq<Scene>, y: nat, x: int)
    requires ValidScenes(scenes) && y < ScreenHeight
    requires forall i :: 0 <= i < y ==> !ShowsWindow(scenes, i)
    requires 0 <= x < ScreenWidth && WindowDrawn(scenes[y], y, x) && scenes[y].wy >= 1
    ensures WindowCounter(scenes, y) == 0
    ensures !LineSafeAsWritten(scenes[y], y, WindowCounter(scenes, y))
    ensures !FrameSafeAsWritten(scenes)
  {
    CounterZeroBeforeWindow(scenes, y);
    WindowUnderflowAsWritten(scenes[y], y, 0, x);
  }

  /** A prefix of a safe prefix is safe. */
  lemma SafePrefix(scenes: seq<Scene>, n: nat, m: nat)
    requires SafeUpTo(scenes, n) && m <= n
    ensures SafeUpTo(scenes, m)
  {
    forall y | 0 <= y < m
      ensures ValidScene(scenes[y]) && LineSafe(scenes[y], y, WindowCounter(scenes, y))
    {
      assert WindowCounter(scenes, y) <= y;
    }
  }

  /** Drawing line y takes the window counter of line y to that of line y + 1. */
  lemma CounterThreads(scenes: seq<Scene>, y: nat)
    requires SafeUpTo(scenes, y + 1)
    ensures CounterAfter(scenes[y], y, WindowCounter(scenes, y)) == WindowCounter(scenes, y + 1)
  {
    WindowCounterStep(scenes[y], y, WindowCounter(scenes, y));
  }

  /** The lines above y that show the window. */
  ghost function WindowLines(scenes: seq<Scene>, y: nat): set<int>
    requires y <= |scenes|
  {
    set i | 0 <= i < y && ShowsWindow(scenes, i)
  }

  /** The window counter when line y is drawn is the number of lines above y that showed the window. */
  lemma {:induction false} WindowCounterCounts(scenes: seq<Scene>, y: nat)
    requires y <= |scenes|
    ensures WindowCounter(scenes, y) == |WindowLines(scenes, y)|
    decreases y
  {
    if y > 0 {
      WindowCounterCounts(scenes, y - 1);
      var below := WindowLines(scenes, y - 1);
      if ShowsWindow(scenes, y - 1) {
        assert WindowLines(scenes, y) == below + {y - 1};
        assert y - 1 !in below;
      } else {
        assert WindowLines(scenes, y) == below;
      }
    }
  }

  /** The frame's first n lines, each drawn with its window counter. */
  function FrameUpTo(scenes: seq<Scene>, n: nat): (f: seq<seq<int>>)
    requires SafeUpTo(scenes, n)
    ensures |f| == n
    decreases n
  {
    if n == 0 then []
    else
      SafePrefix(scenes, n, n - 1);
      FrameUpTo(scenes, n - 1) + [Scanline(scenes[n - 1], n - 1, WindowCounter(scenes, n - 1))]
  }

  /**
   * Line y of the frame is the renderer's scanline y, drawn with the window
   * counter of line y.
   */
  lemma {:induction false} FrameLines(scenes: seq<Scene>, n: nat)
    requires SafeUpTo(scenes, n)
    ensures forall y :: 0 <= y < n ==>
      FrameUpTo(scenes, n)[y] == Scanline(scenes[y], y, WindowCounter(scenes, y))
    decreases n
  {
    if n > 0 {
      SafePrefix(scenes, n, n - 1);
      FrameLines(scenes, n - 1);
      var f, g := FrameUpTo(scenes, n), FrameUpTo(scenes, n - 1);
      var last := Scanline(scenes[n - 1], n - 1, WindowCounter(scenes, n - 1));
      assert f == g + [last];
      forall y | 0 <= y < n
        ensures f[y] == Scanline(scenes[y], y, WindowCounter(scenes, y))
      {
        if y < n - 1 {
          assert f[y] == g[y];
        } else {
          assert f[y] == last;
        }
      }
    }
  }

  /** Every line of the frame has 160 pixels, each a shade 0 to 3. */
  lemma FrameShades(scenes: seq<Scene>, n: nat)
    requires SafeUpTo(scenes, n)
    ensures forall y :: 0 <= y < n ==>
      |FrameUpTo(scenes, n)[y]| == ScreenWidth &&
      forall x :: 0 <= x < ScreenWidth ==> 0 <= FrameUpTo(scenes, n)[y][x] < 4
  {
    FrameLines(scenes, n);
    forall y | 0 <= y < n
      ensures |FrameUpTo(scenes, n)[y]| == ScreenWidth &&
        forall x :: 0 <= x < ScreenWidth ==> 0 <= FrameUpTo(scenes, n)[y][x] < 4
    {
      LineShades(scenes[y], y, WindowCounter(scenes, y), ScreenWidth);
    }
  }

  /** The first n lines of frame are the renderer's scanlines, each drawn with its window counter. */
  ghost predicate DrawnUpTo(scenes: seq<Scene>, frame: seq<seq<int>>, n: nat)
  {
    SafeUpTo(scenes, n) && n <= |frame| &&
    forall y {:trigger frame[y]} :: 0 <= y < n ==> frame[y] == Scanline(scenes[y], y, WindowCounter(scenes, y))
  }

  /** A frame whose 144 lines are all drawn is the renderer's frame. */
  lemma DrawnFrame(scenes: seq<Scene>, frame: seq<seq<int>>)
    requires DrawnUpTo(scenes, frame, ScreenHeight) && |frame| == ScreenHeight
    ensures frame == FrameUpTo(scenes, ScreenHeight)
  {
    FrameLines(scenes, ScreenHeight);
  }

  /**
   * HBlank's drawing: line y goes into the frame (step's local array, a
   * value), and the window counter advances.
   */
  method DrawLine(scenes: seq<Scene>, frame: seq<seq<int>>, y: nat, windowCounter: nat)
    returns (drawn: seq<seq<int>>, counter: nat)
    requires SafeUpTo(scenes, y + 1) && y < |frame|
    requires windowCounter == WindowCounter(scenes, y)
    requires DrawnUpTo(scenes, frame, y)
    ensures counter == WindowCounter(scenes, y + 1)
    ensures |drawn| == |frame| && drawn[y] == Scanline(scenes[y], y, windowCounter)
    ensures forall i :: 0 <= i < |frame| && i != y ==> drawn[i] == frame[i]
    ensures DrawnUpTo(scenes, drawn, y + 1)
  {
    CounterThreads(scenes, y);
    var scanline;
    scanline, counter := DrawScanline(scenes[y], y, windowCounter);
    drawn := frame[y := scanline];
  }

  // ---------------------------------------------------------------------
  // The divider
  // ---------------------------------------------------------------------

  /** DIV after k inc_div calls. */
  function DivAfter(div: bv8, k: nat): bv8
  {
    if k == 0 then div else GbCpu.IncDivValue(DivAfter(div, k - 1))
  }

  /** Divider steps compose. */
  lemma {:induction false} DivAfterAdd(div: bv8, a: nat, b: nat)
    ensures DivAfter(DivAfter(div, a), b) == DivAfter(div, a + b)
    decreases b
  {
    if b > 0 {
      DivAfterAdd(div, a, b - 1);
      assert DivAfter(div, a + b) == GbCpu.IncDivValue(DivAfter(div, a + b - 1));
    }
  }

  /** A byte's successor, read as an integer. */
  lemma ByteSucc(v: bv8)
    ensures (v + 1) as int == (v as int + 1) % 256
  {
    if v != 0xFF {
      assert (v + 1) as int == v as int + 1;
    }
  }

  /** DIV counts the inc_div calls modulo 256. */
  lemma {:induction false} DivAfterWraps(div: bv8, k: nat)
    ensures DivAfter(div, k) as int == (div as int + k) % 256
  {
    if k > 0 {
      DivAfterWraps(div, k - 1);
      var v := DivAfter(div, k - 1);
      ByteSucc(v);
      ModSucc(div as int + k - 1);
    }
  }

  /** Adding one commutes with reduction modulo 256. */
  lemma ModSucc(a: nat)
    ensures (a % 256 + 1) % 256 == (a + 1) % 256
  {
    var q, r := a / 256, a % 256;
    if r == 255 {
      DivisionUnique(a + 1, 256, q + 1, 0);
    } else {
      DivisionUnique(a + 1, 256, q, r + 1);
      DivisionUnique(r + 1, 256, 0, r + 1);
    }
  }

  /** Multiples of a positive number are at least it, or at most its negation, unless zero. */
  lemma MultipleBounds(a: int, b: int)
    requires b > 0
    ensures a >= 1 ==> a * b >= b
    ensures a <= -1 ==> a * b <= -b
  {
    if a >= 1 {
      assert a * b == (a - 1) * b + b;
    } else if a <= -1 {
      assert a * b == (a + 1) * b - b;
    }
  }

  /** A quotient and remainder are those of Euclidean division. */
  lemma DivisionUnique(total: int, step: int, q: int, r: int)
    requires step > 0 && 0 <= r < step && total == q * step + r
    ensures q == total / step && r == total % step
  {
    var q', r' := total / step, total % step;
    assert (q - q') * step == r' - r;
    MultipleBounds(q - q', step);
  }

  /** What the divider stepping leaves of div_timer_cycles: the cycles below one period, and the inc_div calls made. */
  datatype Divider = Divider(rest: nat, ticks: nat)

  /** The divider stepping from div_timer_cycles x: one inc_div for each whole period. */
  function CatchUp(x: nat, period: nat): Divider
    decreases x
  {
    if period == 0 || x < period then Divider(x, 0)
    else var d := CatchUp(x - period, period); Divider(d.rest, d.ticks + 1)
  }

  /** The stepping leaves less than a period, and takes a whole period per inc_div. */
  lemma {:induction false} CatchUpSplits(x: nat, period: nat)
    requires period > 0
    ensures CatchUp(x, period).rest < period
    ensures CatchUp(x, period).rest + Times(CatchUp(x, period).ticks, period) == x
    decreases x
  {
    if x >= period {
      CatchUpSplits(x - period, period);
    }
  }

  /** The inc_div calls are the quotient of x by the period, and what is left is the remainder. */
  lemma CatchUpDivides(x: nat, period: nat)
    requires period > 0
    ensures CatchUp(x, period) == Divider(x % period, x / period)
  {
    var d := CatchUp(x, period);
    CatchUpSplits(x, period);
    TimesProduct(d.ticks, period);
    DivisionUnique(x, period, d.ticks, d.rest);
  }

  /** Stepping in two goes, as step does pass by pass, is stepping once over all the cycles. */
  lemma {:induction false} CatchUpTwice(x: nat, c: nat, period: nat)
    requires period > 0
    ensures var d := CatchUp(x, period);
      var e := CatchUp(d.rest + c, period);
      CatchUp(x + c, period) == Divider(e.rest, d.ticks + e.ticks)
    decreases x
  {
    if x >= period {
      CatchUpTwice(x - period, c, period);
      assert x + c - period == (x - period) + c;
    }
  }

  // ---------------------------------------------------------------------
  // The application state
  // ---------------------------------------------------------------------

  /**
   * The locals of step's loop: the mode, the line y, the VBlank line
   * periods passed, the cycles into the current line, the window counter,
   * the frame drawn so far (a local array in step, a value here), and the
   * number of opcodes dispatched.
   */
  datatype Position = Position(mode: Mode, y: nat, vblankIterations: nat, scanlineCycles: nat,
                               windowCounter: nat, frame: seq<seq<int>>, opcodes: nat)

  /** Step's loop makes progress line by line, mode by mode within a line, cycle by cycle within a mode. */
  function LinesLeft(p: Position): int
  {
    if p.mode == VBlank then VBlankLines - p.vblankIterations else 2 * ScreenHeight - p.y
  }

  function ModesLeft(p: Position): int
  {
    match p.mode case OamScan => 3 case VramScan => 2 case HBlank => 1 case VBlank => 0
  }

  function CyclesLeft(p: Position, t: Timing): int
  {
    LineCycles(t) + 255 - p.scanlineCycles
  }

  /** q comes after p in the loop's progress order. */
  predicate Precedes(q: Position, p: Position, t: Timing)
  {
    LinesLeft(q) < LinesLeft(p) ||
    (LinesLeft(q) == LinesLeft(p) &&
     (ModesLeft(q) < ModesLeft(p) || (ModesLeft(q) == ModesLeft(p) && CyclesLeft(q, t) < CyclesLeft(p, t))))
  }

  /**
   * The fields of ApplicationState that step reads or writes: its counters,
   * the Game Boy registers it reads and writes (DIV 0xFF04, LY 0xFF44,
   * IF 0xFF0F, IE 0xFFFF, STAT 0xFF41), the calls it makes and the frames
   * handed to the renderer.
   */
  datatype Fields = Fields(cycleCount: nat, divTimerCycles: nat, div: bv8, ly: bv8, iflag: bv8, ie: bv8, stat: bv8,
                           calls: seq<Call>, frames: seq<seq<seq<int>>>)

  /**
   * The positions step's loop reaches: the line, the mode and the VBlank
   * line periods agree; the cycles dispatched are the whole lines passed
   * plus scanlineCycles, which stays below a line period and one opcode;
   * and the window counter and the frame are those of the lines drawn.
   */
  ghost predicate Reachable(t: Timing, dispatch: nat -> nat, scenes: seq<Scene>, p: Position)
  {
    LineCycles(t) > 255 && t.divider > 0 && SafeUpTo(scenes, ScreenHeight) &&
    p.y <= ScreenHeight && p.vblankIterations <= VBlankLines &&
    (p.mode == VBlank) == (p.y == ScreenHeight) && (p.mode != VBlank ==> p.vblankIterations == 0) &&
    p.scanlineCycles < LineCycles(t) + 255 &&
    (p.vblankIterations == VBlankLines ==> p.scanlineCycles < LineCycles(t)) &&
    Cycles(dispatch, p.opcodes) == Times(p.y + p.vblankIterations, LineCycles(t)) + p.scanlineCycles &&
    p.windowCounter == WindowCounter(scenes, p.y) &&
    |p.frame| == ScreenHeight && DrawnUpTo(scenes, p.frame, p.y)
  }

  /** Before the first opcode nothing has elapsed: the loop is still at the start of line 0. */
  lemma NothingDispatched(t: Timing, dispatch: nat -> nat, scenes: seq<Scene>, p: Position)
    requires Reachable(t, dispatch, scenes, p) && p.opcodes == 0
    ensures p.y == 0 && p.vblankIterations == 0 && p.mode != VBlank && p.scanlineCycles == 0
  {
  }

  /** The divider once it has seen the cycles of the first `seen` opcodes of a step that started from o. */
  function DividerSeen(o: Fields, t: Timing, dispatch: nat -> nat, seen: nat): Divider
  {
    if seen == 0 then Divider(o.divTimerCycles, 0)
    else CatchUp(o.divTimerCycles + Cycles(dispatch, seen), t.divider)
  }

  /**
   * The fields at position p of a step that started from o, with the
   * divider having seen the first `seen` opcodes: the cycles of the opcodes
   * dispatched, LY at the line reached, the requests of the modes passed,
   * and the calls of the lines and modes passed.
   */
  ghost function Expected(o: Fields, t: Timing, dispatch: nat -> nat, p: Position, seen: nat): Fields
  {
    var d := DividerSeen(o, t, dispatch, seen);
    Fields(o.cycleCount + Cycles(dispatch, p.opcodes), d.rest, DivAfter(o.div, d.ticks),
           LyAt(p.y + p.vblankIterations), Flags(o.iflag, LcdcSoFar(o.ie, o.stat, p.mode, p.y), p.mode == VBlank),
           o.ie, o.stat, o.calls + Progress(o.ly, p.mode, p.y, p.vblankIterations), o.frames)
  }

  /** The start of the loop: OamScan on line 0, after the OAM lock, its request and LY's roll-over. */
  lemma LoopBegins(o: Fields, t: Timing, dispatch: nat -> nat, scenes: seq<Scene>, p: Position)
    requires LineCycles(t) > 255 && t.divider > 0 && SafeUpTo(scenes, ScreenHeight)
    requires p == Position(OamScan, 0, 0, 0, 0, p.frame, 0) && |p.frame| == ScreenHeight
    ensures Reachable(t, dispatch, scenes, p)
    ensures Expected(o, t, dispatch, p, 0) ==
      o.(ly := 0, calls := o.calls + StartCalls(o.ly),
         iflag := Flags(o.iflag, LcdcSoFar(o.ie, o.stat, OamScan, 0), false))
  {
  }

  /** An opcode's cycles count toward the line and the step; the divider has yet to see them. */
  lemma DispatchAdvances(o: Fields, t: Timing, dispatch: nat -> nat, scenes: seq<Scene>, p: Position)
    requires Reachable(t, dispatch, scenes, p)
    requires p.scanlineCycles < LineCycles(t) && p.vblankIterations < VBlankLines
    requires dispatch(p.opcodes) <= 255
    ensures var q := p.(scanlineCycles := p.scanlineCycles + dispatch(p.opcodes), opcodes := p.opcodes + 1);
      var e := Expected(o, t, dispatch, p, p.opcodes);
      Reachable(t, dispatch, scenes, q) &&
      Expected(o, t, dispatch, q, p.opcodes) == e.(cycleCount := e.cycleCount + dispatch(p.opcodes))
  {
  }

  /**
   * The divider catching up with an opcode's cycles is the divider having
   * seen one more opcode; catching up with no cycles changes nothing once
   * an opcode has been seen.
   */
  lemma DividerAdvances(o: Fields, t: Timing, dispatch: nat -> nat, seen: nat)
    requires t.divider > 0
    ensures var d := DividerSeen(o, t, dispatch, seen);
      var e := CatchUp(d.rest + dispatch(seen), t.divider);
      DividerSeen(o, t, dispatch, seen + 1) == Divider(e.rest, d.ticks + e.ticks) &&
      DivAfter(o.div, d.ticks + e.ticks) == DivAfter(DivAfter(o.div, d.ticks), e.ticks)
    ensures seen > 0 ==>
      var d := DividerSeen(o, t, dispatch, seen); CatchUp(d.rest + 0, t.divider) == Divider(d.rest, 0)
  {
    DividerSeenStep(o, t, dispatch, seen);
    var d := DividerSeen(o, t, dispatch, seen);
    if seen > 0 {
      CatchUpSplits(o.divTimerCycles + Cycles(dispatch, seen), t.divider);
    }
    var e := CatchUp(d.rest + dispatch(seen), t.divider);
    DivAfterAdd(o.div, d.ticks, e.ticks);
  }

  /** One more opcode seen is the divider catching up with that opcode's cycles. */
  lemma DividerSeenStep(o: Fields, t: Timing, dispatch: nat -> nat, seen: nat)
    requires t.divider > 0
    ensures var d := DividerSeen(o, t, dispatch, seen);
      var e := CatchUp(d.rest + dispatch(seen), t.divider);
      DividerSeen(o, t, dispatch, seen + 1) == Divider(e.rest, d.ticks + e.ticks)
  {
    var x := o.divTimerCycles + Cycles(dispatch, seen);
    assert Cycles(dispatch, seen + 1) == Cycles(dispatch, seen) + dispatch(seen);
    assert o.divTimerCycles + Cycles(dispatch, seen + 1) == x + dispatch(seen);
    if seen > 0 {
      CatchUpTwice(x, dispatch(seen), t.divider);
    }
  }

  /** The end of OamScan: set_oam_and_display_lock, and the line goes on in VramScan. */
  lemma OamScanEnds(o: Fields, t: Timing, dispatch: nat -> nat, scenes: seq<Scene>, p: Position, seen: nat)
    requires p.mode == OamScan && Reachable(t, dispatch, scenes, p)
    ensures var q := p.(mode := VramScan);
      var e := Expected(o, t, dispatch, p, seen);
      Reachable(t, dispatch, scenes, q) && Precedes(q, p, t) &&
      Expected(o, t, dispatch, q, seen) == e.(calls := e.calls + [SetOamAndDisplayLock])
  {
    ProgressInLine(o.ly, p.y);
  }

  /** The end of VramScan: set_hblank and the HBlank LCDC request, and the line goes on in HBlank. */
  lemma VramScanEnds(o: Fields, t: Timing, dispatch: nat -> nat, scenes: seq<Scene>, p: Position, seen: nat)
    requires p.mode == VramScan && Reachable(t, dispatch, scenes, p)
    ensures var q := p.(mode := HBlank);
      var e := Expected(o, t, dispatch, p, seen);
      Reachable(t, dispatch, scenes, q) && Precedes(q, p, t) &&
      Expected(o, t, dispatch, q, seen) ==
        e.(calls := e.calls + [SetHBlank], iflag := LcdcRequest(e.iflag, o.ie, o.stat, GbCpu.STAT_HBLANK_INTERRUPT))
  {
    ProgressInLine(o.ly, p.y);
    RequestsAccumulate(o.iflag, LcdcSoFar(o.ie, o.stat, VramScan, p.y), false, o.ie, o.stat,
      GbCpu.STAT_HBLANK_INTERRUPT);
  }

  /**
   * The end of a visible line: with the line drawn, LY stepped and the next
   * mode's requests made, a line period leaves scanlineCycles and the next
   * line starts.
   */
  lemma HBlankEnds(o: Fields, t: Timing, dispatch: nat -> nat, scenes: seq<Scene>, p: Position, seen: nat,
                   q: Position)
    requires p.mode == HBlank && p.scanlineCycles >= LineCycles(t) && Reachable(t, dispatch, scenes, p)
    requires q.mode == (if p.y + 1 == ScreenHeight then VBlank else OamScan) && q.y == p.y + 1
    requires q.vblankIterations == 0 && q.opcodes == p.opcodes
    requires q.scanlineCycles == p.scanlineCycles - LineCycles(t)
    requires q.windowCounter == WindowCounter(scenes, p.y + 1)
    requires |q.frame| == ScreenHeight && DrawnUpTo(scenes, q.frame, p.y + 1)
    ensures var e := Expected(o, t, dispatch, p, seen);
      var next := if p.y + 1 == ScreenHeight then SetVBlank else SetOamLock;
      Reachable(t, dispatch, scenes, q) && Precedes(q, p, t) &&
      Expected(o, t, dispatch, q, seen) ==
        e.(ly := LyAt(p.y + 1), iflag := Flags(o.iflag, LcdcSoFar(o.ie, o.stat, q.mode, q.y), q.mode == VBlank),
           calls := e.calls + [IncLy, next])
  {
    ProgressEndLine(o.ly, p.y);
  }

  /** The end of a VBlank line period: LY steps, and a line period leaves scanlineCycles. */
  lemma VBlankLineEnds(o: Fields, t: Timing, dispatch: nat -> nat, scenes: seq<Scene>, p: Position, seen: nat)
    requires p.mode == VBlank && p.vblankIterations < VBlankLines && p.scanlineCycles >= LineCycles(t)
    requires Reachable(t, dispatch, scenes, p)
    ensures var q := p.(scanlineCycles := p.scanlineCycles - LineCycles(t),
                        vblankIterations := p.vblankIterations + 1);
      Reachable(t, dispatch, scenes, q) && Precedes(q, p, t)
    ensures Expected(o, t, dispatch, p, seen).ly != 0xFF
    ensures var q := p.(scanlineCycles := p.scanlineCycles - LineCycles(t),
                        vblankIterations := p.vblankIterations + 1);
      var e := Expected(o, t, dispatch, p, seen);
      Expected(o, t, dispatch, q, seen) ==
        e.(ly := GbCpu.IncLyValue(e.ly), iflag := IncLyRequest(e.iflag, e.ly), calls := e.calls + [IncLy])
  {
    ProgressVBlankLine(o.ly, p.vblankIterations);
    IncLyAt(p.y + p.vblankIterations);
    RequestsAccumulate(o.iflag, LcdcSoFar(o.ie, o.stat, VBlank, p.y), true, o.ie, o.stat,
      GbCpu.STAT_OAM_INTERRUPT);
  }

  /** Catching up with x cycles leaves x modulo the period, and steps DIV x / period times modulo 256. */
  lemma CatchUpWraps(div: bv8, x: nat, period: nat)
    requires period > 0
    ensures CatchUp(x, period).rest == x % period
    ensures DivAfter(div, CatchUp(x, period).ticks) as int == (div as int + x / period) % 256
  {
    CatchUpDivides(x, period);
    DivAfterWraps(div, x / period);
  }

  /**
   * The fields after a step that started from o and dispatched n opcodes:
   * the opcodes' cycles added to the cycle count, the divider caught up with
   * them, LY at 153, the VBlank request and the LCDC request of any source
   * the frame passed added to IF, the calls of a whole frame, and the frame
   * handed to the renderer.
   */
  ghost function AfterFrame(o: Fields, period: nat, dispatch: nat -> nat, n: nat, frame: seq<seq<int>>): Fields
  {
    var consumed := Cycles(dispatch, n);
    var d := CatchUp(o.divTimerCycles + consumed, period);
    o.(cycleCount := o.cycleCount + consumed, divTimerCycles := d.rest, div := DivAfter(o.div, d.ticks), ly := 153,
       iflag := o.iflag | GbCpu.VBLANK_BIT | LcdcIf(FrameLcdcOn(o.ie, o.stat)),
       calls := o.calls + FrameCalls(o.ly), frames := o.frames + [frame])
  }

  /**
   * After a step, div_timer_cycles and DIV hold the remainder and (modulo
   * 256) the quotient of the divider's cycles by the divider period.
   */
  lemma AfterFrameDivider(o: Fields, period: nat, dispatch: nat -> nat, n: nat, frame: seq<seq<int>>)
    requires period > 0
    ensures var total := o.divTimerCycles + Cycles(dispatch, n);
      var r := AfterFrame(o, period, dispatch, n, frame);
      r.divTimerCycles == total % period && r.div as int == (o.div as int + total / period) % 256
  {
    CatchUpWraps(o.div, o.divTimerCycles + Cycles(dispatch, n), period);
  }

  /**
   * When the loop breaks after nine VBlank line periods, 153 whole line
   * periods and less than one more have passed, and the fields with the
   * draw_frame call and the frame handed over are those after a step.
   */
  lemma LoopEnds(o: Fields, e: Fields, t: Timing, dispatch: nat -> nat, scenes: seq<Scene>, p: Position)
    requires Reachable(t, dispatch, scenes, p) && p.mode == VBlank && p.vblankIterations == VBlankLines
    requires e == Expected(o, t, dispatch, p, p.opcodes)
    ensures 153 * LineCycles(t) <= Cycles(dispatch, p.opcodes) < 154 * LineCycles(t)
    ensures e.(calls := e.calls + [DrawFrame], frames := e.frames + [p.frame]) ==
            AfterFrame(o, t.divider, dispatch, p.opcodes, FrameUpTo(scenes, ScreenHeight))
  {
    TimesProduct(ScreenHeight + VBlankLines, LineCycles(t));
    assert p.opcodes > 0;
    DrawnFrame(scenes, p.frame);
    ExpectedAtEnd(o, t, dispatch, p);
  }

  /** The fields expected after the nine VBlank line periods, with the frame drawn, are those after a step. */
  lemma ExpectedAtEnd(o: Fields, t: Timing, dispatch: nat -> nat, p: Position)
    requires p.mode == VBlank && p.y == ScreenHeight && p.vblankIterations == VBlankLines && p.opcodes > 0
    ensures var e := Expected(o, t, dispatch, p, p.opcodes);
      e.(calls := e.calls + [DrawFrame], frames := e.frames + [p.frame]) ==
      AfterFrame(o, t.divider, dispatch, p.opcodes, p.frame)
  {
    FinalFlags(o.iflag, o.ie, o.stat);
    LyAtValue(ScreenHeight + VBlankLines);
  }

  /**
   * The position after a visible line: the line is drawn into the frame, a
   * line period leaves scanlineCycles, and the next line starts in OamScan,
   * or VBlank after line 143.
   */
  method NextLine(t: Timing, ghost dispatch: nat -> nat, scenes: seq<Scene>, p: Position) returns (q: Position)
    requires p.mode == HBlank && p.scanlineCycles >= LineCycles(t) && Reachable(t, dispatch, scenes, p)
    ensures q.mode == (if p.y + 1 == ScreenHeight then VBlank else OamScan) && q.y == p.y + 1
    ensures q.vblankIterations == 0 && q.opcodes == p.opcodes
    ensures q.scanlineCycles == p.scanlineCycles - LineCycles(t)
    ensures q.windowCounter == WindowCounter(scenes, p.y + 1)
    ensures |q.frame| == ScreenHeight && DrawnUpTo(scenes, q.frame, p.y + 1)
    ensures p.y < ScreenHeight && q.frame[p.y] == Scanline(scenes[p.y], p.y, p.windowCounter)
  {
    SafePrefix(scenes, ScreenHeight, p.y + 1);
    var frame, windowCounter := DrawLine(scenes, p.frame, p.y, p.windowCounter);
    var mode := if p.y + 1 == ScreenHeight then VBlank else OamScan;
    q := Position(mode, p.y + 1, 0, p.scanlineCycles - LineCycles(t), windowCounter, frame, p.opcodes);
  }

  /** The Game Boy side of the emulator's application state, as far as step touches it. */
  class ApplicationState {
    var cycleCount: nat
    var prevTime: nat
    var divTimerCycles: nat
    var gbcMode: bool
    var doubleSpeed: bool
    var ie: bv8
    var iflag: bv8
    var stat: bv8
    var ly: bv8
    var div: bv8
    var calls: seq<Call>
    var frames: seq<seq<seq<int>>>

    /** The fields step reads or writes. */
    ghost function Snap(): Fields
      reads this
    {
      Fields(cycleCount, divTimerCycles, div, ly, iflag, ie, stat, calls, frames)
    }

    /** set_oam_lock, set_oam_and_display_lock, set_hblank or set_vblank. */
    method Record(c: Call)
      modifies this`calls
      ensures calls == old(calls) + [c]
    {
      calls := calls + [c];
    }

    /** inc_ly: LY steps modulo 154, and the VBlank request is set past line 143. */
    method IncLyStep()
      requires ly != 0xFF
      modifies this`ly, this`iflag, this`calls
      ensures ly == GbCpu.IncLyValue(old(ly))
      ensures iflag == IncLyRequest(old(iflag), old(ly))
      ensures calls == old(calls) + [IncLy]
      ensures old(ly) == 153 ==> ly == 0 && iflag == old(iflag)
    {
      var v := GbCpu.IncLyValue(ly);
      ly := v;
      if v > 143 {
        iflag := GbCpu.SetBits(iflag, GbCpu.VBLANK_BIT);
      }
      calls := calls + [IncLy];
    }

    /** The LCDC request made on entering OamScan (source 0x20) or HBlank (source 0x08). */
    method RequestLcdc(source: bv8)
      modifies this`iflag
      ensures iflag == LcdcRequest(old(iflag), ie, stat, source)
    {
      if GbCpu.BitsSet(ie, GbCpu.ALL_INTERRUPTS) && GbCpu.BitsSet(ie, GbCpu.LCDC_BIT) &&
         GbCpu.BitsSet(stat, source) {
        if !GbCpu.BitsSet(iflag, GbCpu.LCDC_BIT) {
          iflag := GbCpu.SetBits(iflag, GbCpu.LCDC_BIT);
        }
      }
    }

    /** The requests made on entering VBlank. */
    method RequestVBlank()
      modifies this`iflag
      ensures iflag == VBlankRequest(old(iflag), ie, stat)
    {
      if GbCpu.BitsSet(ie, GbCpu.ALL_INTERRUPTS) {
        if GbCpu.BitsSet(ie, GbCpu.VBLANK_BIT) {
          iflag := GbCpu.SetBits(iflag, GbCpu.VBLANK_BIT);
        }
        if GbCpu.BitsSet(ie, GbCpu.LCDC_BIT) && GbCpu.BitsSet(stat, GbCpu.STAT_VBLANK_INTERRUPT) {
          iflag := GbCpu.SetBits(iflag, GbCpu.LCDC_BIT);
        }
      }
    }

    /**
     * The divider stepping after each loop iteration: inc_div once per whole
     * divider period in div_timer_cycles, which ends below one period.
     */
    method StepDivider(cycles: nat, period: nat)
      requires period > 0
      modifies this`div, this`divTimerCycles
      ensures divTimerCycles < period
      ensures var d := CatchUp(old(divTimerCycles) + cycles, period);
        divTimerCycles == d.rest && div == DivAfter(old(div), d.ticks)
    {
      divTimerCycles := divTimerCycles + cycles;
      ghost var ticks := 0;
      while divTimerCycles >= period
        invariant CatchUp(divTimerCycles, period).rest == CatchUp(old(divTimerCycles) + cycles, period).rest
        invariant ticks + CatchUp(divTimerCycles, period).ticks == CatchUp(old(divTimerCycles) + cycles, period).ticks
        invariant div == DivAfter(old(div), ticks)
        decreases divTimerCycles
      {
        div := GbCpu.IncDivValue(div);
        divTimerCycles := divTimerCycles - period;
        ticks := ticks + 1;
      }
    }

    /**
     * The start of step: OAM locked, the LCDC request of OAM mode, and LY
     * rolled over from 153 to 0 (the assert_eq! that follows excludes any
     * other starting LY).
     */
    method BeginFrame()
      requires ly == 0 || ly == 153
      modifies this`ly, this`iflag, this`calls
      ensures ly == 0
      ensures calls == old(calls) + StartCalls(old(ly))
      ensures iflag == Flags(old(iflag), LcdcSoFar(ie, stat, OamScan, 0), false)
    {
      Record(SetOamLock);
      assert Flags(iflag, false, false) == iflag;
      RequestsAccumulate(iflag, false, false, ie, stat, GbCpu.STAT_OAM_INTERRUPT);
      RequestLcdc(GbCpu.STAT_OAM_INTERRUPT);
      if ly != 0 {
        IncLyStep();
      }
    }

    /** The last pass: prev_time catches up with cycle_count, and draw_frame hands the renderer the frame. */
    method DrawFrameCall(frame: seq<seq<int>>)
      modifies this`prevTime, this`frames, this`calls
      ensures prevTime == cycleCount
      ensures frames == old(frames) + [frame]
      ensures calls == old(calls) + [DrawFrame]
    {
      prevTime := cycleCount;
      frames := frames + [frame];
      calls := calls + [DrawFrame];
    }

    /**
     * The end of a visible line's HBlank after the line is drawn: LY
     * advances, and the next mode is VBlank after the last visible line and
     * OamScan otherwise, with the requests of entering it.
     */
    method EndLine(y: nat, ghost i0: bv8) returns (mode: Mode)
      requires y < ScreenHeight && ly == LyAt(y)
      requires iflag == Flags(i0, LcdcSoFar(ie, stat, HBlank, y), false)
      modifies this`ly, this`iflag, this`calls
      ensures ly == LyAt(y + 1)
      ensures mode == (if y + 1 == ScreenHeight then VBlank else OamScan)
      ensures calls == old(calls) + [IncLy, if y + 1 == ScreenHeight then SetVBlank else SetOamLock]
      ensures iflag == Flags(i0, LcdcSoFar(ie, stat, mode, y + 1), mode == VBlank)
    {
      IncLyAt(y);
      IncLyStep();
      if y + 1 == ScreenHeight {
        RequestsAccumulate(i0, LcdcSoFar(ie, stat, HBlank, y), false, ie, stat, GbCpu.STAT_OAM_INTERRUPT);
        Record(SetVBlank);
        RequestsAccumulate(i0, LcdcSoFar(ie, stat, HBlank, y), true, ie, stat, GbCpu.STAT_OAM_INTERRUPT);
        RequestVBlank();
        mode := VBlank;
      } else {
        mode := OamScan;
        Record(SetOamLock);
        RequestsAccumulate(i0, LcdcSoFar(ie, stat, HBlank, y), false, ie, stat, GbCpu.STAT_OAM_INTERRUPT);
        RequestLcdc(GbCpu.STAT_OAM_INTERRUPT);
      }
    }

    /** A dispatch_opcode arm: one opcode runs, and its cycles count toward the line and the step. */
    method DispatchOpcode(dispatch: nat -> nat, ghost t: Timing, ghost o: Fields, ghost scenes: seq<Scene>,
                          p: Position)
      returns (q: Position, cycles: nat)
      requires dispatch(p.opcodes) <= 255
      requires Reachable(t, dispatch, scenes, p) && Snap() == Expected(o, t, dispatch, p, p.opcodes)
      requires p.scanlineCycles < LineCycles(t) && p.vblankIterations < VBlankLines
      modifies this`cycleCount
      ensures cycles == dispatch(p.opcodes) && cycleCount == old(cycleCount) + cycles
      ensures q == p.(scanlineCycles := p.scanlineCycles + cycles, opcodes := p.opcodes + 1)
      ensures Reachable(t, dispatch, scenes, q) && Snap() == Expected(o, t, dispatch, q, p.opcodes)
    {
      DispatchAdvances(o, t, dispatch, scenes, p);
      cycles := dispatch(p.opcodes);
      q := p.(scanlineCycles := p.scanlineCycles + cycles, opcodes := p.opcodes + 1);
      ghost var before := Snap();
      cycleCount := cycleCount + cycles;
      assert Snap() == before.(cycleCount := cycleCount);
    }

    /**
     * The divider stepping that ends every pass: DIV catches up with the
     * pass's cycles, those of the opcode dispatched or none.
     */
    method DividerCatchUp(cycles: nat, t: Timing, ghost o: Fields, ghost dispatch: nat -> nat, ghost q: Position,
                          ghost seen: nat)
      requires t.divider > 0 && Snap() == Expected(o, t, dispatch, q, seen)
      requires (cycles == dispatch(seen) && q.opcodes == seen + 1) || (cycles == 0 && q.opcodes == seen > 0)
      modifies this`div, this`divTimerCycles
      ensures Snap() == Expected(o, t, dispatch, q, q.opcodes)
    {
      DividerAdvances(o, t, dispatch, seen);
      StepDivider(cycles, t.divider);
    }

    /** The end of OamScan: set_oam_and_display_lock, and the line goes on in VramScan. */
    method EndOamScan(ghost t: Timing, ghost o: Fields, ghost dispatch: nat -> nat, ghost scenes: seq<Scene>,
                      p: Position)
      returns (q: Position)
      requires p.mode == OamScan
      requires Reachable(t, dispatch, scenes, p) && Snap() == Expected(o, t, dispatch, p, p.opcodes)
      modifies this`calls
      ensures q == p.(mode := VramScan) && Precedes(q, p, t)
      ensures Reachable(t, dispatch, scenes, q) && Snap() == Expected(o, t, dispatch, q, q.opcodes)
    {
      OamScanEnds(o, t, dispatch, scenes, p, p.opcodes);
      q := p.(mode := VramScan);
      Record(SetOamAndDisplayLock);
    }

    /** The end of VramScan: set_hblank and the HBlank LCDC request, and the line goes on in HBlank. */
    method EndVramScan(ghost t: Timing, ghost o: Fields, ghost dispatch: nat -> nat, ghost scenes: seq<Scene>,
                       p: Position)
      returns (q: Position)
      requires p.mode == VramScan
      requires Reachable(t, dispatch, scenes, p) && Snap() == Expected(o, t, dispatch, p, p.opcodes)
      modifies this`calls, this`iflag
      ensures q == p.(mode := HBlank) && Precedes(q, p, t)
      ensures Reachable(t, dispatch, scenes, q) && Snap() == Expected(o, t, dispatch, q, q.opcodes)
    {
      VramScanEnds(o, t, dispatch, scenes, p, p.opcodes);
      q := p.(mode := HBlank);
      Record(SetHBlank);
      RequestLcdc(GbCpu.STAT_HBLANK_INTERRUPT);
    }

    /**
     * The end of a visible line: the line is drawn into the frame, LY steps,
     * a line period leaves scanlineCycles (the assert! that follows holds),
     * and the next line starts in OamScan, or VBlank starts after line 143.
     */
    method EndHBlank(t: Timing, ghost o: Fields, ghost dispatch: nat -> nat, scenes: seq<Scene>, p: Position)
      returns (q: Position)
      requires p.mode == HBlank && p.scanlineCycles >= LineCycles(t)
      requires Reachable(t, dispatch, scenes, p) && Snap() == Expected(o, t, dispatch, p, p.opcodes)
      modifies this`ly, this`iflag, this`calls
      ensures q.mode == (if p.y + 1 == ScreenHeight then VBlank else OamScan) && q.y == p.y + 1
      ensures q.vblankIterations == 0 && q.opcodes == p.opcodes
      ensures q.scanlineCycles < LineCycles(t) && Precedes(q, p, t)
      ensures p.y < ScreenHeight && |q.frame| == ScreenHeight &&
              q.frame[p.y] == Scanline(scenes[p.y], p.y, p.windowCounter)
      ensures Reachable(t, dispatch, scenes, q) && Snap() == Expected(o, t, dispatch, q, q.opcodes)
    {
      q := NextLine(t, dispatch, scenes, p);
      HBlankEnds(o, t, dispatch, scenes, p, p.opcodes, q);
      var mode := EndLine(p.y, o.iflag);
    }

    /** The end of a VBlank line period: a line period leaves scanlineCycles, and LY steps. */
    method EndVBlankLine(t: Timing, ghost o: Fields, ghost dispatch: nat -> nat, ghost scenes: seq<Scene>,
                         p: Position)
      returns (q: Position)
      requires p.mode == VBlank && p.vblankIterations < VBlankLines && p.scanlineCycles >= LineCycles(t)
      requires Reachable(t, dispatch, scenes, p) && Snap() == Expected(o, t, dispatch, p, p.opcodes)
      modifies this`ly, this`iflag, this`calls
      ensures q == p.(scanlineCycles := p.scanlineCycles - LineCycles(t), vblankIterations := p.vblankIterations + 1)
      ensures Precedes(q, p, t)
      ensures Reachable(t, dispatch, scenes, q) && Snap() == Expected(o, t, dispatch, q, q.opcodes)
    {
      VBlankLineEnds(o, t, dispatch, scenes, p, p.opcodes);
      q := p.(scanlineCycles := p.scanlineCycles - LineCycles(t), vblankIterations := p.vblankIterations + 1);
      IncLyStep();
    }

    /**
     * One pass of step's loop: the arm of the current mode (an opcode, or the
     * mode's end) and then the divider stepping; or, once nine VBlank line
     * periods have passed, prev_time, draw_frame and the loop's break (`done`).
     */
    method Pass(dispatch: nat -> nat, scenes: seq<Scene>, t: Timing, ghost o: Fields, p: Position)
      returns (q: Position, done: bool)
      requires forall i :: 1 <= dispatch(i) <= 255
      requires Reachable(t, dispatch, scenes, p) && Snap() == Expected(o, t, dispatch, p, p.opcodes)
      requires 0 < t.oam && t.oam + t.vram <= LineCycles(t)
      modifies this`cycleCount, this`prevTime, this`divTimerCycles, this`iflag, this`ly, this`div,
        this`calls, this`frames
      ensures !done ==> Precedes(q, p, t)
      ensures !done ==> Reachable(t, dispatch, scenes, q) && Snap() == Expected(o, t, dispatch, q, q.opcodes)
      ensures done ==> p.mode == VBlank && p.vblankIterations == VBlankLines
      ensures done ==> q == p && prevTime == cycleCount
      ensures done ==> Snap() == AfterFrame(o, t.divider, dispatch, p.opcodes, FrameUpTo(scenes, ScreenHeight))
      ensures done ==> 153 * LineCycles(t) <= Cycles(dispatch, p.opcodes) < 154 * LineCycles(t)
    {
      var cyclesThisLoop: nat := 0;
      done := false;
      if p.opcodes == 0 {
        NothingDispatched(t, dispatch, scenes, p);
      }
      match p.mode {
        case OamScan =>
          if p.scanlineCycles < t.oam {
            q, cyclesThisLoop := DispatchOpcode(dispatch, t, o, scenes, p);
          } else {
            q := EndOamScan(t, o, dispatch, scenes, p);
          }
        case VramScan =>
          if p.scanlineCycles < t.vram + t.oam {
            q, cyclesThisLoop := DispatchOpcode(dispatch, t, o, scenes, p);
          } else {
            q := EndVramScan(t, o, dispatch, scenes, p);
          }
        case HBlank =>
          if p.scanlineCycles < LineCycles(t) {
            q, cyclesThisLoop := DispatchOpcode(dispatch, t, o, scenes, p);
          } else {
            q := EndHBlank(t, o, dispatch, scenes, p);
          }
        case VBlank =>
          if p.vblankIterations == VBlankLines {
            EndFrame(t, o, dispatch, scenes, p);
            return p, true;
          }
          if p.scanlineCycles < LineCycles(t) {
            q, cyclesThisLoop := DispatchOpcode(dispatch, t, o, scenes, p);
          } else {
            q := EndVBlankLine(t, o, dispatch, scenes, p);
          }
      }
      DividerCatchUp(cyclesThisLoop, t, o, dispatch, q, p.opcodes);
    }

    /**
     * The end of the loop after nine VBlank line periods: prev_time catches
     * up with cycle_count, and the renderer receives the frame of the 144
     * scanlines, after 153 whole line periods and part of one more.
     */
    method EndFrame(t: Timing, ghost o: Fields, ghost dispatch: nat -> nat, ghost scenes: seq<Scene>, p: Position)
      requires p.mode == VBlank && p.vblankIterations == VBlankLines
      requires Reachable(t, dispatch, scenes, p) && Snap() == Expected(o, t, dispatch, p, p.opcodes)
      modifies this`prevTime, this`frames, this`calls
      ensures prevTime == cycleCount
      ensures Snap() == AfterFrame(o, t.divider, dispatch, p.opcodes, FrameUpTo(scenes, ScreenHeight))
      ensures 153 * LineCycles(t) <= Cycles(dispatch, p.opcodes) < 154 * LineCycles(t)
    {
      LoopEnds(o, Snap(), t, dispatch, scenes, p);
      DrawFrameCall(p.frame);
    }

    /**
     * step: one frame. It ends after 153 whole line periods, with LY at 153
     * (which the next step's roll-over check accepts), with the VBlank request
     * set, and having handed the renderer exactly the frame of the 144
     * scanlines. Every frame of well-formed scenes can be drawn.
     */
    method Step(dispatch: nat -> nat, scenes: seq<Scene>, dividerStep: nat) returns (ghost dispatched: nat)
      requires forall i :: 1 <= dispatch(i) <= 255
      requires dividerStep > 0
      requires ly == 0 || ly == 153
      requires ValidScenes(scenes)
      modifies this`cycleCount, this`prevTime, this`divTimerCycles, this`iflag, this`ly, this`div,
        this`calls, this`frames
      ensures SafeUpTo(scenes, ScreenHeight)
      ensures Snap() == AfterFrame(old(Snap()), StepTiming(old(gbcMode && doubleSpeed), dividerStep).divider,
                                   dispatch, dispatched, FrameUpTo(scenes, ScreenHeight))
      ensures prevTime == cycleCount
      ensures var line := LineCycles(StepTiming(old(gbcMode && doubleSpeed), dividerStep));
        153 * line <= Cycles(dispatch, dispatched) < 154 * line
    {
      EveryFrameSafe(scenes);
      dispatched := StepFrame(dispatch, scenes, dividerStep);
    }

    /** The body of step once the frame is known to be drawable. */
    method StepFrame(dispatch: nat -> nat, scenes: seq<Scene>, dividerStep: nat) returns (ghost dispatched: nat)
      requires forall i :: 1 <= dispatch(i) <= 255
      requires dividerStep > 0
      requires ly == 0 || ly == 153
      requires SafeUpTo(scenes, ScreenHeight)
      modifies this`cycleCount, this`prevTime, this`divTimerCycles, this`iflag, this`ly, this`div,
        this`calls, this`frames
      ensures Snap() == AfterFrame(old(Snap()), StepTiming(old(gbcMode && doubleSpeed), dividerStep).divider,
                                   dispatch, dispatched, FrameUpTo(scenes, ScreenHeight))
      ensures prevTime == cycleCount
      ensures var line := LineCycles(StepTiming(old(gbcMode && doubleSpeed), dividerStep));
        153 * line <= Cycles(dispatch, dispatched) < 154 * line
    {
      ghost var o := Snap();
      var t := StepTiming(gbcMode && doubleSpeed, dividerStep);
      BeginFrame();
      var p := Position(OamScan, 0, 0, 0, 0, seq(ScreenHeight, _ => seq(ScreenWidth, _ => 0)), 0);
      LoopBegins(o, t, dispatch, scenes, p);
      dispatched := RunLoop(dispatch, scenes, t, o, p);
    }

    /** step's loop, from the start of line 0 to the break after the VBlank line periods. */
    method RunLoop(dispatch: nat -> nat, scenes: seq<Scene>, t: Timing, ghost o: Fields, start: Position)
      returns (ghost dispatched: nat)
      requires forall i :: 1 <= dispatch(i) <= 255
      requires 0 < t.oam && t.oam + t.vram <= LineCycles(t)
      requires Reachable(t, dispatch, scenes, start) && Snap() == Expected(o, t, dispatch, start, start.opcodes)
      modifies this`cycleCount, this`prevTime, this`divTimerCycles, this`iflag, this`ly, this`div,
        this`calls, this`frames
      ensures Snap() == AfterFrame(o, t.divider, dispatch, dispatched, FrameUpTo(scenes, ScreenHeight))
      ensures prevTime == cycleCount
      ensures 153 * LineCycles(t) <= Cycles(dispatch, dispatched) < 154 * LineCycles(t)
    {
      var p := start;
      while true
        invariant Reachable(t, dispatch, scenes, p) && Snap() == Expected(o, t, dispatch, p, p.opcodes)
        decreases LinesLeft(p), ModesLeft(p), CyclesLeft(p, t)
      {
        var q, done := Pass(dispatch, scenes, t, o, p);
        if done {
          dispatched := p.opcodes;
          break;
        }
        p := q;
      }
    }
  }
}
