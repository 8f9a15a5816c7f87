/** Properties of the DPI reaction of HDpiForm that relate several calls:
    idempotence and round trip of the adjustment, the fixed candidate
    order, the 96 -> 144 and same-DPI scenarios, and what every sequence of
    Load, WM_DPICHANGED and Move events keeps invariant. */
module DpiAwareProperties {
  import opened Wrappers
  import opened Win32Api
  import opened DpiAware

  // ---------------------------------------------------------------------
  // AdjustWindow

  /** Two AdjustWindow calls in a row scale only once: the first commits
      the old DPI, so the second is a no-op. */
  lemma AdjustIdempotent(cfg: Config, s: FormState)
    ensures Adjust(cfg, Adjust(cfg, s).state) == Run(Adjust(cfg, s).state, Pass)
  {
  }

  /** With a font of positive size and DPIs of one sign, a -> b followed
      by b -> a succeeds twice, restores the font exactly, and the two
      scale factors logged are each other's inverse. */
  lemma AdjustRoundTrip(cfg: Config, s: FormState, a: int, b: int)
    requires a != 0 && b != 0 && a != b && (0 < a <==> 0 < b)
    requires s.dpi.oldDpi == a && s.dpi.newDpi == b
    requires 0.0 < s.win.font.size
    ensures
      var r := Adjust(cfg, s);
      var t := r.state;
      var v := Adjust(cfg, t.(dpi := t.dpi.(newDpi := a)));
      var u := v.state;
      && r.outcome == Pass && v.outcome == Pass
      && u.dpi == s.dpi.(newDpi := a)
      && u.win.font == s.win.font
      // The bounds come back only because Control.Scale is modelled as a
      // log entry that leaves the bounds alone.
      && u.win.bounds == s.win.bounds
      && u.win.scaleLog == s.win.scaleLog + [Factor(b, a), Factor(a, b)]
      && Factor(b, a) * Factor(a, b) == 1.0
  {
    var f, g := Factor(b, a), Factor(a, b);
    InverseFactors(a as real, b as real);
    PositiveFactor(a, b);
    PositiveFactor(b, a);
    var x := s.win.font.size;
    assert 0.0 < x * f by { MulLessLeft(0.0, f, x); }
    assert x * f * g == x * (f * g);
  }

  lemma InverseFactors(a: real, b: real)
    requires a != 0.0 && b != 0.0
    ensures (b / a) * (a / b) == 1.0
  {
    var f, g := b / a, a / b;
    var x, y := f * a, g * b;
    assert x == b && y == a;
    var p := a * b;
    assert x * y == p;
    assert (f * g) * p == x * y;
    Cancel(f * g, p);
  }

  /** The factor between two DPIs of one sign is positive. */
  lemma PositiveFactor(a: int, b: int)
    requires a != 0 && b != 0 && (0 < a <==> 0 < b)
    ensures 0.0 < Factor(b, a)
  {
    var f := Factor(b, a);
    if f <= 0.0 {
      if 0 < a { MulLess2(f, 0.0, a as real); }
      else { MulLess2(f, 0.0, -(a as real)); }
    }
  }

  lemma MulLessLeft(x: real, y: real, w: real)
    requires x < y && 0.0 < w
    ensures w * x < w * y
  {
    assert w * (y - x) > 0.0;
  }

  lemma Cancel(z: real, p: real)
    requires p != 0.0 && z * p == p
    ensures z == 1.0
  {
    assert (z - 1.0) * p == 0.0;
  }

  /** DPI 0 is not guarded against: after a nonzero old DPI, a new DPI of
      0 commits old := 0 and scales the window by factor 0, and only then
      does the font constructor throw, so the font stays and no event
      fires. */
  lemma ZeroDpiIsNotGuarded(cfg: Config, s: FormState)
    requires s.dpi.oldDpi != 0 && s.dpi.newDpi == 0
    ensures
      var r := Adjust(cfg, s);
      && r.outcome.Fail?
      && r.state.dpi == s.dpi.(oldDpi := 0)
      && r.state.win == s.win.(scaleLog := s.win.scaleLog + [0.0])
  {
    assert Factor(0, s.dpi.oldDpi) == 0.0;
  }

  // ---------------------------------------------------------------------
  // MoveWindow

  /** The Left-Top candidate keeps the window's top-left, so when it fits
      the window does not move. */
  lemma LeftTopFitKeepsLocation(cfg: Config, scr: Screen, s: FormState)
    requires s.dpi.oldDpi != 0
    requires Fits(cfg, scr, s.dpi.newDpi, LeftTop(s)) == Ok(true)
    ensures Relocate(cfg, scr, s) == Run(s, Pass)
  {
    var c := CandidatesOf(s);
    assert FirstFit(cfg, scr, s.dpi.newDpi, c) == Ok(Some(c[0]));
    assert MoveTo(s.win.bounds, c[0].left, c[0].top) == s.win.bounds;
  }

  /** The fixed order: if the Left-Top candidate does not fit and the
      Right-Top one does, the window's top-left moves to the Right-Top
      candidate's (left - dw, top) and the window keeps its size, whatever
      the other two candidates would say. */
  lemma RightTopIsSecond(cfg: Config, scr: Screen, s: FormState)
    requires s.dpi.oldDpi != 0
    requires Fits(cfg, scr, s.dpi.newDpi, CandidatesOf(s)[0]) == Ok(false)
    requires Fits(cfg, scr, s.dpi.newDpi, CandidatesOf(s)[1]) == Ok(true)
    ensures
      var dw := Delta(s.win.clientSize.width, s.dpi.oldDpi, s.dpi.newDpi);
      var r := Relocate(cfg, scr, s);
      && r.outcome == Pass
      && r.state.win.bounds == MoveTo(s.win.bounds, s.win.bounds.left - dw, s.win.bounds.top)
  {
    var c := CandidatesOf(s);
    assert c[1..][0] == c[1];
    assert FirstFit(cfg, scr, s.dpi.newDpi, c) == Ok(Some(c[1]));
  }

  /** When no candidate fits, the window stays where it is; nothing marks
      an adjustment as pending. */
  lemma NoFitLeavesWindow(cfg: Config, scr: Screen, s: FormState)
    requires s.dpi.oldDpi != 0
    requires forall k :: 0 <= k < 4 ==> Fits(cfg, scr, s.dpi.newDpi, CandidatesOf(s)[k]) == Ok(false)
    ensures Relocate(cfg, scr, s) == Run(s, Pass)
    ensures !s.dpi.willBeAdjusted ==> !Relocate(cfg, scr, s).state.dpi.willBeAdjusted
  {
  }

  /** When the DPI did not change, every candidate is the window's own
      bounds, so MoveWindow cannot move the window. */
  lemma SameDpiNeverMoves(cfg: Config, scr: Screen, s: FormState)
    requires s.dpi.oldDpi == s.dpi.newDpi
    ensures Relocate(cfg, scr, s).state == s
  {
    if s.dpi.oldDpi != 0 {
      var c := CandidatesOf(s);
      assert forall k :: 0 <= k < 4 ==> c[k] == s.win.bounds;
      match FirstFit(cfg, scr, s.dpi.newDpi, c)
      case Err(_) =>
      case Ok(None) =>
      case Ok(Some(r)) =>
        assert r == s.win.bounds;
        assert MoveTo(s.win.bounds, r.left, r.top) == s.win.bounds;
    }
  }

  // ---------------------------------------------------------------------
  // WndProc

  /** A WM_DPICHANGED reporting the DPI the form already has changes
      nothing but the recorded new DPI: no move, no scaling, no event. */
  lemma SameDpiMessageIsQuiet(cfg: Config, scr: Screen, s: FormState, wParam: Int32)
    requires !cfg.designMode && cfg.eightOneOrNewer
    requires s.dpi.oldDpi == GetLoWord(wParam)
    ensures
      var r := HandleMessage(cfg, scr, s, WM_DPICHANGED, wParam);
      r.state.win == s.win && r.state.dpi == s.dpi.(newDpi := GetLoWord(wParam))
  {
    var s1 := s.(dpi := s.dpi.(newDpi := GetLoWord(wParam)));
    SameDpiNeverMoves(cfg, scr, s1);
  }

  /** An aborted message has recorded the new DPI but changed neither the
      font nor the events. Either the DPI query threw during the move, and
      the old DPI and the window are untouched, or the font constructor
      threw after the commit and the one scale by a non-positive factor. */
  lemma MessageFailureKeepsWindow(cfg: Config, scr: Screen, s: FormState, msg: int, wParam: Int32)
    requires HandleMessage(cfg, scr, s, msg, wParam).outcome.Fail?
    ensures
      var r := HandleMessage(cfg, scr, s, msg, wParam);
      var lo := GetLoWord(wParam);
      && r.state.dpi.newDpi == lo
      && r.state.win.font == s.win.font && r.state.win.events == s.win.events
      && ((r.state.win == s.win && r.state.dpi == s.dpi.(newDpi := lo)) ||
          (&& s.dpi.oldDpi != 0 && s.dpi.oldDpi != lo
           && r.state.dpi == s.dpi.(oldDpi := lo, newDpi := lo)
           && r.state.win.scaleLog == s.win.scaleLog + [Factor(lo, s.dpi.oldDpi)]
           && s.win.font.size * Factor(lo, s.dpi.oldDpi) <= 0.0))
  {
  }

  /** The scenario of a 800x600 client at DPI 96 receiving DPI 144: the
      growth is 400x300, the factor 1.5, the font grows by half and the
      old DPI becomes 144. */
  lemma Scenario96To144(cfg: Config, s: FormState)
    requires s.dpi.oldDpi == 96 && s.dpi.newDpi == 144
    requires s.win.clientSize == Size(800, 600)
    requires 0.0 < s.win.font.size
    ensures Delta(800, 96, 144) == 400 && Delta(600, 96, 144) == 300
    ensures Factor(144, 96) == 1.5
    ensures
      var r := Adjust(cfg, s);
      var t := r.state;
      && r.outcome == Pass
      && t.dpi.oldDpi == 144
      && t.win.font.size == s.win.font.size * 1.5
      && t.win.scaleLog == s.win.scaleLog + [1.5]
      && (cfg.hasHandler ==> t.win.events == s.win.events + [DpiEvent(t.win.font, 144, 1.5)])
  {
    assert Factor(144, 96) == 1.5;
    assert 800 as real * 1.5 == 1200.0;
    assert 600 as real * 1.5 == 900.0;
    assert 0.0 < s.win.font.size * 1.5;
  }

  // ---------------------------------------------------------------------
  // Sequences of events

  /** What the form reacts to: its Load event, a window message, and a
      move (to new bounds), each on the monitor layout of that moment. */
  datatype Event =
    | Load(scr: Screen)
    | Message(msg: int, wParam: Int32, scr: Screen)
    | Moved(to: Rect, scr: Screen)

  function Step(cfg: Config, s: FormState, e: Event): Run
  {
    match e
    case Load(scr) => InitialAdjust(cfg, scr, s)
    case Message(msg, wParam, scr) => HandleMessage(cfg, scr, s, msg, wParam)
    case Moved(to, scr) => HandleMove(cfg, scr, s.(win := s.win.(bounds := to)))
  }

  /** Events dispatched one after another, stopping at the first that
      throws. */
  function Replay(cfg: Config, s: FormState, evs: seq<Event>): Run
    decreases |evs|
  {
    if evs == [] then Run(s, Pass)
    else
      var r := Step(cfg, s, evs[0]);
      if r.outcome.Fail? then r else Replay(cfg, r.state, evs[1..])
  }

  /** Whether the form has no adjustment outstanding: the old DPI is
      unset or equals the new one. */
  predicate Synced(s: FormState)
  {
    s.dpi.oldDpi == 0 || s.dpi.oldDpi == s.dpi.newDpi
  }

  /** _willBeAdjusted is never made true, so the deferred retry never
      runs: from any state where it is false it stays false, and every Move
      event only relocates the window. */
  lemma {:induction false} NeverDeferred(cfg: Config, s: FormState, evs: seq<Event>)
    requires !s.dpi.willBeAdjusted
    ensures !Replay(cfg, s, evs).state.dpi.willBeAdjusted
    decreases |evs|
  {
    if evs != [] {
      var r := Step(cfg, s, evs[0]);
      if r.outcome.Pass? {
        NeverDeferred(cfg, r.state, evs[1..]);
      }
    }
  }

  /** A Move event never changes the DPI state, the font, the scale log or
      the events: it only records the new bounds. */
  lemma MoveIsInert(cfg: Config, s: FormState, to: Rect, scr: Screen)
    requires !s.dpi.willBeAdjusted
    ensures Step(cfg, s, Moved(to, scr)) == Run(s.(win := s.win.(bounds := to)), Pass)
  {
  }

  /** Every run that does not throw ends with no adjustment outstanding. */
  lemma {:induction false} ReplayStaysSynced(cfg: Config, s: FormState, evs: seq<Event>)
    requires Synced(s) && !s.dpi.willBeAdjusted
    requires Replay(cfg, s, evs).outcome.Pass?
    ensures Synced(Replay(cfg, s, evs).state)
    decreases |evs|
  {
    if evs != [] {
      var r := Step(cfg, s, evs[0]);
      StepSynced(cfg, s, evs[0]);
      NeverDeferred(cfg, s, [evs[0]]);
      assert Replay(cfg, s, [evs[0]]) == r;
      ReplayStaysSynced(cfg, r.state, evs[1..]);
    }
  }

  lemma StepSynced(cfg: Config, s: FormState, e: Event)
    requires Synced(s) && !s.dpi.willBeAdjusted
    ensures Step(cfg, s, e).outcome.Pass? ==> Synced(Step(cfg, s, e).state)
  {
    match e
    case Load(scr) =>
    case Message(msg, wParam, scr) =>
      if !cfg.designMode && cfg.eightOneOrNewer && msg == WM_DPICHANGED && s.dpi.oldDpi == 0 {
        var s1 := s.(dpi := s.dpi.(newDpi := GetLoWord(wParam)));
        assert Relocate(cfg, scr, s1) == Run(s1, Pass);
      }
    case Moved(to, scr) =>
  }

  /** Before Windows 8.1 the form is DPI-invariant: Load takes the
      auto-scale width for both DPIs and window messages are ignored, so no
      run ever scales, changes the font or fires an event. */
  lemma {:induction false} PreEightOneNeverScales(cfg: Config, s: FormState, evs: seq<Event>)
    requires !cfg.eightOneOrNewer && !s.dpi.willBeAdjusted
    ensures
      var t := Replay(cfg, s, evs).state;
      t.win.scaleLog == s.win.scaleLog && t.win.font == s.win.font && t.win.events == s.win.events
    decreases |evs|
  {
    if evs != [] {
      var r := Step(cfg, s, evs[0]);
      assert r.state.win.scaleLog == s.win.scaleLog && r.state.win.font == s.win.font;
      assert r.state.win.events == s.win.events && !r.state.dpi.willBeAdjusted;
      if r.outcome.Pass? {
        PreEightOneNeverScales(cfg, r.state, evs[1..]);
      }
    }
  }

  /** In the designer nothing reacts: every run leaves the DPI state, the
      font, the scale log and the events as they were. */
  lemma {:induction false} DesignModeIsInert(cfg: Config, s: FormState, evs: seq<Event>)
    requires cfg.designMode
    ensures
      var t := Replay(cfg, s, evs).state;
      t.dpi == s.dpi && t.win.font == s.win.font &&
      t.win.scaleLog == s.win.scaleLog && t.win.events == s.win.events
    decreases |evs|
  {
    if evs != [] {
      DesignModeIsInert(cfg, Step(cfg, s, evs[0]).state, evs[1..]);
    }
  }

  // ---------------------------------------------------------------------
  // A client of the class

  /** A form on one 144-DPI monitor, loaded at auto-scale width 96 with a
      handler attached: it scales by 1.5 once and fires one event; a later
      WM_DPICHANGED for 144 changes nothing, and a move does nothing. */
  method LoadThenSameDpi(win: Window, scr: Screen)
    requires forall h :: scr.getDpiForMonitor(h) == DpiQuery(0, 144, 144)
    requires 0.0 < win.font.size
  {
    var form := new HDpiForm(Config(false, true, 96, true), win);
    var o := form.AdjustWindowInitial(scr);
    assert o == Pass;
    assert form.oldDpiValue == 144 && form.newDpiValue == 144;
    assert form.scaleLog == win.scaleLog + [1.5];
    assert |form.events| == |win.events| + 1;
    var before := form.State();
    o := form.WndProc(WM_DPICHANGED, 144, scr);
    SameDpiMessageIsQuiet(form.Cfg(), scr, before, 144);
    assert form.State() == before;
    o := form.MainForm_Move(scr);
    assert o == Pass && form.State() == before;
  }
}
