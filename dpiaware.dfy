/** The per-monitor DPI reaction of HDpiForm: the DPI tracker, the
    adjustment that rescales the window once per change, and the placement
    search over four corner-anchored candidate rectangles. The pure
    functions state what each operation does to a snapshot of the form;
    the class HDpiForm performs the same steps on its fields. */
module DpiAware {
  import opened Wrappers
  import opened Win32Api

  /** The window message that reports a DPI change (WinUser.h). */
  const WM_DPICHANGED: int := 0x02E0

  /** What the form fixes at construction: whether it runs in the
      designer, whether the per-monitor DPI query exists (Windows 8.1 or
      newer), the auto-scale width WinForms reports
      (CurrentAutoScaleDimensions.Width), and whether OnDpiChange has a
      handler. */
  datatype Config = Config(
    designMode: bool,
    eightOneOrNewer: bool,
    autoScaleDpi: int,
    hasHandler: bool)

  datatype Size = Size(width: int, height: int)

  /** Family, style and unit are kept as given; only the size is scaled. */
  datatype Font = Font(family: string, size: real, style: int, unit: int)

  /** `new Font(family, emSize, style, unit)`: the constructor refuses a
      size that is not positive with an ArgumentException. */
  function NewFont(family: string, size: real, style: int, unit: int): (r: Result<Font>)
    ensures r.Ok? <==> 0.0 < size
    ensures r.Ok? ==> r.value.size == size
    ensures r.Ok? ==> r.value.family == family && r.value.style == style && r.value.unit == unit
  {
    if size <= 0.0 then Err("Font size must be greater than 0.")
    else Ok(Font(family, size, style, unit))
  }

  /** `new Font(Font.FontFamily, Font.Size * factor, Font.Style, Font.Unit)`. */
  function ScaledFont(font: Font, factor: real): (r: Result<Font>)
    ensures r.Ok? <==> 0.0 < font.size * factor
    ensures r.Ok? ==> r.value.size == font.size * factor
    ensures r.Ok? ==> r.value.family == font.family && r.value.style == font.style && r.value.unit == font.unit
  {
    NewFont(font.family, font.size * factor, font.style, font.unit)
  }

  /** One OnDpiChange notification: (new font, new DPI, change factor). */
  datatype DpiEvent = DpiEvent(font: Font, newDpi: int, factor: real)

  /** _oldDpiValue, _newDpiValue and _willBeAdjusted. */
  datatype DpiState = DpiState(oldDpi: int, newDpi: int, willBeAdjusted: bool)

  /** The part of the window the core touches: its outer bounds (whose
      top-left is Location), its client size, its font, every factor
      passed to Control.Scale and every OnDpiChange notification fired. */
  datatype Window = Window(
    bounds: Rect,
    clientSize: Size,
    font: Font,
    scaleLog: seq<real>,
    events: seq<DpiEvent>)

  datatype FormState = FormState(dpi: DpiState, win: Window)

  /** The state after a handler, and whether an exception escaped it. */
  datatype Run = Run(state: FormState, outcome: Outcome)

  /** The state of a freshly constructed form. */
  function Initial(win: Window): (s: FormState)
    ensures s.dpi.oldDpi == 0 && s.dpi.newDpi == 0 && !s.dpi.willBeAdjusted
    ensures s.win == win
  {
    FormState(DpiState(0, 0, false), win)
  }

  // ---------------------------------------------------------------------
  // Arithmetic of the adjustment

  /** The change factor newDpi / oldDpi, exact. */
  function Factor(newDpi: int, oldDpi: int): (f: real)
    requires oldDpi != 0
    ensures f * oldDpi as real == newDpi as real
  {
    newDpi as real / oldDpi as real
  }

  /** C#'s `(int)` cast of a floating-point value: truncation toward zero. */
  function Trunc(x: real): (r: int)
    ensures 0.0 <= x ==> r as real <= x < r as real + 1.0
    ensures x < 0.0 ==> r as real - 1.0 < x <= r as real
  {
    if 0.0 <= x then x.Floor else -((-x).Floor)
  }

  /** The pixel growth of a client extent `w` when the DPI goes from
      oldDpi to newDpi: `(int)(w * factor) - w`. For a non-negative extent
      and positive DPIs this is the integer quotient w * newDpi / oldDpi
      less w. */
  function Delta(w: int, oldDpi: int, newDpi: int): (d: int)
    requires oldDpi != 0
    ensures newDpi == oldDpi ==> d == 0
    ensures 0 <= w && 0 < oldDpi && 0 <= newDpi ==> d == (w * newDpi) / oldDpi - w
    ensures 0 < oldDpi <= newDpi && 0 <= w ==> 0 <= d
    ensures 0 <= newDpi <= oldDpi && 0 <= w ==> -w <= d <= 0
  {
    DeltaSame(w, oldDpi, newDpi);
    TruncOfQuotient(w, oldDpi, newDpi);
    DeltaGrows(w, oldDpi, newDpi);
    DeltaShrinks(w, oldDpi, newDpi);
    Trunc(w as real * Factor(newDpi, oldDpi)) - w
  }

  lemma DeltaSame(w: int, oldDpi: int, newDpi: int)
    requires oldDpi != 0
    ensures newDpi == oldDpi ==> Trunc(w as real * Factor(newDpi, oldDpi)) == w
  {
    if newDpi == oldDpi {
      ScaledBounds(w as real, oldDpi as real, newDpi as real);
    }
  }

  lemma DeltaGrows(w: int, oldDpi: int, newDpi: int)
    requires oldDpi != 0
    ensures 0 < oldDpi <= newDpi && 0 <= w ==> w <= Trunc(w as real * Factor(newDpi, oldDpi))
  {
    var x := w as real * Factor(newDpi, oldDpi);
    if 0 < oldDpi <= newDpi && 0 <= w {
      ScaledBounds(w as real, oldDpi as real, newDpi as real);
      assert w as real <= x;
      TruncBetween(x, w);
    }
  }

  lemma DeltaShrinks(w: int, oldDpi: int, newDpi: int)
    requires oldDpi != 0
    ensures 0 <= newDpi <= oldDpi && 0 <= w ==> 0 <= Trunc(w as real * Factor(newDpi, oldDpi)) <= w
  {
    var x := w as real * Factor(newDpi, oldDpi);
    if 0 <= newDpi <= oldDpi && 0 <= w {
      ScaledBounds(w as real, oldDpi as real, newDpi as real);
      assert 0.0 <= x <= w as real;
      TruncBetween(x, w);
    }
  }

  /** An integer below, or a non-negative integer above, a non-negative x
      bounds its truncation the same way. */
  lemma TruncBetween(x: real, w: int)
    ensures 0 <= w && w as real <= x ==> w <= Trunc(x)
    ensures 0 <= w && 0.0 <= x <= w as real ==> 0 <= Trunc(x) <= w
  {
  }

  /** Truncating w * (b / a) gives the integer quotient of w * b by a. */
  lemma TruncOfQuotient(w: int, a: int, b: int)
    requires a != 0
    ensures 0 <= w && 0 < a && 0 <= b ==> Trunc(w as real * Factor(b, a)) == (w * b) / a
  {
    if 0 <= w && 0 < a && 0 <= b {
      TruncOfQuotientPos(w, a, b);
    }
  }

  lemma TruncOfQuotientPos(w: int, a: int, b: int)
    requires 0 <= w && 0 < a && 0 <= b
    ensures Trunc(w as real * Factor(b, a)) == (w * b) / a
  {
    var f := Factor(b, a);
    var x := w as real * f;
    var q, m := (w * b) / a, (w * b) % a;
    assert w * b == q * a + m && 0 <= m < a;
    var ar := a as real;
    assert x * ar == w as real * (f * ar);
    assert x * ar == (w * b) as real;
    assert q as real * ar <= x * ar;
    assert x * ar < (q + 1) as real * ar;
    assert q as real <= x by {
      if x < q as real { MulLess(x, q as real, ar); }
    }
    assert x < (q + 1) as real by {
      if (q + 1) as real <= x { MulLess2((q + 1) as real, x, ar); }
    }
    assert 0 <= q;
  }

  /** Where `w * (b / a)` lies relative to w. */
  lemma ScaledBounds(w: real, a: real, b: real)
    requires a != 0.0
    ensures b == a ==> w * (b / a) == w
    ensures 0.0 < a <= b && 0.0 <= w ==> w <= w * (b / a)
    ensures 0.0 <= b <= a && 0.0 < a && 0.0 <= w ==> 0.0 <= w * (b / a) <= w
  {
    var f := b / a;
    assert f * a == b;
    if b == a {
      assert f == 1.0;
    }
    if 0.0 < a <= b && 0.0 <= w {
      assert f >= 1.0 by {
        if f < 1.0 { MulLess(f, 1.0, a); }
      }
      MulMono(w, 1.0, f);
    }
    if 0.0 <= b <= a && 0.0 < a && 0.0 <= w {
      assert 0.0 <= f by {
        if f < 0.0 { MulLess(f, 0.0, a); }
      }
      assert f <= 1.0 by {
        if f > 1.0 { MulLess(1.0, f, a); }
      }
      MulMono(w, 0.0, f);
      MulMono(w, f, 1.0);
    }
  }

  lemma MulLess(x: real, y: real, a: real)
    requires x < y && 0.0 < a
    ensures x * a < y * a
  {
    assert (y - x) * a > 0.0;
  }

  lemma MulLess2(x: real, y: real, a: real)
    requires x <= y && 0.0 < a
    ensures x * a <= y * a
  {
    assert (y - x) * a >= 0.0;
  }

  lemma MulMono(w: real, x: real, y: real)
    requires 0.0 <= w && x <= y
    ensures w * x <= w * y
  {
    assert w * (y - x) >= 0.0;
  }

  // ---------------------------------------------------------------------
  // AdjustWindow

  /** AdjustWindow: skipped when the old DPI is unset (0) or equal to the
      new one; otherwise the old DPI is committed to the new one, the
      window is scaled once by new/old (the pre-commit old value), the font
      size is multiplied by the same factor, and OnDpiChange fires once if
      a handler is attached. When the scaled size is not positive the font
      constructor throws after the commit and the scale, so neither the
      font nor the event changes. */
  function Adjust(cfg: Config, s: FormState): (r: Run)
    ensures s.dpi.oldDpi == 0 || s.dpi.oldDpi == s.dpi.newDpi ==> r == Run(s, Pass)
    ensures s.dpi.oldDpi != 0 && s.dpi.oldDpi != s.dpi.newDpi ==>
      var f := Factor(s.dpi.newDpi, s.dpi.oldDpi);
      var t := r.state;
      && t.dpi == s.dpi.(oldDpi := s.dpi.newDpi)
      && t.win.bounds == s.win.bounds
      && t.win.clientSize == s.win.clientSize
      && t.win.scaleLog == s.win.scaleLog + [f]
      && (r.outcome.Fail? <==> s.win.font.size * f <= 0.0)
      && (r.outcome.Fail? ==> t.win.font == s.win.font && t.win.events == s.win.events)
      && (r.outcome.Pass? ==>
           && t.win.font == ScaledFont(s.win.font, f).value
           && t.win.font.size == s.win.font.size * f
           && t.win.events == s.win.events +
                (if cfg.hasHandler then [DpiEvent(t.win.font, s.dpi.newDpi, f)] else []))
    ensures r.state.dpi.newDpi == s.dpi.newDpi && r.state.dpi.willBeAdjusted == s.dpi.willBeAdjusted
    ensures r.state.dpi.oldDpi == 0 || r.state.dpi.oldDpi == r.state.dpi.newDpi
  {
    if s.dpi.oldDpi == 0 || s.dpi.oldDpi == s.dpi.newDpi then Run(s, Pass)
    else
      var factor := Factor(s.dpi.newDpi, s.dpi.oldDpi);
      var dpi := DpiState(s.dpi.newDpi, s.dpi.newDpi, s.dpi.willBeAdjusted);
      var scaled := s.win.(scaleLog := s.win.scaleLog + [factor]);
      match ScaledFont(s.win.font, factor)
      case Err(e) => Run(FormState(dpi, scaled), Fail(e))
      case Ok(font) =>
        var events := if cfg.hasHandler then s.win.events + [DpiEvent(font, s.dpi.newDpi, factor)]
                      else s.win.events;
        Run(FormState(dpi, scaled.(font := font, events := events)), Pass)
  }

  // ---------------------------------------------------------------------
  // Monitor DPI

  /** GetDpiSpecifiedMonitor: the auto-scale width before Windows 8.1;
      otherwise the X DPI the query reports, or an exception when the
      query's status is not S_OK. */
  function GetDpiSpecifiedMonitor(cfg: Config, scr: Screen, h: MonitorHandle): (r: Result<int>)
    ensures !cfg.eightOneOrNewer ==> r == Ok(cfg.autoScaleDpi)
    ensures cfg.eightOneOrNewer ==>
      (r.Err? <==> scr.getDpiForMonitor(h).status != 0) &&
      (r.Ok? ==> r.value == scr.getDpiForMonitor(h).dpiX && 0 <= r.value)
  {
    if !cfg.eightOneOrNewer then Ok(cfg.autoScaleDpi)
    else
      var q := scr.getDpiForMonitor(h);
      if q.status != 0 then Err("Failed to get DPI of monitor containing this window.")
      else Ok(q.dpiX)
  }

  /** GetDpiWindowMonitor: the DPI of the monitor the window is on. */
  function GetDpiWindowMonitor(cfg: Config, scr: Screen, s: FormState): (r: Result<int>)
    ensures r == GetDpiSpecifiedMonitor(cfg, scr, scr.monitorFromWindow(s.win.bounds))
    ensures !cfg.eightOneOrNewer ==> r == Ok(cfg.autoScaleDpi)
  {
    GetDpiSpecifiedMonitor(cfg, scr, scr.monitorFromWindow(s.win.bounds))
  }

  // ---------------------------------------------------------------------
  // Candidate rectangles

  /** The four rectangles MoveWindow tries, in order Left-Top, Right-Top,
      Left-Bottom, Right-Bottom: each is the window's bounds grown by
      (dw, dh) with the named corner kept in place. */
  function Candidates(b: Rect, dw: int, dh: int): (c: seq<Rect>)
    ensures |c| == 4
    ensures forall k :: 0 <= k < |c| ==>
      Width(c[k]) == Width(b) + dw && Height(c[k]) == Height(b) + dh
    ensures c[0].left == b.left && c[0].top == b.top
    ensures c[1].right == b.right && c[1].top == b.top
    ensures c[2].left == b.left && c[2].bottom == b.bottom
    ensures c[3].right == b.right && c[3].bottom == b.bottom
  {
    [ Rect(b.left, b.top, b.right + dw, b.bottom + dh),
      Rect(b.left - dw, b.top, b.right, b.bottom + dh),
      Rect(b.left, b.top - dh, b.right + dw, b.bottom),
      Rect(b.left - dw, b.top - dh, b.right, b.bottom) ]
  }

  /** The candidates for a form whose old DPI is set, with the growth
      computed from the client size. */
  function CandidatesOf(s: FormState): (c: seq<Rect>)
    requires s.dpi.oldDpi != 0
    ensures c == Candidates(s.win.bounds,
      Delta(s.win.clientSize.width, s.dpi.oldDpi, s.dpi.newDpi),
      Delta(s.win.clientSize.height, s.dpi.oldDpi, s.dpi.newDpi))
    ensures |c| == 4
    ensures c[0] == LeftTop(s)
  {
    Candidates(s.win.bounds,
      Delta(s.win.clientSize.width, s.dpi.oldDpi, s.dpi.newDpi),
      Delta(s.win.clientSize.height, s.dpi.oldDpi, s.dpi.newDpi))
  }

  /** The Left-Top-anchored candidate alone, as IsLocationGood builds it. */
  function LeftTop(s: FormState): (r: Rect)
    requires s.dpi.oldDpi != 0
    ensures r.left == s.win.bounds.left && r.top == s.win.bounds.top
    ensures Width(r) == Width(s.win.bounds) + Delta(s.win.clientSize.width, s.dpi.oldDpi, s.dpi.newDpi)
    ensures Height(r) == Height(s.win.bounds) + Delta(s.win.clientSize.height, s.dpi.oldDpi, s.dpi.newDpi)
  {
    var b := s.win.bounds;
    Rect(b.left, b.top,
      b.right + Delta(s.win.clientSize.width, s.dpi.oldDpi, s.dpi.newDpi),
      b.bottom + Delta(s.win.clientSize.height, s.dpi.oldDpi, s.dpi.newDpi))
  }

  /** The three checks MoveWindow makes of one candidate: some monitor
      intersects it, its top-left or top-right point is on some monitor,
      and the intersecting monitor's DPI is the target. An exception of the
      DPI query escapes. */
  function Fits(cfg: Config, scr: Screen, target: int, r: Rect): (res: Result<bool>)
    ensures res == Ok(true) <==>
      && scr.monitorFromRect(r).Some?
      && (scr.monitorFromPoint(Point(r.left, r.top)).Some? ||
          scr.monitorFromPoint(Point(r.right, r.top)).Some?)
      && GetDpiSpecifiedMonitor(cfg, scr, scr.monitorFromRect(r).value) == Ok(target)
    ensures res.Err? <==>
      && scr.monitorFromRect(r).Some?
      && (scr.monitorFromPoint(Point(r.left, r.top)).Some? ||
          scr.monitorFromPoint(Point(r.right, r.top)).Some?)
      && GetDpiSpecifiedMonitor(cfg, scr, scr.monitorFromRect(r).value).Err?
  {
    match scr.monitorFromRect(r)
    case None => Ok(false)
    case Some(h) =>
      if scr.monitorFromPoint(Point(r.left, r.top)).None? &&
         scr.monitorFromPoint(Point(r.right, r.top)).None? then Ok(false)
      else
        match GetDpiSpecifiedMonitor(cfg, scr, h)
        case Err(e) => Err(e)
        case Ok(d) => Ok(d == target)
  }

  /** How many candidates, from the front, are reported not to fit: the
      scan stops at the first that fits or throws. */
  function Leading(cfg: Config, scr: Screen, target: int, cands: seq<Rect>): (k: nat)
    ensures k <= |cands|
    ensures forall j :: 0 <= j < k ==> Fits(cfg, scr, target, cands[j]) == Ok(false)
    ensures k < |cands| ==> Fits(cfg, scr, target, cands[k]) != Ok(false)
  {
    if cands == [] || Fits(cfg, scr, target, cands[0]) != Ok(false) then 0
    else
      var k := Leading(cfg, scr, target, cands[1..]);
      assert forall j :: 0 < j <= k ==> cands[j] == cands[1..][j - 1];
      k + 1
  }

  /** The first candidate that fits, scanning in order and stopping at the
      first fit or the first exception: the candidate right after the
      leading run of misfits decides. */
  function FirstFit(cfg: Config, scr: Screen, target: int, cands: seq<Rect>): (r: Result<Option<Rect>>)
    ensures
      var k := Leading(cfg, scr, target, cands);
      if k == |cands| then r == Ok(None)
      else if Fits(cfg, scr, target, cands[k]).Err? then r == Err(Fits(cfg, scr, target, cands[k]).error)
      else r == Ok(Some(cands[k]))
  {
    if cands == [] then Ok(None)
    else
      match Fits(cfg, scr, target, cands[0])
      case Err(e) => Err(e)
      case Ok(true) => Ok(Some(cands[0]))
      case Ok(false) =>
        var rest := FirstFit(cfg, scr, target, cands[1..]);
        assert Leading(cfg, scr, target, cands) == Leading(cfg, scr, target, cands[1..]) + 1;
        rest
  }

  /** Assigning Location: the window moves to (x, y) and keeps its size. */
  function MoveTo(b: Rect, x: int, y: int): (r: Rect)
    ensures r.left == x && r.top == y
    ensures Width(r) == Width(b) && Height(r) == Height(b)
  {
    Rect(x, y, x + Width(b), y + Height(b))
  }

  /** MoveWindow: unless the old DPI is unset, move the window's top-left
      to that of the first fitting candidate; with no fit, stay. Nothing
      but the bounds can change, and only their position. */
  function Relocate(cfg: Config, scr: Screen, s: FormState): (r: Run)
    ensures r.state.dpi == s.dpi
    ensures r.state.win.clientSize == s.win.clientSize && r.state.win.font == s.win.font
    ensures r.state.win.scaleLog == s.win.scaleLog && r.state.win.events == s.win.events
    ensures Width(r.state.win.bounds) == Width(s.win.bounds)
    ensures Height(r.state.win.bounds) == Height(s.win.bounds)
    ensures s.dpi.oldDpi == 0 ==> r == Run(s, Pass)
    ensures r.outcome.Fail? ==> r.state == s
    ensures s.dpi.oldDpi != 0 ==>
      match FirstFit(cfg, scr, s.dpi.newDpi, CandidatesOf(s))
      case Err(e) => r == Run(s, Fail(e))
      case Ok(None) => r == Run(s, Pass)
      case Ok(Some(c)) =>
        r.outcome == Pass && r.state.win.bounds.left == c.left && r.state.win.bounds.top == c.top
  {
    if s.dpi.oldDpi == 0 then Run(s, Pass)
    else
      match FirstFit(cfg, scr, s.dpi.newDpi, CandidatesOf(s))
      case Err(e) => Run(s, Fail(e))
      case Ok(None) => Run(s, Pass)
      case Ok(Some(c)) =>
        Run(s.(win := s.win.(bounds := MoveTo(s.win.bounds, c.left, c.top))), Pass)
  }

  /** IsLocationGood: false when the old DPI is unset; otherwise whether
      the Left-Top candidate intersects a monitor whose DPI is the new one.
      Unlike MoveWindow it does not test the top corners. */
  function IsLocationGood(cfg: Config, scr: Screen, s: FormState): (r: Result<bool>)
    ensures s.dpi.oldDpi == 0 ==> r == Ok(false)
    ensures s.dpi.oldDpi != 0 ==>
      (r == Ok(true) <==>
        scr.monitorFromRect(LeftTop(s)).Some? &&
        GetDpiSpecifiedMonitor(cfg, scr, scr.monitorFromRect(LeftTop(s)).value) == Ok(s.dpi.newDpi))
    ensures r.Err? <==>
      s.dpi.oldDpi != 0 && scr.monitorFromRect(LeftTop(s)).Some? &&
      GetDpiSpecifiedMonitor(cfg, scr, scr.monitorFromRect(LeftTop(s)).value).Err?
  {
    if s.dpi.oldDpi == 0 then Ok(false)
    else
      match scr.monitorFromRect(LeftTop(s))
      case None => Ok(false)
      case Some(h) =>
        match GetDpiSpecifiedMonitor(cfg, scr, h)
        case Err(e) => Err(e)
        case Ok(d) => Ok(d == s.dpi.newDpi)
  }

  // ---------------------------------------------------------------------
  // Event handlers

  /** WndProc: outside the designer and on Windows 8.1 or newer, a
      WM_DPICHANGED message records the low word of wParam as the new DPI,
      then moves the window, then adjusts it, whether or not the move found
      a fit. Every other message leaves the state alone. An exception of
      the DPI query leaves the new DPI recorded and nothing else changed. */
  function HandleMessage(cfg: Config, scr: Screen, s: FormState, msg: int, wParam: Int32): (r: Run)
    ensures cfg.designMode || !cfg.eightOneOrNewer || msg != WM_DPICHANGED ==> r == Run(s, Pass)
    ensures !cfg.designMode && cfg.eightOneOrNewer && msg == WM_DPICHANGED ==>
      var s1 := s.(dpi := s.dpi.(newDpi := GetLoWord(wParam)));
      var m := Relocate(cfg, scr, s1);
      r == if m.outcome.Fail? then Run(s1, m.outcome) else Adjust(cfg, m.state)
    ensures !cfg.designMode && cfg.eightOneOrNewer && msg == WM_DPICHANGED ==>
      r.state.dpi.newDpi == GetLoWord(wParam) &&
      (r.outcome.Pass? && s.dpi.oldDpi != 0 ==> r.state.dpi.oldDpi == r.state.dpi.newDpi)
    ensures r.state.dpi.willBeAdjusted == s.dpi.willBeAdjusted
  {
    if cfg.designMode || !cfg.eightOneOrNewer || msg != WM_DPICHANGED then Run(s, Pass)
    else
      var s1 := s.(dpi := s.dpi.(newDpi := GetLoWord(wParam)));
      var m := Relocate(cfg, scr, s1);
      if m.outcome.Fail? then Run(s1, m.outcome)
      else Adjust(cfg, m.state)
  }

  /** AdjustWindowInitial (run by MainForm_Load): outside the designer,
      take the auto-scale width as the old DPI and the DPI of the window's
      monitor as the new one, then adjust. */
  function InitialAdjust(cfg: Config, scr: Screen, s: FormState): (r: Run)
    ensures cfg.designMode ==> r == Run(s, Pass)
    ensures !cfg.designMode ==>
      var s1 := s.(dpi := s.dpi.(oldDpi := cfg.autoScaleDpi));
      match GetDpiWindowMonitor(cfg, scr, s1)
      case Err(e) => r == Run(s1, Fail(e))
      case Ok(d) => r == Adjust(cfg, s1.(dpi := s1.dpi.(newDpi := d)))
    ensures !cfg.designMode && cfg.autoScaleDpi != 0 && r.outcome.Pass? ==>
      r.state.dpi.oldDpi == r.state.dpi.newDpi
    ensures r.state.dpi.willBeAdjusted == s.dpi.willBeAdjusted
  {
    if cfg.designMode then Run(s, Pass)
    else
      var s1 := s.(dpi := s.dpi.(oldDpi := cfg.autoScaleDpi));
      match GetDpiWindowMonitor(cfg, scr, s1)
      case Err(e) => Run(s1, Fail(e))
      case Ok(d) => Adjust(cfg, s1.(dpi := s1.dpi.(newDpi := d)))
  }

  /** MainForm_Move: outside the designer, when an adjustment is pending
      and the current location is good, clear the flag and adjust. */
  function HandleMove(cfg: Config, scr: Screen, s: FormState): (r: Run)
    ensures cfg.designMode || !s.dpi.willBeAdjusted ==> r == Run(s, Pass)
    ensures !cfg.designMode && s.dpi.willBeAdjusted ==>
      match IsLocationGood(cfg, scr, s)
      case Err(e) => r == Run(s, Fail(e))
      case Ok(good) =>
        r == if good then Adjust(cfg, s.(dpi := s.dpi.(willBeAdjusted := false))) else Run(s, Pass)
    ensures !r.state.dpi.willBeAdjusted || r.state == s
  {
    if cfg.designMode then Run(s, Pass)
    else if s.dpi.willBeAdjusted then
      match IsLocationGood(cfg, scr, s)
      case Err(e) => Run(s, Fail(e))
      case Ok(good) =>
        if good then Adjust(cfg, s.(dpi := s.dpi.(willBeAdjusted := false)))
        else Run(s, Pass)
    else Run(s, Pass)
  }

  // ---------------------------------------------------------------------
  // The form

  class HDpiForm {
    const designMode: bool
    const eightOneOrNewer: bool
    const autoScaleDpi: int
    const hasHandler: bool

    var oldDpiValue: int
    var newDpiValue: int
    var willBeAdjusted: bool

    var bounds: Rect
    var clientSize: Size
    var font: Font
    var scaleLog: seq<real>
    var events: seq<DpiEvent>

    function Cfg(): Config {
      Config(designMode, eightOneOrNewer, autoScaleDpi, hasHandler)
    }

    function State(): FormState
      reads this
    {
      FormState(DpiState(oldDpiValue, newDpiValue, willBeAdjusted),
        Window(bounds, clientSize, font, scaleLog, events))
    }

    /** The only value _willBeAdjusted is ever given is false. */
    ghost predicate Valid()
      reads this
    {
      !willBeAdjusted
    }

    constructor (cfg: Config, win: Window)
      ensures Valid()
      ensures Cfg() == cfg && State() == Initial(win)
    {
      designMode := cfg.designMode;
      eightOneOrNewer := cfg.eightOneOrNewer;
      autoScaleDpi := cfg.autoScaleDpi;
      hasHandler := cfg.hasHandler;
      oldDpiValue, newDpiValue, willBeAdjusted := 0, 0, false;
      bounds, clientSize, font := win.bounds, win.clientSize, win.font;
      scaleLog, events := win.scaleLog, win.events;
    }

    method AdjustWindow() returns (outcome: Outcome)
      modifies this
      ensures old(Valid()) ==> Valid()
      ensures Run(State(), outcome) == Adjust(Cfg(), old(State()))
    {
      if oldDpiValue == 0 || oldDpiValue == newDpiValue {
        return Pass;
      }
      var factor := Factor(newDpiValue, oldDpiValue);
      oldDpiValue := newDpiValue;
      scaleLog := scaleLog + [factor];
      var newFont := ScaledFont(font, factor);
      if newFont.Err? {
        return Fail(newFont.error);
      }
      font := newFont.value;
      if hasHandler {
        events := events + [DpiEvent(font, newDpiValue, factor)];
      }
      return Pass;
    }

    method MoveWindow(scr: Screen) returns (outcome: Outcome)
      modifies this
      ensures old(Valid()) ==> Valid()
      ensures Run(State(), outcome) == Relocate(Cfg(), scr, old(State()))
    {
      if oldDpiValue == 0 {
        return Pass;
      }
      var widthDiff := Delta(clientSize.width, oldDpiValue, newDpiValue);
      var heightDiff := Delta(clientSize.height, oldDpiValue, newDpiValue);

      var rectList: seq<Rect> := [];
      rectList := rectList + [Rect(bounds.left, bounds.top, bounds.right + widthDiff, bounds.bottom + heightDiff)];
      rectList := rectList + [Rect(bounds.left - widthDiff, bounds.top, bounds.right, bounds.bottom + heightDiff)];
      rectList := rectList + [Rect(bounds.left, bounds.top - heightDiff, bounds.right + widthDiff, bounds.bottom)];
      rectList := rectList + [Rect(bounds.left - widthDiff, bounds.top - heightDiff, bounds.right, bounds.bottom)];
      ghost var s0 := State();
      assert rectList == Candidates(bounds, widthDiff, heightDiff);
      assert rectList == CandidatesOf(s0);
      ghost var k := Leading(Cfg(), scr, newDpiValue, rectList);

      var i := 0;
      while i <= |rectList| - 1
        invariant 0 <= i <= |rectList|
        invariant State() == s0
        invariant i <= k
      {
        var rectBuf := rectList[i];
        var handleMonitor := scr.monitorFromRect(rectBuf);
        if handleMonitor.Some? {
          var handleLeftTop := scr.monitorFromPoint(Point(rectBuf.left, rectBuf.top));
          var handleRightTop := scr.monitorFromPoint(Point(rectBuf.right, rectBuf.top));
          if handleLeftTop.Some? || handleRightTop.Some? {
            var dpi := GetDpiSpecifiedMonitor(Cfg(), scr, handleMonitor.value);
            if dpi.Err? {
              assert Fits(Cfg(), scr, newDpiValue, rectBuf) == Err(dpi.error);
              assert i == k;
              return Fail(dpi.error);
            }
            if dpi.value == newDpiValue {
              assert Fits(Cfg(), scr, newDpiValue, rectBuf) == Ok(true);
              assert i == k;
              bounds := MoveTo(bounds, rectBuf.left, rectBuf.top);
              return Pass;
            }
          }
        }
        assert Fits(Cfg(), scr, newDpiValue, rectBuf) == Ok(false);
        i := i + 1;
      }
      return Pass;
    }

    method WndProc(msg: int, wParam: Int32, scr: Screen) returns (outcome: Outcome)
      modifies this
      ensures old(Valid()) ==> Valid()
      ensures Run(State(), outcome) == HandleMessage(Cfg(), scr, old(State()), msg, wParam)
    {
      if designMode {
        return Pass;
      }
      if !eightOneOrNewer {
        return Pass;
      }
      if msg == WM_DPICHANGED {
        var lo := GetLoWord(wParam);
        newDpiValue := lo;
        outcome := MoveWindow(scr);
        if outcome.Fail? {
          return;
        }
        outcome := AdjustWindow();
        return;
      }
      return Pass;
    }

    method MainForm_Move(scr: Screen) returns (outcome: Outcome)
      modifies this
      ensures old(Valid()) ==> Valid()
      ensures Run(State(), outcome) == HandleMove(Cfg(), scr, old(State()))
      ensures old(Valid()) ==> State() == old(State()) && outcome == Pass
    {
      if designMode {
        return Pass;
      }
      if willBeAdjusted {
        var good := IsLocationGood(Cfg(), scr, State());
        if good.Err? {
          return Fail(good.error);
        }
        if good.value {
          willBeAdjusted := false;
          outcome := AdjustWindow();
          return;
        }
      }
      return Pass;
    }

    method AdjustWindowInitial(scr: Screen) returns (outcome: Outcome)
      modifies this
      ensures old(Valid()) ==> Valid()
      ensures Run(State(), outcome) == InitialAdjust(Cfg(), scr, old(State()))
    {
      if designMode {
        return Pass;
      }
      oldDpiValue := autoScaleDpi;
      var dpi := GetDpiWindowMonitor(Cfg(), scr, State());
      if dpi.Err? {
        return Fail(dpi.error);
      }
      newDpiValue := dpi.value;
      outcome := AdjustWindow();
    }
  }
}
