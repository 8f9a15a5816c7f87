# Salar.DpiAware: the per-monitor DPI reaction of HDpiForm

`HDpiForm` is a Windows Forms base class that keeps a window's layout and
font matched to the DPI of the monitor it is on. It tracks two DPI values:

- `_oldDpiValue` is the DPI the window was last scaled for.
- `_newDpiValue` is the DPI most recently reported.

On `WM_DPICHANGED` it records the new DPI from the low word of `wParam`. It
then tries to move the window so it lands on a monitor of that DPI, and
finally rescales the window and its font by `new / old`.

The model has four modules:

- `Wrappers` (`wrappers.dfy`): `Option` for nullable handles, plus `Result`
  and `Outcome` for the two exceptions the core can raise: the one that
  `GetDpiSpecifiedMonitor` throws and the `ArgumentException` of the `Font`
  constructor.
- `Win32Api` (`win32api.dfy`): the value structs `POINT` and `RECT`, the
  LOWORD decoding `GetLoWord`, and the three monitor queries and the DPI
  query, given as one oracle value `Screen`. A `Point` is a datatype, so its
  constructor stores `x` and `y` unchanged.
- `DpiAware` (`dpiaware.dfy`):
  - a snapshot of the form (`FormState`: the three DPI fields, the bounds,
    the client size, the font, a log of factors passed to `Control.Scale`
    and a log of `OnDpiChange` notifications);
  - a pure function per operation that says what it does to a snapshot;
  - the class `HDpiForm`, whose fields and methods follow the source. Each
    method is proved to change the fields exactly as its function says.
    `MoveWindow` builds its list of candidates and scans it in a loop with
    an early exit, as the source does.
- `DpiAwareProperties` (`dpiaware_props.dfy`):
  - lemmas that relate several calls;
  - a replay of any sequence of Load, window-message and Move events;
  - a client method that drives the class.

Representation choices:

- DPI values are integers, because every source of them is integral: the
  `short` from `GetLoWord`, the `uint` from the DPI query, and the
  auto-scale width.
- The factor `new / old` is an exact `real`.
- `(int)(ClientSize.Width * factor)` truncates toward zero (`Trunc`).
- The platform-dependent inputs are fixed once per form in a `Config`:
  the designer flag, whether the system is Windows 8.1 or newer,
  `CurrentAutoScaleDimensions.Width` and whether `OnDpiChange` has a
  handler.
- Every handler returns the state it leaves together with whether an
  exception escaped. An aborted message therefore keeps the field updates
  made before the throw.

The code does less than its comments and names suggest in several places,
and the model follows the code:

- **Flag never set.** `_willBeAdjusted` is only ever assigned `false`. A
  failed move leaves nothing pending, and the deferred retry in
  `MainForm_Move` never runs (`NeverDeferred`, `MoveIsInert`).
- **Adjust after every move.** `WndProc` adjusts after `MoveWindow` whether
  or not a candidate fitted.
- **No guard against DPI 0.** A zero low word with a nonzero old DPI
  commits old := 0 and scales by factor 0. Only then does `new Font` throw,
  because a font size must be positive, so the font stays and no
  `OnDpiChange` fires (`ZeroDpiIsNotGuarded`). A negative low word does the
  same.
- **Partial state after an exception.** When the DPI query fails, the
  message is aborted with the new DPI already recorded. The old DPI and the
  window are untouched. When the font constructor throws, the commit and
  the one scale have already happened (`MessageFailureKeepsWindow`).
- **Query name.** The DPI query is called `GetHDpiFormonitor` at
  HDpiForm.cs:278 and declared `GetDpiForMonitor` at Win32Api.cs:60. Both
  are the one oracle `Screen.getDpiForMonitor`.

## Model

| member | source | states |
|---|---|---|
| `Win32Api.LowBits` | Salar.DpiAware/Win32Api.cs:76 | the 16-bit mask leaves the value in [0, 65535] that is congruent to the word modulo 2^16 |
| `Win32Api.GetLoWord` | Salar.DpiAware/Win32Api.cs:74-77 | the result is a `short` congruent to the word modulo 2^16; it is non-negative exactly when the low word is at most 0x7fff, and then equals it; otherwise it equals the low word minus 65536 |
| `Win32Api.GetLoWordOfLowBits` | Salar.DpiAware/Win32Api.cs:76 | decoding the masked word gives the same result as decoding the word |
| `Win32Api.GetLoWordPeriodic` | Salar.DpiAware/Win32Api.cs:76 | adding any multiple of 65536 within the 32-bit range does not change the result |
| `Win32Api.GetLoWordExamples` | Salar.DpiAware/Win32Api.cs:74-77 | wParam 96 and 144 decode to 96 and 144, a nonzero high word is ignored, and 0x8000 and -1 decode to negative values |
| `DpiAware.Initial` | Salar.DpiAware/HDpiForm.cs:25-36 | a new form has both DPI values 0 and no adjustment pending |
| `DpiAware.Trunc` | Salar.DpiAware/HDpiForm.cs:148-149 | the `(int)` cast gives the integer between 0 and x that is nearest to x (truncation toward zero) |
| `DpiAware.Factor` | Salar.DpiAware/HDpiForm.cs:122 | the factor times the old DPI is the new DPI |
| `DpiAware.Delta` | Salar.DpiAware/HDpiForm.cs:148-149 | for a non-negative extent and positive DPIs the growth is the integer quotient w * new / old less w; it is 0 when the DPI did not change; it is non-negative when a positive DPI grows; when the DPI shrinks it lies between -w and 0 |
| `DpiAware.NewFont` | Salar.DpiAware/HDpiForm.cs:130-133 | the font constructor succeeds exactly when the size is positive, and then keeps the size, family, style and unit it was given |
| `DpiAware.ScaledFont` | Salar.DpiAware/HDpiForm.cs:130-133 | the scaled font exists exactly when the old size times the factor is positive; its size is then the old size times the factor, and it keeps the family, style and unit of the old one |
| `DpiAware.Adjust` | Salar.DpiAware/HDpiForm.cs:118-137 | a no-op when the old DPI is 0 or equals the new one; otherwise it commits old := new and logs one scale by new/old computed with the pre-commit old value; it throws exactly when the scaled font size is not positive, and then the font and events are unchanged; otherwise it sets the font size to the old size times the factor (family, style and unit kept) and fires one event (font, new DPI, factor) exactly when a handler exists; the new DPI and the flag never change |
| `DpiAware.GetDpiSpecifiedMonitor` | Salar.DpiAware/HDpiForm.cs:269-286 | before Windows 8.1 the auto-scale width; otherwise it throws exactly when the query's status is nonzero, and else returns the query's X DPI |
| `DpiAware.GetDpiWindowMonitor` | Salar.DpiAware/HDpiForm.cs:255-266 | the DPI of the monitor holding the window, and the auto-scale width before Windows 8.1 |
| `DpiAware.Candidates` | Salar.DpiAware/HDpiForm.cs:151-187 | exactly four rectangles, each the bounds grown by (dw, dh); they keep the left-top, right-top, left-bottom and right-bottom corner respectively, in that order |
| `DpiAware.CandidatesOf` | Salar.DpiAware/HDpiForm.cs:145-187 | the four corner-anchored candidates of `Candidates` for the window bounds, grown by the client-size deltas; the first is the Left-Top candidate that IsLocationGood also uses |
| `DpiAware.LeftTop` | Salar.DpiAware/HDpiForm.cs:222-234 | keeps the window's top-left and grows by the client-size deltas |
| `DpiAware.Fits` | Salar.DpiAware/HDpiForm.cs:192-211 | a candidate fits exactly when a monitor intersects it, its top-left or top-right point is on a monitor, and that intersecting monitor's DPI is the target; an exception escapes exactly when the first two checks pass and the DPI query of the intersecting monitor throws |
| `DpiAware.Leading` | Salar.DpiAware/HDpiForm.cs:189-213 | the length of the leading run of candidates that are reported not to fit; the next candidate, if any, fits or throws |
| `DpiAware.FirstFit` | Salar.DpiAware/HDpiForm.cs:189-213 | first match wins: no fit is found exactly when every candidate misfits; otherwise the first candidate after the misfits decides, either throwing or being the rectangle chosen |
| `DpiAware.MoveTo` | Salar.DpiAware/HDpiForm.cs:208 | assigning Location puts the top-left at (x, y) and keeps width and height |
| `DpiAware.Relocate` | Salar.DpiAware/HDpiForm.cs:140-214 | a no-op when the old DPI is 0; otherwise it moves the window's top-left to that of the first fitting candidate, stays without a fit, and on an exception changes nothing; it never changes the DPI fields, the flag, the size, the font or the logs |
| `DpiAware.IsLocationGood` | Salar.DpiAware/HDpiForm.cs:217-249 | false when the old DPI is 0; otherwise true exactly when the Left-Top candidate intersects a monitor whose DPI is the new one (no top-corner test); it throws exactly when the old DPI is set, a monitor intersects the candidate and that monitor's DPI query throws |
| `DpiAware.HandleMessage` | Salar.DpiAware/HDpiForm.cs:58-83 | designer mode, pre-8.1 systems and other messages change nothing; WM_DPICHANGED sets new := GetLoWord(wParam), then relocates, then adjusts, in that order; an exception of the move stops it with only the new DPI changed, and an exception of the adjustment is passed on; with a nonzero old DPI a run that does not throw ends with old == new |
| `DpiAware.InitialAdjust` | Salar.DpiAware/HDpiForm.cs:104-115 | sets old := auto-scale width and new := the DPI of the window's monitor, then adjusts; with a nonzero auto-scale width it ends with old == new |
| `DpiAware.HandleMove` | Salar.DpiAware/HDpiForm.cs:93-102 | changes nothing unless an adjustment is pending; then it clears the flag and adjusts when the location is good |
| `DpiAware.HDpiForm.constructor` | Salar.DpiAware/HDpiForm.cs:45-55 | the fields start at 0, 0 and false |
| `DpiAware.HDpiForm.AdjustWindow` | Salar.DpiAware/HDpiForm.cs:118-137 | updates the fields exactly as `Adjust` |
| `DpiAware.HDpiForm.MoveWindow` | Salar.DpiAware/HDpiForm.cs:140-214 | the list-and-loop search updates the fields and reports an exception exactly as `Relocate` |
| `DpiAware.HDpiForm.WndProc` | Salar.DpiAware/HDpiForm.cs:58-83 | updates the fields exactly as `HandleMessage` |
| `DpiAware.HDpiForm.MainForm_Move` | Salar.DpiAware/HDpiForm.cs:93-102 | updates the fields exactly as `HandleMove`; when no adjustment is pending (`Valid`) it changes nothing and does not throw |
| `DpiAware.HDpiForm.AdjustWindowInitial` | Salar.DpiAware/HDpiForm.cs:104-115 | updates the fields exactly as `InitialAdjust` |
| `DpiAwareProperties.AdjustIdempotent` | Salar.DpiAware/HDpiForm.cs:120-124 | two AdjustWindow calls in a row scale only once, and the second never throws, even after the first threw |
| `DpiAwareProperties.AdjustRoundTrip` | Salar.DpiAware/HDpiForm.cs:122-133 | for a font of positive size and DPIs of one sign, a to b followed by b to a succeeds twice and restores the font exactly; the two logged factors multiply to 1 |
| `DpiAwareProperties.ZeroDpiIsNotGuarded` | Salar.DpiAware/HDpiForm.cs:120-133 | a reported DPI of 0 after a nonzero one commits old := 0 and scales by 0, then throws from the font constructor with the font and events unchanged |
| `DpiAwareProperties.LeftTopFitKeepsLocation` | Salar.DpiAware/HDpiForm.cs:153-160 | when the Left-Top candidate fits, the window does not move |
| `DpiAwareProperties.RightTopIsSecond` | Salar.DpiAware/HDpiForm.cs:162-209 | when Left-Top does not fit and Right-Top does, the window's top-left moves to the Right-Top candidate's (left - dw, top) and its size is kept, whatever the later candidates say |
| `DpiAwareProperties.NoFitLeavesWindow` | Salar.DpiAware/HDpiForm.cs:189-213 | with no fitting candidate the window stays and nothing is marked pending |
| `DpiAwareProperties.SameDpiNeverMoves` | Salar.DpiAware/HDpiForm.cs:145-187 | when old equals new, every candidate is the current bounds, so the window cannot move |
| `DpiAwareProperties.SameDpiMessageIsQuiet` | Salar.DpiAware/HDpiForm.cs:69-81 | a WM_DPICHANGED for the DPI the form already has causes no move, no scaling and no event |
| `DpiAwareProperties.MessageFailureKeepsWindow` | Salar.DpiAware/HDpiForm.cs:78-81 | an aborted message has recorded the new DPI and changed neither the font nor the events; either the DPI query threw and the window and the old DPI are untouched, or the font constructor threw after the commit and one scale by a non-positive factor |
| `DpiAwareProperties.Scenario96To144` | Salar.DpiAware/HDpiForm.cs:122-149 | an 800x600 client at 96 receiving 144 grows by 400x300 with factor 1.5; the adjustment does not throw, the font grows by half, old becomes 144 and one event carries 1.5 |
| `DpiAwareProperties.NeverDeferred` | Salar.DpiAware/HDpiForm.cs:34 | across any sequence of events `_willBeAdjusted` stays false |
| `DpiAwareProperties.MoveIsInert` | Salar.DpiAware/HDpiForm.cs:93-101 | with nothing pending, a Move event only records the new bounds |
| `DpiAwareProperties.ReplayStaysSynced` | Salar.DpiAware/HDpiForm.cs:104-137 | every run of events that does not throw ends with old == 0 or old == new |
| `DpiAwareProperties.PreEightOneNeverScales` | Salar.DpiAware/HDpiForm.cs:65 | before Windows 8.1 no run of events scales, changes the font or fires an event |
| `DpiAwareProperties.DesignModeIsInert` | Salar.DpiAware/HDpiForm.cs:62 | in the designer no run of events changes the DPI state, the font or the logs |

## Left out

- P/Invoke bindings: `MonitorFromWindow`, `MonitorFromRect`, `MonitorFromPoint` and `GetDpiForMonitor` have no bodies here. They are the fields of the `Screen` oracle passed to each handler.
- `LoadLibrary`, `GetProcAddress`, `FreeLibrary` and `CallEnableNonClientDpiScaling`: foreign function-pointer marshalling that HDpiForm never calls.
- `GetDpiDeviceMonitor`, `GetDC`, `ReleaseDC` and `GetDeviceCaps`: device-context handling that nothing calls.
- `GetVersion` and `IsEightOneOrNewer`: floating-point arithmetic on the OS version. They are the single flag `Config.eightOneOrNewer`.
- Designer detection (`DesignMode`, `LicenseManager`) and the `AutoScaleDimensions`/`AutoScaleMode` assignments in the constructor and in `MainForm_Load`: WinForms internals. The designer flag and `CurrentAutoScaleDimensions.Width` are constants of `Config`, and `MainForm_Load` is represented by its call to `AdjustWindowInitial`.
- `Control.Scale`: recorded only as the factor appended to the scale log. The effect on child controls and on `ClientSize` is WinForms-internal, so the model keeps the client size and bounds as they were.
- The `Font` object: only the size is computed; family, style and unit are carried unchanged. The constructor's `ArgumentException` is modelled for a size that is not positive; its other refusal, a size above `float.MaxValue`, cannot arise with exact reals.
- `OnDpiChange` subscribers: one boolean says whether a handler is attached. Several subscribers, and subscribing or unsubscribing while the program runs, are not modelled.
- The `Move` event that assigning `Location` raises: inside `MoveWindow` that handler does nothing in any case, because `_willBeAdjusted` is always false.
- `base.WndProc` and `m.WParam.ToInt32()` overflow on 64-bit pointers: `wParam` is taken as a 32-bit value.
- Floating-point rounding: `factor`, `Font.Size * factor` and `(float)dpiX` are exact reals here.
- 32-bit overflow of `Bounds.Right + widthDiff` and the other edge sums: the model uses unbounded integers.
- The host's behaviour after an unhandled exception: `Replay` stops at the first event that throws.
