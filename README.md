# Borderless Flutter host window (Windows runner)

A Dafny model of `windows/runner/flutter_window.cpp`, the Win32 window that hosts
the Flutter engine and turns it into a borderless but resizable window. Three
pieces of behaviour are modelled and proved:

- **Resize hit-test.** On `WM_NCHITTEST` the window decodes the pointer position
  from `lparam` and answers one of eight resize codes when the pointer lies in the
  8-pixel strip along an edge. Otherwise the message goes on to the base handler.
  (`Chrome.HitTest`, `Chrome.PointOf`)
- **Borderless style.** At creation the `GWL_STYLE` word loses
  `WS_OVERLAPPEDWINDOW` and `WS_DLGFRAME` and gains `WS_POPUP | WS_THICKFRAME`.
  (`Chrome.RewriteStyle`, `Chrome.IsBorderlessOf`)
- **Window actions and handler order.** The `custom_window_controls` channel
  handler maps the method names `close`, `minimize`, `maximize` and `startDrag`
  to window actions and one reply each (`Actions.Dispatch`). A stream of calls
  is handled one call at a time (`Actions.Run`). The window procedure
  asks the engine's pre-handler first, then the hit-test, then the base handler
  (`Runner.Route`).

Modules:

- `Wrappers`: the `Option` type.
- `Win32`: the style bits, hit-test codes and message numbers, plus the
  `LOWORD`/`HIWORD`/`MAKELPARAM` macros and the `(short)`/`(WORD)` casts.
- `Chrome`: the hit-test, the coordinate decoding and the style rewrite.
- `Actions`: the channel dispatcher over an abstract window state.
- `Runner`: the `FlutterWindow` class with its hooks.

The model treats the outside world like this:

- The engine controller appears only as the `hasController` flag.
- The answers of the controller's pre-handler, of the base
  `Win32Window::MessageHandler` and of `GetWindowRect` are parameters.
- The Win32 calls in the action handler (`PostMessage`, `ShowWindow`, `IsZoomed`,
  `ReleaseCapture`, `SendMessage`) are transitions of `Actions.WindowState`. That
  state holds the show state, the count of posted `WM_CLOSE` messages, the
  pointer-capture flag and the drag-started flag.

`LPARAM` is taken as 64 bits wide (`bv64`), as on 64-bit Windows. The style word
is a `bv32`. Rectangle coordinates are `LONG` values (`Win32.Long`).

Line 85 dereferences `flutter_controller_` without the null check used at
line 74. The model follows the code. Without a controller, `Runner.Route` sends
`WM_FONTCHANGE` to a `NullControllerDereference` answer, for which the handler
returns nothing (`Runner.FontChangeIsUnguarded`).

## Model

| member | source | states |
|---|---|---|
| `Win32.ShortOf` | windows/runner/flutter_window.cpp:91-92 | the `(short)` cast of a word lies in [-32768, 32767] and is negative exactly when bit 15 is set |
| `Win32.WordOf` | windows/runner/flutter_window.cpp:91-92 | turning a short back into its 16-bit pattern is a right inverse of `ShortOf`: `ShortOf(WordOf(v)) == v` |
| `Win32.WordOfShortOf` | windows/runner/flutter_window.cpp:91-92 | and a left inverse: reading a word as a short and writing it back gives the same word, `WordOf(ShortOf(w)) == w` |
| `Chrome.PointOf` | windows/runner/flutter_window.cpp:91-92 | x and y each lie in [-32768, 32767], and their 16-bit patterns are the low and the high word of `lparam` |
| `Chrome.PointOfReencodes` | windows/runner/flutter_window.cpp:91-92 | re-encoding the decoded x and y as words gives back the low 32 bits of `lparam` |
| `Chrome.PointOfMakeLParam` | windows/runner/flutter_window.cpp:91-92 | every point of the 16-bit grid decodes back to itself from the `lparam` built for it |
| `Chrome.HitCode.Code` | windows/runner/flutter_window.cpp:96-111 | each answer maps to a Win32 resize code between `HTLEFT` and `HTBOTTOMRIGHT`, never `HTCAPTION` |
| `Chrome.CodeInjective` | windows/runner/flutter_window.cpp:96-111 | different answers give different LRESULT values |
| `Chrome.HitTest` | windows/runner/flutter_window.cpp:88-113 | the answer is a table lookup on two separate decisions, as `GridCell(ColumnOf, RowOf)`: column left-first, row top-first, no answer when both are inner |
| `Chrome.CornersBeatEdges` | windows/runner/flutter_window.cpp:94-107 | a point in a column strip and a row strip gets the corner code, never an edge code; top beats bottom and left beats right |
| `Chrome.LeftBeatsRight` | windows/runner/flutter_window.cpp:94-101 | a point in the left strip always gets a left-side code |
| `Chrome.NarrowWindowOverlap` | windows/runner/flutter_window.cpp:94-101 | in a window narrower than 16 px, a point in both column strips never gets a right-side code |
| `Chrome.ColumnIgnoresRowRange` | windows/runner/flutter_window.cpp:99-107 | a point in a column strip and in neither row strip gets `HTLEFT` or `HTRIGHT`, even when y is outside the window |
| `Chrome.NoCodeExactly` | windows/runner/flutter_window.cpp:94-113 | there is no code exactly when the point is in none of the four strips |
| `Chrome.HalfOpenStrips` | windows/runner/flutter_window.cpp:94-112 | `x = left+8`, `x = right`, `y = top+8` and `y = bottom` lie outside their strips and never get that side's code |
| `Chrome.SingleEdge` | windows/runner/flutter_window.cpp:94-112 | a point in exactly one strip gets that edge's code |
| `Chrome.SymmetricLeftRight` | windows/runner/flutter_window.cpp:88-107 | the border is the same on both sides: in a window at least 16 px wide, mirroring x left-to-right mirrors the answer |
| `Chrome.SymmetricTopBottom` | windows/runner/flutter_window.cpp:88-112 | likewise top-to-bottom in a window at least 16 px tall |
| `Chrome.Scenario` | windows/runner/flutter_window.cpp:88-112 | the answers for five points of an 800x600 window at the origin |
| `Chrome.RewriteStyle` | windows/runner/flutter_window.cpp:41-44 | `WS_POPUP` and `WS_THICKFRAME` are set; `WS_BORDER`, `WS_DLGFRAME`, `WS_SYSMENU` and both boxes are clear; every bit outside `WS_OVERLAPPEDWINDOW`, `WS_DLGFRAME` and `WS_POPUP` is unchanged |
| `Chrome.BorderlessUnique` | windows/runner/flutter_window.cpp:42-44 | those conditions fix the new style completely |
| `Chrome.BorderlessIdempotent` | windows/runner/flutter_window.cpp:42-44 | a borderless style rewrites to itself, so rewriting twice equals rewriting once |
| `Chrome.BorderlessHasNoCaption` | windows/runner/flutter_window.cpp:42-44 | no `WS_CAPTION` bit is left, and `WS_THICKFRAME` is the only `WS_OVERLAPPEDWINDOW` bit left |
| `Actions.Dispatch` | windows/runner/flutter_window.cpp:120-144 | the reply is `Success` exactly for the four known names; any other name gives `NotImplemented` and leaves the state unchanged |
| `Actions.CloseAddsOneRequest` | windows/runner/flutter_window.cpp:125-127 | `close` adds exactly one pending close request and changes nothing else |
| `Actions.MinimizeMinimizes` | windows/runner/flutter_window.cpp:128-130 | `minimize` minimizes the window and changes nothing else |
| `Actions.MaximizeToggles` | windows/runner/flutter_window.cpp:131-137 | `maximize` flips the zoom flag and changes only the show state |
| `Actions.MaximizeTwice` | windows/runner/flutter_window.cpp:131-137 | two `maximize` calls give back the original zoom flag, and the original state when the window was not minimized |
| `Actions.StartDragStartsDrag` | windows/runner/flutter_window.cpp:138-141 | `startDrag` releases the capture and starts a caption drag; the show state and close requests are unchanged |
| `Actions.ExactNames` | windows/runner/flutter_window.cpp:125-143 | names match exactly: `Close`, `maximize ` and the empty name are not implemented |
| `Actions.Run` | windows/runner/flutter_window.cpp:53-56 | the registered handler answers a stream of calls one at a time: one reply per call, in order, and each reply is `Success` exactly when its name is known |
| `Actions.RunCountsCloses` | windows/runner/flutter_window.cpp:125-127 | after a stream of calls, the pending close requests have grown by exactly the number of `close` calls |
| `Actions.RunIgnoresUnknown` | windows/runner/flutter_window.cpp:142-143 | a stream of unknown names leaves the window state unchanged |
| `Actions.RunMaximizeParity` | windows/runner/flutter_window.cpp:131-137 | after n `maximize` calls the zoom flag is flipped exactly when n is odd |
| `Runner.Route` | windows/runner/flutter_window.cpp:74-117 | the pre-handler answers exactly when there is a controller and it returns a value. The hit-test answers exactly when it does not, the message is `WM_NCHITTEST` and there is a code. `WM_FONTCHANGE` without a controller reaches the null-controller dereference and nothing is returned. Otherwise the base handler answers, after a font reload exactly for `WM_FONTCHANGE` |
| `Runner.PreHandlerPrecedence` | windows/runner/flutter_window.cpp:74-81 | a value from the pre-handler is returned unchanged, whatever the rectangle, the `lparam` and the base handler's answer |
| `Runner.UnclassifiedHitTestFallsThrough` | windows/runner/flutter_window.cpp:87-117 | a hit-test message with no code, not pre-handled, returns the base handler's answer |
| `Runner.OtherMessagesGoToBase` | windows/runner/flutter_window.cpp:83-117 | any other message that is not pre-handled goes straight to the base handler |
| `Runner.FontChangeIsUnguarded` | windows/runner/flutter_window.cpp:84-86 | there is no guard: without a controller `WM_FONTCHANGE` dereferences the absent controller and returns nothing; with one, the fonts are reloaded and the base handler answers |
| `Runner.FlutterWindow.constructor` | windows/runner/flutter_window.cpp:7-8 | a new window has no controller yet |
| `Runner.FlutterWindow.OnCreate` | windows/runner/flutter_window.cpp:12-47 | creation succeeds exactly when both the base window and the engine are set up. A controller exists once the base window is created. The style is rewritten to borderless only on success and is kept otherwise |
| `Runner.FlutterWindow.OnDestroy` | windows/runner/flutter_window.cpp:61-67 | the controller is released; style and window state are unchanged |
| `Runner.FlutterWindow.MessageHandler` | windows/runner/flutter_window.cpp:69-118 | returns the LRESULT of the route `Route` selects, or nothing on the null-controller dereference |
| `Runner.FlutterWindow.HandlePlatformChannel` | windows/runner/flutter_window.cpp:120-144 | the new window state and the single reply are those of `Dispatch`; controller and style are unchanged |

## Left out

- Flutter controller lifecycle (lines 17-37): constructing the view controller
  sized to the client area, `RegisterPlugins`, `SetChildContent`,
  `SetNextFrameCallback` and `ForceRedraw` are calls into the engine library. Their
  only trace in the model is the `engineReady` input of `OnCreate`.
- `WM_FONTCHANGE` (line 85): the `ReloadSystemFonts` call is foreign. The model
  records only that this case is taken, as `Answer.FromBase(true)`. The crash
  caused by the null dereference without a controller is reduced to the
  `NullControllerDereference` answer, for which nothing is returned.
- Method-channel creation and the codec (lines 49-56), and the `arguments`
  parameter, which the handler never reads.
- Real Win32 effects: `SetWindowLong`/`SetWindowPos` just store the style word.
  Showing, minimizing and maximizing change only the abstract show state, not
  the window rectangle. The caption drag after `startDrag` (the modal move loop
  that `WM_NCLBUTTONDOWN` with `HTCAPTION` starts) is reduced to the
  `dragStarted` flag.
- `Actions.WindowState` does not remember which show state a minimized window
  returns to when it is restored. No action here restores a minimized window, so
  none of the modelled behaviour depends on it.
- `Chrome.HitTest`: the strip bounds `left + 8`, `right - 8`, `top + 8` and
  `bottom - 8` are computed in unbounded integers. In the C++ code they are
  `LONG` arithmetic, which overflows only for rectangle coordinates within 8 of
  the 32-bit limits.
- `Win32Window` base class behaviour (its `OnCreate`, `OnDestroy` and
  `MessageHandler`): it is not part of this model. Its results are inputs.
- Threading and the render loop: the engine owns them, and this code runs only
  on the UI thread.
