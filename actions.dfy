/**
  The window actions the hosted UI asks for over the "custom_window_controls"
  method channel, stated over an abstract view of the window's OS state.
 */
module Actions {

  /** How the window is shown; IsZoomed is true exactly when it is maximized. */
  datatype ShowState = Restored | Maximized | Minimized

  /**
    The part of the window's OS state the actions change: its show state, the
    number of WM_CLOSE messages posted and not yet handled, whether the pointer is
    captured, and whether a caption drag has been started.
   */
  datatype WindowState = WindowState(show: ShowState, pendingCloses: nat, captureHeld: bool, dragStarted: bool) {
    predicate IsZoomed() { show == Maximized }
  }

  /** The one reply sent back over the channel for each call. */
  datatype Reply = Success | NotImplemented

  predicate IsKnownMethod(name: string) {
    name == "close" || name == "minimize" || name == "maximize" || name == "startDrag"
  }

  /** The new window state and the reply for a call of the named method. */
  function Dispatch(w: WindowState, name: string): (r: (WindowState, Reply))
    ensures r.1 == Success <==> IsKnownMethod(name)
    ensures !IsKnownMethod(name) ==> r.0 == w
  {
    if name == "close" then
      (w.(pendingCloses := w.pendingCloses + 1), Success)
    else if name == "minimize" then
      (w.(show := Minimized), Success)
    else if name == "maximize" then
      (w.(show := if w.IsZoomed() then Restored else Maximized), Success)
    else if name == "startDrag" then
      (w.(captureHeld := false, dragStarted := true), Success)
    else
      (w, NotImplemented)
  }

  /** "close" posts exactly one close request and changes nothing else. */
  lemma CloseAddsOneRequest(w: WindowState)
    ensures Dispatch(w, "close").0.pendingCloses == w.pendingCloses + 1
    ensures Dispatch(w, "close").0.(pendingCloses := w.pendingCloses) == w
  {
  }

  /** "minimize" minimizes the window and changes nothing else. */
  lemma MinimizeMinimizes(w: WindowState)
    ensures Dispatch(w, "minimize").0 == w.(show := Minimized)
    ensures !Dispatch(w, "minimize").0.IsZoomed()
  {
  }

  /** "maximize" flips the zoom flag and changes nothing but the show state. */
  lemma MaximizeToggles(w: WindowState)
    ensures Dispatch(w, "maximize").0.IsZoomed() == !w.IsZoomed()
    ensures Dispatch(w, "maximize").0.(show := w.show) == w
  {
  }

  /** Two "maximize" calls in a row give the zoom flag back its first value. */
  lemma MaximizeTwice(w: WindowState)
    ensures Dispatch(Dispatch(w, "maximize").0, "maximize").0.IsZoomed() == w.IsZoomed()
    ensures w.show != Minimized ==> Dispatch(Dispatch(w, "maximize").0, "maximize").0 == w
  {
  }

  /** "startDrag" drops the pointer capture, then starts a caption drag; the show state and close requests are kept. */
  lemma StartDragStartsDrag(w: WindowState)
    ensures !Dispatch(w, "startDrag").0.captureHeld && Dispatch(w, "startDrag").0.dragStarted
    ensures Dispatch(w, "startDrag").0.show == w.show
    ensures Dispatch(w, "startDrag").0.pendingCloses == w.pendingCloses
  {
  }

  /** Names are matched exactly: a different case or a trailing blank is not a known method. */
  lemma ExactNames(w: WindowState)
    ensures Dispatch(w, "Close") == (w, NotImplemented)
    ensures Dispatch(w, "maximize ") == (w, NotImplemented)
    ensures Dispatch(w, "") == (w, NotImplemented)
  {
  }

  // ---------------------------------------------------------------------------
  // A stream of channel calls, each handled to completion before the next
  // ---------------------------------------------------------------------------

  /** The final state and the replies, in order, for a sequence of calls. */
  function Run(w: WindowState, names: seq<string>): (r: (WindowState, seq<Reply>))
    ensures |r.1| == |names|
    ensures forall i :: 0 <= i < |names| ==> (r.1[i] == Success <==> IsKnownMethod(names[i]))
    ensures r.0.pendingCloses >= w.pendingCloses
    decreases names
  {
    if names == [] then
      (w, [])
    else
      var first := Dispatch(w, names[0]);
      var rest := Run(first.0, names[1..]);
      (rest.0, [first.1] + rest.1)
  }

  /** How many of the names are exactly name. */
  function Occurrences(names: seq<string>, name: string): nat {
    if names == [] then 0 else (if names[0] == name then 1 else 0) + Occurrences(names[1..], name)
  }

  /** Every "close" in a stream posts one close request, and nothing else posts any. */
  lemma {:induction false} RunCountsCloses(w: WindowState, names: seq<string>)
    ensures Run(w, names).0.pendingCloses == w.pendingCloses + Occurrences(names, "close")
    decreases names
  {
    if names != [] {
      RunCountsCloses(Dispatch(w, names[0]).0, names[1..]);
    }
  }

  /** A stream of unknown names leaves the window state as it was. */
  lemma {:induction false} RunIgnoresUnknown(w: WindowState, names: seq<string>)
    requires forall i :: 0 <= i < |names| ==> !IsKnownMethod(names[i])
    ensures Run(w, names).0 == w
    decreases names
  {
    if names != [] {
      RunIgnoresUnknown(w, names[1..]);
    }
  }

  /** A stream made only of "maximize" calls leaves the zoom flag flipped exactly when its length is odd. */
  lemma {:induction false} RunMaximizeParity(w: WindowState, names: seq<string>)
    requires forall i :: 0 <= i < |names| ==> names[i] == "maximize"
    ensures Run(w, names).0.IsZoomed() == (if |names| % 2 == 0 then w.IsZoomed() else !w.IsZoomed())
    decreases names
  {
    if names != [] {
      RunMaximizeParity(Dispatch(w, names[0]).0, names[1..]);
    }
  }
}
