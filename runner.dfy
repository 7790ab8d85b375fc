/**
  The host window of the embedded UI engine: its lifetime hooks, its message
  handler and its handler for the window-action channel. The engine controller,
  the base window class and the Win32 calls are outside the model: the controller
  is represented only by whether it exists, the answers of the controller's
  pre-handler, of the base handler and of GetWindowRect are inputs, and the
  window's OS state is the abstract state of module Actions.
 */
module Runner {
  import opened Wrappers
  import opened Win32
  import opened Chrome
  import opened Actions

  /** Who answered a window message. */
  datatype Answer =
    | FromController(value: int)             // the engine's pre-handler returned a value
    | FromHitTest(code: HitCode)             // the resize hit-test returned a code
    | FromBase(reloadedFonts: bool)          // the base window handler, after asking the engine to reload fonts or not
    | NullControllerDereference              // WM_FONTCHANGE without a controller: the handler dereferences null and never returns

  /**
    The route a message takes through the handler: the controller's pre-handler
    first (when there is a controller), then the font-change and hit-test cases,
    then the base handler. The font-change case uses the controller without
    checking that it exists.
   */
  function Route(hasController: bool, preHandled: Option<int>, message: bv32, window: Rect, lparam: bv64): (a: Answer)
    ensures a.FromController? <==> hasController && preHandled.Some?
    ensures a.FromController? ==> a.value == preHandled.value
    ensures a.FromHitTest? <==>
              !(hasController && preHandled.Some?) && message == WM_NCHITTEST
              && HitTest(window, PointOf(lparam).x, PointOf(lparam).y).Some?
    ensures a.FromHitTest? ==> HitTest(window, PointOf(lparam).x, PointOf(lparam).y) == Some(a.code)
    ensures a.FromBase? ==> (a.reloadedFonts <==> message == WM_FONTCHANGE)
    ensures a.NullControllerDereference? <==> !hasController && message == WM_FONTCHANGE
  {
    if hasController && preHandled.Some? then
      FromController(preHandled.value)
    else if message == WM_FONTCHANGE then
      if hasController then FromBase(true) else NullControllerDereference
    else if message == WM_NCHITTEST then
      var p := PointOf(lparam);
      var h := HitTest(window, p.x, p.y);
      if h.Some? then FromHitTest(h.value) else FromBase(false)
    else
      FromBase(false)
  }

  /**
    The LRESULT the handler returns for an answer, given what the base handler
    returns; None when the handler does not return at all.
   */
  function Result(a: Answer, baseResult: int): Option<int> {
    match a
    case FromController(v) => Some(v)
    case FromHitTest(code) => Some(code.Code())
    case FromBase(_) => Some(baseResult)
    case NullControllerDereference => None
  }

  /** A value from the pre-handler is returned unchanged; the hit-test and the base handler play no part. */
  lemma PreHandlerPrecedence(preValue: int, message: bv32, window: Rect, lparam: bv64, baseResult: int)
    ensures Result(Route(true, Some(preValue), message, window, lparam), baseResult) == Some(preValue)
  {
  }

  /** Without a controller, or when its pre-handler declines, a hit-test message with no code goes to the base handler. */
  lemma UnclassifiedHitTestFallsThrough(hasController: bool, window: Rect, lparam: bv64, baseResult: int)
    requires HitTest(window, PointOf(lparam).x, PointOf(lparam).y).None?
    ensures Route(hasController, None, WM_NCHITTEST, window, lparam) == FromBase(false)
    ensures Result(Route(hasController, None, WM_NCHITTEST, window, lparam), baseResult) == Some(baseResult)
  {
  }

  /** Messages other than WM_NCHITTEST and WM_FONTCHANGE that the pre-handler declines go straight to the base handler. */
  lemma OtherMessagesGoToBase(hasController: bool, preHandled: Option<int>, message: bv32, window: Rect, lparam: bv64)
    requires message != WM_NCHITTEST && message != WM_FONTCHANGE
    requires !(hasController && preHandled.Some?)
    ensures Route(hasController, preHandled, message, window, lparam) == FromBase(false)
  {
  }

  /**
    The font-change case has no guard: with a controller the engine reloads its
    fonts and the base handler answers; without one the handler dereferences a
    null controller and returns nothing.
   */
  lemma FontChangeIsUnguarded(preHandled: Option<int>, window: Rect, lparam: bv64, baseResult: int)
    ensures Route(false, preHandled, WM_FONTCHANGE, window, lparam) == NullControllerDereference
    ensures Result(Route(false, preHandled, WM_FONTCHANGE, window, lparam), baseResult).None?
    ensures Route(true, None, WM_FONTCHANGE, window, lparam) == FromBase(true)
    ensures Result(Route(true, None, WM_FONTCHANGE, window, lparam), baseResult) == Some(baseResult)
  {
  }

  class FlutterWindow {
    /** Whether flutter_controller_ holds a controller. */
    var hasController: bool
    /** The window's GWL_STYLE word. */
    var style: bv32
    var show: ShowState
    var pendingCloses: nat
    var captureHeld: bool
    var dragStarted: bool

    /** The window's OS state as the action channel sees it. */
    function State(): WindowState
      reads this
    {
      WindowState(show, pendingCloses, captureHeld, dragStarted)
    }

    /** A window before creation: no controller yet. */
    constructor (initialStyle: bv32, initial: WindowState)
      ensures !hasController && style == initialStyle && State() == initial
    {
      hasController := false;
      style := initialStyle;
      show := initial.show;
      pendingCloses := initial.pendingCloses;
      captureHeld := initial.captureHeld;
      dragStarted := initial.dragStarted;
    }

    /**
      The creation hook. baseCreated is what the base window's creation returned;
      engineReady says whether the new controller has both an engine and a view.
      Only a fully set-up window has its style rewritten to the borderless one.
     */
    method OnCreate(baseCreated: bool, engineReady: bool) returns (ok: bool)
      modifies this
      ensures ok <==> baseCreated && engineReady
      ensures hasController == (old(hasController) || baseCreated)
      ensures ok ==> IsBorderlessOf(old(style), style)
      ensures !ok ==> style == old(style)
      ensures State() == old(State())
    {
      if !baseCreated {
        return false;
      }
      hasController := true;
      if !engineReady {
        return false;
      }
      var s := style;
      s := RewriteStyle(s);
      style := s;
      ok := true;
    }

    /** The destruction hook drops the controller before the base teardown. */
    method OnDestroy()
      modifies this
      ensures !hasController
      ensures style == old(style) && State() == old(State())
    {
      if hasController {
        hasController := false;
      }
    }

    /**
      The window procedure. preHandled is what the controller's pre-handler
      answers (consulted only when there is a controller), window is the
      rectangle GetWindowRect reports, baseResult is the base handler's answer.
      The result is None when the call never returns.
     */
    method MessageHandler(message: bv32, lparam: bv64, preHandled: Option<int>, window: Rect, baseResult: int)
      returns (result: Option<int>)
      ensures result == Result(Route(hasController, preHandled, message, window, lparam), baseResult)
    {
      if hasController {
        if preHandled.Some? {
          return Some(preHandled.value);
        }
      }
      if message == WM_FONTCHANGE {
        if !hasController {
          // the font reload goes through the absent controller
          return None;
        }
      } else if message == WM_NCHITTEST {
        var p := PointOf(lparam);
        var h := HitTest(window, p.x, p.y);
        if h.Some? {
          return Some(h.value.Code());
        }
      }
      result := Some(baseResult);
    }

    /** The method-channel handler: one reply per call, and the window actions on the OS state. */
    method HandlePlatformChannel(name: string) returns (reply: Reply)
      modifies this
      ensures (State(), reply) == Dispatch(old(State()), name)
      ensures hasController == old(hasController) && style == old(style)
    {
      if name == "close" {
        pendingCloses := pendingCloses + 1;
        reply := Success;
      } else if name == "minimize" {
        show := Minimized;
        reply := Success;
      } else if name == "maximize" {
        if show == Maximized {
          show := Restored;
        } else {
          show := Maximized;
        }
        reply := Success;
      } else if name == "startDrag" {
        captureHeld := false;
        dragStarted := true;
        reply := Success;
      } else {
        reply := NotImplemented;
      }
    }
  }
}
