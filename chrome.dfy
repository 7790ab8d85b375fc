/**
  The chrome customisation of the borderless window: the answer to WM_NCHITTEST
  that gives the window back its resize edges, the decoding of the pointer
  position carried in the message's LPARAM, and the rewrite of the window-style
  bits done once at creation.
 */
module Chrome {
  import opened Wrappers
  import opened Win32

  // ---------------------------------------------------------------------------
  // Pointer position carried by WM_NCHITTEST
  // ---------------------------------------------------------------------------

  datatype Point = Point(x: int, y: int)

  /** The screen position of a hit-test message: the sign-extended low word is x, the high word is y. */
  function PointOf(lparam: bv64): (p: Point)
    ensures -0x8000 <= p.x < 0x8000 && -0x8000 <= p.y < 0x8000
    ensures WordOf(p.x) == LoWord(lparam) && WordOf(p.y) == HiWord(lparam)
  {
    WordOfShortOf(LoWord(lparam));
    WordOfShortOf(HiWord(lparam));
    Point(ShortOf(LoWord(lparam)), ShortOf(HiWord(lparam)))
  }

  /** Re-encoding the decoded position as two words gives back the low 32 bits of the LPARAM. */
  lemma PointOfReencodes(lparam: bv64)
    ensures MakeLParam(WordOf(PointOf(lparam).x), WordOf(PointOf(lparam).y)) == lparam & 0xFFFF_FFFF
  {
  }

  /** Every position on the 16-bit screen grid is decoded from the LPARAM that MAKELPARAM builds for it. */
  lemma PointOfMakeLParam(p: Point)
    requires -0x8000 <= p.x < 0x8000 && -0x8000 <= p.y < 0x8000
    ensures PointOf(MakeLParam(WordOf(p.x), WordOf(p.y))) == p
  {
  }

  // ---------------------------------------------------------------------------
  // Resize hit-test
  // ---------------------------------------------------------------------------

  /** Width in pixels of the resize strip along each edge. */
  const BorderWidth: int := 8

  /** The window rectangle in screen coordinates, as GetWindowRect fills it. */
  datatype Rect = Rect(left: Long, top: Long, right: Long, bottom: Long)

  /** The eight resize answers. */
  datatype HitCode = TopLeft | BottomLeft | Left | TopRight | BottomRight | Right | Top | Bottom {
    /** The LRESULT value returned to Windows for this answer. */
    function Code(): (c: int)
      ensures HTLEFT <= c <= HTBOTTOMRIGHT && c != HTCAPTION
    {
      match this
      case TopLeft => HTTOPLEFT
      case BottomLeft => HTBOTTOMLEFT
      case Left => HTLEFT
      case TopRight => HTTOPRIGHT
      case BottomRight => HTBOTTOMRIGHT
      case Right => HTRIGHT
      case Top => HTTOP
      case Bottom => HTBOTTOM
    }

    predicate IsLeftSide() { this == TopLeft || this == BottomLeft || this == Left }
    predicate IsRightSide() { this == TopRight || this == BottomRight || this == Right }
    predicate IsTopSide() { this == TopLeft || this == TopRight || this == Top }
    predicate IsBottomSide() { this == BottomLeft || this == BottomRight || this == Bottom }
  }

  /** Distinct answers are distinct LRESULT values. */
  lemma CodeInjective(a: HitCode, b: HitCode)
    ensures a.Code() == b.Code() <==> a == b
  {
  }

  // The four half-open strips
  predicate InLeftStrip(r: Rect, x: int) { r.left <= x < r.left + BorderWidth }
  predicate InRightStrip(r: Rect, x: int) { r.right - BorderWidth <= x < r.right }
  predicate InTopStrip(r: Rect, y: int) { r.top <= y < r.top + BorderWidth }
  predicate InBottomStrip(r: Rect, y: int) { r.bottom - BorderWidth <= y < r.bottom }

  /** The answer to WM_NCHITTEST for a pointer at (x, y), or None to leave the message to the base handler. */
  function HitTest(r: Rect, x: int, y: int): (h: Option<HitCode>)
    ensures h == GridCell(ColumnOf(r, x), RowOf(r, y))
  {
    if InLeftStrip(r, x) then
      if InTopStrip(r, y) then Some(TopLeft)
      else if InBottomStrip(r, y) then Some(BottomLeft)
      else Some(Left)
    else if InRightStrip(r, x) then
      if InTopStrip(r, y) then Some(TopRight)
      else if InBottomStrip(r, y) then Some(BottomRight)
      else Some(Right)
    else if InTopStrip(r, y) then Some(Top)
    else if InBottomStrip(r, y) then Some(Bottom)
    else None
  }

  // A reference definition of the classifier: one decision per axis, then a table.

  datatype Column = WestColumn | EastColumn | InnerColumn
  datatype Row = NorthRow | SouthRow | InnerRow

  /** Which vertical strip x lies in; the left one wins when both contain x. */
  function ColumnOf(r: Rect, x: int): Column {
    if InLeftStrip(r, x) then WestColumn else if InRightStrip(r, x) then EastColumn else InnerColumn
  }

  /** Which horizontal strip y lies in; the top one wins when both contain y. */
  function RowOf(r: Rect, y: int): Row {
    if InTopStrip(r, y) then NorthRow else if InBottomStrip(r, y) then SouthRow else InnerRow
  }

  function GridCell(c: Column, w: Row): Option<HitCode> {
    match (c, w)
    case (WestColumn, NorthRow) => Some(TopLeft)
    case (WestColumn, SouthRow) => Some(BottomLeft)
    case (WestColumn, InnerRow) => Some(Left)
    case (EastColumn, NorthRow) => Some(TopRight)
    case (EastColumn, SouthRow) => Some(BottomRight)
    case (EastColumn, InnerRow) => Some(Right)
    case (InnerColumn, NorthRow) => Some(Top)
    case (InnerColumn, SouthRow) => Some(Bottom)
    case (InnerColumn, InnerRow) => None
  }

  /** A point in a vertical strip and a horizontal strip gets the corner, never an edge. */
  lemma CornersBeatEdges(r: Rect, x: int, y: int)
    ensures InLeftStrip(r, x) && InTopStrip(r, y) ==> HitTest(r, x, y) == Some(TopLeft)
    ensures InLeftStrip(r, x) && !InTopStrip(r, y) && InBottomStrip(r, y) ==> HitTest(r, x, y) == Some(BottomLeft)
    ensures !InLeftStrip(r, x) && InRightStrip(r, x) && InTopStrip(r, y) ==> HitTest(r, x, y) == Some(TopRight)
    ensures !InLeftStrip(r, x) && InRightStrip(r, x) && !InTopStrip(r, y) && InBottomStrip(r, y)
            ==> HitTest(r, x, y) == Some(BottomRight)
    ensures (InLeftStrip(r, x) || InRightStrip(r, x)) && (InTopStrip(r, y) || InBottomStrip(r, y))
            ==> HitTest(r, x, y).Some? && HitTest(r, x, y).value !in {Left, Right, Top, Bottom}
  {
  }

  /** The left column is tested first: a point in the left strip always gets a left-side answer. */
  lemma LeftBeatsRight(r: Rect, x: int, y: int)
    requires InLeftStrip(r, x)
    ensures HitTest(r, x, y).Some? && HitTest(r, x, y).value.IsLeftSide()
  {
  }

  /** In a narrow window the two vertical strips overlap, and a point in both is answered as left. */
  lemma NarrowWindowOverlap(r: Rect, x: int, y: int)
    requires r.right - r.left < 2 * BorderWidth
    requires InLeftStrip(r, x) && InRightStrip(r, x)
    ensures HitTest(r, x, y).Some? && !HitTest(r, x, y).value.IsRightSide()
  {
  }

  /** A point in a vertical strip but in no horizontal strip is a plain side edge, whatever its y, even outside the window. */
  lemma ColumnIgnoresRowRange(r: Rect, x: int, y: int)
    requires InLeftStrip(r, x) || InRightStrip(r, x)
    requires !InTopStrip(r, y) && !InBottomStrip(r, y)
    ensures HitTest(r, x, y) == Some(if InLeftStrip(r, x) then Left else Right)
  {
  }

  /** A point in no strip gets no answer, and only such a point. */
  lemma NoCodeExactly(r: Rect, x: int, y: int)
    ensures HitTest(r, x, y).None? <==>
            !InLeftStrip(r, x) && !InRightStrip(r, x) && !InTopStrip(r, y) && !InBottomStrip(r, y)
  {
  }

  /** The inner bounds of the strips are excluded: the pixel just past each strip gets no answer for that side. */
  lemma HalfOpenStrips(r: Rect, x: int, y: int)
    ensures !InLeftStrip(r, r.left + BorderWidth) && !InRightStrip(r, r.right)
    ensures !InTopStrip(r, r.top + BorderWidth) && !InBottomStrip(r, r.bottom)
    ensures HitTest(r, r.left + BorderWidth, y).Some? ==> !HitTest(r, r.left + BorderWidth, y).value.IsLeftSide()
    ensures HitTest(r, r.right, y).Some? ==> !HitTest(r, r.right, y).value.IsRightSide()
    ensures HitTest(r, x, r.top + BorderWidth).Some? ==> !HitTest(r, x, r.top + BorderWidth).value.IsTopSide()
    ensures HitTest(r, x, r.bottom).Some? ==> !HitTest(r, x, r.bottom).value.IsBottomSide()
  {
  }

  /** Near exactly one edge and away from every corner, the answer is that edge. */
  lemma SingleEdge(r: Rect, x: int, y: int)
    ensures InLeftStrip(r, x) && !InRightStrip(r, x) && !InTopStrip(r, y) && !InBottomStrip(r, y)
            ==> HitTest(r, x, y) == Some(Left)
    ensures !InLeftStrip(r, x) && InRightStrip(r, x) && !InTopStrip(r, y) && !InBottomStrip(r, y)
            ==> HitTest(r, x, y) == Some(Right)
    ensures !InLeftStrip(r, x) && !InRightStrip(r, x) && InTopStrip(r, y) && !InBottomStrip(r, y)
            ==> HitTest(r, x, y) == Some(Top)
    ensures !InLeftStrip(r, x) && !InRightStrip(r, x) && !InTopStrip(r, y) && InBottomStrip(r, y)
            ==> HitTest(r, x, y) == Some(Bottom)
  {
  }

  function MirrorX(r: Rect, x: int): int { r.left + r.right - 1 - x }
  function MirrorY(r: Rect, y: int): int { r.top + r.bottom - 1 - y }

  function SwapLeftRight(h: HitCode): HitCode {
    match h
    case TopLeft => TopRight
    case BottomLeft => BottomRight
    case Left => Right
    case TopRight => TopLeft
    case BottomRight => BottomLeft
    case Right => Left
    case other => other
  }

  function SwapTopBottom(h: HitCode): HitCode {
    match h
    case TopLeft => BottomLeft
    case TopRight => BottomRight
    case Top => Bottom
    case BottomLeft => TopLeft
    case BottomRight => TopRight
    case Bottom => Top
    case other => other
  }

  function MapCode(f: HitCode -> HitCode, h: Option<HitCode>): Option<HitCode> {
    if h.Some? then Some(f(h.value)) else None
  }

  /**
    The same border width is used on every edge: once the window is at least two
    border widths wide, reflecting the pointer left-to-right reflects the answer.
   */
  lemma SymmetricLeftRight(r: Rect, x: int, y: int)
    requires r.right - r.left >= 2 * BorderWidth
    ensures HitTest(r, MirrorX(r, x), y) == MapCode(SwapLeftRight, HitTest(r, x, y))
  {
  }

  /** Likewise top-to-bottom, once the window is at least two border widths tall. */
  lemma SymmetricTopBottom(r: Rect, x: int, y: int)
    requires r.bottom - r.top >= 2 * BorderWidth
    ensures HitTest(r, x, MirrorY(r, y)) == MapCode(SwapTopBottom, HitTest(r, x, y))
  {
  }

  /** An 800 by 600 window at the origin. */
  lemma Scenario()
    ensures HitTest(Rect(0, 0, 800, 600), 3, 3) == Some(TopLeft)
    ensures HitTest(Rect(0, 0, 800, 600), 3, 300) == Some(Left)
    ensures HitTest(Rect(0, 0, 800, 600), 400, 3) == Some(Top)
    ensures HitTest(Rect(0, 0, 800, 600), 797, 597) == Some(BottomRight)
    ensures HitTest(Rect(0, 0, 800, 600), 400, 300) == None
  {
  }

  // ---------------------------------------------------------------------------
  // Borderless style
  // ---------------------------------------------------------------------------

  /** The bits the rewrite clears. */
  const ClearedBits: bv32 := WS_OVERLAPPEDWINDOW | WS_DLGFRAME
  /** The bits the rewrite sets. */
  const AddedBits: bv32 := WS_POPUP | WS_THICKFRAME
  /** Every bit the rewrite may touch. */
  const TouchedBits: bv32 := ClearedBits | AddedBits

  /**
    after is the borderless style made from before: popup and thick frame set,
    caption, both frame bits, system menu and the two boxes clear, every other
    bit as it was.
   */
  predicate IsBorderlessOf(before: bv32, after: bv32) {
    && after & AddedBits == AddedBits
    && after & (WS_BORDER | WS_DLGFRAME | WS_SYSMENU | WS_MINIMIZEBOX | WS_MAXIMIZEBOX) == 0
    && after & !TouchedBits == before & !TouchedBits
  }

  /** The three updates of the style word done at window creation. */
  method RewriteStyle(style: bv32) returns (s: bv32)
    ensures IsBorderlessOf(style, s)
  {
    s := style;
    s := s & !WS_OVERLAPPEDWINDOW;
    s := s & !WS_DLGFRAME;
    s := s | WS_POPUP | WS_THICKFRAME;
  }

  /** The predicate determines the new style: there is one borderless style for each old one. */
  lemma BorderlessUnique(before: bv32, a: bv32, b: bv32)
    requires IsBorderlessOf(before, a) && IsBorderlessOf(before, b)
    ensures a == b
  {
  }

  /** A borderless style is its own rewrite, so rewriting twice gives the same as once. */
  lemma BorderlessIdempotent(before: bv32, after: bv32)
    requires IsBorderlessOf(before, after)
    ensures IsBorderlessOf(after, after)
  {
  }

  /** The borderless style has no title bar: neither half of WS_CAPTION is left. */
  lemma BorderlessHasNoCaption(before: bv32, after: bv32)
    requires IsBorderlessOf(before, after)
    ensures after & WS_CAPTION == 0
    ensures after & WS_OVERLAPPEDWINDOW == WS_THICKFRAME
  {
  }
}
