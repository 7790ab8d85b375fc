/**
  The few values and macros of the Windows API that the window shell reads or
  writes: window-style bits, hit-test codes, message numbers, and the macros that
  split an LPARAM into 16-bit words.
 */
module Win32 {

  /** A Win32 LONG: a signed 32-bit integer. */
  type Long = x: int | -0x8000_0000 <= x < 0x8000_0000

  // Window style bits (GWL_STYLE)
  const WS_OVERLAPPED: bv32 := 0x0000_0000
  const WS_POPUP: bv32 := 0x8000_0000
  const WS_BORDER: bv32 := 0x0080_0000
  const WS_DLGFRAME: bv32 := 0x0040_0000
  const WS_CAPTION: bv32 := WS_BORDER | WS_DLGFRAME
  const WS_SYSMENU: bv32 := 0x0008_0000
  const WS_THICKFRAME: bv32 := 0x0004_0000
  const WS_MINIMIZEBOX: bv32 := 0x0002_0000
  const WS_MAXIMIZEBOX: bv32 := 0x0001_0000
  const WS_OVERLAPPEDWINDOW: bv32 :=
    WS_OVERLAPPED | WS_CAPTION | WS_SYSMENU | WS_THICKFRAME | WS_MINIMIZEBOX | WS_MAXIMIZEBOX

  // Hit-test codes answered to WM_NCHITTEST
  const HTCAPTION: int := 2
  const HTLEFT: int := 10
  const HTRIGHT: int := 11
  const HTTOP: int := 12
  const HTTOPLEFT: int := 13
  const HTTOPRIGHT: int := 14
  const HTBOTTOM: int := 15
  const HTBOTTOMLEFT: int := 16
  const HTBOTTOMRIGHT: int := 17

  // Message numbers
  const WM_FONTCHANGE: bv32 := 0x001D
  const WM_NCHITTEST: bv32 := 0x0084

  /** LOWORD on a 64-bit LPARAM: bits 0..15. */
  function LoWord(lparam: bv64): bv16 {
    (lparam & 0xFFFF) as bv16
  }

  /** HIWORD on a 64-bit LPARAM: bits 16..31. */
  function HiWord(lparam: bv64): bv16 {
    ((lparam >> 16) & 0xFFFF) as bv16
  }

  /** MAKELPARAM: the low word in bits 0..15, the high word in bits 16..31, the rest zero. */
  function MakeLParam(lo: bv16, hi: bv16): (lparam: bv64)
    ensures LoWord(lparam) == lo && HiWord(lparam) == hi
    ensures lparam >> 32 == 0
  {
    ((hi as bv64) << 16) | (lo as bv64)
  }

  /** The C cast `(short)w`: the 16-bit word read as a two's-complement number. */
  function ShortOf(w: bv16): (v: int)
    ensures -0x8000 <= v < 0x8000
    ensures v < 0 <==> w & 0x8000 != 0
  {
    if w < 0x8000 then w as int else w as int - 0x1_0000
  }

  /** The C cast `(WORD)v` of a short value: its two's-complement bit pattern. */
  function WordOf(v: int): (w: bv16)
    requires -0x8000 <= v < 0x8000
    ensures ShortOf(w) == v
  {
    var u := if v < 0 then v + 0x1_0000 else v;
    WordValue(u);
    u as bv16
  }

  /** Reading a word as a short and writing it back gives the same word. */
  lemma WordOfShortOf(w: bv16)
    ensures WordOf(ShortOf(w)) == w
  {
    WordValue(w as int);
  }

  /** A number in [0, 2^16) converted to a word keeps its value. */
  lemma WordValue(u: int)
    requires 0 <= u < 0x1_0000
    ensures (u as bv16) as int == u
  {
    WordValueModulo(u);
    SmallModulo(u);
  }

  lemma WordValueModulo(u: int)
    requires 0 <= u < 0x1_0000
    ensures (u as bv16) as int == u % 0x1_0000
  {
  }

  lemma SmallModulo(u: int)
    requires 0 <= u < 0x1_0000
    ensures u % 0x1_0000 == u
  {
  }
}
