/**
  The Win32 arithmetic and window-geometry bookkeeping that both Windows adapters
  (web_view_windows.cpp and web_view_windows_v3.cpp) perform: `MulDiv` scaling, the
  window-style bit masks, the snapshot taken when entering fullscreen, its exact
  restoration when leaving, and the rescaling of that snapshot on a DPI change.
 */
module Win32 {

  import opened Native

  const Int32Max: int := 0x7FFF_FFFF

  /** `USER_DEFAULT_SCREEN_DPI`: the DPI at which a window size is given in pixels unscaled. */
  const UserDefaultScreenDpi: int := 96

  /** C integer division, which truncates toward zero (Dafny's `/` is Euclidean). */
  function CDiv(a: int, b: int): (q: int)
    requires b != 0
    ensures b > 0 && a >= 0 ==> q == a / b
    ensures b > 0 && a < 0 ==> q == -((-a) / b)
  {
    if a >= 0 then (if b > 0 then a / b else -(a / -b))
    else (if b > 0 then -((-a) / b) else (-a) / (-b))
  }

  /**
    Win32 `MulDiv(number, numerator, denominator)`: the 64-bit product divided by the
    denominator and rounded to the nearest integer, halves away from zero; -1 when the
    denominator is 0 or the result does not fit in 32 bits.
   */
  function MulDiv(number: int, numerator: int, denominator: int): (r: int)
    ensures denominator == 0 ==> r == -1
    ensures -Int32Max <= r <= Int32Max
  {
    if denominator == 0 then -1
    else
      var m := if denominator < 0 then -number else number;
      var d := if denominator < 0 then -denominator else denominator;
      var ret := if (m < 0 && numerator < 0) || (m >= 0 && numerator >= 0)
        then CDiv(m * numerator + d / 2, d)
        else CDiv(m * numerator - d / 2, d);
      if ret > Int32Max || ret < -Int32Max then -1 else ret
  }

  lemma MulAtLeast(k: int, c: int)
    requires c > 0
    ensures k >= 1 ==> k * c >= c
    ensures k <= -1 ==> k * c <= -c
  {
    if k <= -1 {
      assert k * c == -((-k) * c);
    }
  }

  /** Adding less than one divisor to a multiple of it does not change the quotient. */
  lemma DivOfMultiplePlusSmall(x: nat, c: int, e: nat)
    requires c > 0 && e < c
    ensures (x * c + e) / c == x
  {
    var n := x * c + e;
    var q := n / c;
    var r := n % c;
    assert n == q * c + r;
    var k := q - x;
    assert k * c == e - r by {
      assert q * c - x * c == (q - x) * c;
    }
    MulAtLeast(k, c);
  }

  /** Scaling by equal numerator and denominator is the identity. */
  lemma MulDivSameScale(x: int, c: int)
    requires c > 0 && -Int32Max <= x <= Int32Max
    ensures MulDiv(x, c, c) == x
  {
    if x >= 0 {
      DivOfMultiplePlusSmall(x, c, c / 2);
      assert CDiv(x * c + c / 2, c) == x;
    } else {
      var n: nat := -x;
      assert -(x * c - c / 2) == n * c + c / 2;
      DivOfMultiplePlusSmall(n, c, c / 2);
      assert CDiv(x * c - c / 2, c) == -((n * c + c / 2) / c);
    }
  }

  /**
    For non-negative operands the result is the product-quotient rounded to the nearest
    integer: it differs from `a * b / c` by at most one half.
   */
  lemma MulDivNearest(a: nat, b: nat, c: int)
    requires c > 0 && a * b + c / 2 <= Int32Max * c
    ensures var r := MulDiv(a, b, c);
      0 <= r && 2 * (a * b - r * c) <= c && 2 * (r * c - a * b) <= c
  {
    var p := a * b;
    var n := p + c / 2;
    var q := n / c;
    var rem := n % c;
    var qc := q * c;
    assert n == qc + rem;
    assert qc == (q - Int32Max) * c + Int32Max * c;
    MulAtLeast(q - Int32Max, c);
    assert 0 <= q <= Int32Max;
    assert MulDiv(a, b, c) == q;
  }

  /** On screens at the default DPI, the initial window size is the requested size. */
  lemma ScaledSizeAtDefaultDpi(size: int)
    requires -Int32Max <= size <= Int32Max
    ensures MulDiv(size, UserDefaultScreenDpi, UserDefaultScreenDpi) == size
  {
    MulDivSameScale(size, UserDefaultScreenDpi);
  }

  // ----- window style bits (LONG_PTR, 64 bits) -----

  const WS_CAPTION: bv64 := 0x00C0_0000
  const WS_SYSMENU: bv64 := 0x0008_0000
  const WS_THICKFRAME: bv64 := 0x0004_0000
  const WS_MINIMIZEBOX: bv64 := 0x0002_0000
  const WS_MAXIMIZEBOX: bv64 := 0x0001_0000
  /** WS_OVERLAPPED | WS_CAPTION | WS_SYSMENU | WS_THICKFRAME | WS_MINIMIZEBOX | WS_MAXIMIZEBOX */
  const WS_OVERLAPPEDWINDOW: bv64 := 0x00CF_0000

  const WS_EX_DLGMODALFRAME: bv64 := 0x0000_0001
  const WS_EX_WINDOWEDGE: bv64 := 0x0000_0100
  const WS_EX_CLIENTEDGE: bv64 := 0x0000_0200
  const WS_EX_STATICEDGE: bv64 := 0x0002_0000

  /** The style bits a fullscreen window loses. */
  const FullscreenStyleMask: bv64 := WS_CAPTION | WS_THICKFRAME
  /** The extended style bits a fullscreen window loses. */
  const FullscreenExStyleMask: bv64 := WS_EX_DLGMODALFRAME | WS_EX_WINDOWEDGE | WS_EX_CLIENTEDGE | WS_EX_STATICEDGE
  /** The style bits a fixed-size (non-resizable) window loses. */
  const FixedStyleMask: bv64 := WS_THICKFRAME | WS_MAXIMIZEBOX

  /** `x & ~mask` */
  function ClearBits(x: bv64, mask: bv64): bv64 {
    x & !mask
  }

  /**
    In `ClearBits(x, mask)` every bit set in `mask` is cleared and every other bit is
    the bit of `x` (these two facts determine the result, see `ClearBitsUnique`).
   */
  lemma ClearBitsMeans(x: bv64, mask: bv64)
    ensures ClearBits(x, mask) & mask == 0
    ensures ClearBits(x, mask) | (x & mask) == x
  {
  }

  /** Any value with the two properties of `ClearBits` is `ClearBits`'s result. */
  lemma ClearBitsUnique(x: bv64, mask: bv64, r: bv64)
    requires r & mask == 0 && r | (x & mask) == x
    ensures r == ClearBits(x, mask)
  {
  }

  /** Clearing bits is idempotent: a style stripped twice is the style stripped once. */
  lemma ClearBitsIdempotent(x: bv64, mask: bv64)
    ensures ClearBits(ClearBits(x, mask), mask) == ClearBits(x, mask)
  {
  }

  // ----- fullscreen snapshot and DPI rescaling -----

  /** The attributes of the native window the adapter reads and writes. */
  datatype WindowAttrs = WindowAttrs(style: bv64, exStyle: bv64, rect: Rect)

  /** `window_info_`: what entering fullscreen saves so that leaving can restore it. */
  datatype SavedWindowInfo = SavedWindowInfo(style: bv64, exStyle: bv64, rect: Rect)

  /** The outcome of one fullscreen step: the new saved info, window and native calls issued. */
  datatype FullscreenStep = FullscreenStep(saved: SavedWindowInfo, window: WindowAttrs, ops: seq<Op>)

  /**
    Entering fullscreen: snapshot style, extended style and window rectangle, strip the
    decoration bits, and cover the monitor the window is on.
   */
  function EnterFullscreen(window: WindowAttrs, monitor: Rect): (s: FullscreenStep)
    ensures s.saved == SavedWindowInfo(window.style, window.exStyle, window.rect)
    ensures s.window.rect == monitor
    ensures s.window.style == ClearBits(window.style, FullscreenStyleMask)
    ensures s.window.exStyle == ClearBits(window.exStyle, FullscreenExStyleMask)
    ensures s.ops == [SetStyle(s.window.style), SetExStyle(s.window.exStyle), SetWindowPos(monitor)]
  {
    var saved := SavedWindowInfo(window.style, window.exStyle, window.rect);
    var style := ClearBits(saved.style, FullscreenStyleMask);
    var exStyle := ClearBits(saved.exStyle, FullscreenExStyleMask);
    FullscreenStep(saved, WindowAttrs(style, exStyle, monitor), [SetStyle(style), SetExStyle(exStyle), SetWindowPos(monitor)])
  }

  /**
    The fullscreen window has no caption, resizing frame or edge bits, and keeps every
    other style and extended-style bit of the window it was.
   */
  lemma EnterFullscreenStripsDecoration(window: WindowAttrs, monitor: Rect)
    ensures var w := EnterFullscreen(window, monitor).window;
      && w.style & FullscreenStyleMask == 0 && w.style | (window.style & FullscreenStyleMask) == window.style
      && w.exStyle & FullscreenExStyleMask == 0 && w.exStyle | (window.exStyle & FullscreenExStyleMask) == window.exStyle
  {
    ClearBitsMeans(window.style, FullscreenStyleMask);
    ClearBitsMeans(window.exStyle, FullscreenExStyleMask);
  }

  /** Leaving fullscreen: write back exactly what the snapshot holds; the snapshot is kept. */
  function LeaveFullscreen(saved: SavedWindowInfo): (s: FullscreenStep)
    ensures s.saved == saved
    ensures s.window == WindowAttrs(saved.style, saved.exStyle, saved.rect)
    ensures s.ops == [SetStyle(saved.style), SetExStyle(saved.exStyle), SetWindowPos(saved.rect)]
  {
    FullscreenStep(saved, WindowAttrs(saved.style, saved.exStyle, saved.rect),
      [SetStyle(saved.style), SetExStyle(saved.exStyle), SetWindowPos(saved.rect)])
  }

  /** Entering and then leaving fullscreen, with no DPI change between, gives back the window unchanged. */
  lemma EnterLeaveIsIdentity(window: WindowAttrs, monitor: Rect)
    ensures LeaveFullscreen(EnterFullscreen(window, monitor).saved).window == window
  {
  }

  /**
    `set_dpi` while fullscreen: the saved rectangle keeps its left and top corner, and
    its width and height are scaled by `MulDiv(size, newDpi, oldDpi)`.
   */
  function RescaleSaved(saved: Rect, newDpi: int, oldDpi: int): (r: Rect)
    ensures r.left == saved.left && r.top == saved.top
  {
    Rect(saved.left, saved.top,
      saved.left + MulDiv(saved.Width(), newDpi, oldDpi),
      saved.top + MulDiv(saved.Height(), newDpi, oldDpi))
  }

  /** A DPI "change" to the same DPI leaves the saved rectangle exactly as it was. */
  lemma RescaleSameDpiIsIdentity(saved: Rect, dpi: int)
    requires dpi > 0
    requires -Int32Max <= saved.Width() <= Int32Max && -Int32Max <= saved.Height() <= Int32Max
    ensures RescaleSaved(saved, dpi, dpi) == saved
  {
    MulDivSameScale(saved.Width(), dpi);
    MulDivSameScale(saved.Height(), dpi);
  }

  /**
    After a DPI change while fullscreen, each saved dimension is the old one scaled by
    newDpi / oldDpi, rounded to the nearest pixel.
   */
  lemma RescaleIsProportional(saved: Rect, newDpi: nat, oldDpi: int)
    requires oldDpi > 0 && saved.Width() >= 0 && saved.Height() >= 0
    requires saved.Width() * newDpi + oldDpi / 2 <= Int32Max * oldDpi
    requires saved.Height() * newDpi + oldDpi / 2 <= Int32Max * oldDpi
    ensures var r := RescaleSaved(saved, newDpi, oldDpi);
      && 2 * (saved.Width() * newDpi - r.Width() * oldDpi) <= oldDpi
      && 2 * (r.Width() * oldDpi - saved.Width() * newDpi) <= oldDpi
      && 2 * (saved.Height() * newDpi - r.Height() * oldDpi) <= oldDpi
      && 2 * (r.Height() * oldDpi - saved.Height() * newDpi) <= oldDpi
  {
    MulDivNearest(saved.Width(), newDpi, oldDpi);
    MulDivNearest(saved.Height(), newDpi, oldDpi);
  }

  /**
    What a DPI change does to the saved info and to the window: while fullscreen only the
    saved rectangle is rescaled and nothing is sent to the window; otherwise the saved
    info is kept and the window is moved to the rectangle the system suggests.
   */
  function DpiChanged(fullscreen: bool, saved: SavedWindowInfo, window: WindowAttrs,
                      newDpi: int, oldDpi: int, suggested: Rect): (s: FullscreenStep)
    ensures fullscreen ==> s.saved.style == saved.style && s.saved.exStyle == saved.exStyle
    ensures fullscreen ==> s.saved.rect == RescaleSaved(saved.rect, newDpi, oldDpi) && s.window == window && s.ops == []
    ensures !fullscreen ==> s.saved == saved && s.window == window.(rect := suggested) && s.ops == [SetWindowPos(suggested)]
  {
    if fullscreen then
      FullscreenStep(saved.(rect := RescaleSaved(saved.rect, newDpi, oldDpi)), window, [])
    else
      FullscreenStep(saved, window.(rect := suggested), [SetWindowPos(suggested)])
  }

  /**
    Entering fullscreen, a DPI change, then leaving fullscreen: the window gets back its
    style bits and corner, with the saved size rescaled to the new DPI.
   */
  lemma EnterDpiLeaveRestoresScaled(window: WindowAttrs, monitor: Rect, newDpi: int, oldDpi: int, suggested: Rect)
    ensures var entered := EnterFullscreen(window, monitor);
      var changed := DpiChanged(true, entered.saved, entered.window, newDpi, oldDpi, suggested);
      LeaveFullscreen(changed.saved).window == window.(rect := RescaleSaved(window.rect, newDpi, oldDpi))
  {
  }

  /** The initial window, `MulDiv(size, dpi, 96)` wide and high, placed where the system put it. */
  function InitialRect(origin: Rect, width: int, height: int, dpi: int): (r: Rect)
    ensures r.left == origin.left && r.top == origin.top
  {
    Rect(origin.left, origin.top,
      origin.left + MulDiv(width, dpi, UserDefaultScreenDpi),
      origin.top + MulDiv(height, dpi, UserDefaultScreenDpi))
  }

  /** At the default DPI the initial window has exactly the requested size. */
  lemma InitialRectAtDefaultDpi(origin: Rect, width: int, height: int)
    requires -Int32Max <= width <= Int32Max && -Int32Max <= height <= Int32Max
    ensures var r := InitialRect(origin, width, height, UserDefaultScreenDpi);
      r.Width() == width && r.Height() == height
  {
    ScaledSizeAtDefaultDpi(width);
    ScaledSizeAtDefaultDpi(height);
  }
}
