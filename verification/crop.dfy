/**
  Crop-window geometry of the face recogniser.

  For every detection the recogniser takes the centroid of the box, the longer
  of its two sides, and cuts a square of that side centred on the centroid.
  The bounds are computed in floating point and converted with Python's
  `int()`, which truncates toward zero. This module states that computation
  on exact reals, shows it equals a purely integer formula, and proves the
  geometric facts the design relies on.
 */
module Crop {

  /** A detection: top-left corner (x, y), width w and height h, in pixels. */
  datatype Box = Box(x: int, y: int, w: nat, h: nat)

  /** The half-open pixel window rows [rowLo, rowHi) x columns [colLo, colHi). */
  datatype Window = Window(rowLo: int, rowHi: int, colLo: int, colHi: int)

  /** Python's `int()` applied to a real: truncation toward zero. */
  function Truncate(r: real): (i: int)
    ensures r >= 0.0 ==> i as real <= r < i as real + 1.0
    ensures r < 0.0 ==> i as real - 1.0 < r <= i as real
  {
    if r >= 0.0 then r.Floor else -((-r).Floor)
  }

  /** Truncation toward zero of n / 2, on integers only. */
  function TruncHalf(n: int): (q: int)
    ensures n >= 0 ==> 2 * q <= n <= 2 * q + 1
    ensures n < 0 ==> 2 * q - 1 <= n <= 2 * q
  {
    if n >= 0 then n / 2 else -((-n) / 2)
  }

  /** `max(h, w)`: the side of the square crop. */
  function Side(b: Box): (side: nat)
    ensures side >= b.w && side >= b.h
    ensures side == b.w || side == b.h
  {
    if b.w > b.h then b.w else b.h
  }

  /** Centroid coordinate along one axis, as the recogniser computes it: `start + extent * 0.5`. */
  function Centroid(start: int, extent: nat): (c: real)
    ensures 2.0 * c == (2 * start + extent) as real
  {
    start as real + extent as real * 0.5
  }

  /**
    Lower crop bound along one axis. The recogniser computes `int(centroid - side * 0.5)`
    in floating point; CropBoundsExact shows that this integer form is the same value.
   */
  function CropLo(start: int, extent: nat, side: nat): (lo: int)
    ensures side >= extent ==> lo <= start
    ensures lo <= CropHi(start, extent, side)
  {
    TruncHalf(2 * start + extent - side)
  }

  /** Upper crop bound along one axis, the integer form of `int(centroid + side * 0.5)`. */
  function CropHi(start: int, extent: nat, side: nat): (hi: int)
    ensures side >= extent ==> start + extent <= hi
  {
    TruncHalf(2 * start + extent + side)
  }

  /** The window the recogniser slices out of the frame for box b. */
  function CropWindow(b: Box): (w: Window)
    ensures Side(b) - 1 <= w.rowHi - w.rowLo <= Side(b)
    ensures Side(b) - 1 <= w.colHi - w.colLo <= Side(b)
  {
    var side := Side(b);
    Window(CropLo(b.y, b.h, side), CropHi(b.y, b.h, side),
           CropLo(b.x, b.w, side), CropHi(b.x, b.w, side))
  }

  /**
    Both crop starts `centroid - side * 0.5` are non-negative, in half-pixels
    (CropBoundsExact shows this is the same condition on the real values).
   */
  predicate StartsInFrame(b: Box)
  {
    2 * b.y + b.h >= Side(b) && 2 * b.x + b.w >= Side(b)
  }

  /** Truncating the exact real n / 2 is the integer TruncHalf(n). */
  lemma TruncateHalf(n: int)
    ensures Truncate(n as real / 2.0) == TruncHalf(n)
  {
    var t := Truncate(n as real / 2.0);
    if n >= 0 {
      assert 2 * t <= n < 2 * t + 2 by {
        assert t as real <= n as real / 2.0 < t as real + 1.0;
      }
    } else {
      assert 2 * t - 2 < n <= 2 * t by {
        assert t as real - 1.0 < n as real / 2.0 <= t as real;
      }
    }
  }

  /**
    The recogniser's floating-point bounds are the integer bounds used here: no
    rounding is involved, and the real start is non-negative exactly when the
    integer test of StartsInFrame holds.
   */
  lemma CropBoundsExact(start: int, extent: nat, side: nat)
    ensures Truncate(Centroid(start, extent) - side as real * 0.5) == CropLo(start, extent, side)
    ensures Truncate(Centroid(start, extent) + side as real * 0.5) == CropHi(start, extent, side)
    ensures Centroid(start, extent) - side as real * 0.5 >= 0.0 <==> 2 * start + extent >= side
  {
    assert Centroid(start, extent) - side as real * 0.5 == (2 * start + extent - side) as real / 2.0;
    assert Centroid(start, extent) + side as real * 0.5 == (2 * start + extent + side) as real / 2.0;
    TruncateHalf(2 * start + extent - side);
    TruncateHalf(2 * start + extent + side);
  }

  /**
    Along one axis the window has exactly `side` pixels, except when the start
    is negative and odd (in half-pixels) while the end is not negative: then
    truncation rounds the two bounds in opposite directions and one pixel is lost.
   */
  lemma AxisSpan(start: int, extent: nat, side: nat)
    ensures CropHi(start, extent, side) - CropLo(start, extent, side)
      == if 2 * start + extent - side < 0 <= 2 * start + extent + side && (2 * start + extent - side) % 2 == 1
         then side - 1 else side
  {
  }

  /** When both crop starts are in the frame the window is a square of side `max(w, h)`. */
  lemma SquareWindow(b: Box)
    requires StartsInFrame(b)
    ensures CropWindow(b).rowHi - CropWindow(b).rowLo == Side(b)
    ensures CropWindow(b).colHi - CropWindow(b).colLo == Side(b)
  {
    AxisSpan(b.y, b.h, Side(b));
    AxisSpan(b.x, b.w, Side(b));
  }

  /** The crop bounds enclose the detected box, whatever its position. */
  lemma WindowCoversBox(b: Box)
    ensures CropWindow(b).rowLo <= b.y && b.y + b.h <= CropWindow(b).rowHi
    ensures CropWindow(b).colLo <= b.x && b.x + b.w <= CropWindow(b).colHi
  {
  }

  /**
    When both crop starts are in the frame the window's midpoint is within half
    a pixel of the centroid: rowLo + rowHi is 2 * centroid or one less.
   */
  lemma WindowCentred(b: Box)
    requires StartsInFrame(b)
    ensures 2 * b.y + b.h - 1 <= CropWindow(b).rowLo + CropWindow(b).rowHi <= 2 * b.y + b.h
    ensures 2 * b.x + b.w - 1 <= CropWindow(b).colLo + CropWindow(b).colHi <= 2 * b.x + b.w
  {
  }
}
