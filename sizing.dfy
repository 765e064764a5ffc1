/**
 * resizeCanvas (app.js:41-73): the canvas is the largest 16:9 box that fits in half the
 * window and leaves CONTROL_SPACE pixels below for the controls; both sides are then
 * rounded to whole pixels.
 */
module Sizing {
  import opened Config
  import opened RealArith

  /** Math.round: the nearest integer, a half rounded up. */
  function Round(x: real): (r: int)
    ensures x - 0.5 < r as real <= x + 0.5
  {
    (x + 0.5).Floor
  }

  function Min(a: real, b: real): real {
    if a <= b then a else b
  }

  /**
   * The unrounded (width, height) the source computes from the window's inner size. The
   * source's test `halfW / halfH > ASPECT` is written here without the division; it is the
   * same test for every positive height (FitTestIsRatio) and gives the same box at height 0,
   * where the source's ratio is Infinity or NaN (FitZeroHeight).
   */
  function Fit(innerW: real, innerH: real): (real, real) {
    var halfW := innerW / 2.0;
    var halfH := innerH / 2.0;
    var (w, h) := if halfW > halfH * ASPECT then (halfH * ASPECT, halfH) else (halfW, halfW / ASPECT);
    var maxH := innerH - CONTROL_SPACE;
    if h > maxH then (maxH * ASPECT, maxH) else (w, h)
  }

  /** Comparing a ratio with a positive constant, from either side. */
  lemma RatioCompare(p: real, q: real, c: real)
    requires 0.0 < q && 0.0 < c
    ensures p / q > c <==> p / c > q
  {
    DivMul(p, q);
    DivMul(p, c);
    if p / q > c {
      MulLt(c, p / q, q);
    } else {
      MulLe(p / q, c, q);
    }
    if p / c > q {
      MulLt(q, p / c, c);
    } else {
      MulLe(p / c, q, c);
    }
  }

  /** Comparing with a scaled value is comparing the unscaled value with the quotient. */
  lemma ScaleCompare(p: real, q: real, c: real)
    requires 0.0 < c
    ensures p > q * c <==> p / c > q
  {
    DivMul(p, c);
    if p / c > q {
      MulLt(q, p / c, c);
    } else {
      MulLe(p / c, q, c);
    }
  }

  /** For a window of positive height, Fit's test is the source's ratio test `halfW / halfH > ASPECT`. */
  lemma FitTestIsRatio(innerW: real, innerH: real)
    requires 0.0 < innerH
    ensures innerW / 2.0 > innerH / 2.0 * ASPECT <==> innerW / 2.0 / (innerH / 2.0) > ASPECT
  {
    ScaleCompare(innerW / 2.0, innerH / 2.0, ASPECT);
    RatioCompare(innerW / 2.0, innerH / 2.0, ASPECT);
  }

  /**
   * A window of height 0: the source's ratio is Infinity for a positive width (first branch,
   * h = 0) and NaN for width 0 (second branch, h = 0); either way the box is then clamped to
   * the height 0 - CONTROL_SPACE, which rounds to a -142 by -80 canvas.
   */
  lemma FitZeroHeight(innerW: real)
    requires 0.0 <= innerW
    ensures Fit(innerW, 0.0) == (-CONTROL_SPACE * ASPECT, -CONTROL_SPACE)
    ensures Round(Fit(innerW, 0.0).0) == -142 && Round(Fit(innerW, 0.0).1) == -80
  {
  }

  /**
   * The fitted box is 16:9 and its height is the largest that respects all three limits:
   * half the window's height, half its width (over the aspect ratio), and the window's
   * height less the control space.
   */
  lemma FitLargest(innerW: real, innerH: real)
    ensures var (w, h) := Fit(innerW, innerH);
      w == h * ASPECT &&
      h == Min(Min(innerH / 2.0, innerW / 2.0 / ASPECT), innerH - CONTROL_SPACE)
  {
    ScaleCompare(innerW / 2.0, innerH / 2.0, ASPECT);
    DivMul(innerW / 2.0, ASPECT);
  }

  /**
   * Hence the box fits: its width is at most half the window's width, its height at most
   * half the window's height and at most the height left above the controls; it has a
   * positive size exactly when the window is wider than zero and higher than CONTROL_SPACE.
   */
  lemma FitWithin(innerW: real, innerH: real)
    requires 0.0 <= innerW
    ensures var (w, h) := Fit(innerW, innerH);
      w <= innerW / 2.0 && h <= innerH / 2.0 && h <= innerH - CONTROL_SPACE &&
      (0.0 < h <==> 0.0 < innerW && CONTROL_SPACE < innerH) && (0.0 < w <==> 0.0 < h)
  {
    FitLargest(innerW, innerH);
    var (w, h) := Fit(innerW, innerH);
    MulLe(h, innerW / 2.0 / ASPECT, ASPECT);
    DivMul(innerW / 2.0, ASPECT);
    if 0.0 < h {
      MulPos(h, ASPECT, w);
    } else {
      MulLe(h, 0.0, ASPECT);
    }
    if 0.0 < innerW {
      assert 0.0 < innerW / 2.0 / ASPECT;
    }
  }
}
