/**
 * The values Math.random() hands out, in call order. `rand(k)` is the k-th value
 * returned since the page loaded; every operation that draws takes the index of its
 * first draw and returns the index after its last one, so the order in which the
 * source consumes random numbers is kept exactly.
 */
module Draws {
  import opened RealArith

  type Stream = nat -> real

  /** Every draw lies in [0, 1), as Math.random() promises. */
  ghost predicate Uniform(rand: Stream) {
    forall k :: 0.0 <= rand(k) < 1.0
  }

  /** The source's recurring `(Math.random() - 0.5) * scale`: a draw re-centred on zero. */
  function Centered(u: real, scale: real): real {
    (u - 0.5) * scale
  }

  /** A centred draw lies in [-scale/2, scale/2), and is 0 when the scale is 0. */
  lemma CenteredRange(u: real, scale: real)
    requires 0.0 <= u < 1.0 && 0.0 <= scale
    ensures -scale / 2.0 <= Centered(u, scale) <= scale / 2.0
    ensures 0.0 < scale ==> Centered(u, scale) < scale / 2.0
    ensures scale == 0.0 ==> Centered(u, scale) == 0.0
  {
    if 0.0 < scale {
      MulLt(u - 0.5, 0.5, scale);
      MulLe(-0.5, u - 0.5, scale);
    } else {
      assert scale == 0.0;
    }
  }

  /** The source's `Math.random() * span`: a draw scaled up to span. */
  function Scaled(u: real, span: real): real {
    u * span
  }

  /** A scaled draw lies in [0, span], and below span when span is positive. */
  lemma ScaledRange(u: real, span: real)
    requires 0.0 <= u < 1.0 && 0.0 <= span
    ensures 0.0 <= Scaled(u, span) <= span
    ensures 0.0 < span ==> Scaled(u, span) < span
  {
    MulLe(0.0, u, span);
    MulLe(u, 1.0, span);
    if 0.0 < span {
      MulLt(u, 1.0, span);
    }
  }
}
