/**
 * Small facts about real multiplication used by the physics proofs. Each product is
 * handed in as its own variable (`p == x * y`) so that every step is a linear fact
 * about named quantities.
 */
module RealArith {

  lemma MulPos(x: real, y: real, p: real)
    requires 0.0 < x && 0.0 < y && p == x * y
    ensures 0.0 < p
  {
  }

  lemma SquarePos(d: real, p: real)
    requires 0.0 < d && p == d * d
    ensures 0.0 < p
  {
    MulPos(d, d, p);
  }

  /** Multiplying both sides of a <= b by a non-negative c keeps the order. */
  lemma MulLe(a: real, b: real, c: real)
    requires a <= b && 0.0 <= c
    ensures a * c <= b * c
  {
  }

  /** Multiplying both sides of a < b by a positive c keeps the strict order. */
  lemma MulLt(a: real, b: real, c: real)
    requires a < b && 0.0 < c
    ensures a * c < b * c
  {
  }

  lemma DivMul(x: real, d: real)
    requires d != 0.0
    ensures (x / d) * d == x
  {
  }

  lemma SquareOfProduct(a: real, d: real, x: real, q: real, p: real)
    requires a * d == x && q == a * a && p == d * d
    ensures q * p == x * x
  {
  }

  lemma Distribute(a: real, b: real, p: real)
    ensures a * p + b * p == (a + b) * p
  {
  }

  /** If X = qx * p and Y = qy * p add up to a positive p, then qx + qy == 1. */
  lemma CancelPositive(qx: real, qy: real, p: real, x: real, y: real)
    requires 0.0 < p && qx * p == x && qy * p == y && p == x + y
    ensures qx + qy == 1.0
  {
    assert (qx + qy - 1.0) * p == 0.0;
  }

  /** A product that vanishes with a non-zero left factor has a zero right factor. */
  lemma ZeroFactor(x: real, y: real)
    requires x * y == 0.0 && x != 0.0
    ensures y == 0.0
  {
  }

  /**
   * If (dx, dy) is (nx, ny) scaled by a positive length whose square is dx² + dy²,
   * then (nx, ny) is a unit vector.
   */
  lemma UnitFromScaled(nx: real, ny: real, dist: real, dx: real, dy: real)
    requires 0.0 < dist && nx * dist == dx && ny * dist == dy
    requires dist * dist == dx * dx + dy * dy
    ensures nx * nx + ny * ny == 1.0
  {
    SquareOfProduct(nx, dist, dx, nx * nx, dist * dist);
    SquareOfProduct(ny, dist, dy, ny * ny, dist * dist);
    SquarePos(dist, dist * dist);
    CancelPositive(nx * nx, ny * ny, dist * dist, dx * dx, dy * dy);
  }

  /** A unit vector scaled by m has squared length m². */
  lemma ScaledUnitLength(nx: real, ny: real, m: real, ex: real, ey: real)
    requires nx * nx + ny * ny == 1.0 && ex == m * nx && ey == m * ny
    ensures ex * ex + ey * ey == m * m
  {
    var p, qx, qy := m * m, nx * nx, ny * ny;
    SquareOfProduct(nx, m, ex, qx, p);
    SquareOfProduct(ny, m, ey, qy, p);
    Distribute(qx, qy, p);
  }

  /** The dot product of (ux, uy) and (wx, wy). */
  function Dot(ux: real, uy: real, wx: real, wy: real): real {
    ux * wx + uy * wy
  }

  lemma ScaleUnit(d: real, nx: real, ny: real)
    requires nx * nx + ny * ny == 1.0
    ensures d * (nx * nx) + d * (ny * ny) == d
  {
    assert d * (nx * nx + ny * ny) == d * 1.0;
  }

  /** A positive push along a non-zero direction moves the point. */
  lemma PushMoves(o: real, nx: real, ny: real)
    requires 0.0 < o && (nx != 0.0 || ny != 0.0)
    ensures o * nx != 0.0 || o * ny != 0.0
  {
    if nx != 0.0 {
      if o * nx == 0.0 { ZeroFactor(o, nx); }
    } else {
      if o * ny == 0.0 { ZeroFactor(o, ny); }
    }
  }

  /**
   * Pushing two points apart by half the gap (m - dist) each, along a normal with
   * nx * dist == bx - ax, leaves them m * nx apart in that coordinate.
   */
  lemma PushApart(ax: real, bx: real, nx: real, dist: real, m: real)
    requires nx * dist == bx - ax
    ensures (bx + (m - dist) / 2.0 * nx) - (ax - (m - dist) / 2.0 * nx) == m * nx
  {
  }

  /**
   * Two points dist apart along the unit normal (nx, ny), each pushed away from the
   * other by half of (m - dist), end up exactly m apart.
   */
  lemma PushToDistance(x1: real, y1: real, x2: real, y2: real, nx: real, ny: real, dist: real, m: real)
    requires nx * nx + ny * ny == 1.0 && nx * dist == x2 - x1 && ny * dist == y2 - y1
    ensures var o := (m - dist) / 2.0;
      ((x2 + o * nx) - (x1 - o * nx)) * ((x2 + o * nx) - (x1 - o * nx)) +
      ((y2 + o * ny) - (y1 - o * ny)) * ((y2 + o * ny) - (y1 - o * ny)) == m * m
  {
    PushApart(x1, x2, nx, dist, m);
    PushApart(y1, y2, ny, dist, m);
    ScaledUnitLength(nx, ny, m, (x2 + (m - dist) / 2.0 * nx) - (x1 - (m - dist) / 2.0 * nx),
      (y2 + (m - dist) / 2.0 * ny) - (y1 - (m - dist) / 2.0 * ny));
  }

  lemma SumOfSquaresNonNegative(x: real, y: real)
    ensures 0.0 <= x * x + y * y
  {
    if x < 0.0 { MulLe(x, 0.0, -x); } else { MulLe(0.0, x, x); }
    if y < 0.0 { MulLe(y, 0.0, -y); } else { MulLe(0.0, y, y); }
  }

  /** The only non-negative number whose square is zero is zero. */
  lemma RootOfZero(r: real)
    requires 0.0 <= r && r * r == 0.0
    ensures r == 0.0
  {
    if 0.0 < r {
      SquarePos(r, r * r);
    }
  }

  /**
   * Two velocities exchanging their normal component d along a unit normal (nx, ny): the
   * normal component of their difference goes from d to -d...
   */
  lemma ExchangeNegatesNormal(avx: real, avy: real, bvx: real, bvy: real, nx: real, ny: real, d: real)
    requires nx * nx + ny * ny == 1.0 && d == Dot(avx - bvx, avy - bvy, nx, ny)
    ensures Dot((avx - d * nx) - (bvx + d * nx), (avy - d * ny) - (bvy + d * ny), nx, ny) == -d
  {
    ScaleUnit(d, nx, ny);
    assert Dot((avx - d * nx) - (bvx + d * nx), (avy - d * ny) - (bvy + d * ny), nx, ny)
        == Dot(avx - bvx, avy - bvy, nx, ny) - 2.0 * (d * (nx * nx) + d * (ny * ny));
  }

  /** ...and the component along the tangent (-ny, nx) is kept. */
  lemma ExchangeKeepsTangent(avx: real, avy: real, bvx: real, bvy: real, nx: real, ny: real, d: real)
    ensures Dot((avx - d * nx) - (bvx + d * nx), (avy - d * ny) - (bvy + d * ny), -ny, nx)
         == Dot(avx - bvx, avy - bvy, -ny, nx)
  {
    assert Dot((avx - d * nx) - (bvx + d * nx), (avy - d * ny) - (bvy + d * ny), -ny, nx)
        == Dot(avx - bvx, avy - bvy, -ny, nx) + 2.0 * (d * nx * ny - d * ny * nx);
  }
}
