/**
 * The per-icon physics of the toy, as functions on the value of one icon's state:
 * integration (Icon.update, app.js:125-129), the two force models (addJiggle,
 * app.js:203-206, and the drain branch of gameLoop, app.js:228-232), the wall
 * resolver (checkWallCollision, app.js:147-169) and the pairwise circle collision
 * (checkIconCollision, app.js:171-201). The Icon class in module Icons changes its
 * fields exactly as these functions say.
 */
module Physics {
  import opened Config
  import opened Draws
  import opened RealArith

  /** Position, velocity, rotation, angular velocity and collision radius of one icon. */
  datatype IconState = IconState(
    x: real, y: real,
    vx: real, vy: real,
    rotation: real, angularVel: real,
    radius: real)

  function Abs(v: real): real {
    if v < 0.0 then -v else v
  }

  /** The icon lies fully inside a canvas of the given size. */
  predicate InBounds(s: IconState, canvasW: real, canvasH: real) {
    s.radius <= s.x <= canvasW - s.radius && s.radius <= s.y <= canvasH - s.radius
  }

  // ---------------------------------------------------------------- integration

  /** One frame of motion: velocity moves the centre, angular velocity turns the icon. */
  function Integrate(s: IconState): (r: IconState)
    ensures r.vx == s.vx && r.vy == s.vy && r.angularVel == s.angularVel && r.radius == s.radius
    ensures r.x - s.x == s.vx && r.y - s.y == s.vy && r.rotation - s.rotation == s.angularVel
  {
    s.(x := s.x + s.vx, y := s.y + s.vy, rotation := s.rotation + s.angularVel)
  }

  /** The same icon with its motion reversed: velocity and spin negated. */
  function Reversed(s: IconState): IconState {
    s.(vx := -s.vx, vy := -s.vy, angularVel := -s.angularVel)
  }

  /** Integration is reversible: a frame of motion, reversed and integrated again, lands back where it started. */
  lemma IntegrateReversible(s: IconState)
    ensures Integrate(Reversed(Integrate(s))) == Reversed(s)
  {
  }

  // ---------------------------------------------------------------- force models

  /** Jiggle: two draws nudge vx, then vy. */
  function Jiggle(s: IconState, rand: Stream, k: nat): (IconState, nat) {
    (s.(vx := s.vx + Centered(rand(k), JIGGLE_STRENGTH),
        vy := s.vy + Centered(rand(k + 1), JIGGLE_STRENGTH)), k + 2)
  }

  /** Drain: gravity is added to vy, then vx, vy and the spin are all multiplied by the drag. */
  function Drain(s: IconState): IconState {
    var vy := s.vy + DRAIN_GRAVITY;
    s.(vx := s.vx * DRAIN_DRAG, vy := vy * DRAIN_DRAG, angularVel := s.angularVel * DRAIN_DRAG)
  }

  /** The speed at which drain mode's gravity and drag balance. */
  const TERMINAL_VY: real := DRAIN_GRAVITY * DRAIN_DRAG / (1.0 - DRAIN_DRAG)

  /** A jiggle nudges each velocity component by less than JIGGLE_STRENGTH / 2, draws twice and touches nothing else. */
  lemma JiggleNudges(s: IconState, rand: Stream, k: nat)
    requires Uniform(rand)
    ensures var (r, k') := Jiggle(s, rand, k);
      -JIGGLE_STRENGTH / 2.0 <= r.vx - s.vx < JIGGLE_STRENGTH / 2.0 &&
      -JIGGLE_STRENGTH / 2.0 <= r.vy - s.vy < JIGGLE_STRENGTH / 2.0 &&
      r.x == s.x && r.y == s.y && r.rotation == s.rotation && r.angularVel == s.angularVel &&
      r.radius == s.radius && k' == k + 2
  {
    CenteredRange(rand(k), JIGGLE_STRENGTH);
    CenteredRange(rand(k + 1), JIGGLE_STRENGTH);
  }

  /**
   * Drain moves vy geometrically towards the terminal speed TERMINAL_VY (the gap shrinks by
   * the drag factor each frame), never speeds up vx or the spin, and leaves the position alone.
   */
  lemma DrainRelaxes(s: IconState)
    ensures var r := Drain(s);
      r.vy - TERMINAL_VY == DRAIN_DRAG * (s.vy - TERMINAL_VY) &&
      Abs(r.vx) <= Abs(s.vx) && Abs(r.angularVel) <= Abs(s.angularVel) &&
      r.x == s.x && r.y == s.y && r.rotation == s.rotation && r.radius == s.radius
  {
  }

  // ---------------------------------------------------------------- wall resolver

  /** The x half of checkWallCollision: at most one of the left and right branches fires. */
  function WallX(s: IconState, canvasW: real, spinFactor: real, rand: Stream, k: nat): (IconState, nat) {
    if s.x - s.radius < 0.0 then
      (s.(x := s.radius,
          vx := Abs(s.vx) + Centered(rand(k), WALL_RANDOMNESS),
          angularVel := s.angularVel + Centered(rand(k + 1), spinFactor)), k + 2)
    else if s.x + s.radius > canvasW then
      (s.(x := canvasW - s.radius,
          vx := -Abs(s.vx) + Centered(rand(k), WALL_RANDOMNESS),
          angularVel := s.angularVel + Centered(rand(k + 1), spinFactor)), k + 2)
    else
      (s, k)
  }

  /** The y half of checkWallCollision: at most one of the top and bottom branches fires. */
  function WallY(s: IconState, canvasH: real, spinFactor: real, rand: Stream, k: nat): (IconState, nat) {
    if s.y - s.radius < 0.0 then
      (s.(y := s.radius,
          vy := Abs(s.vy) + Centered(rand(k), WALL_RANDOMNESS),
          angularVel := s.angularVel + Centered(rand(k + 1), spinFactor)), k + 2)
    else if s.y + s.radius > canvasH then
      (s.(y := canvasH - s.radius,
          vy := -Abs(s.vy) + Centered(rand(k), WALL_RANDOMNESS),
          angularVel := s.angularVel + Centered(rand(k + 1), spinFactor)), k + 2)
    else
      (s, k)
  }

  /** checkWallCollision: the x axis is resolved first, then the y axis, in one pass. */
  function Wall(s: IconState, canvasW: real, canvasH: real, spinFactor: real, rand: Stream, k: nat): (IconState, nat) {
    var (sx, kx) := WallX(s, canvasW, spinFactor, rand, k);
    WallY(sx, canvasH, spinFactor, rand, kx)
  }

  /** Given a canvas at least one icon wide and high, the resolved icon lies inside it. */
  lemma WallInBounds(s: IconState, canvasW: real, canvasH: real, spinFactor: real, rand: Stream, k: nat)
    requires 2.0 * s.radius <= canvasW && 2.0 * s.radius <= canvasH
    ensures InBounds(Wall(s, canvasW, canvasH, spinFactor, rand, k).0, canvasW, canvasH)
    ensures Wall(s, canvasW, canvasH, spinFactor, rand, k).0.radius == s.radius
  {
  }

  /**
   * The resolver draws nothing, and changes nothing, exactly when the icon is already
   * inside the canvas.
   */
  lemma WallIdleIffInside(s: IconState, canvasW: real, canvasH: real, spinFactor: real, rand: Stream, k: nat)
    ensures Wall(s, canvasW, canvasH, spinFactor, rand, k).1 == k <==> InBounds(s, canvasW, canvasH)
    ensures InBounds(s, canvasW, canvasH) ==> Wall(s, canvasW, canvasH, spinFactor, rand, k).0 == s
  {
  }

  /**
   * The x branches touch only x, vx and the spin, and draw two values when they fire;
   * the y branches likewise touch only y, vy and the spin.
   */
  lemma WallAxesIndependent(s: IconState, canvasW: real, canvasH: real, spinFactor: real, rand: Stream, k: nat)
    ensures var (r, k') := WallX(s, canvasW, spinFactor, rand, k);
      r.y == s.y && r.vy == s.vy && r.rotation == s.rotation && r.radius == s.radius &&
      (k' == k || k' == k + 2)
    ensures var (r, k') := WallY(s, canvasH, spinFactor, rand, k);
      r.x == s.x && r.vx == s.vx && r.rotation == s.rotation && r.radius == s.radius &&
      (k' == k || k' == k + 2)
  {
  }

  /**
   * A left-wall hit puts the icon exactly on the wall and sends it right with about its
   * old speed (within a quarter pixel per frame); a right-wall hit is the mirror image.
   * Each hit turns the spin by a kick in [-spinFactor / 2, spinFactor / 2).
   */
  lemma WallXReflects(s: IconState, canvasW: real, spinFactor: real, rand: Stream, k: nat)
    requires Uniform(rand) && 0.0 <= spinFactor
    ensures var (r, k') := WallX(s, canvasW, spinFactor, rand, k);
      (s.x - s.radius < 0.0 ==>
        r.x == s.radius && Abs(s.vx) - 0.25 <= r.vx < Abs(s.vx) + 0.25) &&
      (!(s.x - s.radius < 0.0) && s.x + s.radius > canvasW ==>
        r.x == canvasW - s.radius && -Abs(s.vx) - 0.25 <= r.vx < -Abs(s.vx) + 0.25) &&
      (k' == k + 2 ==> -spinFactor / 2.0 <= r.angularVel - s.angularVel <= spinFactor / 2.0) &&
      (k' == k + 2 && 0.0 < spinFactor ==> r.angularVel - s.angularVel < spinFactor / 2.0) &&
      (k' == k ==> r == s)
  {
    CenteredRange(rand(k), WALL_RANDOMNESS);
    CenteredRange(rand(k + 1), spinFactor);
  }

  /** The same for the top and bottom walls. */
  lemma WallYReflects(s: IconState, canvasH: real, spinFactor: real, rand: Stream, k: nat)
    requires Uniform(rand) && 0.0 <= spinFactor
    ensures var (r, k') := WallY(s, canvasH, spinFactor, rand, k);
      (s.y - s.radius < 0.0 ==>
        r.y == s.radius && Abs(s.vy) - 0.25 <= r.vy < Abs(s.vy) + 0.25) &&
      (!(s.y - s.radius < 0.0) && s.y + s.radius > canvasH ==>
        r.y == canvasH - s.radius && -Abs(s.vy) - 0.25 <= r.vy < -Abs(s.vy) + 0.25) &&
      (k' == k + 2 ==> -spinFactor / 2.0 <= r.angularVel - s.angularVel <= spinFactor / 2.0) &&
      (k' == k + 2 && 0.0 < spinFactor ==> r.angularVel - s.angularVel < spinFactor / 2.0) &&
      (k' == k ==> r == s)
  {
    CenteredRange(rand(k), WALL_RANDOMNESS);
    CenteredRange(rand(k + 1), spinFactor);
  }

  /** After a wall pass both velocity components point back into the canvas, up to the jitter. */
  lemma WallPointsInward(s: IconState, canvasW: real, canvasH: real, spinFactor: real, rand: Stream, k: nat)
    requires Uniform(rand)
    ensures var r := Wall(s, canvasW, canvasH, spinFactor, rand, k).0;
      (s.x - s.radius < 0.0 ==> r.vx >= -0.25) &&
      (!(s.x - s.radius < 0.0) && s.x + s.radius > canvasW ==> r.vx < 0.25) &&
      (s.y - s.radius < 0.0 ==> r.vy >= -0.25) &&
      (!(s.y - s.radius < 0.0) && s.y + s.radius > canvasH ==> r.vy < 0.25)
  {
    CenteredRange(rand(k), WALL_RANDOMNESS);
    CenteredRange(rand(k + 2), WALL_RANDOMNESS);
  }

  // ---------------------------------------------------------------- pairwise collision

  /** `dist` is the Euclidean distance between the two centres (what Math.sqrt returns). */
  predicate IsDist(a: IconState, b: IconState, dist: real) {
    0.0 <= dist && dist * dist == (b.x - a.x) * (b.x - a.x) + (b.y - a.y) * (b.y - a.y)
  }

  /** Math.sqrt, passed in: on every non-negative input it returns the non-negative square root. */
  ghost predicate IsSqrt(sqrt: real -> real) {
    forall v :: 0.0 <= v ==> 0.0 <= sqrt(v) && sqrt(v) * sqrt(v) == v
  }

  /** `Math.sqrt(dx * dx + dy * dy)`: the length of (dx, dy). */
  function Hypot(sqrt: real -> real, dx: real, dy: real): real {
    sqrt(dx * dx + dy * dy)
  }

  /** The distance between the two centres as the source computes it. */
  function CentreDist(a: IconState, b: IconState, sqrt: real -> real): real {
    Hypot(sqrt, b.x - a.x, b.y - a.y)
  }

  /** With a correct square root the computed distance is the Euclidean one, and zero for coincident centres. */
  lemma CentreDistIsDist(a: IconState, b: IconState, sqrt: real -> real)
    requires IsSqrt(sqrt)
    ensures IsDist(a, b, CentreDist(a, b, sqrt))
    ensures a.x == b.x && a.y == b.y ==> CentreDist(a, b, sqrt) == 0.0
  {
    SumOfSquaresNonNegative(b.x - a.x, b.y - a.y);
    if a.x == b.x && a.y == b.y {
      RootOfZero(CentreDist(a, b, sqrt));
    }
  }

  /** The pair overlaps and the centres do not coincide: the one case the resolver acts on. */
  predicate Overlapping(a: IconState, b: IconState, dist: real) {
    dist < a.radius + b.radius && dist > 0.0
  }

  /**
   * The velocity half of checkIconCollision, for the normal (nx, ny): when the pair
   * approaches along the normal, the normal component dvDotN of the relative velocity moves
   * from a to b and each icon gets a spin kick (draw k for a, then draw k + 1 for b).
   */
  function Exchange(a: IconState, b: IconState, nx: real, ny: real, spinFactor: real, rand: Stream, k: nat)
    : (r: (IconState, IconState, nat))
    ensures r.0.x == a.x && r.0.y == a.y && r.1.x == b.x && r.1.y == b.y
    ensures r.0.rotation == a.rotation && r.1.rotation == b.rotation
    ensures r.0.radius == a.radius && r.1.radius == b.radius
  {
    var dvDotN := Dot(a.vx - b.vx, a.vy - b.vy, nx, ny);
    if dvDotN > 0.0 then
      (a.(vx := a.vx - dvDotN * nx, vy := a.vy - dvDotN * ny,
          angularVel := a.angularVel + Centered(rand(k), spinFactor * 4.0)),
       b.(vx := b.vx + dvDotN * nx, vy := b.vy + dvDotN * ny,
          angularVel := b.angularVel + Centered(rand(k + 1), spinFactor * 4.0)),
       k + 2)
    else
      (a, b, k)
  }

  /** The position half of checkIconCollision: each centre moves `overlap` along the normal, a backwards and b forwards. */
  function Separate(a: IconState, b: IconState, nx: real, ny: real, overlap: real): (r: (IconState, IconState))
    ensures r.0.vx == a.vx && r.0.vy == a.vy && r.0.angularVel == a.angularVel
    ensures r.1.vx == b.vx && r.1.vy == b.vy && r.1.angularVel == b.angularVel
    ensures r.0.rotation == a.rotation && r.1.rotation == b.rotation
    ensures r.0.radius == a.radius && r.1.radius == b.radius
  {
    (a.(x := a.x - overlap * nx, y := a.y - overlap * ny),
     b.(x := b.x + overlap * nx, y := b.y + overlap * ny))
  }

  /**
   * checkIconCollision with the centre distance given: an overlapping pair with distinct
   * centres exchanges velocity along the normal (dx, dy) / dist and is then pushed apart by
   * half the overlap each; any other pair is left alone.
   */
  function Collide(a: IconState, b: IconState, dist: real, spinFactor: real, rand: Stream, k: nat)
    : (IconState, IconState, nat)
  {
    if Overlapping(a, b, dist) then
      var nx := (b.x - a.x) / dist;
      var ny := (b.y - a.y) / dist;
      var (a1, b1, k1) := Exchange(a, b, nx, ny, spinFactor, rand, k);
      var (a2, b2) := Separate(a1, b1, nx, ny, (a.radius + b.radius - dist) / 2.0);
      (a2, b2, k1)
    else
      (a, b, k)
  }

  /** Facts about the collision normal (nx, ny) = (dx, dy) / dist: it is a unit vector along the centre line. */
  lemma NormalFacts(a: IconState, b: IconState, dist: real)
    requires IsDist(a, b, dist) && dist > 0.0
    ensures (b.x - a.x) / dist * dist == b.x - a.x && (b.y - a.y) / dist * dist == b.y - a.y
    ensures (b.x - a.x) / dist * ((b.x - a.x) / dist) + (b.y - a.y) / dist * ((b.y - a.y) / dist) == 1.0
  {
    DivMul(b.x - a.x, dist);
    DivMul(b.y - a.y, dist);
    UnitFromScaled((b.x - a.x) / dist, (b.y - a.y) / dist, dist, b.x - a.x, b.y - a.y);
  }

  /** The resolver changes the pair exactly when it overlaps with distinct centres. */
  lemma CollideActsIffOverlapping(a: IconState, b: IconState, dist: real, spinFactor: real, rand: Stream, k: nat)
    requires IsDist(a, b, dist)
    ensures var (a', b', k') := Collide(a, b, dist, spinFactor, rand, k);
      (a' == a && b' == b && k' == k) <==> !Overlapping(a, b, dist)
  {
    if Overlapping(a, b, dist) {
      var (a', b', k') := Collide(a, b, dist, spinFactor, rand, k);
      var nx := (b.x - a.x) / dist;
      var ny := (b.y - a.y) / dist;
      NormalFacts(a, b, dist);
      assert nx != 0.0 || ny != 0.0;
      PushMoves((a.radius + b.radius - dist) / 2.0, nx, ny);
      assert a'.x != a.x || a'.y != a.y;
    }
  }

  /** A separating (or grazing) overlapping pair is only pushed apart: velocities, spin and draws are untouched. */
  lemma CollideSeparatingKeepsVelocity(a: IconState, b: IconState, dist: real, spinFactor: real, rand: Stream, k: nat)
    requires Overlapping(a, b, dist)
    requires Dot(a.vx - b.vx, a.vy - b.vy, (b.x - a.x) / dist, (b.y - a.y) / dist) <= 0.0
    ensures var (a', b', k') := Collide(a, b, dist, spinFactor, rand, k);
      a'.vx == a.vx && a'.vy == a.vy && a'.angularVel == a.angularVel &&
      b'.vx == b.vx && b'.vy == b.vy && b'.angularVel == b.angularVel &&
      a'.rotation == a.rotation && b'.rotation == b.rotation && k' == k
  {
  }

  /** The resolver conserves the pair's summed velocity and summed position (its momentum and centroid). */
  lemma CollideConserves(a: IconState, b: IconState, dist: real, spinFactor: real, rand: Stream, k: nat)
    ensures var (a', b', k') := Collide(a, b, dist, spinFactor, rand, k);
      a'.vx + b'.vx == a.vx + b.vx && a'.vy + b'.vy == a.vy + b.vy &&
      a'.x + b'.x == a.x + b.x && a'.y + b'.y == a.y + b.y &&
      a'.radius == a.radius && b'.radius == b.radius &&
      a'.rotation == a.rotation && b'.rotation == b.rotation
  {
  }

  /** After resolving an overlap the two centres are exactly the sum of the radii apart. */
  lemma CollideSeparatesToContact(a: IconState, b: IconState, dist: real, spinFactor: real, rand: Stream, k: nat)
    requires IsDist(a, b, dist) && Overlapping(a, b, dist)
    ensures var (a', b', k') := Collide(a, b, dist, spinFactor, rand, k);
      var minDist := a.radius + b.radius;
      (b'.x - a'.x) * (b'.x - a'.x) + (b'.y - a'.y) * (b'.y - a'.y) == minDist * minDist
  {
    NormalFacts(a, b, dist);
    PushToDistance(a.x, a.y, b.x, b.y, (b.x - a.x) / dist, (b.y - a.y) / dist, dist, a.radius + b.radius);
  }

  /**
   * Along a unit normal, the exchange of an approaching pair negates the normal component of
   * the relative velocity and keeps its tangential component.
   */
  lemma ExchangeReflects(a: IconState, b: IconState, nx: real, ny: real, spinFactor: real, rand: Stream, k: nat)
    requires nx * nx + ny * ny == 1.0 && Dot(a.vx - b.vx, a.vy - b.vy, nx, ny) > 0.0
    ensures var (a', b', k') := Exchange(a, b, nx, ny, spinFactor, rand, k);
      Dot(a'.vx - b'.vx, a'.vy - b'.vy, nx, ny) == -Dot(a.vx - b.vx, a.vy - b.vy, nx, ny) &&
      Dot(a'.vx - b'.vx, a'.vy - b'.vy, -ny, nx) == Dot(a.vx - b.vx, a.vy - b.vy, -ny, nx)
  {
    var d := Dot(a.vx - b.vx, a.vy - b.vy, nx, ny);
    var (a', b', k') := Exchange(a, b, nx, ny, spinFactor, rand, k);
    assert a'.vx == a.vx - d * nx && a'.vy == a.vy - d * ny;
    assert b'.vx == b.vx + d * nx && b'.vy == b.vy + d * ny;
    ExchangeNegatesNormal(a.vx, a.vy, b.vx, b.vy, nx, ny, d);
    ExchangeKeepsTangent(a.vx, a.vy, b.vx, b.vy, nx, ny, d);
  }

  /**
   * For an approaching pair the normal component of the relative velocity is negated and
   * the tangential component is kept: an equal-mass elastic bounce.
   */
  lemma CollideReflectsApproach(a: IconState, b: IconState, dist: real, spinFactor: real, rand: Stream, k: nat)
    requires IsDist(a, b, dist) && Overlapping(a, b, dist)
    requires Dot(a.vx - b.vx, a.vy - b.vy, (b.x - a.x) / dist, (b.y - a.y) / dist) > 0.0
    ensures var (a', b', k') := Collide(a, b, dist, spinFactor, rand, k);
      var nx := (b.x - a.x) / dist; var ny := (b.y - a.y) / dist;
      Dot(a'.vx - b'.vx, a'.vy - b'.vy, nx, ny) == -Dot(a.vx - b.vx, a.vy - b.vy, nx, ny) &&
      Dot(a'.vx - b'.vx, a'.vy - b'.vy, -ny, nx) == Dot(a.vx - b.vx, a.vy - b.vy, -ny, nx)
  {
    NormalFacts(a, b, dist);
    ExchangeReflects(a, b, (b.x - a.x) / dist, (b.y - a.y) / dist, spinFactor, rand, k);
  }

  /** An approaching pair draws two values and each icon's spin changes by a kick in [-2 * spinFactor, 2 * spinFactor). */
  lemma CollideSpinKick(a: IconState, b: IconState, dist: real, spinFactor: real, rand: Stream, k: nat)
    requires Overlapping(a, b, dist) && Uniform(rand) && 0.0 <= spinFactor
    requires Dot(a.vx - b.vx, a.vy - b.vy, (b.x - a.x) / dist, (b.y - a.y) / dist) > 0.0
    ensures var (a', b', k') := Collide(a, b, dist, spinFactor, rand, k);
      -2.0 * spinFactor <= a'.angularVel - a.angularVel <= 2.0 * spinFactor &&
      -2.0 * spinFactor <= b'.angularVel - b.angularVel <= 2.0 * spinFactor &&
      (0.0 < spinFactor ==>
        a'.angularVel - a.angularVel < 2.0 * spinFactor && b'.angularVel - b.angularVel < 2.0 * spinFactor) &&
      k' == k + 2
  {
    CenteredRange(rand(k), spinFactor * 4.0);
    CenteredRange(rand(k + 1), spinFactor * 4.0);
  }
}
