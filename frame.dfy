/**
 * One frame of the physics in gameLoop (app.js:223-245), as functions on the sequence of
 * icon states: unless frozen, every icon in order gets its force (drain or jiggle), moves
 * and is kept inside the walls; then every pair i < j is passed to the circle resolver.
 */
module Frame {
  import opened Config
  import opened Draws
  import opened Physics

  /** The force of the current mode: the drain's gravity and drag, or a jiggle. */
  function Force(s: IconState, draining: bool, rand: Stream, k: nat): (IconState, nat) {
    if draining then (Drain(s), k) else Jiggle(s, rand, k)
  }

  /** The body of the first loop for one icon: the force, then update, then the wall check. */
  function IconStep(s: IconState, draining: bool, canvasW: real, canvasH: real, spinFactor: real,
                    rand: Stream, k: nat): (IconState, nat)
  {
    var (f, k1) := Force(s, draining, rand, k);
    Wall(Integrate(f), canvasW, canvasH, spinFactor, rand, k1)
  }

  /**
   * The first loop from icon n on: IconStep on icon n, n + 1, ... in list order, each
   * drawing where the one before stopped.
   */
  function ForcePass(ss: seq<IconState>, n: nat, draining: bool, canvasW: real, canvasH: real, spinFactor: real,
                     rand: Stream, k: nat): (r: (seq<IconState>, nat))
    ensures |r.0| == |ss|
    decreases |ss| - n
  {
    if n >= |ss| then (ss, k)
    else
      var (s, k1) := IconStep(ss[n], draining, canvasW, canvasH, spinFactor, rand, k);
      ForcePass(ss[n := s], n + 1, draining, canvasW, canvasH, spinFactor, rand, k1)
  }

  /**
   * The nested loop from pair (i, j) on: the resolver runs on (i, j), (i, j + 1), ... and
   * then on every pair of later rows, each seeing the result of the ones before.
   */
  function PairPass(ss: seq<IconState>, i: nat, j: nat, spinFactor: real, sqrt: real -> real,
                    rand: Stream, k: nat): (r: (seq<IconState>, nat))
    requires i < j
    ensures |r.0| == |ss|
    decreases |ss| - i, |ss| - j
  {
    if i >= |ss| then (ss, k)
    else if j >= |ss| then PairPass(ss, i + 1, i + 2, spinFactor, sqrt, rand, k)
    else
      var (a, b, k1) := Collide(ss[i], ss[j], CentreDist(ss[i], ss[j], sqrt), spinFactor, rand, k);
      PairPass(ss[i := a][j := b], i, j + 1, spinFactor, sqrt, rand, k1)
  }

  /** One step of the pair pass: the resolver on (i, j), then the pass from (i, j + 1) on the result. */
  lemma PairPassStep(ss: seq<IconState>, i: nat, j: nat, spinFactor: real, sqrt: real -> real, rand: Stream, k: nat)
    requires i < j < |ss|
    ensures var (a, b, k1) := Collide(ss[i], ss[j], CentreDist(ss[i], ss[j], sqrt), spinFactor, rand, k);
      PairPass(ss, i, j, spinFactor, sqrt, rand, k) == PairPass(ss[i := a][j := b], i, j + 1, spinFactor, sqrt, rand, k1)
  {
  }

  /** The physics of one frame: nothing when frozen, else the force pass and then the pair pass. */
  function Step(ss: seq<IconState>, frozen: bool, draining: bool, canvasW: real, canvasH: real,
                spinFactor: real, sqrt: real -> real, rand: Stream, k: nat): (seq<IconState>, nat)
  {
    if frozen then (ss, k)
    else
      var (f, k1) := ForcePass(ss, 0, draining, canvasW, canvasH, spinFactor, rand, k);
      PairPass(f, 0, 1, spinFactor, sqrt, rand, k1)
  }

  // ---------------------------------------------------------------- per-icon step

  /**
   * Whatever the force, an icon no larger than the canvas ends its own step inside the
   * walls, with its radius unchanged and at most six draws taken.
   */
  lemma IconStepInBounds(s: IconState, draining: bool, canvasW: real, canvasH: real, spinFactor: real,
                         rand: Stream, k: nat)
    requires 2.0 * s.radius <= canvasW && 2.0 * s.radius <= canvasH
    ensures var (r, k') := IconStep(s, draining, canvasW, canvasH, spinFactor, rand, k);
      InBounds(r, canvasW, canvasH) && r.radius == s.radius && k <= k' <= k + 6
  {
    var (f, k1) := Force(s, draining, rand, k);
    WallInBounds(Integrate(f), canvasW, canvasH, spinFactor, rand, k1);
    WallAxesIndependent(Integrate(f), canvasW, canvasH, spinFactor, rand, k1);
    var (sx, kx) := WallX(Integrate(f), canvasW, spinFactor, rand, k1);
    WallAxesIndependent(sx, canvasW, canvasH, spinFactor, rand, kx);
  }

  /**
   * In drain mode an icon that does not reach a wall takes no draws: its step is the drained
   * velocity, then one frame of motion.
   */
  lemma DrainStepAwayFromWalls(s: IconState, canvasW: real, canvasH: real, spinFactor: real, rand: Stream, k: nat)
    requires InBounds(Integrate(Drain(s)), canvasW, canvasH)
    ensures IconStep(s, true, canvasW, canvasH, spinFactor, rand, k) == (Integrate(Drain(s)), k)
  {
    WallIdleIffInside(Integrate(Drain(s)), canvasW, canvasH, spinFactor, rand, k);
  }

  // ---------------------------------------------------------------- force pass

  /**
   * After the force pass from icon n on, every icon from n on lies inside the walls (given
   * icons no larger than the canvas), the icons before n are untouched, every radius is
   * kept, and the pass took at most six draws per icon.
   */
  lemma {:induction false} ForcePassInBounds(ss: seq<IconState>, n: nat, draining: bool, canvasW: real, canvasH: real,
                                             spinFactor: real, rand: Stream, k: nat)
    requires n <= |ss|
    requires forall p :: n <= p < |ss| ==> 2.0 * ss[p].radius <= canvasW && 2.0 * ss[p].radius <= canvasH
    ensures var (r, k') := ForcePass(ss, n, draining, canvasW, canvasH, spinFactor, rand, k);
      (forall p :: 0 <= p < n ==> r[p] == ss[p]) &&
      (forall p :: n <= p < |ss| ==> InBounds(r[p], canvasW, canvasH) && r[p].radius == ss[p].radius) &&
      k <= k' <= k + 6 * (|ss| - n)
    decreases |ss| - n
  {
    if n < |ss| {
      var (s, k1) := IconStep(ss[n], draining, canvasW, canvasH, spinFactor, rand, k);
      IconStepInBounds(ss[n], draining, canvasW, canvasH, spinFactor, rand, k);
      ForcePassInBounds(ss[n := s], n + 1, draining, canvasW, canvasH, spinFactor, rand, k1);
    }
  }

  // ---------------------------------------------------------------- pair pass

  /** The quantities a collision conserves in sum over a pair. */
  datatype Quantity = X | Y | VX | VY

  function Get(s: IconState, q: Quantity): real {
    match q
    case X => s.x
    case Y => s.y
    case VX => s.vx
    case VY => s.vy
  }

  /** The sum of one quantity over all icons: total momentum (up to the common mass) or n times the centroid. */
  function Total(ss: seq<IconState>, q: Quantity): real
    decreases |ss|
  {
    if |ss| == 0 then 0.0 else Total(ss[..|ss| - 1], q) + Get(ss[|ss| - 1], q)
  }

  /** Replacing one icon changes the total by exactly the change in that icon. */
  lemma {:induction false} TotalUpdate(ss: seq<IconState>, i: nat, v: IconState, q: Quantity)
    requires i < |ss|
    ensures Total(ss[i := v], q) == Total(ss, q) - Get(ss[i], q) + Get(v, q)
    decreases |ss|
  {
    if i < |ss| - 1 {
      assert ss[i := v][..|ss| - 1] == ss[..|ss| - 1][i := v];
      TotalUpdate(ss[..|ss| - 1], i, v, q);
    } else {
      assert ss[i := v][..|ss| - 1] == ss[..|ss| - 1];
    }
  }

  /**
   * The pair pass conserves the total velocity and the total position of the icons, and
   * keeps every icon's radius and rotation.
   */
  lemma {:induction false} PairPassConserves(ss: seq<IconState>, i: nat, j: nat, spinFactor: real,
                                             sqrt: real -> real, rand: Stream, k: nat, q: Quantity)
    requires i < j
    ensures var (r, k') := PairPass(ss, i, j, spinFactor, sqrt, rand, k);
      Total(r, q) == Total(ss, q) &&
      forall p :: 0 <= p < |ss| ==> r[p].radius == ss[p].radius && r[p].rotation == ss[p].rotation
    decreases |ss| - i, |ss| - j
  {
    if i >= |ss| {
    } else if j >= |ss| {
      PairPassConserves(ss, i + 1, i + 2, spinFactor, sqrt, rand, k, q);
    } else {
      var dist := CentreDist(ss[i], ss[j], sqrt);
      var (a, b, k1) := Collide(ss[i], ss[j], dist, spinFactor, rand, k);
      CollideConserves(ss[i], ss[j], dist, spinFactor, rand, k);
      TotalUpdate(ss, i, a, q);
      TotalUpdate(ss[i := a], j, b, q);
      PairPassConserves(ss[i := a][j := b], i, j + 1, spinFactor, sqrt, rand, k1, q);
    }
  }

  // ---------------------------------------------------------------- whole frame

  /**
   * A frozen frame changes nothing and draws nothing; otherwise it keeps the number of icons
   * and every radius.
   */
  lemma StepShape(ss: seq<IconState>, frozen: bool, draining: bool, canvasW: real, canvasH: real,
                  spinFactor: real, sqrt: real -> real, rand: Stream, k: nat)
    ensures var (r, k') := Step(ss, frozen, draining, canvasW, canvasH, spinFactor, sqrt, rand, k);
      (frozen ==> r == ss && k' == k) &&
      |r| == |ss| && forall p :: 0 <= p < |ss| ==> r[p].radius == ss[p].radius
  {
    if !frozen {
      var (f, k1) := ForcePass(ss, 0, draining, canvasW, canvasH, spinFactor, rand, k);
      ForcePassRadii(ss, 0, draining, canvasW, canvasH, spinFactor, rand, k);
      PairPassConserves(f, 0, 1, spinFactor, sqrt, rand, k1, X);
    }
  }

  /** The force pass keeps every radius, whatever the canvas. */
  lemma {:induction false} ForcePassRadii(ss: seq<IconState>, n: nat, draining: bool, canvasW: real, canvasH: real,
                                          spinFactor: real, rand: Stream, k: nat)
    ensures var (r, k') := ForcePass(ss, n, draining, canvasW, canvasH, spinFactor, rand, k);
      forall p :: 0 <= p < |r| ==> r[p].radius == ss[p].radius
    decreases |ss| - n
  {
    if n < |ss| {
      var (s, k1) := IconStep(ss[n], draining, canvasW, canvasH, spinFactor, rand, k);
      var (f, k2) := Force(ss[n], draining, rand, k);
      WallAxesIndependent(Integrate(f), canvasW, canvasH, spinFactor, rand, k2);
      var (sx, kx) := WallX(Integrate(f), canvasW, spinFactor, rand, k2);
      WallAxesIndependent(sx, canvasW, canvasH, spinFactor, rand, kx);
      ForcePassRadii(ss[n := s], n + 1, draining, canvasW, canvasH, spinFactor, rand, k1);
    }
  }

  /**
   * A frame that is not frozen conserves nothing in general (forces and walls act), but its
   * pair pass does: the total velocity and position after the frame equal those right after
   * the force pass.
   */
  lemma StepCollisionsConserve(ss: seq<IconState>, draining: bool, canvasW: real, canvasH: real,
                               spinFactor: real, sqrt: real -> real, rand: Stream, k: nat, q: Quantity)
    ensures var (f, k1) := ForcePass(ss, 0, draining, canvasW, canvasH, spinFactor, rand, k);
      Total(Step(ss, false, draining, canvasW, canvasH, spinFactor, sqrt, rand, k).0, q) == Total(f, q)
  {
    var (f, k1) := ForcePass(ss, 0, draining, canvasW, canvasH, spinFactor, rand, k);
    PairPassConserves(f, 0, 1, spinFactor, sqrt, rand, k1, q);
  }
}
