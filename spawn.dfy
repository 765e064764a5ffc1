/**
 * Where a new icon appears: the Icon constructor (app.js:82-91) draws a rotation and a
 * spin, and `_spawnAtEdge` (app.js:93-123) picks one of the four canvas edges, a speed,
 * a position along the edge and a sideways velocity. Six draws in all, in this order.
 */
module Spawn {
  import opened Config
  import opened Draws
  import opened RealArith
  import opened Physics

  datatype Edge = Top | Bottom | Left | Right

  /** `Math.floor(Math.random() * 4)` read as the switch's case 0, 1, 2 or 3. */
  function EdgeOf(u: real): Edge {
    var e := (u * 4.0).Floor;
    if e <= 0 then Top else if e == 1 then Bottom else if e == 2 then Left else Right
  }

  /** Each edge is chosen by one quarter of [0, 1). */
  lemma EdgeOfQuarters(u: real)
    requires 0.0 <= u < 1.0
    ensures EdgeOf(u) == Top <==> u < 0.25
    ensures EdgeOf(u) == Bottom <==> 0.25 <= u < 0.5
    ensures EdgeOf(u) == Left <==> 0.5 <= u < 0.75
    ensures EdgeOf(u) == Right <==> 0.75 <= u
  {
  }

  /** `MIN_SPEED + Math.random() * (MAX_SPEED - MIN_SPEED)`. */
  function Speed(u: real): real {
    MIN_SPEED + Scaled(u, MAX_SPEED - MIN_SPEED)
  }

  /**
   * The switch in `_spawnAtEdge` for edge e: the icon is put on that edge at fraction u of
   * the free length along it, moving away from it at `speed`, with the sideways velocity
   * centred draw v times `speed`.
   */
  function Place(s: IconState, e: Edge, speed: real, u: real, v: real, canvasW: real, canvasH: real): IconState {
    match e
    case Top =>
      s.(x := Scaled(u, canvasW - ICON_SIZE) + s.radius, y := s.radius,
         vx := Centered(v, speed), vy := Abs(speed))
    case Bottom =>
      s.(x := Scaled(u, canvasW - ICON_SIZE) + s.radius, y := canvasH - s.radius,
         vx := Centered(v, speed), vy := -Abs(speed))
    case Left =>
      s.(x := s.radius, y := Scaled(u, canvasH - ICON_SIZE) + s.radius,
         vx := Abs(speed), vy := Centered(v, speed))
    case Right =>
      s.(x := canvasW - s.radius, y := Scaled(u, canvasH - ICON_SIZE) + s.radius,
         vx := -Abs(speed), vy := Centered(v, speed))
  }

  /**
   * `_spawnAtEdge`: draw k picks the edge, draw k + 1 the speed, draw k + 2 the position
   * along the edge and draw k + 3 the velocity along the edge.
   */
  function SpawnAtEdge(s: IconState, canvasW: real, canvasH: real, rand: Stream, k: nat): (IconState, nat) {
    (Place(s, EdgeOf(rand(k)), Speed(rand(k + 1)), rand(k + 2), rand(k + 3), canvasW, canvasH), k + 4)
  }

  /**
   * The Icon constructor: radius ICON_SIZE / 2, rotation from draw k, spin from draw k + 1,
   * then `_spawnAtEdge` from draw k + 2. The position and velocity fields start out unset in
   * the source; every edge case sets all four, so the zeros here are never observed.
   */
  function NewIcon(canvasW: real, canvasH: real, rand: Stream, k: nat): (IconState, nat) {
    var s := IconState(0.0, 0.0, 0.0, 0.0, rand(k) * PI * 2.0, Centered(rand(k + 1), SPAWN_SPIN), ICON_SIZE / 2.0);
    SpawnAtEdge(s, canvasW, canvasH, rand, k + 2)
  }

  /** The spawn sits exactly on its edge, which is the edge the first draw selects. */
  predicate OnEdge(s: IconState, e: Edge, canvasW: real, canvasH: real) {
    match e
    case Top => s.y == s.radius
    case Bottom => s.y == canvasH - s.radius
    case Left => s.x == s.radius
    case Right => s.x == canvasW - s.radius
  }

  /**
   * The velocity component normal to edge e points into the canvas with magnitude `speed`,
   * and the component along the edge lies in [-speed/2, speed/2).
   */
  predicate AimedInward(s: IconState, e: Edge, speed: real) {
    match e
    case Top => s.vy == speed && -speed / 2.0 <= s.vx < speed / 2.0
    case Bottom => s.vy == -speed && -speed / 2.0 <= s.vx < speed / 2.0
    case Left => s.vx == speed && -speed / 2.0 <= s.vy < speed / 2.0
    case Right => s.vx == -speed && -speed / 2.0 <= s.vy < speed / 2.0
  }

  /** The launch speed lies in [MIN_SPEED, MAX_SPEED). */
  lemma SpeedRange(u: real)
    requires 0.0 <= u < 1.0
    ensures MIN_SPEED <= Speed(u) < MAX_SPEED
  {
  }

  /**
   * On a canvas at least one icon wide and high, placing an icon of radius ICON_SIZE / 2 on
   * edge e with a positive speed puts it inside the canvas, on that edge, aimed inward;
   * only the position and velocity change.
   */
  lemma PlaceOnEdge(s: IconState, e: Edge, speed: real, u: real, v: real, canvasW: real, canvasH: real)
    requires s.radius == ICON_SIZE / 2.0 && 0.0 < speed
    requires 0.0 <= u < 1.0 && 0.0 <= v < 1.0
    requires ICON_SIZE <= canvasW && ICON_SIZE <= canvasH
    ensures var r := Place(s, e, speed, u, v, canvasW, canvasH);
      InBounds(r, canvasW, canvasH) && OnEdge(r, e, canvasW, canvasH) && AimedInward(r, e, speed) &&
      r.radius == s.radius && r.rotation == s.rotation && r.angularVel == s.angularVel
  {
    CenteredRange(v, speed);
    match e
    case Top => ScaledRange(u, canvasW - ICON_SIZE);
    case Bottom => ScaledRange(u, canvasW - ICON_SIZE);
    case Left => ScaledRange(u, canvasH - ICON_SIZE);
    case Right => ScaledRange(u, canvasH - ICON_SIZE);
  }

  /**
   * `_spawnAtEdge` places the icon inside the canvas, on the edge draw k selected, aimed
   * inward at a speed in [MIN_SPEED, MAX_SPEED), and consumes four draws.
   */
  lemma SpawnAtEdgePlacement(s: IconState, canvasW: real, canvasH: real, rand: Stream, k: nat)
    requires Uniform(rand) && s.radius == ICON_SIZE / 2.0
    requires ICON_SIZE <= canvasW && ICON_SIZE <= canvasH
    ensures var (r, k') := SpawnAtEdge(s, canvasW, canvasH, rand, k);
      InBounds(r, canvasW, canvasH) &&
      OnEdge(r, EdgeOf(rand(k)), canvasW, canvasH) &&
      AimedInward(r, EdgeOf(rand(k)), Speed(rand(k + 1))) &&
      MIN_SPEED <= Speed(rand(k + 1)) < MAX_SPEED &&
      r.radius == s.radius && r.rotation == s.rotation && r.angularVel == s.angularVel &&
      k' == k + 4
  {
    SpeedRange(rand(k + 1));
    PlaceOnEdge(s, EdgeOf(rand(k)), Speed(rand(k + 1)), rand(k + 2), rand(k + 3), canvasW, canvasH);
  }

  /**
   * A new icon has radius ICON_SIZE / 2, a rotation in [0, 2π), a spin within ±0.02
   * radians per frame, and the placement `_spawnAtEdge` promises; it uses six draws.
   */
  lemma NewIconPlacement(canvasW: real, canvasH: real, rand: Stream, k: nat)
    requires Uniform(rand)
    requires ICON_SIZE <= canvasW && ICON_SIZE <= canvasH
    ensures var (r, k') := NewIcon(canvasW, canvasH, rand, k);
      r.radius == ICON_SIZE / 2.0 &&
      0.0 <= r.rotation < 2.0 * PI &&
      -SPAWN_SPIN / 2.0 <= r.angularVel < SPAWN_SPIN / 2.0 &&
      InBounds(r, canvasW, canvasH) &&
      OnEdge(r, EdgeOf(rand(k + 2)), canvasW, canvasH) &&
      AimedInward(r, EdgeOf(rand(k + 2)), Speed(rand(k + 3))) &&
      k' == k + 6
  {
    var s := IconState(0.0, 0.0, 0.0, 0.0, rand(k) * PI * 2.0, Centered(rand(k + 1), SPAWN_SPIN), ICON_SIZE / 2.0);
    CenteredRange(rand(k + 1), SPAWN_SPIN);
    SpawnAtEdgePlacement(s, canvasW, canvasH, rand, k + 2);
  }
}
