/**
 * The mutable side of the toy: the Icon class (app.js:82-129), whose methods update its
 * fields in place, and the per-icon helpers checkWallCollision, checkIconCollision and
 * addJiggle (app.js:147-206). Math.random is the stream `rand`; a method that draws takes
 * the index `k` of its first draw and returns the index after its last. Each method changes
 * the fields exactly as the matching function of Physics or Spawn says.
 */
module Icons {
  import opened Config
  import opened Draws
  import opened RealArith
  import opened Physics
  import Spawn

  /** A loaded bitmap; only its identity matters to the physics. */
  datatype Image = Image(file: string)

  class Icon {
    const image: Image
    const name: string
    const radius: real
    var x: real
    var y: real
    var vx: real
    var vy: real
    var rotation: real
    var angularVel: real

    /** The icon's physical state as a value. */
    function State(): IconState
      reads this
    {
      IconState(x, y, vx, vy, rotation, angularVel, radius)
    }

    /**
     * `new Icon(image, name)`: radius ICON_SIZE / 2, a random rotation (draw k) and spin
     * (draw k + 1), then a spawn on a random edge of the canvas as it is now (draws k + 2
     * to k + 5).
     */
    constructor(image: Image, name: string, canvasW: real, canvasH: real, rand: Stream, k: nat)
      ensures this.image == image && this.name == name
      ensures (State(), k + 6) == Spawn.NewIcon(canvasW, canvasH, rand, k)
    {
      this.image := image;
      this.name := name;
      radius := ICON_SIZE / 2.0;
      rotation := rand(k) * PI * 2.0;
      angularVel := Centered(rand(k + 1), SPAWN_SPIN);
      new;
      var k' := SpawnAtEdge(canvasW, canvasH, rand, k + 2);
    }

    /** `_spawnAtEdge`: four draws choose the edge, the speed, the place and the sideways velocity. */
    method SpawnAtEdge(canvasW: real, canvasH: real, rand: Stream, k: nat) returns (k': nat)
      modifies this
      ensures (State(), k') == Spawn.SpawnAtEdge(old(State()), canvasW, canvasH, rand, k)
    {
      ghost var s0 := State();
      var edge := Spawn.EdgeOf(rand(k));
      var speed := Spawn.Speed(rand(k + 1));
      match edge {
        case Top =>
          x := Scaled(rand(k + 2), canvasW - ICON_SIZE) + radius;
          y := radius;
          vx := Centered(rand(k + 3), speed);
          vy := Abs(speed);
        case Bottom =>
          x := Scaled(rand(k + 2), canvasW - ICON_SIZE) + radius;
          y := canvasH - radius;
          vx := Centered(rand(k + 3), speed);
          vy := -Abs(speed);
        case Left =>
          x := radius;
          y := Scaled(rand(k + 2), canvasH - ICON_SIZE) + radius;
          vx := Abs(speed);
          vy := Centered(rand(k + 3), speed);
        case Right =>
          x := canvasW - radius;
          y := Scaled(rand(k + 2), canvasH - ICON_SIZE) + radius;
          vx := -Abs(speed);
          vy := Centered(rand(k + 3), speed);
      }
      k' := k + 4;
      assert State() == Spawn.Place(s0, edge, speed, rand(k + 2), rand(k + 3), canvasW, canvasH);
    }

    /** `update`: one frame of motion. */
    method Update()
      modifies this
      ensures State() == Integrate(old(State()))
    {
      x := x + vx;
      y := y + vy;
      rotation := rotation + angularVel;
    }
  }

  /** The x half of `checkWallCollision`: clamp to the left or right wall and reflect vx. */
  method ResolveWallX(icon: Icon, canvasW: real, spinFactor: real, rand: Stream, k: nat) returns (k': nat)
    modifies icon
    ensures (icon.State(), k') == WallX(old(icon.State()), canvasW, spinFactor, rand, k)
  {
    k' := k;
    var r := icon.radius;
    if icon.x - r < 0.0 {
      icon.x := r;
      icon.vx := Abs(icon.vx) + Centered(rand(k'), WALL_RANDOMNESS);
      icon.angularVel := icon.angularVel + Centered(rand(k' + 1), spinFactor);
      k' := k' + 2;
    } else if icon.x + r > canvasW {
      icon.x := canvasW - r;
      icon.vx := -Abs(icon.vx) + Centered(rand(k'), WALL_RANDOMNESS);
      icon.angularVel := icon.angularVel + Centered(rand(k' + 1), spinFactor);
      k' := k' + 2;
    }
  }

  /** The y half of `checkWallCollision`: clamp to the top or bottom wall and reflect vy. */
  method ResolveWallY(icon: Icon, canvasH: real, spinFactor: real, rand: Stream, k: nat) returns (k': nat)
    modifies icon
    ensures (icon.State(), k') == WallY(old(icon.State()), canvasH, spinFactor, rand, k)
  {
    k' := k;
    var r := icon.radius;
    if icon.y - r < 0.0 {
      icon.y := r;
      icon.vy := Abs(icon.vy) + Centered(rand(k'), WALL_RANDOMNESS);
      icon.angularVel := icon.angularVel + Centered(rand(k' + 1), spinFactor);
      k' := k' + 2;
    } else if icon.y + r > canvasH {
      icon.y := canvasH - r;
      icon.vy := -Abs(icon.vy) + Centered(rand(k'), WALL_RANDOMNESS);
      icon.angularVel := icon.angularVel + Centered(rand(k' + 1), spinFactor);
      k' := k' + 2;
    }
  }

  /** `checkWallCollision`: the x axis is resolved, then the y axis. */
  method CheckWallCollision(icon: Icon, canvasW: real, canvasH: real, spinFactor: real, rand: Stream, k: nat)
    returns (k': nat)
    modifies icon
    ensures (icon.State(), k') == Wall(old(icon.State()), canvasW, canvasH, spinFactor, rand, k)
  {
    k' := ResolveWallX(icon, canvasW, spinFactor, rand, k);
    k' := ResolveWallY(icon, canvasH, spinFactor, rand, k');
  }

  /** `addJiggle`: a random nudge to vx (draw k), then to vy (draw k + 1). */
  method AddJiggle(icon: Icon, rand: Stream, k: nat) returns (k': nat)
    modifies icon
    ensures (icon.State(), k') == Jiggle(old(icon.State()), rand, k)
  {
    icon.vx := icon.vx + Centered(rand(k), JIGGLE_STRENGTH);
    icon.vy := icon.vy + Centered(rand(k + 1), JIGGLE_STRENGTH);
    k' := k + 2;
  }

  /** The velocity half of `checkIconCollision`, for the normal (nx, ny). */
  method ExchangeVelocities(a: Icon, b: Icon, nx: real, ny: real, spinFactor: real, rand: Stream, k: nat)
    returns (k': nat)
    requires a != b
    modifies a, b
    ensures (a.State(), b.State(), k') == Exchange(old(a.State()), old(b.State()), nx, ny, spinFactor, rand, k)
  {
    ghost var a0, b0 := a.State(), b.State();
    k' := k;
    var dvx := a.vx - b.vx;
    var dvy := a.vy - b.vy;
    var dvDotN := Dot(dvx, dvy, nx, ny);
    assert dvDotN == Dot(a0.vx - b0.vx, a0.vy - b0.vy, nx, ny);
    if dvDotN > 0.0 {
      a.vx := a.vx - dvDotN * nx;
      a.vy := a.vy - dvDotN * ny;
      b.vx := b.vx + dvDotN * nx;
      b.vy := b.vy + dvDotN * ny;
      a.angularVel := a.angularVel + Centered(rand(k'), spinFactor * 4.0);
      b.angularVel := b.angularVel + Centered(rand(k' + 1), spinFactor * 4.0);
      k' := k' + 2;
      assert a.State() == Exchange(a0, b0, nx, ny, spinFactor, rand, k).0;
      assert b.State() == Exchange(a0, b0, nx, ny, spinFactor, rand, k).1;
    }
  }

  /** The position half of `checkIconCollision`: move the centres `overlap` apart each, along the normal. */
  method PushApart(a: Icon, b: Icon, nx: real, ny: real, overlap: real)
    requires a != b
    modifies a, b
    ensures (a.State(), b.State()) == Separate(old(a.State()), old(b.State()), nx, ny, overlap)
  {
    a.x := a.x - overlap * nx;
    a.y := a.y - overlap * ny;
    b.x := b.x + overlap * nx;
    b.y := b.y + overlap * ny;
  }

  /**
   * `checkIconCollision(a, b)`, with Math.sqrt passed in. Called with the same icon twice it
   * finds distance zero and does nothing.
   */
  method CheckIconCollision(a: Icon, b: Icon, spinFactor: real, sqrt: real -> real, rand: Stream, k: nat)
    returns (k': nat)
    requires IsSqrt(sqrt)
    modifies a, b
    ensures (a.State(), b.State(), k')
         == Collide(old(a.State()), old(b.State()), CentreDist(old(a.State()), old(b.State()), sqrt),
                    spinFactor, rand, k)
  {
    CentreDistIsDist(a.State(), b.State(), sqrt);
    k' := k;
    var dx := b.x - a.x;
    var dy := b.y - a.y;
    var dist := Hypot(sqrt, dx, dy);
    var minDist := a.radius + b.radius;
    if dist < minDist && dist > 0.0 {
      assert a != b;
      var nx := dx / dist;
      var ny := dy / dist;
      k' := ExchangeVelocities(a, b, nx, ny, spinFactor, rand, k');
      PushApart(a, b, nx, ny, (minDist - dist) / 2.0);
    }
  }
}
