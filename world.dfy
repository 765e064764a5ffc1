/**
 * The script's global state (app.js:24-36) as one object: the canvas size, the list of live
 * icons, the image cache, the three settings the controls change, and the position in the
 * stream of Math.random() values. Step is the physics of gameLoop (app.js:223-245),
 * LaunchIcon is launchIcon (app.js:211-218), Resize is resizeCanvas (app.js:41-73).
 */
module World {
  import opened Config
  import opened Draws
  import opened Physics
  import opened Icons
  import Frame
  import Sizing
  import Spawn

  /** The states of a list of icons, in order. */
  function StatesOf(icons: seq<Icon>): (r: seq<IconState>)
    reads icons
    ensures |r| == |icons| && forall p :: 0 <= p < |icons| ==> r[p] == icons[p].State()
  {
    seq(|icons|, p requires 0 <= p < |icons| reads icons => icons[p].State())
  }

  class World {
    var canvasW: real
    var canvasH: real
    var icons: seq<Icon>
    var imageCache: map<string, Image>
    var spinFactor: real
    var draining: bool
    var frozen: bool
    /** Math.random, as the sequence of values it returns, and how many have been used. */
    const rand: Stream
    var drawn: nat
    /** Math.sqrt. */
    const sqrt: real -> real

    /** The icons are distinct objects, and sqrt is a square root. */
    ghost predicate Valid()
      reads this`icons
    {
      IsSqrt(sqrt) && Distinct(icons)
    }

    /** Loading the script: no icons, nothing cached yet, settings off, canvas fitted to the window. */
    constructor(innerW: real, innerH: real, rand: Stream, sqrt: real -> real)
      requires IsSqrt(sqrt)
      ensures Valid()
      ensures icons == [] && imageCache == map[] && drawn == 0 && this.rand == rand && this.sqrt == sqrt
      ensures spinFactor == 0.0 && !draining && !frozen
      ensures canvasW == Sizing.Round(Sizing.Fit(innerW, innerH).0) as real
      ensures canvasH == Sizing.Round(Sizing.Fit(innerW, innerH).1) as real
    {
      icons := [];
      imageCache := map[];
      spinFactor := 0.0;
      draining := false;
      frozen := false;
      this.rand := rand;
      this.sqrt := sqrt;
      drawn := 0;
      var (w, h) := Sizing.Fit(innerW, innerH);
      canvasW := Sizing.Round(w) as real;
      canvasH := Sizing.Round(h) as real;
    }

    /** resizeCanvas: fit the canvas to a new window size. The icons are not moved. */
    method Resize(innerW: real, innerH: real)
      modifies this`canvasW, this`canvasH
      ensures canvasW == Sizing.Round(Sizing.Fit(innerW, innerH).0) as real
      ensures canvasH == Sizing.Round(Sizing.Fit(innerW, innerH).1) as real
    {
      var (w, h) := Sizing.Fit(innerW, innerH);
      canvasW := Sizing.Round(w) as real;
      canvasH := Sizing.Round(h) as real;
    }

    /** An image finished loading: it is cached under its file name. */
    method ImageLoaded(file: string, img: Image)
      modifies this`imageCache
      ensures imageCache == old(imageCache)[file := img]
    {
      imageCache := imageCache[file := img];
    }

    /** The freeze button. */
    method ToggleFreeze()
      modifies this`frozen
      ensures frozen == !old(frozen)
    {
      frozen := !frozen;
    }

    /** The drain button. */
    method ToggleDrain()
      modifies this`draining
      ensures draining == !old(draining)
    {
      draining := !draining;
    }

    /** The spin slider. */
    method SetSpin(value: real)
      modifies this`spinFactor
      ensures spinFactor == value
    {
      spinFactor := value;
    }

    /**
     * launchIcon: when the icon's image is cached, a new icon built from it is appended (six
     * draws: rotation, spin, and the four of the spawn); otherwise nothing changes.
     */
    method LaunchIcon(config: IconConfig)
      requires Valid()
      modifies this`icons, this`drawn
      ensures Valid()
      ensures config.file !in imageCache ==> icons == old(icons) && drawn == old(drawn)
      ensures config.file in imageCache ==>
        |icons| == |old(icons)| + 1 && icons[..|old(icons)|] == old(icons) &&
        fresh(icons[|old(icons)|]) &&
        icons[|old(icons)|].image == imageCache[config.file] && icons[|old(icons)|].name == config.name &&
        StatesOf(icons) == old(StatesOf(icons)) + [icons[|old(icons)|].State()] &&
        (icons[|old(icons)|].State(), drawn) == Spawn.NewIcon(canvasW, canvasH, rand, old(drawn))
    {
      if config.file !in imageCache {
        return;
      }
      var icon := new Icon(imageCache[config.file], config.name, canvasW, canvasH, rand, drawn);
      icons := icons + [icon];
      drawn := drawn + 6;
    }

    /**
     * The physics of one frame of gameLoop: nothing when frozen; otherwise force, motion and
     * walls for every icon in order, then the collision check for every pair i < j.
     */
    method Step()
      requires Valid()
      modifies icons, this`drawn
      ensures (StatesOf(icons), drawn)
           == Frame.Step(old(StatesOf(icons)), frozen, draining, canvasW, canvasH, spinFactor, sqrt, rand, old(drawn))
    {
      if !frozen {
        drawn := Advance(icons, draining, canvasW, canvasH, spinFactor, sqrt, rand, drawn);
      }
    }
  }

  /** Both loops of an unfrozen frame. */
  method Advance(icons: seq<Icon>, draining: bool, canvasW: real, canvasH: real, spinFactor: real,
                 sqrt: real -> real, rand: Stream, k: nat) returns (k': nat)
    requires Distinct(icons) && IsSqrt(sqrt)
    modifies icons
    ensures (StatesOf(icons), k') == Frame.Step(old(StatesOf(icons)), false, draining, canvasW, canvasH, spinFactor, sqrt, rand, k)
  {
    ghost var forced, s';
    k', forced := ForceLoop(icons, StatesOf(icons), draining, canvasW, canvasH, spinFactor, rand, k);
    k', s' := PairLoop(icons, forced, spinFactor, sqrt, rand, k');
    assert StatesOf(icons) == s';
  }

  /** The icons of a list are distinct objects. */
  predicate Distinct(icons: seq<Icon>) {
    forall p, q :: 0 <= p < q < |icons| ==> icons[p] != icons[q]
  }

  /** The force part of the first loop of gameLoop: drain in drain mode, jiggle otherwise. */
  method ApplyForce(icon: Icon, draining: bool, rand: Stream, k: nat) returns (k': nat)
    modifies icon
    ensures (icon.State(), k') == Frame.Force(old(icon.State()), draining, rand, k)
  {
    k' := k;
    if draining {
      icon.vy := icon.vy + DRAIN_GRAVITY;
      icon.vx := icon.vx * DRAIN_DRAG;
      icon.vy := icon.vy * DRAIN_DRAG;
      icon.angularVel := icon.angularVel * DRAIN_DRAG;
    } else {
      k' := AddJiggle(icon, rand, k');
    }
  }

  /** The body of the first loop of gameLoop, for one icon whose state is s. */
  method StepIcon(icon: Icon, ghost s: IconState, draining: bool, canvasW: real, canvasH: real, spinFactor: real,
                  rand: Stream, k: nat) returns (k': nat)
    requires icon.State() == s
    modifies icon
    ensures (icon.State(), k') == Frame.IconStep(s, draining, canvasW, canvasH, spinFactor, rand, k)
  {
    k' := ApplyForce(icon, draining, rand, k);
    icon.Update();
    k' := CheckWallCollision(icon, canvasW, canvasH, spinFactor, rand, k');
  }

  /** The states s of the icons, one by one. */
  ghost predicate HoldStates(icons: seq<Icon>, s: seq<IconState>)
    reads icons
  {
    |s| == |icons| && forall p :: 0 <= p < |icons| ==> icons[p].State() == s[p]
  }

  /** The first loop of gameLoop: StepIcon on every icon, in list order. */
  method ForceLoop(icons: seq<Icon>, ghost s0: seq<IconState>, draining: bool, canvasW: real, canvasH: real,
                   spinFactor: real, rand: Stream, k: nat) returns (k': nat, ghost s': seq<IconState>)
    requires Distinct(icons) && HoldStates(icons, s0)
    modifies icons
    ensures HoldStates(icons, s') && (s', k') == Frame.ForcePass(s0, 0, draining, canvasW, canvasH, spinFactor, rand, k)
  {
    s' := s0;
    k' := k;
    var n := 0;
    while n < |icons|
      invariant 0 <= n <= |icons| && HoldStates(icons, s')
      invariant Frame.ForcePass(s', n, draining, canvasW, canvasH, spinFactor, rand, k')
             == Frame.ForcePass(s0, 0, draining, canvasW, canvasH, spinFactor, rand, k)
    {
      k' := StepIcon(icons[n], s'[n], draining, canvasW, canvasH, spinFactor, rand, k');
      s' := s'[n := icons[n].State()];
      n := n + 1;
    }
  }

  /** One row of the nested loop of gameLoop: icon i against every later icon, from j on. */
  method PairRow(icons: seq<Icon>, ghost s0: seq<IconState>, i: nat, j: nat, spinFactor: real,
                 sqrt: real -> real, rand: Stream, k: nat) returns (k': nat, ghost s': seq<IconState>)
    requires Distinct(icons) && HoldStates(icons, s0) && IsSqrt(sqrt) && i < j <= |icons|
    modifies icons
    ensures HoldStates(icons, s')
    ensures Frame.PairPass(s', i, |icons|, spinFactor, sqrt, rand, k')
         == Frame.PairPass(s0, i, j, spinFactor, sqrt, rand, k)
  {
    s' := s0;
    k' := k;
    var j' := j;
    while j' < |icons|
      invariant j <= j' <= |icons| && HoldStates(icons, s')
      invariant Frame.PairPass(s', i, j', spinFactor, sqrt, rand, k') == Frame.PairPass(s0, i, j, spinFactor, sqrt, rand, k)
    {
      Frame.PairPassStep(s', i, j', spinFactor, sqrt, rand, k');
      k' := CheckIconCollision(icons[i], icons[j'], spinFactor, sqrt, rand, k');
      s' := s'[i := icons[i].State()][j' := icons[j'].State()];
      j' := j' + 1;
    }
  }

  /** The nested loop of gameLoop: the collision check for every pair i < j, row by row. */
  method PairLoop(icons: seq<Icon>, ghost s0: seq<IconState>, spinFactor: real, sqrt: real -> real,
                  rand: Stream, k: nat) returns (k': nat, ghost s': seq<IconState>)
    requires Distinct(icons) && HoldStates(icons, s0) && IsSqrt(sqrt)
    modifies icons
    ensures HoldStates(icons, s') && (s', k') == Frame.PairPass(s0, 0, 1, spinFactor, sqrt, rand, k)
  {
    s' := s0;
    k' := k;
    var i := 0;
    while i < |icons|
      invariant 0 <= i <= |icons| && HoldStates(icons, s')
      invariant Frame.PairPass(s', i, i + 1, spinFactor, sqrt, rand, k') == Frame.PairPass(s0, 0, 1, spinFactor, sqrt, rand, k)
    {
      k', s' := PairRow(icons, s', i, i + 1, spinFactor, sqrt, rand, k');
      i := i + 1;
    }
  }
}
