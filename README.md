# Bouncing icons: a verified model of the physics

The toy draws round icons on a 16:9 canvas. Each launch button adds an icon that starts on
a random edge of the canvas and heads inward. Every animation frame, each icon first gets
a force: a small random jiggle, or in drain mode gravity and drag. It then moves, and
bounces off the walls with some random jitter and spin. Last, every pair of icons is
checked for overlap: an overlapping pair exchanges velocity along the line between the
centres, as equal-mass discs do, and is pushed apart until the two just touch. The frame
can be frozen, and the canvas is refitted when the window changes size.

The Dafny project models that physics, and proves what it promises:

- clamped icons lie inside the walls;
- collisions conserve the summed velocity and position, leave the pair exactly in contact,
  and negate the approach speed while keeping the sideways one;
- a spawned icon sits on its edge, aimed inward at a speed in `[MIN_SPEED, MAX_SPEED)`;
- a frozen frame changes nothing;
- a launch appends exactly one icon when its image is loaded.

Layout, one module per file:

- `config.dfy` (`Config`): the tuning constants and the shape of a launchable icon entry.
- `arith.dfy` (`RealArith`): small facts about real multiplication used by the proofs.
- `draws.dfy` (`Draws`): `Math.random()` as the stream `rand` of the values it returns, in
  call order. `rand(k)` is the k-th draw. Every operation that draws takes the index of
  its first draw and returns the index after its last, so the model consumes random
  numbers in exactly the order the program does.
- `physics.dfy` (`Physics`): one icon's state as a value (`IconState`), with the motion,
  forces, wall resolver and pair collision as functions, and their properties as lemmas.
- `spawn.dfy` (`Spawn`): the initial state of a new icon.
- `icons.dfy` (`Icons`): the `Icon` class, whose methods update its fields in place, and
  the free helpers `checkWallCollision`, `checkIconCollision` and `addJiggle` as methods.
  Each method is proved to change the fields exactly as the matching function of
  `Physics` or `Spawn` says.
- `frame.dfy` (`Frame`): one frame of `gameLoop` as functions on the sequence of icon
  states, with lemmas about the whole pass.
- `sizing.dfy` (`Sizing`): the 16:9 fit of `resizeCanvas`.
- `world.dfy` (`World`): the script's globals as a `World` object. `Step` runs the two
  loops of `gameLoop` over the icon objects; `LaunchIcon`, `Resize` and the control
  setters change the other fields.

## Model

| member | source | states |
|---|---|---|
| Draws.CenteredRange | app.js:87 | a centred draw `(u - 0.5) * scale` lies in `[-scale/2, scale/2)`, and is 0 when the scale is 0 |
| Draws.ScaledRange | app.js:99 | a scaled draw `u * span` lies in `[0, span]`, and below span when span is positive |
| Physics.Integrate | app.js:125-129 | one frame of motion moves the centre by the velocity and the rotation by the angular velocity, and keeps the velocities and radius |
| Physics.IntegrateReversible | app.js:125-129 | a frame of motion, reversed and integrated again, lands back on the start with reversed velocity |
| Physics.Jiggle | app.js:203-206 | `addJiggle`: draw k re-centred and scaled by `JIGGLE_STRENGTH` is added to vx, then draw k + 1 to vy; two draws |
| Physics.Drain | app.js:228-232 | the drain branch: `DRAIN_GRAVITY` is added to vy, then vx, vy and the spin are multiplied by `DRAIN_DRAG` |
| Physics.JiggleNudges | app.js:203-206 | a jiggle changes vx and vy by less than `JIGGLE_STRENGTH/2` each, touches nothing else, and takes two draws |
| Physics.DrainRelaxes | app.js:228-232 | drain moves vy geometrically toward the terminal speed (`vy' - T == 0.97 * (vy - T)`), does not grow `abs(vx)` or `abs(angularVel)`, and does not move the icon |
| Physics.WallX | app.js:150-158 | the left test first, else the right test: the icon is clamped to the wall, vx becomes `±abs(vx)` plus a jitter from draw k, and the spin gets a kick from draw k + 1; no draw when neither wall is hit |
| Physics.WallY | app.js:160-168 | the same for the top and bottom walls, with vy |
| Physics.Wall | app.js:147-169 | `checkWallCollision`: the x axis is resolved, then the y axis, continuing from the draws the x axis took |
| Physics.WallInBounds | app.js:147-169 | on a canvas at least one icon wide and high, the resolved icon lies in `[r, W-r] x [r, H-r]`, with its radius kept |
| Physics.WallIdleIffInside | app.js:150-168 | the resolver draws nothing exactly when the icon is already inside, and then changes nothing |
| Physics.WallAxesIndependent | app.js:150-168 | the x branches never touch y, vy or rotation, the y branches never touch x, vx or rotation, and each axis draws 0 or 2 values |
| Physics.WallXReflects | app.js:150-158 | a left hit sets `x = r` and `vx` in `[abs(vx) - 0.25, abs(vx) + 0.25)`; a right hit mirrors it; a hit turns the spin by a kick in `[-spinFactor/2, spinFactor/2)`; no hit changes nothing |
| Physics.WallYReflects | app.js:160-168 | the same for the top and bottom walls |
| Physics.WallPointsInward | app.js:147-169 | after a hit, the reflected velocity component points back into the canvas, up to the 0.25 jitter |
| Physics.CentreDist | app.js:172-174 | the centre distance as `Math.sqrt(dx * dx + dy * dy)` with `dx`, `dy` from a to b |
| Physics.CentreDistIsDist | app.js:172-174 | with a true square root, the computed distance is the non-negative Euclidean distance, and 0 for coincident centres |
| Physics.Collide | app.js:171-201 | `checkIconCollision` at a given distance: when `0 < dist < minDist`, the velocity exchange along `(dx, dy)/dist` and then the push-apart by half the overlap; otherwise the pair and the draw index are unchanged |
| Physics.Exchange | app.js:181-193 | the velocity exchange keeps both positions, rotations and radii |
| Physics.Separate | app.js:195-199 | the push-apart keeps both velocities, spins, rotations and radii |
| Physics.NormalFacts | app.js:178-179 | the normal `(dx, dy)/dist` is a unit vector along the centre line |
| Physics.CollideActsIffOverlapping | app.js:177 | the pair changes if and only if `0 < dist < minDist` |
| Physics.CollideSeparatingKeepsVelocity | app.js:185 | when `dvDotN <= 0`, only the positions change: no velocity, spin or draw |
| Physics.CollideConserves | app.js:186-199 | `a.vx+b.vx`, `a.vy+b.vy`, `a.x+b.x` and `a.y+b.y` are preserved, with radii and rotations |
| Physics.CollideSeparatesToContact | app.js:195-199 | after a resolved overlap the centres are exactly `minDist` apart |
| Physics.ExchangeReflects | app.js:181-189 | for an approaching pair along a unit normal, the exchange negates the normal relative velocity and keeps the tangential one |
| Physics.CollideReflectsApproach | app.js:178-189 | the same for the resolver: `dvDotN` becomes `-dvDotN`, and the tangential relative velocity is unchanged |
| Physics.CollideSpinKick | app.js:191-192 | an approaching pair takes two draws, and each spin changes by a kick in `[-2 * spinFactor, 2 * spinFactor)` |
| Spawn.EdgeOf | app.js:94 | `Math.floor(u * 4)` as the top, bottom, left or right edge |
| Spawn.EdgeOfQuarters | app.js:94 | each edge is chosen by one quarter of `[0, 1)` |
| Spawn.Speed | app.js:95 | the launch speed `MIN_SPEED + u * (MAX_SPEED - MIN_SPEED)` |
| Spawn.Place | app.js:97-122 | the four cases of the switch: position on the chosen edge, velocity `speed` inward, and a random offset along the edge and sideways velocity from the two draws |
| Spawn.SpawnAtEdge | app.js:93-123 | `_spawnAtEdge`: draw k picks the edge, draw k + 1 the speed, draws k + 2 and k + 3 the placement; four draws |
| Spawn.NewIcon | app.js:82-91 | the `Icon` constructor: radius `ICON_SIZE/2`, rotation from draw k, spin from draw k + 1, then the spawn from draw k + 2; six draws |
| Spawn.SpeedRange | app.js:95 | the launch speed lies in `[MIN_SPEED, MAX_SPEED)` |
| Spawn.PlaceOnEdge | app.js:97-122 | on a canvas at least `ICON_SIZE` wide and high, each case of the switch puts the icon inside the canvas, on its edge, with velocity `speed` inward and the sideways component in `[-speed/2, speed/2)` |
| Spawn.SpawnAtEdgePlacement | app.js:93-123 | `_spawnAtEdge` places the icon in bounds, on the edge its first draw selects, aimed inward at a speed in `[1, 3)`, using four draws |
| Spawn.NewIconPlacement | app.js:82-91 | a new icon has radius 50, a rotation in `[0, 2π)` and a spin within `±0.02`, plus the spawn placement, using six draws |
| Icons.Icon.constructor | app.js:82-91 | the object holds the image and name, and its state is `Spawn.NewIcon` of the current canvas |
| Icons.Icon.SpawnAtEdge | app.js:93-123 | the fields become `Spawn.SpawnAtEdge` of the old state |
| Icons.Icon.Update | app.js:125-129 | the fields become `Integrate` of the old state |
| Icons.ResolveWallX | app.js:150-158 | the fields become `WallX` of the old state |
| Icons.ResolveWallY | app.js:160-168 | the fields become `WallY` of the old state |
| Icons.CheckWallCollision | app.js:147-169 | the fields become `Wall` of the old state |
| Icons.AddJiggle | app.js:203-206 | the fields become `Jiggle` of the old state |
| Icons.ExchangeVelocities | app.js:181-193 | both icons' fields become `Exchange` of their old states |
| Icons.PushApart | app.js:195-199 | both icons' fields become `Separate` of their old states |
| Icons.CheckIconCollision | app.js:171-201 | both icons' fields become `Collide` of their old states at the computed distance |
| Frame.Force | app.js:228-235 | the force on one icon: drain in drain mode, with no draw, otherwise the jiggle |
| Frame.IconStep | app.js:228-237 | the body of the first loop: the force, then one frame of motion, then the wall resolver |
| Frame.Step | app.js:226-245 | one frame: nothing when frozen, otherwise the force loop over every icon in order and then the pair loop over every `i < j` |
| Frame.ForcePass | app.js:227-238 | the force loop keeps the number of icons |
| Frame.PairPass | app.js:240-244 | the pair loop keeps the number of icons |
| Frame.IconStepInBounds | app.js:227-238 | after its own step, an icon no larger than the canvas lies inside it, keeps its radius, and has taken at most six draws |
| Frame.DrainStepAwayFromWalls | app.js:228-237 | in drain mode, an icon that reaches no wall takes no draws: its step is the drained velocity, then one frame of motion |
| Frame.ForcePassInBounds | app.js:227-238 | right after the force loop every icon lies inside the walls, keeps its radius, and the loop took at most six draws per icon |
| Frame.ForcePassRadii | app.js:227-238 | the force loop keeps every radius, on any canvas |
| Frame.TotalUpdate | app.js:240-244 | replacing one icon changes a sum over all icons by exactly that icon's change |
| Frame.PairPassConserves | app.js:240-244 | the pair loop conserves total velocity and total position over all icons, and every radius and rotation |
| Frame.StepShape | app.js:226-245 | a frozen frame changes nothing and draws nothing; any frame keeps the number of icons and their radii |
| Frame.StepCollisionsConserve | app.js:240-245 | the totals after the frame equal those right after the force loop |
| Sizing.Round | app.js:63-64 | `Math.round` returns the integer within half a pixel |
| Sizing.Fit | app.js:42-61 | the unrounded fitted box: the 16:9 fit into the half-window, then the clamp to the window height less 80 |
| Sizing.FitTestIsRatio | app.js:47 | for a positive window height, Fit's branch test `halfW > halfH * ASPECT` is the source's `halfW / halfH > ASPECT` |
| Sizing.FitZeroHeight | app.js:42-64 | a window of height 0 gives the box `(-80 * ASPECT, -80)`, rounded to -142 by -80, as the source gives through its Infinity or NaN ratio |
| Sizing.FitLargest | app.js:42-61 | the fitted box is 16:9, and its height is the least of half the window's height, half its width over the aspect, and its height less 80 |
| Sizing.FitWithin | app.js:42-61 | the box is at most half the window wide and high and leaves 80 pixels below; it is non-empty exactly when the window is wider than 0 and higher than 80 |
| World.World.constructor | app.js:24-36 | at load there are no icons, no cached images, all settings off, and the canvas is fitted to the window |
| World.World.Resize | app.js:41-73 | the canvas becomes the rounded fitted box |
| World.World.ImageLoaded | app.js:366-367 | a loaded image is cached under its file name |
| World.World.ToggleFreeze | app.js:277-278 | the freeze button flips `frozen` |
| World.World.ToggleDrain | app.js:285-286 | the drain button flips `draining` |
| World.World.SetSpin | app.js:344-345 | the slider sets `spinFactor` |
| World.World.LaunchIcon | app.js:211-218 | with the image cached, exactly one fresh icon is appended, with the earlier icons unchanged and its state `Spawn.NewIcon`; otherwise nothing changes |
| World.World.Step | app.js:226-245 | the icons' states and the draw count become `Frame.Step` of the old ones, which is the identity when frozen |
| World.Advance | app.js:227-244 | an unfrozen frame runs the force loop, then the pair loop |
| World.ApplyForce | app.js:228-235 | the fields become `Frame.Force` of the old state: drain in drain mode, jiggle otherwise |
| World.StepIcon | app.js:228-237 | the fields become `Frame.IconStep` of the old state |
| World.ForceLoop | app.js:227-238 | the loop leaves the icons in the states `Frame.ForcePass` computes |
| World.PairRow | app.js:241-243 | the inner loop advances the pair pass to the end of row i |
| World.PairLoop | app.js:240-244 | the nested loop leaves the icons in the states `Frame.PairPass` computes |

## Left out

- Drawing (`draw`, `clearRect` and the canvas transforms) and `requestAnimationFrame` scheduling are host graphics calls; only the physics of a frame is modelled.
- The DOM wiring of the controls is left out: button creation, labels, the hint for an empty icon list, and the `parseFloat` of the slider's text. Their effects on the settings are the `World` setters.
- The list of launchable icons (app.js:4-12) only feeds the buttons and the preloading; `LaunchIcon` takes any entry, so the list itself is not modelled.
- Recording with MediaRecorder is browser media I/O and is left out.
- Image preloading and its load counter are asynchronous callbacks. Only their effect, a cache entry per loaded file, is modelled (`ImageLoaded`). A failed load leaves the file out of the cache. `console.warn` is not modelled.
- Numbers are reals, with no IEEE-754 rounding. `Math.PI` is the constant `3.141592653589793`.
- `Math.random` is the stream `rand`. The proofs only require its values to lie in `[0, 1)`; nothing about their distribution is claimed.
- `Math.sqrt` is a parameter. The collision facts require it to return the exact non-negative square root.
- No bounds are claimed after a whole frame. The push-apart in `checkIconCollision` has no clamp and can move an icon back across a wall, so the bounds hold only right after the force loop.
- World.World.Resize: only `canvasW` and `canvasH` are modelled; the canvas element's size and style are not.
- Spawn.PlaceOnEdge: the placement bounds are proved only for a canvas at least `ICON_SIZE` wide and high. On a smaller canvas the spawn is still modelled, but the icon can start outside.
- In the source, `x`, `y`, `vx` and `vy` do not exist until `_spawnAtEdge` assigns them. The model's `Spawn.NewIcon` starts them at 0; every edge overwrites all four.
- The loops of `gameLoop` call methods on the icons directly. The model splits them into `ForceLoop`, `PairRow` and `PairLoop`, with `StepIcon` and `ApplyForce` as the first loop's body; `checkWallCollision` and `checkIconCollision` are likewise split into per-axis and per-half helpers.
