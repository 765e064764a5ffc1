/** Tuning constants of the bouncing-icon toy (app.js:17-29) and the shape of a launchable icon entry (app.js:4-12). */
module Config {

  /** Aspect ratio the canvas keeps (16:9). */
  const ASPECT: real := 16.0 / 9.0
  /** Side of the square icon bitmap, in pixels; every icon is a circle of radius ICON_SIZE / 2. */
  const ICON_SIZE: real := 100.0
  /** Half-width of the per-frame random velocity nudge in jiggle mode. */
  const JIGGLE_STRENGTH: real := 0.1
  /** Range of the launch speed. */
  const MIN_SPEED: real := 1.0
  const MAX_SPEED: real := 3.0
  /** Width of the random jitter added to a reflected wall velocity. */
  const WALL_RANDOMNESS: real := 0.5
  /** Downward acceleration and multiplicative drag applied per frame in drain mode. */
  const DRAIN_GRAVITY: real := 0.15
  const DRAIN_DRAG: real := 0.97
  /** Width of the random initial angular velocity. */
  const SPAWN_SPIN: real := 0.04
  /** The value of Math.PI, as a real number. */
  const PI: real := 3.141592653589793
  /** Vertical space reserved below the canvas for the controls. */
  const CONTROL_SPACE: real := 80.0

  /** One launchable icon: its display name and the bitmap file it is drawn from. */
  datatype IconConfig = IconConfig(name: string, file: string)
}
