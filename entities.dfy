/**
 * The entities of one game session: the canvas, the bird and the pipes,
 * with the constants game.js gives them (game.js:18-50) and the pipe
 * constructor (game.js:81-91).  All quantities are exact reals; the
 * browser's doubles are not modelled.
 */
module Entities {

  /** Canvas size in pixels, read once from the window at start-up. */
  datatype Canvas = Canvas(width: nat, height: nat)

  // The bird (game.js:30-40).
  const BIRD_X: real := 80.0
  const BIRD_WIDTH: real := 40.0
  const BIRD_HEIGHT: real := 30.0
  const GRAVITY: real := 0.5
  const JUMP_VELOCITY: real := -9.0
  const ROTATION_FACTOR: real := 0.05
  const MAX_ROTATION: real := 0.5

  // The pipes (game.js:44-50, 87).
  const PIPE_WIDTH: real := 70.0
  const PIPE_HEIGHT: real := 400.0
  const PIPE_GAP: real := 160.0
  const PIPE_MIN_Y: real := -200.0
  const PIPE_MAX_Y: real := -100.0
  const PIPE_SPEED: real := 3.0
  /** A pipe is spawned on every frame whose counter is a multiple of this. */
  const SPAWN_INTERVAL: nat := 120

  /** Height of the ground strip at the bottom of the canvas. */
  const GROUND_HEIGHT: real := 100.0

  /** The bird's mutable part; its x, size and physics constants are fixed. */
  datatype Bird = Bird(y: real, velocity: real, rotation: real)

  /**
   * One pipe pair: the top segment spans [y, y + height), the gap
   * [y + height, y + height + gap], the bottom segment the rest.
   */
  datatype Pipe = Pipe(x: real, y: real, width: real, height: real, gap: real, passed: bool)

  /** The line the bird rests on when it hits the ground. */
  function GroundLine(c: Canvas): real
  {
    c.height as real - GROUND_HEIGHT
  }

  /** The bird the page starts with and every new game resets to. */
  function RestingBird(c: Canvas): (b: Bird)
    ensures b.velocity == 0.0 && b.rotation == 0.0
    ensures b.y * 2.0 == c.height as real
  {
    Bird(c.height as real / 2.0, 0.0, 0.0)
  }

  /** The trailing (right) edge of a pipe is still on the canvas. */
  predicate Visible(p: Pipe)
  {
    p.x + p.width > 0.0
  }

  /**
   * What holds of every pipe of a running session: the fixed dimensions,
   * a gap offset in [minY, maxY), never to the right of the spawn point,
   * and marked passed only once its trailing edge is left of the bird.
   */
  predicate Regular(c: Canvas, p: Pipe)
  {
    && p.width == PIPE_WIDTH && p.height == PIPE_HEIGHT && p.gap == PIPE_GAP
    && PIPE_MIN_Y <= p.y < PIPE_MAX_Y
    && p.x <= c.width as real
    && (p.passed ==> p.x + p.width < BIRD_X)
  }

  /**
   * createPipe: a fresh pipe at the right edge of the canvas whose gap
   * offset is `r`, a value of Math.random(), scaled into [minY, maxY).
   */
  function CreatePipe(c: Canvas, r: real): (p: Pipe)
    requires 0.0 <= r < 1.0
    ensures p.x == c.width as real && !p.passed
    ensures PIPE_MIN_Y <= p.y < PIPE_MAX_Y
    ensures Regular(c, p) && Visible(p)
  {
    Pipe(c.width as real, r * (PIPE_MAX_Y - PIPE_MIN_Y) + PIPE_MIN_Y,
         PIPE_WIDTH, PIPE_HEIGHT, PIPE_GAP, false)
  }
}
