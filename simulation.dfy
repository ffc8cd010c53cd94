/**
 * The pure rules of one simulation step: bird physics (game.js:283-304),
 * the pipe list step (game.js:307-331) and the collision test
 * (game.js:353-371).  Session-level effects (calling gameOver, adding to
 * the score) are in module Rules; here every rule is a function of the
 * entities alone.
 */
module Simulation {
  import opened Entities

  function MinReal(a: real, b: real): real { if a <= b then a else b }
  function MaxReal(a: real, b: real): real { if a >= b then a else b }

  // ----- Bird physics -----

  /** Display rotation: velocity * 0.05 clamped into [-0.5, 0.5]. */
  function Rotation(velocity: real): (rot: real)
    ensures -MAX_ROTATION <= rot <= MAX_ROTATION
    ensures -10.0 <= velocity <= 10.0 ==> rot == velocity * ROTATION_FACTOR
    ensures velocity >= 10.0 ==> rot == MAX_ROTATION
    ensures velocity <= -10.0 ==> rot == -MAX_ROTATION
  {
    MaxReal(-MAX_ROTATION, MinReal(MAX_ROTATION, velocity * ROTATION_FACTOR))
  }

  /** Gravity integration: the velocity grows first, and y moves by the new velocity. */
  function Integrate(b: Bird): (b': Bird)
    ensures b'.velocity - b.velocity == GRAVITY
    ensures b'.y - b.y == b.velocity + GRAVITY
    ensures -MAX_ROTATION <= b'.rotation <= MAX_ROTATION
  {
    var v := b.velocity + GRAVITY;
    Bird(b.y + v, v, Rotation(v))
  }

  /** The bird's bottom edge is below the ground line. */
  predicate HitsGround(c: Canvas, b: Bird)
  {
    b.y + BIRD_HEIGHT / 2.0 > GroundLine(c)
  }

  /** The bird's top edge is above the top of the canvas. */
  predicate HitsCeiling(b: Bird)
  {
    b.y - BIRD_HEIGHT / 2.0 < 0.0
  }

  /** Ground clamp: a bird below the ground is put to rest on it; its velocity is kept. */
  function ClampToGround(c: Canvas, b: Bird): (b': Bird)
    ensures b'.y + BIRD_HEIGHT / 2.0 <= GroundLine(c)
    ensures b'.velocity == b.velocity && b'.rotation == b.rotation
    ensures HitsGround(c, b) ==> b'.y == GroundLine(c) - BIRD_HEIGHT / 2.0
    ensures !HitsGround(c, b) ==> b' == b
  {
    if HitsGround(c, b) then b.(y := GroundLine(c) - BIRD_HEIGHT / 2.0) else b
  }

  /** Ceiling clamp: a bird above the canvas is put just below its top edge and stopped. */
  function ClampToCeiling(b: Bird): (b': Bird)
    ensures b'.y - BIRD_HEIGHT / 2.0 >= 0.0
    ensures b'.rotation == b.rotation
    ensures HitsCeiling(b) ==> b'.velocity == 0.0 && b'.y == BIRD_HEIGHT / 2.0
    ensures !HitsCeiling(b) ==> b' == b
  {
    if HitsCeiling(b) then b.(y := BIRD_HEIGHT / 2.0, velocity := 0.0) else b
  }

  /** The bird after updateBird: integrate, then the ground clamp, then the ceiling clamp. */
  function FallBird(c: Canvas, b: Bird): (b': Bird)
    // rotation is derived from the new velocity and stays within [-0.5, 0.5]
    ensures b'.rotation == Rotation(b.velocity + GRAVITY)
    ensures -MAX_ROTATION <= b'.rotation <= MAX_ROTATION
    // the top edge is never above the canvas
    ensures b'.y >= BIRD_HEIGHT / 2.0
    // the ceiling clamp stops the bird; otherwise gravity's velocity is kept
    ensures HitsCeiling(ClampToGround(c, Integrate(b))) ==> b'.velocity == 0.0
    ensures !HitsCeiling(ClampToGround(c, Integrate(b))) ==> b'.velocity == b.velocity + GRAVITY
    // a bird that hit the ground rests exactly on it, unless the canvas is too low for the bird
    ensures HitsGround(c, Integrate(b)) && GroundLine(c) >= BIRD_HEIGHT ==>
              b'.y == GroundLine(c) - BIRD_HEIGHT / 2.0
    // on a canvas tall enough for the bird, the bird ends between ceiling and ground
    ensures GroundLine(c) >= BIRD_HEIGHT ==> b'.y + BIRD_HEIGHT / 2.0 <= GroundLine(c)
    // in free flight the step is plain integration
    ensures !HitsGround(c, Integrate(b)) && !HitsCeiling(Integrate(b)) ==> b' == Integrate(b)
  {
    ClampToCeiling(ClampToGround(c, Integrate(b)))
  }

  // ----- Pipe list step -----

  /** The pipe moved left by the pipe speed, and marked passed once its trailing edge is left of the bird. */
  function MovePipe(p: Pipe): (q: Pipe)
    ensures q.x == p.x - PIPE_SPEED
    ensures q.y == p.y && q.width == p.width && q.height == p.height && q.gap == p.gap
    ensures q.passed <==> p.passed || q.x + q.width < BIRD_X
  {
    var moved := p.(x := p.x - PIPE_SPEED);
    if !moved.passed && moved.x + moved.width < BIRD_X then moved.(passed := true) else moved
  }

  /** The pipe scores a point in this step: not passed before, passed after the move. */
  predicate NewlyPassed(p: Pipe)
  {
    !p.passed && MovePipe(p).passed
  }

  /** The forEach over the pipe list: every pipe moved, in place and in order. */
  function MovePipes(ps: seq<Pipe>): (qs: seq<Pipe>)
    ensures |qs| == |ps|
    ensures forall i :: 0 <= i < |ps| ==> qs[i] == MovePipe(ps[i])
  {
    seq(|ps|, i requires 0 <= i < |ps| => MovePipe(ps[i]))
  }

  /** How many pipes of the list score in this step (one point each). */
  function CountNewlyPassed(ps: seq<Pipe>): (n: nat)
    ensures n <= |ps|
  {
    if ps == [] then 0
    else CountNewlyPassed(ps[..|ps| - 1]) + (if NewlyPassed(ps[|ps| - 1]) then 1 else 0)
  }

  /** How many pipes of the list carry the passed flag. */
  function CountPassed(ps: seq<Pipe>): (n: nat)
    ensures n <= |ps|
  {
    if ps == [] then 0
    else CountPassed(ps[..|ps| - 1]) + (if ps[|ps| - 1].passed then 1 else 0)
  }

  /**
   * The points scored in one step are exactly the passed flags the step
   * raises: no flag is ever lowered and each pipe scores at most once.
   */
  lemma {:induction false} PassedFlagsGrowByScore(ps: seq<Pipe>)
    ensures CountPassed(MovePipes(ps)) == CountPassed(ps) + CountNewlyPassed(ps)
    decreases |ps|
  {
    if ps != [] {
      var n := |ps| - 1;
      assert MovePipes(ps)[..n] == MovePipes(ps[..n]);
      PassedFlagsGrowByScore(ps[..n]);
    }
  }

  /** A pipe after k steps of the pipe list. */
  function MoveN(p: Pipe, k: nat): Pipe
  {
    if k == 0 then p else MovePipe(MoveN(p, k - 1))
  }

  /** In how many of its first k steps a pipe scored a point. */
  function ScoredSteps(p: Pipe, k: nat): nat
  {
    if k == 0 then 0 else ScoredSteps(p, k - 1) + (if NewlyPassed(MoveN(p, k - 1)) then 1 else 0)
  }

  /**
   * Over any number of steps a pipe moves 3 pixels per step, is marked
   * passed exactly once its trailing edge is left of the bird, and scores
   * at most one point: one exactly when the flag went from false to true.
   */
  lemma {:induction false} PipeScoresOnce(p: Pipe, k: nat)
    ensures MoveN(p, k).x == p.x - (k as real) * PIPE_SPEED
    ensures MoveN(p, k).width == p.width
    ensures k > 0 ==> (MoveN(p, k).passed <==> p.passed || MoveN(p, k).x + p.width < BIRD_X)
    ensures ScoredSteps(p, k) == if !p.passed && MoveN(p, k).passed then 1 else 0
    ensures (k as real) * PIPE_SPEED >= p.x + p.width ==> !Visible(MoveN(p, k))
  {
    if k > 0 {
      PipeScoresOnce(p, k - 1);
    }
  }

  /** The pipes strictly ordered by x: older pipes (earlier in the list) further left. */
  predicate SortedByX(ps: seq<Pipe>)
  {
    forall i, j :: 0 <= i < j < |ps| ==> ps[i].x < ps[j].x
  }

  /** pipes.filter(pipe => pipe.x + pipe.width > 0): drop the pipes that left the canvas. */
  function OnScreen(ps: seq<Pipe>): (qs: seq<Pipe>)
    ensures |qs| <= |ps|
    ensures forall i :: 0 <= i < |qs| ==> Visible(qs[i])
    ensures forall q :: q in qs <==> q in ps && Visible(q)
    ensures (forall i :: 0 <= i < |ps| ==> Visible(ps[i])) ==> qs == ps
    decreases |ps|
  {
    if ps == [] then []
    else if Visible(ps[0]) then [ps[0]] + OnScreen(ps[1..])
    else OnScreen(ps[1..])
  }

  /** The filter keeps the relative order: it distributes over concatenation. */
  lemma {:induction false} OnScreenAppend(a: seq<Pipe>, b: seq<Pipe>)
    ensures OnScreen(a + b) == OnScreen(a) + OnScreen(b)
    decreases |a|
  {
    if a != [] {
      assert (a + b)[0] == a[0];
      assert (a + b)[1..] == a[1..] + b;
      OnScreenAppend(a[1..], b);
    } else {
      assert a + b == b;
    }
  }

  /** A pipe before a sorted list sorts the list when it is left of every element of it. */
  lemma ConsSorted(p: Pipe, t: seq<Pipe>)
    requires SortedByX(t)
    requires forall q :: q in t ==> p.x < q.x
    ensures SortedByX([p] + t)
  {
    var u := [p] + t;
    forall i, j | 0 <= i < j < |u| ensures u[i].x < u[j].x {
      assert u[j] == t[j - 1] && u[j] in t;
      if i > 0 {
        assert u[i] == t[i - 1];
      }
    }
  }

  /** The filter keeps the pipes ordered by x. */
  lemma {:induction false} OnScreenSorted(ps: seq<Pipe>)
    requires SortedByX(ps)
    ensures SortedByX(OnScreen(ps))
    decreases |ps|
  {
    if ps != [] {
      var rest := ps[1..];
      assert SortedByX(rest) by {
        forall i, j | 0 <= i < j < |rest| ensures rest[i].x < rest[j].x {
          assert rest[i] == ps[i + 1] && rest[j] == ps[j + 1];
        }
      }
      OnScreenSorted(rest);
      if Visible(ps[0]) {
        var t := OnScreen(rest);
        forall q | q in t ensures ps[0].x < q.x {
          assert q in rest;
          var k :| 0 <= k < |rest| && rest[k] == q;
          assert rest[k] == ps[k + 1];
        }
        ConsSorted(ps[0], t);
      }
    }
  }

  // ----- Collision rule -----

  /**
   * The axis-aligned test of checkCollisions: the bird's box overlaps the
   * pipe horizontally (strictly) and reaches above the gap or below it.
   * The bird's display rotation plays no part.
   */
  predicate Collides(birdY: real, p: Pipe)
  {
    var birdRight := BIRD_X + BIRD_WIDTH / 2.0;
    var birdLeft := BIRD_X - BIRD_WIDTH / 2.0;
    var birdTop := birdY - BIRD_HEIGHT / 2.0;
    var birdBottom := birdY + BIRD_HEIGHT / 2.0;
    var topPipeBottom := p.y + p.height;
    var bottomPipeTop := p.y + p.height + p.gap;
    && birdRight > p.x && birdLeft < p.x + p.width
    && (birdTop < topPipeBottom || birdBottom > bottomPipeTop)
  }

  /** How many pipes of the list the bird collides with (one gameOver call each). */
  function CollisionCount(birdY: real, ps: seq<Pipe>): (n: nat)
    ensures n <= |ps|
  {
    if ps == [] then 0
    else CollisionCount(birdY, ps[..|ps| - 1]) + (if Collides(birdY, ps[|ps| - 1]) then 1 else 0)
  }

  /** Some collision is counted exactly when some pipe of the list collides with the bird. */
  lemma {:induction false} CollisionCountPositive(birdY: real, ps: seq<Pipe>)
    ensures CollisionCount(birdY, ps) > 0 <==> exists i :: 0 <= i < |ps| && Collides(birdY, ps[i])
    decreases |ps|
  {
    if ps != [] {
      var n := |ps| - 1;
      var front := ps[..n];
      CollisionCountPositive(birdY, front);
      if CollisionCount(birdY, front) > 0 {
        var i :| 0 <= i < |front| && Collides(birdY, front[i]);
        assert ps[i] == front[i];
      }
      if exists i :: 0 <= i < |ps| && Collides(birdY, ps[i]) {
        var i :| 0 <= i < |ps| && Collides(birdY, ps[i]);
        if i < n {
          assert front[i] == ps[i];
        }
      }
    }
  }

  /** Two axis-aligned rectangles [l1, r1] x [t1, b1] and [l2, r2] x [t2, b2] overlap strictly. */
  predicate RectsOverlap(l1: real, r1: real, t1: real, b1: real,
                         l2: real, r2: real, t2: real, b2: real)
  {
    r1 > l2 && l1 < r2 && b1 > t2 && t1 < b2
  }

  /**
   * For a bird in the range updateBird leaves it in, the collision rule is
   * the strict overlap of the bird's box with one of the two rectangles
   * drawPipes draws: the top segment [x, x + width] x [y, y + height] or
   * the bottom segment [x, x + width] x [y + height + gap, H].
   */
  lemma CollidesIsSegmentOverlap(c: Canvas, birdY: real, p: Pipe)
    requires Regular(c, p)
    requires BIRD_HEIGHT / 2.0 <= birdY && birdY + BIRD_HEIGHT / 2.0 <= GroundLine(c)
    ensures Collides(birdY, p) <==>
              || RectsOverlap(BIRD_X - BIRD_WIDTH / 2.0, BIRD_X + BIRD_WIDTH / 2.0,
                              birdY - BIRD_HEIGHT / 2.0, birdY + BIRD_HEIGHT / 2.0,
                              p.x, p.x + p.width, p.y, p.y + p.height)
              || RectsOverlap(BIRD_X - BIRD_WIDTH / 2.0, BIRD_X + BIRD_WIDTH / 2.0,
                              birdY - BIRD_HEIGHT / 2.0, birdY + BIRD_HEIGHT / 2.0,
                              p.x, p.x + p.width, p.y + p.height + p.gap, c.height as real)
  {
  }
}
