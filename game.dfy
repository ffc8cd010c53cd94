/**
 * The game session as game.js keeps it: global variables updated in place
 * by the per-frame functions and the input handlers.  Each method follows
 * its JavaScript function statement by statement and is proved to leave
 * the state that the matching function of module Rules computes.
 */
module Game {
  import opened Entities
  import opened Simulation
  import Rules

  class Game {
    const canvas: Canvas

    var gameRunning: bool
    var startScreenHidden: bool
    var score: nat
    var highScore: int
    var frames: nat
    var birdY: real
    var birdVelocity: real
    var birdRotation: real
    var pipes: seq<Pipe>

    /** The session these fields hold. */
    function State(): Rules.Session
      reads this
    {
      Rules.Session(gameRunning, startScreenHidden, score, highScore, frames,
                    Bird(birdY, birdVelocity, birdRotation), pipes)
    }

    ghost predicate Valid()
      reads this
    {
      Rules.Inv(canvas, State())
    }

    /** Page load: the canvas size and the best score read from storage. */
    constructor (c: Canvas, storedHighScore: int)
      ensures Valid() && canvas == c
      ensures State() == Rules.Initial(c, storedHighScore)
    {
      canvas := c;
      gameRunning := false;
      startScreenHidden := false;
      score := 0;
      highScore := storedHighScore;
      frames := 0;
      birdY := c.height as real / 2.0;
      birdVelocity := 0.0;
      birdRotation := 0.0;
      pipes := [];
    }

    method GameOver()
      requires Valid()
      modifies this
      ensures Valid()
      ensures State() == Rules.GameOver(old(State()))
    {
      gameRunning := false;
      if score > highScore {
        highScore := score;
      }
    }

    method ResetGame()
      requires Valid()
      modifies this
      ensures Valid()
      ensures State() == Rules.ResetGame(canvas, old(State()))
    {
      score := 0;
      frames := 0;
      pipes := [];
      birdY := canvas.height as real / 2.0;
      birdVelocity := 0.0;
      birdRotation := 0.0;
      startScreenHidden := true;
    }

    /** The start and restart buttons. */
    method StartGame()
      requires Valid()
      modifies this
      ensures Valid()
      ensures State() == Rules.StartGame(canvas, old(State()))
    {
      ResetGame();
      gameRunning := true;
    }

    /** A click or touch on the canvas. */
    method Jump()
      requires Valid()
      modifies this
      ensures Valid()
      ensures State() == Rules.Jump(old(State()))
    {
      if gameRunning {
        birdVelocity := JUMP_VELOCITY;
      }
    }

    /** A press of the Space key. */
    method SpaceKey()
      requires Valid()
      modifies this
      ensures Valid()
      ensures State() == Rules.SpaceKey(canvas, old(State()))
    {
      if !gameRunning && startScreenHidden {
        StartGame();
      }
      Jump();
    }

    method UpdateBird()
      requires Valid()
      modifies this
      ensures Valid()
      ensures State() == Rules.UpdateBird(canvas, old(State()))
    {
      birdVelocity := birdVelocity + GRAVITY;
      birdY := birdY + birdVelocity;

      birdRotation := birdVelocity * ROTATION_FACTOR;
      birdRotation := MaxReal(-MAX_ROTATION, MinReal(MAX_ROTATION, birdRotation));

      if birdY + BIRD_HEIGHT / 2.0 > canvas.height as real - GROUND_HEIGHT {
        birdY := canvas.height as real - GROUND_HEIGHT - BIRD_HEIGHT / 2.0;
        if gameRunning {
          GameOver();
        }
      }

      if birdY - BIRD_HEIGHT / 2.0 < 0.0 {
        birdY := BIRD_HEIGHT / 2.0;
        birdVelocity := 0.0;
      }
    }

    /**
     * The forEach of updatePipes: every pipe moved in place and the newly
     * passed ones scored.  Moved pipes may be off screen until the filter
     * runs, so the session invariant does not hold in between.
     */
    method MoveAndScore()
      modifies this
      ensures pipes == MovePipes(old(pipes))
      ensures score == old(score) + CountNewlyPassed(old(pipes))
      ensures State() == old(State()).(score := score, pipes := pipes)
    {
      ghost var before := pipes;
      var i := 0;
      while i < |pipes|
        invariant 0 <= i <= |pipes| == |before|
        invariant forall k :: 0 <= k < i ==> pipes[k] == MovePipe(before[k])
        invariant forall k :: i <= k < |pipes| ==> pipes[k] == before[k]
        invariant score == old(score) + CountNewlyPassed(before[..i])
        invariant gameRunning == old(gameRunning) && startScreenHidden == old(startScreenHidden)
        invariant highScore == old(highScore) && frames == old(frames)
        invariant birdY == old(birdY) && birdVelocity == old(birdVelocity)
        invariant birdRotation == old(birdRotation)
      {
        var pipe := pipes[i];
        pipe := pipe.(x := pipe.x - PIPE_SPEED);
        if !pipe.passed && pipe.x + pipe.width < BIRD_X {
          pipe := pipe.(passed := true);
          score := score + 1;
        }
        assert before[..i + 1][..i] == before[..i];
        pipes := pipes[i := pipe];
        i := i + 1;
      }
      assert before[..i] == before;
      assert pipes == MovePipes(before);
    }

    method UpdatePipes(r: real)
      requires Valid() && 0.0 <= r < 1.0
      modifies this
      ensures Valid()
      ensures State() == Rules.UpdatePipes(canvas, old(State()), r)
    {
      ghost var s0 := State();
      Rules.UpdatePipesKeepsInv(canvas, s0, r);

      MoveAndScore();

      pipes := OnScreen(pipes);

      if frames % SPAWN_INTERVAL == 0 {
        pipes := pipes + [CreatePipe(canvas, r)];
      }
      assert State() == Rules.UpdatePipes(canvas, s0, r);
    }

    method CheckCollisions()
      requires Valid()
      modifies this
      ensures Valid()
      ensures State() == Rules.CheckCollisions(old(State()))
    {
      var i := 0;
      while i < |pipes|
        invariant 0 <= i <= |pipes|
        invariant Valid()
        invariant pipes == old(pipes) && birdY == old(birdY)
        invariant State() == Rules.GameOverN(old(State()), CollisionCount(birdY, pipes[..i]))
      {
        var pipe := pipes[i];
        assert pipes[..i + 1][..i] == pipes[..i];
        if Collides(birdY, pipe) {
          GameOver();
        }
        i := i + 1;
      }
      assert pipes[..i] == pipes;
    }

    /** One iteration of the animation loop; `r` is the random value a spawn would use. */
    method GameLoop(r: real)
      requires Valid() && 0.0 <= r < 1.0
      modifies this
      ensures Valid()
      ensures State() == Rules.GameLoop(canvas, old(State()), r)
    {
      ghost var s := State();
      if gameRunning {
        UpdateBird();
        ghost var s1 := State();
        UpdatePipes(r);
        ghost var s2 := State();
        CheckCollisions();
        ghost var s3 := State();
        frames := frames + 1;
        assert s1 == Rules.UpdateBird(canvas, s) && s2 == Rules.UpdatePipes(canvas, s1, r);
        assert State() == s3.(frames := s3.frames + 1);
      }
    }
  }
}
