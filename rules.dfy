/**
 * One game session as a value, and every transition of game.js as a pure
 * function of it: gameOver, resetGame, startGame, jump, the Space key,
 * updateBird, updatePipes, checkCollisions and one iteration of gameLoop.
 * The class in module Game updates the same state in place and is proved
 * to follow these functions.
 */
module Rules {
  import opened Entities
  import opened Simulation

  /** The game variables of game.js:23-43 that the game logic reads or writes. */
  datatype Session = Session(
    gameRunning: bool,
    startScreenHidden: bool,
    score: nat,
    highScore: int,
    frames: nat,
    bird: Bird,
    pipes: seq<Pipe>)

  /** The screen the player sees: the start screen, a running game, or the game-over screen. */
  datatype Phase = Menu | Running | Over

  function PhaseOf(s: Session): Phase
  {
    if s.gameRunning then Running else if s.startScreenHidden then Over else Menu
  }

  function MaxInt(a: int, b: int): int { if a >= b then a else b }

  /** The pipes of a session: regular, on screen, and ordered by x (oldest leftmost). */
  predicate PipesInv(c: Canvas, ps: seq<Pipe>)
  {
    && (forall i :: 0 <= i < |ps| ==> Regular(c, ps[i]) && Visible(ps[i]))
    && SortedByX(ps)
  }

  /** What every reachable session satisfies. */
  predicate Inv(c: Canvas, s: Session)
  {
    && (s.gameRunning ==> s.startScreenHidden)
    && -MAX_ROTATION <= s.bird.rotation <= MAX_ROTATION
    && PipesInv(c, s.pipes)
  }

  /**
   * The page before the first game: start screen shown, nothing running,
   * the best score taken from storage (0 when nothing was stored).
   */
  function Initial(c: Canvas, storedHighScore: int): (s: Session)
    ensures PhaseOf(s) == Menu && Inv(c, s)
    ensures s.score == 0 && s.frames == 0 && s.pipes == [] && s.bird == RestingBird(c)
    ensures s.highScore == storedHighScore
  {
    Session(false, false, 0, storedHighScore, 0, RestingBird(c), [])
  }

  /** gameOver: stop the game and keep the larger of the best score and the score. */
  function GameOver(s: Session): (s': Session)
    ensures !s'.gameRunning
    ensures s'.highScore == MaxInt(s.highScore, s.score)
    ensures s'.highScore >= s.highScore && s'.highScore >= s.score
    ensures s' == s.(gameRunning := false, highScore := s'.highScore)
  {
    if s.score > s.highScore then s.(gameRunning := false, highScore := s.score)
    else s.(gameRunning := false)
  }

  /**
   * gameOver called n times in a row, as checkCollisions does once per
   * colliding pipe: any positive number of calls acts as one.
   */
  function GameOverN(s: Session, n: nat): (s': Session)
    ensures n == 0 ==> s' == s
    ensures n > 0 ==> s' == GameOver(s)
  {
    if n == 0 then s else GameOver(GameOverN(s, n - 1))
  }

  /** resetGame: a fresh round (score, frame counter, pipes, bird) with the start screen hidden. */
  function ResetGame(c: Canvas, s: Session): (s': Session)
    ensures s'.score == 0 && s'.frames == 0 && s'.pipes == [] && s'.bird == RestingBird(c)
    ensures s'.startScreenHidden
    ensures s'.gameRunning == s.gameRunning && s'.highScore == s.highScore
  {
    s.(score := 0, frames := 0, pipes := [], bird := RestingBird(c), startScreenHidden := true)
  }

  /**
   * startGame: from any state, the initial session with only the best
   * score carried over, now running.
   */
  function StartGame(c: Canvas, s: Session): (s': Session)
    ensures s' == Initial(c, s.highScore).(gameRunning := true, startScreenHidden := true)
    ensures PhaseOf(s') == Running && Inv(c, s')
  {
    ResetGame(c, s).(gameRunning := true)
  }

  /** jump: while running, the bird's velocity becomes the jump impulse; otherwise nothing happens. */
  function Jump(s: Session): (s': Session)
    ensures s.gameRunning ==> s' == s.(bird := s.bird.(velocity := JUMP_VELOCITY))
    ensures !s.gameRunning ==> s' == s
  {
    if s.gameRunning then s.(bird := s.bird.(velocity := JUMP_VELOCITY)) else s
  }

  /**
   * The Space key: restart when the game-over screen is up (not running,
   * start screen hidden), then jump.  On the start screen it does nothing.
   */
  function SpaceKey(c: Canvas, s: Session): (s': Session)
    ensures PhaseOf(s) == Menu ==> s' == s
    ensures PhaseOf(s) == Running ==> s' == Jump(s)
    ensures PhaseOf(s) == Over ==>
              s' == StartGame(c, s).(bird := RestingBird(c).(velocity := JUMP_VELOCITY))
  {
    var s1 := if !s.gameRunning && s.startScreenHidden then StartGame(c, s) else s;
    Jump(s1)
  }

  /**
   * updateBird: the bird falls (FallBird), and a ground hit ends a running
   * game.  In the source gameOver runs between the ground and the ceiling
   * clamp; it reads and writes no field of the bird, so it is applied last.
   */
  function UpdateBird(c: Canvas, s: Session): (s': Session)
    ensures s'.bird == FallBird(c, s.bird)
    ensures s'.gameRunning == (s.gameRunning && !HitsGround(c, Integrate(s.bird)))
    ensures s'.highScore ==
              if s.gameRunning && HitsGround(c, Integrate(s.bird)) then MaxInt(s.highScore, s.score)
              else s.highScore
    ensures s'.score == s.score && s'.frames == s.frames && s'.pipes == s.pipes
    ensures s'.startScreenHidden == s.startScreenHidden
  {
    var s1 := s.(bird := FallBird(c, s.bird));
    if s.gameRunning && HitsGround(c, Integrate(s.bird)) then GameOver(s1) else s1
  }

  /**
   * updatePipes: move every pipe and score the newly passed ones, drop
   * those off screen, and spawn one when the frame counter is a multiple
   * of 120.  `r` is the Math.random() value createPipe would draw.
   */
  function UpdatePipes(c: Canvas, s: Session, r: real): (s': Session)
    requires 0.0 <= r < 1.0
    ensures s'.score == s.score + CountNewlyPassed(s.pipes)
    ensures var kept := OnScreen(MovePipes(s.pipes));
            && |s'.pipes| == |kept| + (if s.frames % SPAWN_INTERVAL == 0 then 1 else 0)
            && s'.pipes[..|kept|] == kept
    ensures s.frames % SPAWN_INTERVAL == 0 ==> s'.pipes[|s'.pipes| - 1] == CreatePipe(c, r)
    ensures s' == s.(score := s'.score, pipes := s'.pipes)
  {
    var kept := OnScreen(MovePipes(s.pipes));
    var spawned := if s.frames % SPAWN_INTERVAL == 0 then kept + [CreatePipe(c, r)] else kept;
    s.(score := s.score + CountNewlyPassed(s.pipes), pipes := spawned)
  }

  /** The bird at height birdY collides with some pipe of the list. */
  predicate AnyCollision(birdY: real, ps: seq<Pipe>)
  {
    exists i :: 0 <= i < |ps| && Collides(birdY, ps[i])
  }

  /**
   * checkCollisions: gameOver once per colliding pipe; so the game ends
   * exactly when some pipe collides with the bird.
   */
  function CheckCollisions(s: Session): (s': Session)
    ensures AnyCollision(s.bird.y, s.pipes) ==> s' == GameOver(s)
    ensures !AnyCollision(s.bird.y, s.pipes) ==> s' == s
  {
    CollisionCountPositive(s.bird.y, s.pipes);
    GameOverN(s, CollisionCount(s.bird.y, s.pipes))
  }

  /**
   * One iteration of gameLoop.  gameRunning is tested once, before the
   * steps, so a ground hit in updateBird still lets updatePipes score and
   * checkCollisions call gameOver again in the same frame.
   */
  function GameLoop(c: Canvas, s: Session, r: real): (s': Session)
    requires 0.0 <= r < 1.0
    ensures !s.gameRunning ==> s' == s
    ensures s.gameRunning ==> s'.frames == s.frames + 1
    ensures s.gameRunning ==> s'.bird == FallBird(c, s.bird)
    ensures s.gameRunning ==> s'.score == s.score + CountNewlyPassed(s.pipes)
    ensures s.gameRunning ==>
              (s'.gameRunning <==>
                 !HitsGround(c, Integrate(s.bird)) && !AnyCollision(s'.bird.y, s'.pipes))
    ensures s.gameRunning ==> s'.pipes == UpdatePipes(c, UpdateBird(c, s), r).pipes
    ensures s'.highScore >= s.highScore
    ensures s'.startScreenHidden == s.startScreenHidden
  {
    if !s.gameRunning then s
    else
      var s1 := UpdateBird(c, s);
      var s2 := UpdatePipes(c, s1, r);
      var s3 := CheckCollisions(s2);
      s3.(frames := s3.frames + 1)
  }

  // ----- Lemmas -----

  /** Moving keeps the pipes regular and ordered, and puts them left of the spawn point. */
  lemma MovedPipesInv(c: Canvas, ps: seq<Pipe>)
    requires PipesInv(c, ps)
    ensures SortedByX(MovePipes(ps))
    ensures forall i :: 0 <= i < |ps| ==>
              Regular(c, MovePipes(ps)[i]) && MovePipes(ps)[i].x <= c.width as real - PIPE_SPEED
  {
  }

  /** updatePipes keeps the pipe invariant: regular, on screen, ordered by x. */
  lemma UpdatePipesKeepsInv(c: Canvas, s: Session, r: real)
    requires PipesInv(c, s.pipes) && 0.0 <= r < 1.0
    ensures PipesInv(c, UpdatePipes(c, s, r).pipes)
  {
    var moved := MovePipes(s.pipes);
    MovedPipesInv(c, s.pipes);
    OnScreenSorted(moved);
    var kept := OnScreen(moved);
    forall q | q in kept ensures Regular(c, q) && q.x <= c.width as real - PIPE_SPEED {
      var i :| 0 <= i < |moved| && moved[i] == q;
    }
    forall i | 0 <= i < |kept| ensures Regular(c, kept[i]) && kept[i].x <= c.width as real - PIPE_SPEED {
      assert kept[i] in kept;
    }
    if s.frames % SPAWN_INTERVAL == 0 {
      var p := CreatePipe(c, r);
      var ps := kept + [p];
      forall i, j | 0 <= i < j < |ps| ensures ps[i].x < ps[j].x {
        assert ps[i] == kept[i];
        if j < |kept| {
          assert ps[j] == kept[j];
        }
      }
      assert SortedByX(ps);
    }
  }

  /** Every transition keeps the session invariant. */
  lemma InvariantPreserved(c: Canvas, s: Session, r: real)
    requires Inv(c, s) && 0.0 <= r < 1.0
    ensures Inv(c, GameLoop(c, s, r))
    ensures Inv(c, SpaceKey(c, s))
    ensures Inv(c, Jump(s))
    ensures Inv(c, GameOver(s))
  {
    if s.gameRunning {
      var s1 := UpdateBird(c, s);
      UpdatePipesKeepsInv(c, s1, r);
    }
  }

  /** A new game does not depend on anything of the previous one but the best score. */
  lemma StartGameForgetsHistory(c: Canvas, s1: Session, s2: Session)
    requires s1.highScore == s2.highScore
    ensures StartGame(c, s1) == StartGame(c, s2)
  {
  }

  /**
   * The first frame of a game spawns a pipe: the frame counter is still 0
   * when updatePipes tests it, and the only pipe is the fresh one.
   */
  lemma FirstFrameSpawns(c: Canvas, s: Session, r: real)
    requires 0.0 <= r < 1.0
    ensures GameLoop(c, StartGame(c, s), r).pipes == [CreatePipe(c, r)]
    ensures GameLoop(c, StartGame(c, s), r).frames == 1
  {
    var s0 := StartGame(c, s);
    var s1 := UpdateBird(c, s0);
    assert MovePipes(s1.pipes) == [];
  }

  /**
   * A ground hit ends the game, yet the same frame still scores the pipes
   * passed in it; the best score then only sees those points if a pipe
   * collision calls gameOver again.
   */
  lemma GroundHitStillScores(c: Canvas, s: Session, r: real)
    requires 0.0 <= r < 1.0
    requires s.gameRunning && HitsGround(c, Integrate(s.bird))
    ensures var s' := GameLoop(c, s, r);
            && !s'.gameRunning
            && s'.score == s.score + CountNewlyPassed(s.pipes)
            && s'.highScore ==
                 if AnyCollision(s'.bird.y, s'.pipes) then MaxInt(s.highScore, s'.score)
                 else MaxInt(s.highScore, s.score)
  {
    var s1 := UpdateBird(c, s);
    var s2 := UpdatePipes(c, s1, r);
    assert s2.highScore == MaxInt(s.highScore, s.score);
  }

  /**
   * A concrete frame after which the score exceeds the best score although
   * gameOver ran.  On a 400 x 500 canvas, when the frame counter is 131
   * the pipes spawned at frames 0 and 120 sit at x = 10 and x = 370, and
   * the bird, 35 frames after a jump from y = 380, is falling back through
   * the first pipe's gap.  It lands on the ground while that pipe's
   * trailing edge passes it inside the gap.
   */
  lemma HighScoreCanLagScore()
    ensures var c := Canvas(400, 500);
            var s := Session(true, true, 0, 0, 131, Bird(380.0, 8.5, 0.425),
                             [Pipe(10.0, -150.0, PIPE_WIDTH, PIPE_HEIGHT, PIPE_GAP, false),
                              Pipe(370.0, -150.0, PIPE_WIDTH, PIPE_HEIGHT, PIPE_GAP, false)]);
            var s' := GameLoop(c, s, 0.0);
            && Inv(c, s)
            && !s'.gameRunning && s'.score == 1 && s'.highScore == 0
  {
    var c := Canvas(400, 500);
    var p := Pipe(10.0, -150.0, PIPE_WIDTH, PIPE_HEIGHT, PIPE_GAP, false);
    var q := Pipe(370.0, -150.0, PIPE_WIDTH, PIPE_HEIGHT, PIPE_GAP, false);
    var s := Session(true, true, 0, 0, 131, Bird(380.0, 8.5, 0.425), [p, q]);
    assert HitsGround(c, Integrate(s.bird));
    assert FallBird(c, s.bird).y == 385.0;
    assert NewlyPassed(p) && !NewlyPassed(q);
    assert CountNewlyPassed([p, q]) == 1 by {
      assert [p, q][..1] == [p];
      assert [p][..0] == [];
    }
    assert MovePipes([p, q]) == [MovePipe(p), MovePipe(q)];
    assert OnScreen([MovePipe(p), MovePipe(q)]) == [MovePipe(p), MovePipe(q)];
    var s' := GameLoop(c, s, 0.0);
    assert s'.pipes == [MovePipe(p), MovePipe(q)];
    assert !Collides(385.0, MovePipe(p)) && !Collides(385.0, MovePipe(q));
    assert !AnyCollision(s'.bird.y, s'.pipes);
  }
}
