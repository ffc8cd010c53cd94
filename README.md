# Flappy bird game logic in Dafny

This project models the game logic of a browser "flappy bird" clone written in one JavaScript file, `game.js`. A session holds a few global variables:

- whether a game is running;
- whether the start screen has been hidden;
- the score, the best score and a frame counter;
- the bird's height, velocity and display rotation;
- the list of pipes.

Each animation frame of a running game runs `updateBird`, `updatePipes` and `checkCollisions`, then increments the frame counter. A frame of a game that is not running changes nothing. The three handlers are `jump` (click or touch), `startGame` (the start and restart buttons) and the Space key.

The model has four modules:

- `Entities` (entities.dfy) holds the constants, the `Bird` and `Pipe` records, and `CreatePipe`.
- `Simulation` (simulation.dfy) holds the pure per-entity rules:
  - bird physics with the ground and ceiling clamps;
  - moving and scoring pipes;
  - the off-screen filter;
  - the axis-aligned collision test.
- `Rules` (rules.dfy) holds the whole session as a `Session` value. Each JavaScript function is a pure transition on it, and the session invariant and the lemmas about the transitions live here too.
- `Game` (game.dfy) holds the class `Game`. Its fields are the JavaScript globals, and its methods update them in place statement by statement. The two `forEach` loops become `while` loops. Every method except `MoveAndScore` is proved to produce `Rules.F(old(State()))`, where `F` is the matching function of module `Rules`. `MoveAndScore`, the `forEach` of `updatePipes`, is proved to give `MovePipes` of the old pipe list and the old score plus `CountNewlyPassed`.

Arithmetic uses exact `real` values. The canvas size is a constructor parameter, and so is the best score read from storage. Every `Math.random()` value is a method parameter `r` with `0 <= r < 1`.

Quirks of the code that the model keeps:

- `gameRunning` is tested once per frame. After a ground hit in `updateBird`, `updatePipes` still moves pipes and scores them in the same frame, and `checkCollisions` may call `gameOver` again. So the best score may miss the points scored in the frame that ended the game. `Rules.GroundHitStillScores` states this in general, and `Rules.HighScoreCanLagScore` gives a concrete frame.
- `checkCollisions` calls `gameOver` once per colliding pipe. `Rules.GameOverN` models the repeated calls, and its contract shows they act as one call.
- A pipe spawns on the first running frame, because the frame counter is still 0 when `updatePipes` tests it.
- On a canvas too low for the bird (ground line below 30 pixels), the ceiling clamp runs after the ground clamp and wins.

Two consequences of the first quirk:

- A ground hit does not end the frame: `updatePipes` and `checkCollisions` still run (game.js:434-438).
- The best score can end below the final score of a game.

## Model

| member | source | states |
|---|---|---|
| Entities.RestingBird | game.js:30-38 | The starting bird is at half the canvas height with zero velocity and zero rotation. |
| Entities.CreatePipe | game.js:81-91 | A new pipe starts at the canvas's right edge, unpassed, with width 70, height 400 and gap 160. Its gap offset lies in [-200, -100) for every random value in [0, 1). |
| Entities.Visible | game.js:325 | A pipe is on screen while its trailing edge `x + width` is right of 0. This is the filter's test. |
| Simulation.Rotation | game.js:287-289 | The rotation is always within [-0.5, 0.5]. It equals velocity*0.05 for velocities in [-10, 10] and saturates outside that range. |
| Simulation.Integrate | game.js:283-289 | Velocity grows by gravity 0.5 first. Then y moves by the new velocity, and the rotation is clamped. |
| Simulation.HitsGround | game.js:292 | The bird's bottom edge is below the ground line H - 100. |
| Simulation.HitsCeiling | game.js:300 | The bird's top edge is above the canvas. |
| Simulation.ClampToGround | game.js:291-297 | A bird whose bottom edge is below H-100 is put to rest exactly on that line, keeping its velocity. Any other bird is unchanged. |
| Simulation.ClampToCeiling | game.js:299-303 | A bird whose top edge is above 0 is put at y = 15 with velocity 0. Any other bird is unchanged. Afterwards the top edge is never above the canvas. |
| Simulation.FallBird | game.js:283-304 | After updateBird, `y >= 15` and the rotation is clamped. Velocity is 0 when the ceiling clamp fired and `v + 0.5` otherwise. A ground hit leaves the bird resting on the ground if the canvas is tall enough. In free flight the step is plain integration. |
| Simulation.MovePipe | game.js:309-321 | A pipe moves left by exactly 3 with its other dimensions unchanged. It is passed afterwards if and only if it was passed before or its trailing edge is now left of x = 80. |
| Simulation.NewlyPassed | game.js:313 | The pipe scores in this step: it was not passed before the move and is passed after it. |
| Simulation.MovePipes | game.js:309-322 | The list keeps its length, and every pipe of it is moved in place and in order. |
| Simulation.CountNewlyPassed | game.js:313-315 | At most one point is scored per pipe in a step. |
| Simulation.PassedFlagsGrowByScore | game.js:313-315 | The score increment of a step equals the number of passed flags the step raises. No flag is ever lowered. |
| Simulation.PipeScoresOnce | game.js:309-315 | After k steps a pipe has moved 3k to the left and is passed exactly when its trailing edge is left of the bird. It scored exactly once if its flag went from false to true, and never otherwise. It is off screen once 3k reaches x + width. |
| Simulation.OnScreen | game.js:324-325 | The filter keeps exactly the pipes with `x + width > 0`, and every kept pipe is visible. When every pipe is visible, nothing is dropped. |
| Simulation.OnScreenAppend | game.js:325 | The filter preserves relative order: filtering a concatenation gives the concatenation of the filtered parts. |
| Simulation.OnScreenSorted | game.js:325 | The filter keeps a list ordered by x ordered. |
| Simulation.CollisionCount | game.js:353-371 | checkCollisions calls gameOver at most once per pipe. |
| Simulation.CollisionCountPositive | game.js:353-371 | gameOver is called at least once if and only if some pipe collides with the bird. A collision means strict horizontal overlap and the bird reaching above or below the gap. |
| Simulation.Collides | game.js:355-366 | The collision test of one pipe. The bird's box must overlap the pipe's columns strictly, and the bird's top must be above the gap or its bottom below it. The bird's rotation plays no part. |
| Simulation.CollidesIsSegmentOverlap | game.js:355-368 | For a regular pipe and a bird between ceiling and ground, where updateBird leaves it, a collision is exactly a strict overlap of the bird's box with the top segment or the bottom segment. These are the two rectangles drawn at game.js:169 and 176-182. |
| Rules.Initial | game.js:23-43 | At page load the start screen is shown and no game is running. Score, frame counter and pipes are empty or zero, the bird is at rest, the best score is the stored value, and the invariant holds. |
| Rules.GameOver | game.js:389-397 | The game stops and the best score becomes max(best, score), so it never decreases. Nothing else changes. |
| Rules.GameOverN | game.js:354-370 | Any positive number of gameOver calls in a row acts exactly as one call, so repeated calls are idempotent. Zero calls change nothing. |
| Rules.ResetGame | game.js:409-422 | Score and frame counter become 0, the pipes are cleared, the bird is reset and the start screen is hidden. The best score and the running flag are kept. |
| Rules.StartGame | game.js:425-428 | From any state the result is the initial session, carrying over only the best score, now running. The invariant holds after it. |
| Rules.Jump | game.js:374-380 | While running, only the bird's velocity changes, and it becomes exactly -9. When not running, nothing changes. |
| Rules.SpaceKey | game.js:455-462 | On the start screen Space does nothing. During a game it jumps. On the game-over screen it starts a new game and jumps at once. |
| Rules.UpdateBird | game.js:283-304 | The bird falls as in FallBird. gameOver runs only on a ground hit while running, so the game stops exactly then and the best score is updated. Score, frames and pipes are unchanged. |
| Rules.UpdatePipes | game.js:307-331 | The score grows by the number of newly passed pipes. The new list is the moved and filtered list, followed by exactly one fresh pipe when `frames % 120 == 0`. Nothing else changes. |
| Rules.CheckCollisions | game.js:353-371 | The session becomes GameOver(s) if and only if some pipe collides with the bird. Otherwise it is unchanged. |
| Rules.GameLoop | game.js:431-449 | When not running, nothing changes. When running, frames grows by exactly 1, the bird falls, and the score grows by the newly passed pipes even after a ground hit. The pipes are those updatePipes leaves. The game keeps running exactly when there was no ground hit and no collision. The best score never decreases. |
| Rules.MovedPipesInv | game.js:309-310 | Moving keeps the pipes' dimensions and order and puts every pipe at least 3 left of the spawn point. |
| Rules.UpdatePipesKeepsInv | game.js:307-331 | After updatePipes, every pipe is regular, on screen and ordered by x, with the oldest leftmost. |
| Rules.InvariantPreserved | game.js:374-449 | gameLoop, Space, jump and gameOver all preserve the session invariant. While running, the start screen is hidden. The rotation stays within [-0.5, 0.5], and the pipes stay regular, visible and sorted. |
| Rules.StartGameForgetsHistory | game.js:409-428 | Two states with the same best score start identical games. |
| Rules.FirstFrameSpawns | game.js:328-329 | The first frame of a new game spawns a pipe, so afterwards the pipe list is exactly that pipe and the frame counter is 1. |
| Rules.GroundHitStillScores | game.js:292-296 | A ground hit stops the game, but the same frame still adds the newly passed pipes to the score. The best score sees those points only if a pipe collision calls gameOver again. |
| Rules.HighScoreCanLagScore | game.js:434-438 | A concrete session satisfying the invariant shows the lag. Its frame counter is 131, so the pipes spawned at frames 0 and 120 sit at x = 10 and x = 370. The bird is falling through the first pipe's gap 35 frames after a jump from y = 380. One frame later the game is over with score 1 and best score 0. |
| Game.Game.constructor | game.js:18-43 | Page load gives the initial session, and the invariant holds. |
| Game.Game.GameOver | game.js:389-397 | The fields become Rules.GameOver of the old state. |
| Game.Game.ResetGame | game.js:409-422 | The fields become Rules.ResetGame of the old state. |
| Game.Game.StartGame | game.js:425-428 | The fields become Rules.StartGame of the old state, and the invariant is kept. |
| Game.Game.Jump | game.js:374-380 | The fields become Rules.Jump of the old state, and the invariant is kept. |
| Game.Game.SpaceKey | game.js:455-462 | The fields become Rules.SpaceKey of the old state, and the invariant is kept. |
| Game.Game.UpdateBird | game.js:283-304 | The in-place physics, with gameOver between the two clamps, gives Rules.UpdateBird of the old state. |
| Game.Game.MoveAndScore | game.js:309-322 | The in-place loop over the pipes gives MovePipes of the old list and adds the number of newly passed pipes to the score. Nothing else changes. |
| Game.Game.UpdatePipes | game.js:307-331 | MoveAndScore, then the filter and the push, give Rules.UpdatePipes of the old state, and the invariant is kept. |
| Game.Game.CheckCollisions | game.js:353-371 | The loop calls gameOver once per colliding pipe and gives Rules.CheckCollisions of the old state. |
| Game.Game.GameLoop | game.js:431-449 | One frame gives Rules.GameLoop of the old state, and the invariant is kept. |

## Left out

- Drawing (`drawBird`, `drawPipes`, `drawBackground`, `drawParticles`, `ctx.clearRect`): rendering only. The wing position (`bird.wingPosition`) is computed while drawing and has no effect on the game.
- Particles (`createParticles`, and the aging inside `drawParticles`): decorative only, with random speeds. The bursts from jump, scoring and gameOver are therefore not modelled.
- Clouds and mountains (`initGameElements`, `updateBackground`): cosmetic scrolling with random sizes and no effect on the game.
- Sound (`playSound`), the score text, the `score-pop` class and its `setTimeout`, and the game-over screen's visibility: browser calls with no effect on the game state. Only the start screen's hidden flag is kept, because the Space key reads it.
- `localStorage`: the stored best score is a constructor parameter (the value after `|| 0`). The write in gameOver is not modelled. The string-to-number coercion of the stored value is ignored.
- `requestAnimationFrame` and the event-listener registration: the model covers one loop iteration and one method per handler.
- IEEE-754 doubles: all arithmetic is exact `real`, so rounding of `0.05`, `0.5` and the random offset is not modelled.
- `Math.random()`: each use is a parameter `r` with `0 <= r < 1`.
