# pong-3d game logic in Dafny

A model of the simulation core of a three-dimensional Pong game: the `Game` class
of `game.js`, which holds the whole match state in fields and advances it one tick
per `update()`, and the `Key` class of `input.js`, the table of held keys that the
player's paddle is steered from.

- `input.dfy`, module `Input`: the eight control key codes and the `Key` class. The
  source's `pressed` dictionary only ever stores `true`, so it is the set of codes
  whose key-down has not been followed by a key-up.
- `rules.dfy`, module `PongRules`: the game state as a value (`State`, `Vec3`) and one
  function per step of a tick: the serve (`ServeVelocity`, `Restarted`), the player's
  move (`PlayerMoved`), the AI's move (`AiMoved`), the ball's walls, catches and
  misses (`WallsAt`, `Caught`, `BallMoved`) and the whole tick with the match reset
  (`Played`, `Tick`, `Initial`), with the lemmas about catches, misses and the
  catch test.
- `invariant.dfy`, module `PongInvariant`: an invariant of every state reached from
  construction (scores at most 7, AI difficulty tied to the player's score, paddles
  and ball inside the box, lateral speeds at most 0.1, depth speed one of -0.06,
  -0.05, 0.04, 0.05), proved preserved by every tick and by any run of ticks.
- `game.dfy`, module `PongGame`: the `Game` class with the source's fields; the
  positions and velocity are 3-element `array<real>`s, written in place where the
  source writes them in place and replaced where it assigns new arrays. Each method
  is proved to move the state (`Abstract()`) exactly as its `PongRules` function
  says, and `Update` keeps the invariant.

`Math.random()` is replaced by parameters: a `Serve` holds the three draws of one
serve (each in [0, 1), sum positive), and `Update` takes the draws it may use: a
serve for a point scored in `moveBall`, the AI's draw, and a serve for a match
reset. Coordinates are exact reals.

Three consequences of the code that the proofs bring out:

- A catch sets the depth velocity to `-vz - speedIncreasement` at both goal lines.
  At the player's line (`vz > 0`) that returns the ball faster by 0.01; at the AI's
  line (`vz < 0`) it returns it slower by 0.01 (`BackCatch`). So the rally never
  escalates: the depth speed is always 0.04, 0.05 or 0.06 (`ReachableBounds`).
- The AI's reaction probability grows by 0.05 per player point from 0.2, and the
  match resets when a score reaches 8, so it never exceeds 0.55 (`ReachableBounds`).
- The catch test compares distances from the centre line, not the distance between
  ball and paddle, so a mirror-image position is caught (`MirrorImageIsCaught`);
  every true overlap is caught too (`OverlapIsCaught`).

## Model

| member | source | states |
|---|---|---|
| `Input.ControlCodesDistinct` | input.js:4-11 | the eight control codes are pairwise distinct |
| `Input.Key.constructor` | input.js:2-3 | a new table reports no key as down |
| `Input.Key.IsDown` | input.js:14-16 | a code reads as down exactly when it is in the table; a code never pressed, or released, reads as not down |
| `Input.Key.OnKeydown` | input.js:18-20 | the key is down afterwards, every other key keeps its state, and a key already down leaves the table unchanged |
| `Input.Key.OnKeyup` | input.js:22-24 | the key is not down afterwards, every other key keeps its state, and a key not down leaves the table unchanged |
| `PongRules.ServeVelocity` | game.js:39-48 | a serve's lateral components are non-negative, sum to at most 0.1 and keep the ratio of the first two draws; its depth component is +0.05 exactly when the player leads and -0.05 exactly when not (a tie serves toward the AI) |
| `PongRules.Restarted` | game.js:37-49 | the ball is put at the origin with a serve whose lateral components are non-negative and sum to at most 0.1 and whose depth component is +0.05 when the player leads and -0.05 otherwise; every other field is unchanged |
| `PongRules.Initial` | game.js:16-30 | the constructed and the reset state: unpaused, 0-0, paddles at (0,0,10) and (0,0,-10), difficulty 0.2, increment 0.01, ball at the origin with the serve velocity of a 0-0 score, so toward the AI |
| `PongRules.PlayerMoved` | game.js:78-87 | depth never changes; an axis with no key held does not move; from inside the paddle range the paddle stays inside it and moves at most 0.1 per axis; a single held direction moves a full 0.1 that way unless stopped at the wall |
| `PongRules.OpposingKeysAtTopWall` | game.js:79-82 | holding up and down together at the top wall moves the paddle down 0.1, since up is applied first |
| `PongRules.OpposingKeysCancel` | game.js:79-86 | from inside the range, holding both up and down with the paddle at least 0.1 below the top wall leaves y unchanged, and holding both left and right at least 0.1 right of the left wall leaves x unchanged |
| `PongRules.AiMoved` | game.js:89-103 | a draw not below the difficulty leaves the paddle where it is; depth never changes; an axis level with the ball does not move; from inside the range the paddle stays inside it and on each axis moves toward the ball by 0.1 unless stopped at the wall |
| `PongRules.Bounce` | game.js:110-127 | a coordinate is clamped onto the wall it reached, so it ends between the two walls; inside them nothing changes; at or past a wall its velocity is negated |
| `PongRules.WallsAt` | game.js:109-127 | after the side and top/bottom walls the ball's x and y are the tentative ones clamped to 0.125 inside the box, each lateral velocity is negated exactly when its own coordinate reached a wall, and depth and depth velocity are untouched |
| `PongRules.Caught` | game.js:131-135 | the catch test: the ball's and the paddle's distances from the centre line differ by at most 0.5 on x and on y (a definition; its consequences are the lemmas below) |
| `PongRules.BallMoved` | game.js:105-164 | whatever the prior position, the ball ends inside the box less 0.125 on every axis; paddles, pause flag and increment are unchanged; at most one score rises, by one; the difficulty rises by 0.05 exactly when the player scores; a point re-serves from the origin on the scores before the point |
| `PongRules.NoGoalLine` | game.js:106-163 | a ball that reaches neither goal line moves to its tentative position clamped onto any side or top/bottom wall, keeps its depth velocity, and no score or difficulty changes |
| `PongRules.FreeFlight` | game.js:106-163 | a ball whose tentative position is inside every wall moves there and nothing else in the state changes |
| `PongRules.WallsNegateOwnAxis` | game.js:109-127 | when no point is scored, x velocity is negated exactly when the x wall is reached and y velocity exactly when the y wall is, independently |
| `PongRules.FrontCatch` | game.js:130-138 | a catch at the player's line puts the ball on the line at the wall-clamped x and y, keeps the wall-adjusted lateral velocity, sets depth velocity to `-vz - increment`, keeps scores and difficulty, and raises the speed of a ball moving toward the player by the increment |
| `PongRules.BackCatch` | game.js:146-154 | a catch at the AI's line puts the ball on the line at the wall-clamped x and y, keeps the wall-adjusted lateral velocity, sets depth velocity to `-vz - increment`, keeps scores and difficulty, and lowers by the increment the speed of a ball moving toward the AI faster than the increment |
| `PongRules.FrontMiss` | game.js:139-144 | a miss at the player's line adds one to the AI's score only and re-serves from the origin on the pre-point scores |
| `PongRules.BackMiss` | game.js:155-160 | a miss at the AI's line adds one to the player's score only, raises the difficulty by 0.05 and re-serves from the origin on the pre-point scores |
| `PongRules.ServeUsesScoresBeforePoint` | game.js:155-158 | at 1-1 an AI miss serves toward the AI although the player then leads 2-1 |
| `PongRules.CatchAtHomePaddle` | game.js:130-138 | a ball at depth 9.9 moving at 0.06 toward a paddle at home is returned at -0.07 from depth 9.875 |
| `PongRules.MissAtOffsetPaddle` | game.js:139-144 | the same ball against a paddle at (3,3) gives the AI a point and a serve toward the AI |
| `PongRules.CaughtMirrored` | game.js:131-135 | mirroring the ball through the centre line on x or on y does not change whether it is caught |
| `PongRules.MirrorImageIsCaught` | game.js:131-135 | a ball 6 units from the paddle on both axes, on the opposite side of centre, is caught |
| `PongRules.OverlapIsCaught` | game.js:147-151 | a ball within 0.5 of the paddle on both axes is always caught |
| `PongRules.Played` | game.js:52-56 | an unpaused tick's moves raise at most one score by one and keep the increment and pause flag |
| `PongRules.Tick` | game.js:51-76 | scores below 8 stay below 8; a paused tick changes nothing unless a score is 8; the score total rises by at most one; the increment is unchanged unless the state is reset |
| `PongRules.MatchPointResets` | game.js:58-75 | a tick in which a score reaches 8 ends in the fresh initial state, whether or not the game is paused |
| `PongInvariant.InitialKeepsInv` | game.js:16-30 | the constructed and reset state satisfies the invariant |
| `PongInvariant.ServeKeepsInv` | game.js:37-49 | a serve's velocity has lateral components within 0.1 and a rally depth speed |
| `PongInvariant.BallMovedKeepsInv` | game.js:105-164 | from a valid state the ball move keeps difficulty equal to 0.2 plus 0.05 per player point, lateral speeds within 0.1 and depth speed in {-0.06, -0.05, 0.04, 0.05} |
| `PongInvariant.TickKeepsInv` | game.js:51-76 | every tick maps a valid state to a valid state |
| `PongInvariant.RunKeepsInv` | game.js:51-76 | any sequence of ticks maps a valid state to a valid state |
| `PongInvariant.ReachableBounds` | game.js:5-76 | in every state reached from construction, scores are at most 7, difficulty is in [0.2, 0.55], depth speed is in [0.04, 0.06], and ball and paddles are inside their ranges |
| `PongGame.Game.constructor` | game.js:5-31 | a new game has a fresh empty key table and the initial state, which satisfies the invariant |
| `PongGame.Game.Pause` | game.js:33-35 | the pause flag is flipped and nothing else changes, so two calls restore it |
| `PongGame.Game.RestartBall` | game.js:37-49 | the ball gets new arrays, at the origin, with the serve velocity; nothing else changes |
| `PongGame.Game.Update` | game.js:51-76 | the new state is `Tick` of the old one under the held keys and the draws, and the invariant is kept |
| `PongGame.Game.ResetMatch` | game.js:58-75 | every field returns to the initial state, with new arrays, and the ball is served |
| `PongGame.Game.MovePlayer` | game.js:78-87 | the player's array is written in place to `PlayerMoved` of its old value under the held keys; nothing else changes |
| `PongGame.Game.MoveAI` | game.js:89-103 | the AI's array is written in place to `AiMoved` of its old value; nothing else changes |
| `PongGame.Game.BounceOffWalls` | game.js:109-127 | the side and top/bottom wall handling: the returned position and the velocity array written in place are `WallsAt` of the tentative position and old velocity |
| `PongGame.Game.MoveBall` | game.js:105-164 | the new state is `BallMoved` of the old one; the paddle arrays are untouched, the velocity array is the old one or a new one, and the ball position is a new array |

## Left out

- `index.js` and `graphics.js`: WebGL setup, shaders, buffers, draw calls and the animation loop are rendering and have no game logic.
- `PongRules.ServeVelocity`: requires the three draws not to be all zero. Then the source divides 0 by 0 and serves a NaN lateral velocity; exact reals have no NaN, so that serve is not modelled.
- `Math.random()`: its draws are parameters. The AI's draw is not required to lie in [0, 1), since no rule depends on that.
- `vec3.add` from glMatrix is not part of this model; it is component-wise addition (`Tentative`).
- IEEE-754 rounding of the repeated 0.1, 0.05 and 0.01 steps: coordinates are exact reals.
- The browser's key-event wiring: who calls `onKeydown` and `onKeyup` is not in the game code; only the table is modelled, and `Update` reads its current set of held codes.
- The key codes are module constants rather than properties of each `Key` object; they never change in the source.
- `moveBall`'s local `potentialPosition` array is three local reals, and its side/top wall part is the helper `BounceOffWalls`; the ball's position still becomes a new array, as in the source.
