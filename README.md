# Pong: the per-frame simulation, modelled and verified in Dafny

This project models the per-frame step of a browser Pong game (js/sketch.js, with the
numbers from js/config.js). One player paddle is moved by the up and down keys. The AI
paddle follows the ball. The ball bounces off the top and bottom walls and is deflected by
the paddles. A point is scored when the ball passes a side line, and the first side to
reach 5 points wins. The phase machine runs START → PLAYING → GAME_OVER → PLAYING, and the
space key is debounced with a 500 ms cooldown.

Files:

- `config.dfy`, module `Config`: the numeric constants of the configuration table.
- `physics.dfy`, module `Physics`: the `Paddle` and `Ball` records, plus pure functions for
  the player's move, the AI's move, the collision test, the wall bounce, the deflection,
  the ball reset and the whole ball step. It also holds lemmas about those functions.
- `pong.dfy`, module `Pong`: the game's globals as a `State` value, and `Frame`, one call
  of `draw` on that value. It holds the reachable-state invariant `Wellformed` and lemmas
  over runs of frames. Class `Pong.Game` has the globals as fields. Its methods update
  them in the order the source does, and each method is proved to leave exactly the
  state that its function describes.

Coordinates, speeds and times are exact `real`s. The factors 1.1, 0.2 and 0.85 are
therefore exact. The host's inputs are parameters of `Frame` and `Game.Draw`, carried in
an `Input` value:

- the up and down keys held;
- whether the key pressed is space;
- the clock `millis()`;
- the two `random()` draws that a ball reset uses.

A requires clause limits the draws to their ranges. The direction draw lies in [0, 1).
The vertical speed lies in [−7, 7].

Two details of the code are easy to misread; the model follows the code:

- The deflection and the AI target both use `ball.y`, the ball's top edge, not its centre.
- A tied score would be reported as the AI's win. `WinnerReachedTarget` shows that no
  reachable game-over state is tied.

The model also shows these consequences of the code:

- Holding both keys leaves the player paddle where it is, except within one step of the
  top. There the up step is clamped and the paddle ends at y = 8 (`PlayerMove`).
- Every reachable state has a horizontal ball speed of at least 7 (`Wellformed`).
- Every reachable state has a vertical ball speed strictly between −12 and 12, because a
  deflection can produce no more (`Deflect`, `FramePreservesWellformed`).
- A deflection sets no cap of its own on the horizontal speed. After n deflections applied
  one after another, with nothing in between (`Rally`), it is at least (1 + n/10) times its
  starting value (`RallySpeedUnbounded`).
- In play, the field itself caps it. A reachable ball is always strictly between the side
  lines, because a ball at or past a line is reset. A deflected ball moved from inside the
  field into a paddle, so its speed was below 800 before the deflection. Every reachable
  state therefore has |speedX| < 1.1 × 800 = 880 (`ReachableSpeedBounded`).

## Model

| member | source | states |
|---|---|---|
| `Physics.PlayerMove` | js/sketch.js:86-94 | Keeps the top edge in [0, 510] whatever keys are held. Up alone moves up by 8 or to 0. Down alone moves down by 8 or to 510. No key leaves it unchanged. Both keys give max(y, 8). It never moves more than 8. |
| `Physics.AiMove` | js/sketch.js:96-106 | Keeps the top edge in [0, 510]. When y is less than the target ball.y − 45, y grows by 6.8 or becomes 510. When y is greater, it shrinks by 6.8 or becomes 0. At the target it does not move. It is always slower than the player's 8. |
| `Physics.CheckPaddleCollision` | js/sketch.js:141-146 | A ball box that only touches a paddle box along an edge does not collide. |
| `Physics.CollisionIsOverlap` | js/sketch.js:141-146 | For a paddle of positive size, the test holds exactly when the half-open ball square and paddle rectangle share a point (both directions). |
| `Physics.Bounce` | js/sketch.js:112-116 | At or beyond a wall the vertical speed is exactly negated, so its magnitude is kept. Away from a wall the ball is unchanged. Position and horizontal speed are never changed. |
| `Physics.Deflect` | js/sketch.js:119-127 | The horizontal speed flips sign and its magnitude grows by exactly 1.1. The vertical speed becomes 0.2 × the offset of the ball's top edge from the paddle centre. It points down exactly when the ball is below the centre. On a colliding standard paddle it lies strictly within ±12. |
| `Physics.NewBall` | js/sketch.js:159-166 | The new ball is at (400, 300). Its horizontal speed is 7 exactly when the direction draw exceeds 0.5, and −7 otherwise. Its vertical speed is the drawn value in [−7, 7]. |
| `Physics.StepBall` | js/sketch.js:108-139 | Past x ≤ 0 the AI gains exactly 1 and the ball is reset. Past x ≥ 800 the player gains exactly 1. Otherwise both scores are unchanged. A point is scored exactly when the ball is reset. The player's paddle is tested first, and only one deflection happens. With no paddle hit, a wall contact exactly negates speedY. The cue list is wall, paddle, score, in that order, each present exactly when its event happened. |
| `Physics.RallySpeed` | js/sketch.js:120-124 | After n deflections applied one after another (`Rally`), the horizontal speed's magnitude is the starting magnitude × 1.1ⁿ. |
| `Physics.RallySpeedUnbounded` | js/sketch.js:119-127 | After n deflections applied one after another (`Rally`), the horizontal speed is at least (1 + n/10) times its starting value, so the deflection itself sets no cap. |
| `Physics.StepBallSpeedBounded` | js/sketch.js:108-139 | For any paddles, a ball strictly between the side lines with \|speedX\| < 880 is so again after a ball step. A deflection can only follow a move from inside the field, and a ball at or past a line is reset. |
| `Physics.ScorePoints` | js/sketch.js:129-138 | Past x ≤ 0 the AI gains exactly 1. Past x ≥ 800 the player does. Otherwise both scores are unchanged. A ball out of play is replaced by `NewBall` of the draws and the score cue is appended. A ball in play, the scores and the cues are left as they are. |
| `Physics.AfterPaddles` | js/sketch.js:118-127 | The player's paddle is tested first. A player hit gives the player's deflection. Only when the player's paddle is not hit does an AI hit give the AI's deflection. With neither, the ball is unchanged. The position never changes, and the horizontal speed is either kept or scaled by −1.1 exactly once. |
| `Pong.CanPressSpace` | js/sketch.js:181-183 | A press may be taken exactly when lastSpacePress + 500 ≤ now. Then now is strictly later than the last accepted press. |
| `Pong.PlayFrame` | js/sketch.js:59-67 | The player paddle moves by `PlayerMove`, and the AI paddle moves by `AiMove`, steering by the ball before it moves. The ball, both scores and the cues are `StepBall` over the moved paddles. The phase becomes GAME_OVER exactly when a score is ≥ 5. The press time is unchanged. |
| `Pong.Winner` | js/sketch.js:198 | "Player" exactly when playerScore > aiScore. A tie gives "AI". |
| `Pong.Initial` | js/sketch.js:1-32 | The initial globals: START, scores 0, lastSpacePress 0, both paddle tops at 300 and a fresh ball. They satisfy the invariant. |
| `Pong.CheckWin` | js/sketch.js:168-172 | The phase becomes GAME_OVER when either score is ≥ 5. Otherwise nothing changes. Nothing but the phase ever changes. |
| `Pong.Restart` | js/sketch.js:185-190 | Both scores become 0, the phase becomes PLAYING and the ball is `NewBall` of the two draws: at the centre, with speed (±7, [−7, 7]). Paddles and the press time are unchanged. |
| `Pong.Frame` | js/sketch.js:47-77 | A press is accepted only outside PLAYING and only when now − lastSpacePress ≥ 500. lastSpacePress changes exactly on an accepted press. START goes to PLAYING. GAME_OVER goes to PLAYING with a restart. A press that is not accepted changes nothing. The game never returns to START. A PLAYING frame moves both paddles, changing only their y, then steps the ball against the moved paddles (ball, points and cues as `StepBall` gives them), ends the game exactly when a score has reached 5, and adds at most one point. |
| `Pong.FramePreservesWellformed` | js/sketch.js:47-77 | Every frame keeps the invariant: paddle geometry and clamping, \|speedX\| ≥ 7, \|speedY\| < 12, both scores below 5 while playing, exactly one score at 5 at game over. |
| `Pong.WinnerReachedTarget` | js/sketch.js:197-198 | In every reachable game-over state the scores differ. The winner shown is the side whose score is 5. |
| `Pong.PlayerWinsAtFive` | js/sketch.js:130-138 | From 4–3 while playing, a ball that passes the right line gives 5–3 and GAME_OVER in the same frame. "Player" is reported as the winner. |
| `Pong.FramePreservesSpeedBounded` | js/sketch.js:47-77 | Every frame keeps the ball strictly between the side lines with \|speedX\| < 880. |
| `Pong.RunPreservesSpeedBounded` | js/sketch.js:47-77 | Any run of frames keeps that bound. |
| `Pong.ReachableSpeedBounded` | js/sketch.js:108-139 | From the initial state, every run of frames has \|speedX\| < 880, however many deflections it contains. |
| `Pong.RunPreservesWellformed` | js/sketch.js:47-77 | Any run of frames keeps the invariant. |
| `Pong.NeverBackToStart` | js/sketch.js:50-76 | Once out of START, no run of frames returns to START. |
| `Pong.NoPressWithinCooldown` | js/sketch.js:181-183 | If every frame's clock is within 500 ms of the last accepted press, a run of frames accepts no press and keeps lastSpacePress. |
| `Pong.OnePressPerCooldown` | js/sketch.js:53-74 | An accepted press followed by any frames less than 500 ms later gives exactly one accepted press. |
| `Pong.Game.constructor` | js/sketch.js:1-32 | The fields equal `Initial` and satisfy `Valid()`. |
| `Pong.Game.HandlePlayerMovement` | js/sketch.js:86-94 | Only the player paddle changes. Its y becomes `PlayerMove` of the old y. |
| `Pong.Game.UpdateAI` | js/sketch.js:96-106 | Only the AI paddle changes. Its y becomes `AiMove` of the old y and the ball's y. |
| `Pong.Game.ResetBall` | js/sketch.js:159-166 | Only the ball changes. It becomes `NewBall` of the draws. |
| `Pong.Game.UpdateBall` | js/sketch.js:108-139 | The ball, both scores and the returned cues are those of `StepBall` over the current paddles. Nothing else changes. |
| `Pong.Game.CollidePaddles` | js/sketch.js:118-127 | Only the ball changes. It becomes `AfterPaddles` of the old ball. A paddle cue is appended exactly when either paddle is hit. |
| `Pong.Game.AwardPoint` | js/sketch.js:129-138 | The ball, both scores and the cues become those of `ScorePoints`: past x ≤ 0 the AI gains a point, past x ≥ 800 the player does; then the score cue plays and the ball is reset. |
| `Pong.Game.CheckWinCondition` | js/sketch.js:168-172 | Only the phase changes, to what `CheckWin` gives. |
| `Pong.Game.ResetGame` | js/sketch.js:185-190 | Scores, ball and phase become those of `Restart`. Nothing else changes. |
| `Pong.Game.Play` | js/sketch.js:59-67 | The new fields and the returned cues are exactly `PlayFrame` of the old fields. |
| `Pong.Game.ShownWinner` | js/sketch.js:198 | On a game-over screen satisfying `Valid()`, the winner shown is the side whose score is 5. |
| `Pong.Game.Draw` | js/sketch.js:47-77 | The new fields and the returned cues are exactly `Frame` of the old fields. A state satisfying `Valid()` still satisfies it afterwards. |

## Left out

- Rendering is not modelled: `background`, `displayStartMessage`, `drawPaddles`, `drawBall` and the text calls of `displayGameOver`. They are canvas calls with no effect on the game's state. Only the winner expression of `displayGameOver` is modelled, as `Winner`.
- Sound is not modelled as audio: `preload` and `playSound` are oscillator calls plus a timer callback. Each `playSound` call appears instead as a `Cue` in the list that `UpdateBall` and `Draw` return.
- `updateScoreDisplay` and the canvas creation in `setup` are not modelled, because they are DOM writes. The paddle and ball initialisation of `setup` is modelled.
- Key polling, the clock and p5's random number generator are parameters of a frame. `keyIsPressed && key === ' '` is one boolean. The clock is read once per frame, whereas `draw` reads `millis()` twice in an accepting frame; the model stores the same reading it tests.
- `random(-7, 7)` returns a value in [−7, 7). The model allows the closed interval, which is a superset, so all results also hold for what p5 produces.
- IEEE-754 rounding is not modelled. Arithmetic is exact on reals, so for example 8 × 0.85 is exactly 6.8.
- The configuration's colour strings are not modelled, because they affect only drawing.
- The background melody generator and the music scheduler are not modelled, because neither is in js/sketch.js. They are not part of this model.
- The frame rate is not modelled. Frames are a sequence of inputs, so the model says nothing about how many frames fit into a cooldown.
