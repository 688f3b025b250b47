/** Paddles, the ball, and one frame of their motion: player and AI paddle
    movement, the wall bounce, the paddle deflection and scoring. */
module Physics {
  import opened Config

  /** A paddle: x, width and height are fixed per side; y (the top edge) moves. */
  datatype Paddle = Paddle(x: real, y: real, width: real, height: real)

  /** The ball: (x, y) is the top-left corner of its BALL_SIZE square. */
  datatype Ball = Ball(x: real, y: real, speedX: real, speedY: real)

  /** The one-shot sound cues a ball step triggers. */
  datatype Cue = WallHit | PaddleHit | Score

  function Min(a: real, b: real): real { if a <= b then a else b }
  function Max(a: real, b: real): real { if a >= b then a else b }
  function Abs(a: real): real { if a < 0.0 then -a else a }

  /** Lowest top edge a paddle may have. */
  const MAX_PADDLE_Y: real := CANVAS_HEIGHT - PADDLE_HEIGHT
  /** The AI moves at 85% of the player's paddle speed. */
  const AI_SPEED: real := PADDLE_SPEED * 0.85
  /** Factor by which a paddle hit scales the horizontal speed (before the sign flip). */
  const SPEED_UP: real := 1.1
  /** Vertical speed per pixel of offset from the paddle centre after a hit. */
  const DEFLECTION: real := 0.2
  /** Largest vertical speed a deflection can produce: the ball's top edge lies
      less than BALL_SIZE above, or less than PADDLE_HEIGHT below, the paddle's top. */
  const SPEED_Y_BOUND: real := (BALL_SIZE + PADDLE_HEIGHT / 2.0) * DEFLECTION

  /** The range every paddle's top edge is clamped to. */
  predicate InPlayfield(y: real) {
    0.0 <= y <= MAX_PADDLE_Y
  }

  /** handlePlayerMovement: the up key first moves up by PADDLE_SPEED (clamped at 0),
      then the down key moves down by PADDLE_SPEED (clamped at MAX_PADDLE_Y). */
  function PlayerMove(y: real, up: bool, down: bool): (r: real)
    ensures InPlayfield(y) ==> InPlayfield(r)
    ensures !up && !down ==> r == y
    ensures up && !down ==> r == y - PADDLE_SPEED || r == 0.0
    ensures up && !down && InPlayfield(y) ==> r <= y
    ensures down && !up ==> r == y + PADDLE_SPEED || r == MAX_PADDLE_Y
    ensures down && !up && InPlayfield(y) ==> y <= r
    // both keys: the two steps cancel, except within one step of the top,
    // where the first is clamped and the paddle ends at PADDLE_SPEED
    ensures up && down && InPlayfield(y) ==> r == Max(y, PADDLE_SPEED)
    ensures InPlayfield(y) ==> Abs(r - y) <= PADDLE_SPEED
  {
    var afterUp := if up then Max(0.0, y - PADDLE_SPEED) else y;
    if down then Min(MAX_PADDLE_Y, afterUp + PADDLE_SPEED) else afterUp
  }

  /** The top edge the AI steers for: the ball's top edge minus half a paddle. */
  function AiTarget(ballY: real): real {
    ballY - PADDLE_HEIGHT / 2.0
  }

  /** updateAI: one AI_SPEED step towards the target, clamped to the playfield. */
  function AiMove(aiY: real, ballY: real): (r: real)
    ensures InPlayfield(aiY) ==> InPlayfield(r)
    ensures aiY == AiTarget(ballY) ==> r == aiY
    ensures aiY < AiTarget(ballY) ==> r == aiY + AI_SPEED || r == MAX_PADDLE_Y
    ensures aiY < AiTarget(ballY) && InPlayfield(aiY) ==> aiY <= r <= aiY + AI_SPEED
    ensures aiY > AiTarget(ballY) ==> r == aiY - AI_SPEED || r == 0.0
    ensures aiY > AiTarget(ballY) && InPlayfield(aiY) ==> aiY - AI_SPEED <= r <= aiY
    // the AI is strictly slower than the player's paddle
    ensures InPlayfield(aiY) ==> Abs(r - aiY) < PADDLE_SPEED
  {
    var target := AiTarget(ballY);
    if aiY < target then Min(MAX_PADDLE_Y, aiY + AI_SPEED)
    else if aiY > target then Max(0.0, aiY - AI_SPEED)
    else aiY
  }

  /** checkPaddleCollision: the four strict inequalities of an axis-aligned box test.
      Boxes that only touch along an edge do not collide. */
  function CheckPaddleCollision(b: Ball, p: Paddle): (hit: bool)
    ensures hit ==> b.x + BALL_SIZE != p.x && p.x + p.width != b.x
    ensures hit ==> b.y + BALL_SIZE != p.y && p.y + p.height != b.y
  {
    b.x < p.x + p.width &&
    b.x + BALL_SIZE > p.x &&
    b.y < p.y + p.height &&
    b.y + BALL_SIZE > p.y
  }

  /** The point (px, py) lies in the half-open square the ball covers. */
  ghost predicate InBallBox(b: Ball, px: real, py: real) {
    b.x <= px < b.x + BALL_SIZE && b.y <= py < b.y + BALL_SIZE
  }

  /** The point (px, py) lies in the half-open rectangle the paddle covers. */
  ghost predicate InPaddleBox(p: Paddle, px: real, py: real) {
    p.x <= px < p.x + p.width && p.y <= py < p.y + p.height
  }

  /** The collision test holds exactly when the two boxes share a point. */
  lemma CollisionIsOverlap(b: Ball, p: Paddle)
    requires p.width > 0.0 && p.height > 0.0
    ensures CheckPaddleCollision(b, p) <==>
            exists px: real, py: real :: InBallBox(b, px, py) && InPaddleBox(p, px, py)
  {
    if CheckPaddleCollision(b, p) {
      var px, py := Max(b.x, p.x), Max(b.y, p.y);
      assert InBallBox(b, px, py) && InPaddleBox(p, px, py);
    }
  }

  /** Step 1 of updateBall: move by the velocity. */
  function Advance(b: Ball): Ball {
    b.(x := b.x + b.speedX, y := b.y + b.speedY)
  }

  /** The ball's top edge is at or above the top wall, or its bottom edge at or below the bottom wall. */
  predicate HitsWall(b: Ball) {
    b.y <= 0.0 || b.y >= CANVAS_HEIGHT - BALL_SIZE
  }

  /** Step 2 of updateBall: a wall contact negates the vertical speed. */
  function Bounce(b: Ball): (r: Ball)
    ensures r.x == b.x && r.y == b.y && r.speedX == b.speedX
    ensures Abs(r.speedY) == Abs(b.speedY)
    ensures HitsWall(b) ==> r.speedY == -b.speedY
    ensures !HitsWall(b) ==> r == b
  {
    if HitsWall(b) then b.(speedY := -b.speedY) else b
  }

  /** A paddle hit: the horizontal speed is multiplied by -1.1 and the vertical speed is
      replaced by 0.2 times the offset of the ball's TOP edge from the paddle centre. */
  function Deflect(b: Ball, p: Paddle): (r: Ball)
    ensures r.x == b.x && r.y == b.y
    ensures Abs(r.speedX) == SPEED_UP * Abs(b.speedX)
    ensures b.speedX > 0.0 ==> r.speedX < 0.0
    ensures b.speedX < 0.0 ==> r.speedX > 0.0
    ensures r.speedY > 0.0 <==> b.y > p.y + PADDLE_HEIGHT / 2.0
    ensures Abs(r.speedY) == DEFLECTION * Abs(b.y - (p.y + PADDLE_HEIGHT / 2.0))
    ensures CheckPaddleCollision(b, p) && p.height == PADDLE_HEIGHT ==>
              -SPEED_Y_BOUND < r.speedY < SPEED_Y_BOUND
  {
    b.(speedX := b.speedX * -SPEED_UP,
       speedY := (b.y - (p.y + PADDLE_HEIGHT / 2.0)) * DEFLECTION)
  }

  /** What the two random() draws of resetBall may be: the direction draw lies in [0, 1),
      the vertical speed in [-BALL_SPEED, BALL_SPEED]. */
  predicate ValidDraws(dirDraw: real, speedDraw: real) {
    0.0 <= dirDraw < 1.0 && -BALL_SPEED <= speedDraw <= BALL_SPEED
  }

  /** resetBall: a fresh ball at the canvas centre. */
  function NewBall(dirDraw: real, speedDraw: real): (r: Ball)
    requires ValidDraws(dirDraw, speedDraw)
    ensures r.x == CANVAS_WIDTH / 2.0 && r.y == CANVAS_HEIGHT / 2.0
    ensures r.speedX == BALL_SPEED || r.speedX == -BALL_SPEED
    ensures r.speedX == BALL_SPEED <==> dirDraw > 0.5
    ensures -BALL_SPEED <= r.speedY <= BALL_SPEED && r.speedY == speedDraw
  {
    Ball(CANVAS_WIDTH / 2.0, CANVAS_HEIGHT / 2.0,
         (if dirDraw > 0.5 then 1.0 else -1.0) * BALL_SPEED, speedDraw)
  }

  /** Step 3 of updateBall: at most one deflection, the player's paddle tested first. */
  function AfterPaddles(b: Ball, player: Paddle, ai: Paddle): (r: Ball)
    ensures r.x == b.x && r.y == b.y
    ensures CheckPaddleCollision(b, player) ==> r == Deflect(b, player)
    ensures !CheckPaddleCollision(b, player) && CheckPaddleCollision(b, ai) ==> r == Deflect(b, ai)
    ensures !CheckPaddleCollision(b, player) && !CheckPaddleCollision(b, ai) ==> r == b
    // never deflected twice: the horizontal speed is kept or scaled by -1.1 once
    ensures r.speedX == b.speedX || r.speedX == -SPEED_UP * b.speedX
  {
    if CheckPaddleCollision(b, player) then Deflect(b, player)
    else if CheckPaddleCollision(b, ai) then Deflect(b, ai)
    else b
  }

  /** The ball past a side line, which ends the rally. */
  predicate OutOfPlay(b: Ball) {
    b.x <= 0.0 || b.x >= CANVAS_WIDTH
  }

  /** The values updateBall leaves behind: the ball, both scores and the cues it played, in order. */
  datatype BallStep = BallStep(ball: Ball, playerScore: nat, aiScore: nat, cues: seq<Cue>)

  /** updateBall: move, bounce, deflect, then score and reset the ball. */
  function StepBall(b: Ball, player: Paddle, ai: Paddle, playerScore: nat, aiScore: nat,
                    dirDraw: real, speedDraw: real): (r: BallStep)
    requires ValidDraws(dirDraw, speedDraw)
    // scoring: the left line gives the AI a point, the right line the player
    ensures b.x + b.speedX <= 0.0 ==>
              r.aiScore == aiScore + 1 && r.playerScore == playerScore &&
              r.ball == NewBall(dirDraw, speedDraw)
    ensures 0.0 < b.x + b.speedX && b.x + b.speedX >= CANVAS_WIDTH ==>
              r.playerScore == playerScore + 1 && r.aiScore == aiScore &&
              r.ball == NewBall(dirDraw, speedDraw)
    ensures 0.0 < b.x + b.speedX < CANVAS_WIDTH ==>
              r.playerScore == playerScore && r.aiScore == aiScore &&
              r.ball.x == b.x + b.speedX && r.ball.y == b.y + b.speedY
    // deflection, the player's paddle first
    ensures 0.0 < b.x + b.speedX < CANVAS_WIDTH && CheckPaddleCollision(Advance(b), player) ==>
              r.ball.speedX == -SPEED_UP * b.speedX &&
              r.ball.speedY == (b.y + b.speedY - (player.y + PADDLE_HEIGHT / 2.0)) * DEFLECTION
    ensures 0.0 < b.x + b.speedX < CANVAS_WIDTH && !CheckPaddleCollision(Advance(b), player) &&
            CheckPaddleCollision(Advance(b), ai) ==>
              r.ball.speedX == -SPEED_UP * b.speedX &&
              r.ball.speedY == (b.y + b.speedY - (ai.y + PADDLE_HEIGHT / 2.0)) * DEFLECTION
    // no paddle: the horizontal speed is kept and a wall contact exactly negates the vertical one
    ensures 0.0 < b.x + b.speedX < CANVAS_WIDTH && !CheckPaddleCollision(Advance(b), player) &&
            !CheckPaddleCollision(Advance(b), ai) ==>
              r.ball.speedX == b.speedX &&
              r.ball.speedY == (if HitsWall(Advance(b)) then -b.speedY else b.speedY)
    // a point is scored exactly when the ball is reset, and then by one side only
    ensures r.playerScore + r.aiScore == playerScore + aiScore + (if OutOfPlay(Advance(b)) then 1 else 0)
    ensures r.playerScore >= playerScore && r.aiScore >= aiScore
    // the cues, in the order they are played
    ensures r.cues == (if HitsWall(Advance(b)) then [WallHit] else []) +
                      (if CheckPaddleCollision(Advance(b), player) || CheckPaddleCollision(Advance(b), ai)
                       then [PaddleHit] else []) +
                      (if OutOfPlay(Advance(b)) then [Score] else [])
  {
    var moved := Advance(b);
    var bounced := Bounce(moved);
    var deflected := AfterPaddles(bounced, player, ai);
    var hit := CheckPaddleCollision(bounced, player) || CheckPaddleCollision(bounced, ai);
    var cues := (if HitsWall(moved) then [WallHit] else []) + (if hit then [PaddleHit] else []);
    ScorePoints(deflected, playerScore, aiScore, cues, dirDraw, speedDraw)
  }

  /** The last part of updateBall: a ball past a side line gives the other side a point,
      plays the score cue and is reset. */
  function ScorePoints(b: Ball, playerScore: nat, aiScore: nat, cues: seq<Cue>,
                       dirDraw: real, speedDraw: real): (r: BallStep)
    requires ValidDraws(dirDraw, speedDraw)
    ensures r.playerScore + r.aiScore == playerScore + aiScore + (if OutOfPlay(b) then 1 else 0)
    ensures b.x <= 0.0 ==> r.aiScore == aiScore + 1 && r.playerScore == playerScore
    ensures 0.0 < b.x && b.x >= CANVAS_WIDTH ==> r.playerScore == playerScore + 1 && r.aiScore == aiScore
    ensures OutOfPlay(b) ==> r.ball == NewBall(dirDraw, speedDraw) && r.cues == cues + [Score]
    ensures !OutOfPlay(b) ==> r == BallStep(b, playerScore, aiScore, cues)
  {
    if b.x <= 0.0 then
      BallStep(NewBall(dirDraw, speedDraw), playerScore, aiScore + 1, cues + [Score])
    else if b.x >= CANVAS_WIDTH then
      BallStep(NewBall(dirDraw, speedDraw), playerScore + 1, aiScore, cues + [Score])
    else
      BallStep(b, playerScore, aiScore, cues)
  }

  /** The fastest horizontal speed play allows: a deflected ball moved from inside the
      field into a paddle, so its speed was below CANVAS_WIDTH before the deflection. */
  const SPEED_X_BOUND: real := SPEED_UP * CANVAS_WIDTH

  /** The side lines cap the horizontal speed: a ball strictly inside the field and below
      SPEED_X_BOUND is so again after a ball step, whatever the paddles. */
  lemma StepBallSpeedBounded(b: Ball, player: Paddle, ai: Paddle, playerScore: nat, aiScore: nat,
                             dirDraw: real, speedDraw: real)
    requires ValidDraws(dirDraw, speedDraw)
    requires 0.0 < b.x < CANVAS_WIDTH && Abs(b.speedX) < SPEED_X_BOUND
    ensures var r := StepBall(b, player, ai, playerScore, aiScore, dirDraw, speedDraw).ball;
            0.0 < r.x < CANVAS_WIDTH && Abs(r.speedX) < SPEED_X_BOUND
  {
    var moved := Advance(b);
    var deflected := AfterPaddles(Bounce(moved), player, ai);
    if !OutOfPlay(moved) && deflected.speedX != b.speedX {
      // the ball went from b.x to moved.x, both inside the field
      assert Abs(b.speedX) < CANVAS_WIDTH;
      assert Abs(deflected.speedX) == SPEED_UP * Abs(b.speedX);
    }
  }

  function Pow(x: real, n: nat): real {
    if n == 0 then 1.0 else x * Pow(x, n - 1)
  }

  /** A chain of deflections: the ball deflected by each paddle of `hits` in turn,
      with no movement, collision test or reset in between. */
  function Rally(b: Ball, hits: seq<Paddle>): Ball
    decreases |hits|
  {
    if hits == [] then b else Rally(Deflect(b, hits[0]), hits[1..])
  }

  /** Each deflection compounds the horizontal speed by 10%; the source sets no cap. */
  lemma {:induction false} RallySpeed(b: Ball, hits: seq<Paddle>)
    ensures Abs(Rally(b, hits).speedX) == Abs(b.speedX) * Pow(SPEED_UP, |hits|)
    decreases |hits|
  {
    if hits != [] {
      var b' := Deflect(b, hits[0]);
      RallySpeed(b', hits[1..]);
      assert Rally(b, hits) == Rally(b', hits[1..]);
      assert Pow(SPEED_UP, |hits|) == SPEED_UP * Pow(SPEED_UP, |hits| - 1);
      Regroup(SPEED_UP, Abs(b.speedX), Pow(SPEED_UP, |hits| - 1));
    }
  }

  lemma Regroup(c: real, a: real, p: real)
    ensures (c * a) * p == a * (c * p)
  {
  }

  /** Bernoulli's inequality for the speed-up factor. */
  lemma {:induction false} SpeedUpBernoulli(n: nat)
    ensures Pow(SPEED_UP, n) >= 1.0 + (n as real) / 10.0
  {
    if n > 0 {
      SpeedUpBernoulli(n - 1);
    }
  }

  /** A start speed `a` compounded n times by SPEED_UP is at least (1 + n/10) times `a`. */
  lemma CompoundedAtLeast(v: real, a: real, n: nat)
    ensures a >= 0.0 && v == a * Pow(SPEED_UP, n) ==> v >= a * (1.0 + (n as real) / 10.0)
  {
    if a >= 0.0 && v == a * Pow(SPEED_UP, n) {
      SpeedUpBernoulli(n);
      MulMonotone(v, a, 1.0 + (n as real) / 10.0, Pow(SPEED_UP, n));
    }
  }

  lemma MulMonotone(r: real, a: real, q: real, p: real)
    requires r == a * p && a >= 0.0 && q <= p
    ensures r >= a * q
  {
  }

  /** The horizontal speed grows without bound over a chain of deflections: after n
      of them it is at least (1 + n/10) times what it was. */
  lemma RallySpeedUnbounded(b: Ball, hits: seq<Paddle>)
    ensures Abs(Rally(b, hits).speedX) >= Abs(b.speedX) * (1.0 + (|hits| as real) / 10.0)
  {
    RallySpeed(b, hits);
    CompoundedAtLeast(Abs(Rally(b, hits).speedX), Abs(b.speedX), |hits|);
  }
}
