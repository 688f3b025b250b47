/** The per-frame game: the START / PLAYING / GAME_OVER phase machine, the
    debounced space key, the win check and the reported winner. `Frame` is one
    call of `draw` on the game's values; class `Game` holds the same values in
    fields and updates them step by step, each method proved against its function. */
module Pong {
  import opened Config
  import opened Physics

  /** Minimum time in milliseconds between two accepted space presses. */
  const SPACE_COOLDOWN: real := 500.0

  datatype Phase = Start | Playing | GameOver

  datatype Side = Player | AI

  /** The game's globals: both paddles, the ball, the scores, the phase and the
      time of the last accepted space press. */
  datatype State = State(playerPaddle: Paddle, aiPaddle: Paddle, ball: Ball,
                         playerScore: nat, aiScore: nat, gameState: Phase,
                         lastSpacePress: real)

  /** What one frame reads from its host: the up and down keys held, whether the
      space key is the key pressed, the clock in milliseconds, and the two random
      draws a ball reset consumes. */
  datatype Input = Input(up: bool, down: bool, space: bool, now: real,
                         dirDraw: real, speedDraw: real)

  /** The result of one frame: the new values and the cues played, in order. */
  datatype Step = Step(next: State, cues: seq<Cue>)

  predicate InputOk(i: Input) {
    ValidDraws(i.dirDraw, i.speedDraw)
  }

  /** canPressSpace: the cooldown since the last accepted press has run out. */
  function CanPressSpace(now: real, lastSpacePress: real): (ok: bool)
    ensures ok <==> lastSpacePress + SPACE_COOLDOWN <= now
    // an accepted press always moves the timestamp forward
    ensures ok ==> lastSpacePress < now
  {
    now - lastSpacePress >= SPACE_COOLDOWN
  }

  /** A frame in which a space press is taken: only outside PLAYING, and only after the cooldown. */
  predicate Accepted(s: State, i: Input) {
    s.gameState != Playing && i.space && CanPressSpace(i.now, s.lastSpacePress)
  }

  /** The winner shown on the game-over screen; a tie is reported as the AI's. */
  function Winner(playerScore: nat, aiScore: nat): (w: Side)
    ensures w == Player <==> playerScore > aiScore
    ensures playerScore == aiScore ==> w == AI
  {
    if playerScore > aiScore then Player else AI
  }

  const PLAYER_START: Paddle := Paddle(PADDLE_MARGIN, CANVAS_HEIGHT / 2.0, PADDLE_WIDTH, PADDLE_HEIGHT)
  const AI_START: Paddle :=
    Paddle(CANVAS_WIDTH - PADDLE_MARGIN - PADDLE_WIDTH, CANVAS_HEIGHT / 2.0, PADDLE_WIDTH, PADDLE_HEIGHT)

  /** The values every reachable state has: paddles where setup put them with their
      top edges clamped, a horizontal speed never below BALL_SPEED, a vertical speed
      below the deflection bound, and scores that fit the phase. */
  predicate Wellformed(s: State) {
    && s.playerPaddle == PLAYER_START.(y := s.playerPaddle.y)
    && s.aiPaddle == AI_START.(y := s.aiPaddle.y)
    && InPlayfield(s.playerPaddle.y) && InPlayfield(s.aiPaddle.y)
    && Abs(s.ball.speedX) >= BALL_SPEED
    && -SPEED_Y_BOUND < s.ball.speedY < SPEED_Y_BOUND
    && match s.gameState
       case Start => s.playerScore == 0 && s.aiScore == 0
       case Playing => s.playerScore < WINNING_SCORE && s.aiScore < WINNING_SCORE
       case GameOver =>
         || (s.playerScore == WINNING_SCORE && s.aiScore < WINNING_SCORE)
         || (s.aiScore == WINNING_SCORE && s.playerScore < WINNING_SCORE)
  }

  /** The globals after their initialisers and setup. */
  function Initial(dirDraw: real, speedDraw: real): (s: State)
    requires ValidDraws(dirDraw, speedDraw)
    ensures Wellformed(s)
    ensures s.gameState == Start && s.playerScore == 0 && s.aiScore == 0 && s.lastSpacePress == 0.0
    ensures s.playerPaddle.y == CANVAS_HEIGHT / 2.0 && s.aiPaddle.y == CANVAS_HEIGHT / 2.0
    ensures s.ball == NewBall(dirDraw, speedDraw)
  {
    State(PLAYER_START, AI_START, NewBall(dirDraw, speedDraw), 0, 0, Start, 0.0)
  }

  /** checkWinCondition */
  function CheckWin(s: State): (r: State)
    ensures s.playerScore >= WINNING_SCORE || s.aiScore >= WINNING_SCORE ==> r.gameState == GameOver
    ensures !(s.playerScore >= WINNING_SCORE || s.aiScore >= WINNING_SCORE) ==> r == s
    ensures r == s.(gameState := r.gameState)
  {
    if s.playerScore >= WINNING_SCORE || s.aiScore >= WINNING_SCORE then s.(gameState := GameOver) else s
  }

  /** resetGame: a new game with the scores back at zero and a fresh ball */
  function Restart(s: State, dirDraw: real, speedDraw: real): (r: State)
    requires ValidDraws(dirDraw, speedDraw)
    ensures r.playerScore == 0 && r.aiScore == 0 && r.gameState == Playing
    ensures r.ball.x == CANVAS_WIDTH / 2.0 && r.ball.y == CANVAS_HEIGHT / 2.0
    ensures r.ball.speedX == BALL_SPEED || r.ball.speedX == -BALL_SPEED
    ensures -BALL_SPEED <= r.ball.speedY <= BALL_SPEED
    ensures r.ball == NewBall(dirDraw, speedDraw)
    ensures r.playerPaddle == s.playerPaddle && r.aiPaddle == s.aiPaddle
    ensures r.lastSpacePress == s.lastSpacePress
  {
    s.(playerScore := 0, aiScore := 0, ball := NewBall(dirDraw, speedDraw), gameState := Playing)
  }

  /** One PLAYING frame: player, then AI (steering by the ball before it moves),
      then the ball against the moved paddles, then the win check. */
  function PlayFrame(s: State, i: Input): (r: Step)
    requires InputOk(i)
    ensures r.next.playerPaddle == s.playerPaddle.(y := PlayerMove(s.playerPaddle.y, i.up, i.down))
    ensures r.next.aiPaddle == s.aiPaddle.(y := AiMove(s.aiPaddle.y, s.ball.y))
    ensures var b := StepBall(s.ball, r.next.playerPaddle, r.next.aiPaddle,
                              s.playerScore, s.aiScore, i.dirDraw, i.speedDraw);
            r.next.ball == b.ball && r.next.playerScore == b.playerScore &&
            r.next.aiScore == b.aiScore && r.cues == b.cues
    ensures r.next.gameState ==
            if r.next.playerScore >= WINNING_SCORE || r.next.aiScore >= WINNING_SCORE
            then GameOver else s.gameState
    ensures r.next.lastSpacePress == s.lastSpacePress
  {
    var player := s.playerPaddle.(y := PlayerMove(s.playerPaddle.y, i.up, i.down));
    var ai := s.aiPaddle.(y := AiMove(s.aiPaddle.y, s.ball.y));
    var b := StepBall(s.ball, player, ai, s.playerScore, s.aiScore, i.dirDraw, i.speedDraw);
    Step(CheckWin(s.(playerPaddle := player, aiPaddle := ai, ball := b.ball,
                     playerScore := b.playerScore, aiScore := b.aiScore)),
         b.cues)
  }

  /** draw: one frame of the phase machine. */
  function Frame(s: State, i: Input): (r: Step)
    requires InputOk(i)
    // the debounced space key
    ensures r.next.lastSpacePress == if Accepted(s, i) then i.now else s.lastSpacePress
    ensures Accepted(s, i) ==> r.next.gameState == Playing && r.cues == []
    ensures Accepted(s, i) && s.gameState == Start ==>
              r.next == s.(gameState := Playing, lastSpacePress := i.now)
    ensures Accepted(s, i) && s.gameState == GameOver ==>
              r.next == Restart(s, i.dirDraw, i.speedDraw).(lastSpacePress := i.now)
    ensures s.gameState != Playing && !Accepted(s, i) ==> r == Step(s, [])
    // the game never goes back to START
    ensures s.gameState != Start ==> r.next.gameState != Start
    // a PLAYING frame ends the game exactly when a score has reached WINNING_SCORE
    ensures s.gameState == Playing ==>
              (r.next.gameState == GameOver <==>
               r.next.playerScore >= WINNING_SCORE || r.next.aiScore >= WINNING_SCORE)
    ensures s.gameState == Playing ==>
              r.next.playerScore + r.next.aiScore <= s.playerScore + s.aiScore + 1 &&
              r.next.playerScore >= s.playerScore && r.next.aiScore >= s.aiScore
    ensures s.gameState == Playing ==>
              r.next.playerPaddle == s.playerPaddle.(y := PlayerMove(s.playerPaddle.y, i.up, i.down)) &&
              r.next.aiPaddle == s.aiPaddle.(y := AiMove(s.aiPaddle.y, s.ball.y))
    // and the ball steps against the moved paddles
    ensures s.gameState == Playing ==>
              var b := StepBall(s.ball, r.next.playerPaddle, r.next.aiPaddle,
                                s.playerScore, s.aiScore, i.dirDraw, i.speedDraw);
              r.next.ball == b.ball && r.next.playerScore == b.playerScore &&
              r.next.aiScore == b.aiScore && r.cues == b.cues
  {
    match s.gameState
    case Start =>
      if CanPressSpace(i.now, s.lastSpacePress) && i.space
      then Step(s.(gameState := Playing, lastSpacePress := i.now), [])
      else Step(s, [])
    case Playing =>
      PlayFrame(s, i)
    case GameOver =>
      if CanPressSpace(i.now, s.lastSpacePress) && i.space
      then Step(Restart(s, i.dirDraw, i.speedDraw).(lastSpacePress := i.now), [])
      else Step(s, [])
  }

  /** Every frame keeps the reachable-state invariant. */
  lemma FramePreservesWellformed(s: State, i: Input)
    requires InputOk(i) && Wellformed(s)
    ensures Wellformed(Frame(s, i).next)
  {
  }

  /** The reported winner is the side that reached WINNING_SCORE; a reachable
      game-over screen never shows a tie. */
  lemma WinnerReachedTarget(s: State)
    requires Wellformed(s) && s.gameState == GameOver
    ensures s.playerScore != s.aiScore
    ensures Winner(s.playerScore, s.aiScore) == Player <==> s.playerScore == WINNING_SCORE
    ensures Winner(s.playerScore, s.aiScore) == AI <==> s.aiScore == WINNING_SCORE
  {
  }

  /** A point that takes the player from 4 to 5 ends the game at once, with the player
      reported as the winner. */
  lemma PlayerWinsAtFive(s: State, i: Input)
    requires InputOk(i) && Wellformed(s)
    requires s.gameState == Playing && s.playerScore == 4 && s.aiScore == 3
    requires s.ball.x + s.ball.speedX >= CANVAS_WIDTH
    ensures Frame(s, i).next.playerScore == 5 && Frame(s, i).next.aiScore == 3
    ensures Frame(s, i).next.gameState == GameOver
    ensures Winner(Frame(s, i).next.playerScore, Frame(s, i).next.aiScore) == Player
    ensures Frame(s, i).next.ball == NewBall(i.dirDraw, i.speedDraw)
  {
  }

  /** Frames run one after another. */
  function Run(s: State, ins: seq<Input>): State
    requires forall k :: 0 <= k < |ins| ==> InputOk(ins[k])
    decreases |ins|
  {
    if ins == [] then s else Run(Frame(s, ins[0]).next, ins[1..])
  }

  /** How many space presses a run of frames accepts. */
  function PressCount(s: State, ins: seq<Input>): nat
    requires forall k :: 0 <= k < |ins| ==> InputOk(ins[k])
    decreases |ins|
  {
    if ins == [] then 0
    else (if Accepted(s, ins[0]) then 1 else 0) + PressCount(Frame(s, ins[0]).next, ins[1..])
  }

  /** Runs keep the reachable-state invariant. */
  lemma {:induction false} RunPreservesWellformed(s: State, ins: seq<Input>)
    requires forall k :: 0 <= k < |ins| ==> InputOk(ins[k])
    requires Wellformed(s)
    ensures Wellformed(Run(s, ins))
    decreases |ins|
  {
    if ins != [] {
      FramePreservesWellformed(s, ins[0]);
      RunPreservesWellformed(Frame(s, ins[0]).next, ins[1..]);
    }
  }

  /** Once the game has left START it never returns there. */
  lemma {:induction false} NeverBackToStart(s: State, ins: seq<Input>)
    requires forall k :: 0 <= k < |ins| ==> InputOk(ins[k])
    requires s.gameState != Start
    ensures Run(s, ins).gameState != Start
    decreases |ins|
  {
    if ins != [] {
      NeverBackToStart(Frame(s, ins[0]).next, ins[1..]);
    }
  }

  /** No press is accepted while the clock is within the cooldown of the last accepted one,
      however many frames pass and whatever the phase does meanwhile. */
  lemma {:induction false} NoPressWithinCooldown(s: State, ins: seq<Input>)
    requires forall k :: 0 <= k < |ins| ==> InputOk(ins[k])
    requires forall k :: 0 <= k < |ins| ==> ins[k].now - s.lastSpacePress < SPACE_COOLDOWN
    ensures PressCount(s, ins) == 0
    ensures Run(s, ins).lastSpacePress == s.lastSpacePress
    decreases |ins|
  {
    if ins != [] {
      NoPressWithinCooldown(Frame(s, ins[0]).next, ins[1..]);
    }
  }

  /** In play the ball stays strictly between the side lines and its horizontal speed
      stays below SPEED_X_BOUND. */
  predicate SpeedBounded(s: State) {
    0.0 < s.ball.x < CANVAS_WIDTH && Abs(s.ball.speedX) < SPEED_X_BOUND
  }

  /** Every frame keeps the speed bound. */
  lemma FramePreservesSpeedBounded(s: State, i: Input)
    requires InputOk(i) && SpeedBounded(s)
    ensures SpeedBounded(Frame(s, i).next)
  {
    if s.gameState == Playing {
      StepBallSpeedBounded(s.ball, s.playerPaddle.(y := PlayerMove(s.playerPaddle.y, i.up, i.down)),
                           s.aiPaddle.(y := AiMove(s.aiPaddle.y, s.ball.y)),
                           s.playerScore, s.aiScore, i.dirDraw, i.speedDraw);
    }
  }

  /** Runs keep the speed bound. */
  lemma {:induction false} RunPreservesSpeedBounded(s: State, ins: seq<Input>)
    requires forall k :: 0 <= k < |ins| ==> InputOk(ins[k])
    requires SpeedBounded(s)
    ensures SpeedBounded(Run(s, ins))
    decreases |ins|
  {
    if ins != [] {
      FramePreservesSpeedBounded(s, ins[0]);
      RunPreservesSpeedBounded(Frame(s, ins[0]).next, ins[1..]);
    }
  }

  /** However many deflections a game has, its horizontal speed never reaches SPEED_X_BOUND. */
  lemma ReachableSpeedBounded(dirDraw: real, speedDraw: real, ins: seq<Input>)
    requires ValidDraws(dirDraw, speedDraw)
    requires forall k :: 0 <= k < |ins| ==> InputOk(ins[k])
    ensures Abs(Run(Initial(dirDraw, speedDraw), ins).ball.speedX) < SPEED_X_BOUND
  {
    RunPreservesSpeedBounded(Initial(dirDraw, speedDraw), ins);
  }

  /** Holding space, or pressing it twice, within 500 ms of an accepted press gives
      exactly one accepted press. */
  lemma OnePressPerCooldown(s: State, first: Input, later: seq<Input>)
    requires InputOk(first) && forall k :: 0 <= k < |later| ==> InputOk(later[k])
    requires Accepted(s, first)
    requires forall k :: 0 <= k < |later| ==> later[k].now - first.now < SPACE_COOLDOWN
    ensures PressCount(s, [first] + later) == 1
  {
    var ins := [first] + later;
    assert ins[0] == first && ins[1..] == later;
    NoPressWithinCooldown(Frame(s, first).next, later);
  }

  /** The game's globals as fields; each method is one function of the source. */
  class Game {
    var playerPaddle: Paddle
    var aiPaddle: Paddle
    var ball: Ball
    var playerScore: nat
    var aiScore: nat
    var gameState: Phase
    var lastSpacePress: real

    /** The fields as a value. */
    function Current(): State
      reads this
    {
      State(playerPaddle, aiPaddle, ball, playerScore, aiScore, gameState, lastSpacePress)
    }

    ghost predicate Valid()
      reads this
    {
      Wellformed(Current())
    }

    /** The globals' initialisers followed by setup. */
    constructor (dirDraw: real, speedDraw: real)
      requires ValidDraws(dirDraw, speedDraw)
      ensures Current() == Initial(dirDraw, speedDraw)
      ensures Valid()
    {
      playerScore := 0;
      aiScore := 0;
      gameState := Start;
      lastSpacePress := 0.0;
      playerPaddle := Paddle(PADDLE_MARGIN, CANVAS_HEIGHT / 2.0, PADDLE_WIDTH, PADDLE_HEIGHT);
      aiPaddle := Paddle(CANVAS_WIDTH - PADDLE_MARGIN - PADDLE_WIDTH, CANVAS_HEIGHT / 2.0,
                         PADDLE_WIDTH, PADDLE_HEIGHT);
      ball := NewBall(dirDraw, speedDraw);
    }

    method HandlePlayerMovement(up: bool, down: bool)
      modifies this`playerPaddle
      ensures playerPaddle == old(playerPaddle).(y := PlayerMove(old(playerPaddle.y), up, down))
    {
      if up {
        playerPaddle := playerPaddle.(y := Max(0.0, playerPaddle.y - PADDLE_SPEED));
      }
      if down {
        playerPaddle := playerPaddle.(y := Min(CANVAS_HEIGHT - PADDLE_HEIGHT, playerPaddle.y + PADDLE_SPEED));
      }
    }

    method UpdateAI()
      modifies this`aiPaddle
      ensures aiPaddle == old(aiPaddle).(y := AiMove(old(aiPaddle.y), ball.y))
    {
      var targetY := ball.y - PADDLE_HEIGHT / 2.0;
      var moveSpeed := PADDLE_SPEED * 0.85;
      if aiPaddle.y < targetY {
        aiPaddle := aiPaddle.(y := Min(CANVAS_HEIGHT - PADDLE_HEIGHT, aiPaddle.y + moveSpeed));
      } else if aiPaddle.y > targetY {
        aiPaddle := aiPaddle.(y := Max(0.0, aiPaddle.y - moveSpeed));
      }
    }

    method ResetBall(dirDraw: real, speedDraw: real)
      requires ValidDraws(dirDraw, speedDraw)
      modifies this`ball
      ensures ball == NewBall(dirDraw, speedDraw)
    {
      ball := Ball(CANVAS_WIDTH / 2.0, CANVAS_HEIGHT / 2.0,
                   (if dirDraw > 0.5 then 1.0 else -1.0) * BALL_SPEED, speedDraw);
    }

    /** One ball step; returns the cues played, in order. */
    method UpdateBall(dirDraw: real, speedDraw: real) returns (cues: seq<Cue>)
      requires ValidDraws(dirDraw, speedDraw)
      modifies this`ball, this`playerScore, this`aiScore
      ensures BallStep(ball, playerScore, aiScore, cues) ==
              StepBall(old(ball), playerPaddle, aiPaddle, old(playerScore), old(aiScore), dirDraw, speedDraw)
    {
      ghost var moved := Advance(ball);
      cues := [];
      ball := ball.(x := ball.x + ball.speedX);
      ball := ball.(y := ball.y + ball.speedY);
      assert ball == moved;

      if ball.y <= 0.0 || ball.y >= CANVAS_HEIGHT - BALL_SIZE {
        ball := ball.(speedY := ball.speedY * -1.0);
        cues := cues + [WallHit];
      }
      assert ball == Bounce(moved);

      cues := CollidePaddles(cues);
      cues := AwardPoint(dirDraw, speedDraw, cues);
    }

    /** The paddle-collision part of updateBall: the player's paddle is tested first. */
    method CollidePaddles(cues0: seq<Cue>) returns (cues: seq<Cue>)
      modifies this`ball
      ensures ball == AfterPaddles(old(ball), playerPaddle, aiPaddle)
      ensures cues == cues0 + if CheckPaddleCollision(old(ball), playerPaddle) ||
                                 CheckPaddleCollision(old(ball), aiPaddle) then [PaddleHit] else []
    {
      cues := cues0;
      if CheckPaddleCollision(ball, playerPaddle) {
        ball := ball.(speedX := ball.speedX * -1.1);
        ball := ball.(speedY := (ball.y - (playerPaddle.y + PADDLE_HEIGHT / 2.0)) * 0.2);
        cues := cues + [PaddleHit];
      } else if CheckPaddleCollision(ball, aiPaddle) {
        ball := ball.(speedX := ball.speedX * -1.1);
        ball := ball.(speedY := (ball.y - (aiPaddle.y + PADDLE_HEIGHT / 2.0)) * 0.2);
        cues := cues + [PaddleHit];
      }
    }

    /** The scoring part of updateBall: a point for the other side and a fresh ball. */
    method AwardPoint(dirDraw: real, speedDraw: real, cues0: seq<Cue>) returns (cues: seq<Cue>)
      requires ValidDraws(dirDraw, speedDraw)
      modifies this`ball, this`playerScore, this`aiScore
      ensures BallStep(ball, playerScore, aiScore, cues) ==
              ScorePoints(old(ball), old(playerScore), old(aiScore), cues0, dirDraw, speedDraw)
    {
      cues := cues0;
      if ball.x <= 0.0 || ball.x >= CANVAS_WIDTH {
        cues := cues + [Score];
        if ball.x <= 0.0 {
          aiScore := aiScore + 1;
        } else {
          playerScore := playerScore + 1;
        }
        ResetBall(dirDraw, speedDraw);
      }
    }

    method CheckWinCondition()
      modifies this`gameState
      ensures Current() == CheckWin(old(Current()))
    {
      if playerScore >= WINNING_SCORE || aiScore >= WINNING_SCORE {
        gameState := GameOver;
      }
    }

    method ResetGame(dirDraw: real, speedDraw: real)
      requires ValidDraws(dirDraw, speedDraw)
      modifies this`playerScore, this`aiScore, this`ball, this`gameState
      ensures Current() == Restart(old(Current()), dirDraw, speedDraw)
    {
      playerScore := 0;
      aiScore := 0;
      ResetBall(dirDraw, speedDraw);
      gameState := Playing;
    }

    /** The PLAYING branch of draw. Returns the cues played, in order. */
    method Play(i: Input) returns (cues: seq<Cue>)
      requires InputOk(i)
      modifies this`playerPaddle, this`aiPaddle, this`ball, this`playerScore, this`aiScore, this`gameState
      ensures PlayFrame(old(Current()), i) == Step(Current(), cues)
    {
      HandlePlayerMovement(i.up, i.down);
      UpdateAI();
      cues := UpdateBall(i.dirDraw, i.speedDraw);
      CheckWinCondition();
    }

    /** The winner line of displayGameOver: on a reachable game-over screen it names
        the side that reached WINNING_SCORE. */
    method ShownWinner() returns (w: Side)
      requires Valid() && gameState == GameOver
      ensures w == Winner(playerScore, aiScore)
      ensures w == Player <==> playerScore == WINNING_SCORE
      ensures w == AI <==> aiScore == WINNING_SCORE
    {
      w := if playerScore > aiScore then Player else AI;
      WinnerReachedTarget(Current());
    }

    /** draw: one frame. Returns the cues played, in order. */
    method Draw(i: Input) returns (cues: seq<Cue>)
      requires InputOk(i)
      modifies this
      ensures Frame(old(Current()), i) == Step(Current(), cues)
      ensures old(Valid()) ==> Valid()
    {
      ghost var s := Current();
      cues := [];
      match gameState {
        case Start =>
          if CanPressSpace(i.now, lastSpacePress) && i.space {
            gameState := Playing;
            lastSpacePress := i.now;
          }
          assert Frame(s, i) == Step(Current(), cues);
        case Playing =>
          cues := Play(i);
          assert Frame(s, i) == PlayFrame(s, i);
        case GameOver =>
          if CanPressSpace(i.now, lastSpacePress) && i.space {
            ResetGame(i.dirDraw, i.speedDraw);
            lastSpacePress := i.now;
          }
          assert Frame(s, i) == Step(Current(), cues);
      }
      if Wellformed(s) {
        FramePreservesWellformed(s, i);
        assert Wellformed(Current());
      }
    }
  }
}
