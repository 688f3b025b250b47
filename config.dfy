/** The numeric part of the game's configuration table (js/config.js).
    Coordinates and speeds are pixels and pixels per frame; they are exact reals here. */
module Config {
  // Canvas
  const CANVAS_WIDTH: real := 800.0
  const CANVAS_HEIGHT: real := 600.0

  // Paddle
  const PADDLE_WIDTH: real := 15.0
  const PADDLE_HEIGHT: real := 90.0
  const PADDLE_SPEED: real := 8.0
  const PADDLE_MARGIN: real := 30.0

  // Ball
  const BALL_SIZE: real := 15.0
  const BALL_SPEED: real := 7.0

  // Game
  const WINNING_SCORE: nat := 5
}
