/** Board, paddle and ball geometry of the Pong demo. Every constant of the
    source is a whole number of pixels, so they are integers here. */
module PongConstants {

  const WindowWidth: int := 600
  const WindowHeight: int := 600

  /** The centre divider: from (MidLine1X, MidLine1Y) to (MidLine2X, MidLine2Y). */
  const MidLine1X: int := WindowWidth / 2 - 5
  const MidLine1Y: int := 0
  const MidLine2X: int := WindowWidth / 2 + 5
  const MidLine2Y: int := WindowHeight

  /** Top-left corners of the left (id 1) and right (id 2) paddles. */
  const Paddle1X: int := 20
  const Paddle1Y: int := WindowHeight / 2 - 50
  const Paddle2X: int := WindowWidth - 20
  const Paddle2Y: int := WindowHeight / 2 - 50

  const PaddleWidth: int := 10
  const PaddleHeight: int := 100

  const BallRadius: int := 10
  const BallSpeed: int := 3
  const BallStartX: int := WindowWidth / 2 - 5
  const BallStartY: int := WindowHeight / 2 - 5

  /** Per-key paddle step (a constant of the paddle file). */
  const PaddleSpeed: int := 5

  /** The lowest top-edge y a paddle may take. */
  const PaddleMaxY: int := WindowHeight - PaddleHeight

  /** The facts about the layout that the rest of the simulation relies on. */
  lemma BoardGeometry()
    ensures WindowWidth == 600 && WindowHeight == 600
    // both paddles start vertically centred, inside the clamp range
    ensures Paddle1Y + PaddleHeight / 2 == WindowHeight / 2
    ensures Paddle2Y + PaddleHeight / 2 == WindowHeight / 2
    ensures 0 <= Paddle1Y <= PaddleMaxY && 0 <= Paddle2Y <= PaddleMaxY && PaddleMaxY == 500
    // the right paddle lies entirely within the board width
    ensures 0 <= Paddle2X && Paddle2X + PaddleWidth <= WindowWidth
    // the ball starts at least a radius away from every wall
    ensures BallRadius <= BallStartX <= WindowWidth - BallRadius
    ensures BallRadius <= BallStartY <= WindowHeight - BallRadius
    // the divider is 10 wide, centred on the middle, and spans the full height
    ensures MidLine2X - MidLine1X == 10 && (MidLine1X + MidLine2X) / 2 == WindowWidth / 2
    ensures MidLine1Y == 0 && MidLine2Y == WindowHeight
  {
  }
}
