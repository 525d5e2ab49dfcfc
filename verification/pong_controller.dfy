/** The Pong controller: one tick moves paddle 1, paddle 2 and the ball, then
    bounces the ball off the paddles and resets it once it leaves the board
    horizontally. */
module PongController {
  import opened PongConstants
  import opened PongBall
  import opened PongPaddle

  datatype GameState = GameState(ball: BallState, paddle1: PaddleState, paddle2: PaddleState)

  /** What `Controller::new` builds. */
  const NewGame: GameState := GameState(PongBall.Start, PongPaddle.Initial(1), PongPaddle.Initial(2))

  /** Left test: the ball's left edge reached the paddle's right edge and the
      ball's centre y (not its extent) lies in the paddle band, inclusive. */
  predicate LeftHit(b: BallState, p1: PaddleState) {
    b.x - b.radius <= p1.x + PaddleWidth && b.y >= p1.y && b.y <= p1.y + PaddleHeight
  }

  /** Right test: the ball's right edge reached the paddle's left edge, same band test. */
  predicate RightHit(b: BallState, p2: PaddleState) {
    b.x + b.radius >= p2.x && b.y >= p2.y && b.y <= p2.y + PaddleHeight
  }

  /** The two collision tests, left first; the right one wins when both hold. */
  function Collide(b: BallState, p1: PaddleState, p2: PaddleState): (r: BallState)
    // only vx changes, and only its sign
    ensures r == b.(vx := r.vx) && Abs(r.vx) == Abs(b.vx)
    ensures RightHit(b, p2) ==> r.vx == -Abs(b.vx)
    ensures LeftHit(b, p1) && !RightHit(b, p2) ==> r.vx == Abs(b.vx)
    ensures !LeftHit(b, p1) && !RightHit(b, p2) ==> r == b
  {
    var b1 := if LeftHit(b, p1) then b.(vx := Abs(b.vx)) else b;
    if RightHit(b1, p2) then b1.(vx := -Abs(b1.vx)) else b1
  }

  predicate OutOfBounds(b: BallState) { b.x < 0 || b.x > WindowWidth }

  /** One `Controller::update` with the given keys held. */
  function Tick(s: GameState, keys: Keys): GameState {
    var p1 := PongPaddle.Step(s.paddle1, keys);
    var p2 := PongPaddle.Step(s.paddle2, keys);
    var b := Collide(PongBall.Step(s.ball), p1, p2);
    GameState(if OutOfBounds(b) then PongBall.Start else b, p1, p2)
  }

  /** What holds of every reachable game: the ball's speed is BallSpeed on
      both axes, its radius is fixed, each paddle keeps its side, its x and
      a top edge on the board. */
  predicate Inv(s: GameState) {
    && Abs(s.ball.vx) == BallSpeed && Abs(s.ball.vy) == BallSpeed && s.ball.radius == BallRadius
    && s.paddle1.id == 1 && s.paddle1.x == Paddle1X && InRange(s.paddle1)
    && s.paddle2.id == 2 && s.paddle2.x == Paddle2X && InRange(s.paddle2)
  }

  lemma InitialInv()
    ensures Inv(NewGame)
  {
  }

  lemma TickPreservesInv(s: GameState, keys: Keys)
    requires Inv(s)
    ensures Inv(Tick(s, keys))
  {
    StepInRange(s.paddle1, keys);
    StepInRange(s.paddle2, keys);
  }

  /** n ticks with the key states given tick by tick. */
  function Run(s: GameState, inputs: seq<Keys>): GameState
    decreases |inputs|
  {
    if inputs == [] then s else Run(Tick(s, inputs[0]), inputs[1..])
  }

  /** Any run from `new` keeps the invariant, whatever keys are held. */
  lemma {:induction false} RunPreservesInv(s: GameState, inputs: seq<Keys>)
    requires Inv(s)
    ensures Inv(Run(s, inputs))
    decreases |inputs|
  {
    if inputs != [] {
      TickPreservesInv(s, inputs[0]);
      RunPreservesInv(Tick(s, inputs[0]), inputs[1..]);
    }
  }

  /** The collision tests look at the ball after its move and at the paddles
      after theirs. With the paddles on their own sides no ball meets both
      tests, so a left contact always sends the ball right (a ball reset
      after it also moves right), and a right hit sends it left unless the
      ball is then reset. */
  lemma Bounces(s: GameState, keys: Keys)
    requires Inv(s)
    ensures var p1 := PongPaddle.Step(s.paddle1, keys);
            var p2 := PongPaddle.Step(s.paddle2, keys);
            var b := PongBall.Step(s.ball);
            && (LeftHit(b, p1) ==> !RightHit(b, p2) && Tick(s, keys).ball.vx == BallSpeed)
            && (RightHit(b, p2) && !OutOfBounds(b) ==> Tick(s, keys).ball.vx == -BallSpeed)
  {
    StepInRange(s.paddle1, keys);
    StepInRange(s.paddle2, keys);
  }

  /** The ball is reset to exactly `Ball::new()` once it has left the board
      horizontally; e.g. a ball at x = 605 (or anywhere beyond 603) is reset
      on the next tick. */
  lemma Resets(s: GameState, keys: Keys)
    requires Inv(s)
    ensures OutOfBounds(PongBall.Step(s.ball)) ==> Tick(s, keys).ball == PongBall.Start
    ensures s.ball.x > WindowWidth + BallSpeed ==> Tick(s, keys).ball == PongBall.Start
    ensures s.ball.x < -BallSpeed ==> Tick(s, keys).ball == PongBall.Start
  {
  }

  /** Without a reset, the tick moves the ball exactly as `Ball::update`
      does except for vx; the paddles never touch position or vy. */
  lemma CollisionOnlyTouchesVx(s: GameState, keys: Keys)
    ensures !OutOfBounds(PongBall.Step(s.ball)) ==>
              Tick(s, keys).ball == PongBall.Step(s.ball).(vx := Tick(s, keys).ball.vx)
  {
  }

  /** n ticks from `new` with no key held. */
  function IdleRun(n: nat): GameState {
    if n == 0 then NewGame else Tick(IdleRun(n - 1), NoKeys)
  }

  /** With no key held, neither paddle moves and for the first 99 ticks the
      ball meets neither paddle nor a side wall, so it moves exactly as the
      ball alone does: at tick 98 it is at y = 589 going down the screen, at
      tick 99 it has reflected off the bottom wall at y = 592. */
  lemma {:induction false} IdleRunIsBallAlone(n: nat)
    requires n <= 99
    ensures IdleRun(n) == GameState(Ticks(PongBall.Start, n), PongPaddle.Initial(1), PongPaddle.Initial(2))
  {
    if n > 0 {
      IdleRunIsBallAlone(n - 1);
      RisingPhase(n - 1);
      if n == 99 {
        FirstBounce();
      } else {
        RisingPhase(n);
      }
    }
  }

  lemma IdleScenario()
    ensures IdleRun(98).ball.y == 589 && IdleRun(98).ball.vy == 3
    ensures IdleRun(99).ball.y == 592 && IdleRun(99).ball.vy == -3
  {
    IdleRunIsBallAlone(98);
    IdleRunIsBallAlone(99);
    FirstBounce();
  }

  class Controller {
    var ball: Ball
    const paddle1: Paddle
    const paddle2: Paddle

    function State(): GameState
      reads this, ball, paddle1, paddle2
    {
      GameState(ball.State(), paddle1.State(), paddle2.State())
    }

    ghost predicate Valid()
      reads this, ball, paddle1, paddle2
    {
      paddle1 != paddle2 && Inv(State())
    }

    constructor ()
      ensures Valid() && State() == NewGame
    {
      ball := new Ball();
      paddle1 := new Paddle(1);
      paddle2 := new Paddle(2);
    }

    method Update(keys: Keys)
      requires Valid()
      modifies this, ball, paddle1, paddle2
      ensures Valid() && State() == Tick(old(State()), keys)
      ensures ball == old(ball) || fresh(ball)
    {
      ghost var s := State();
      TickPreservesInv(s, keys);
      paddle1.Update(keys);
      paddle2.Update(keys);
      ball.Update();

      if ball.Position().0 - ball.Radius() <= paddle1.Position().0 + PaddleWidth
        && ball.Position().1 >= paddle1.Position().1
        && ball.Position().1 <= paddle1.Position().1 + PaddleHeight
      {
        ball.SetVelocityX(Abs(ball.Velocity().0));
      }

      if ball.Position().0 + ball.Radius() >= paddle2.Position().0
        && ball.Position().1 >= paddle2.Position().1
        && ball.Position().1 <= paddle2.Position().1 + PaddleHeight
      {
        ball.SetVelocityX(-Abs(ball.Velocity().0));
      }

      if ball.Position().0 < 0 || ball.Position().0 > WindowWidth {
        ball := new Ball();
      }
    }
  }
}
