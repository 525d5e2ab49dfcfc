/** The Pong ball: moves by its velocity each tick and reflects its vertical
    velocity off the top and bottom walls. Horizontal exits are the
    controller's business. */
module PongBall {
  import opened PongConstants

  datatype BallState = BallState(x: int, y: int, vx: int, vy: int, radius: int)

  /** What `Ball::new` builds. */
  const Start: BallState := BallState(BallStartX, BallStartY, BallSpeed, BallSpeed, BallRadius)

  function Abs(v: int): int { if v < 0 then -v else v }

  /** The wall test of `update`, on the already moved centre. */
  predicate HitsWall(y: int, radius: int) {
    y - radius <= 0 || y + radius >= WindowHeight
  }

  /** One `Ball::update`. */
  function Step(b: BallState): (r: BallState)
    // the velocity is added to the position exactly once
    ensures r.x == b.x + b.vx && r.y == b.y + b.vy
    // only the vertical velocity can change, and only its sign
    ensures r.vx == b.vx && r.radius == b.radius && Abs(r.vy) == Abs(b.vy)
    ensures HitsWall(r.y, r.radius) ==> r.vy == -b.vy
    ensures !HitsWall(r.y, r.radius) ==> r.vy == b.vy
  {
    var moved := b.(x := b.x + b.vx, y := b.y + b.vy);
    if HitsWall(moved.y, moved.radius) then moved.(vy := -moved.vy) else moved
  }

  /** n ball updates with nothing else interfering. */
  function Ticks(b: BallState, n: nat): BallState {
    if n == 0 then b else Step(Ticks(b, n - 1))
  }

  /** From the start the ball climbs (in screen y) diagonally for 98 ticks. */
  lemma {:induction false} RisingPhase(n: nat)
    requires n <= 98
    ensures Ticks(Start, n) == BallState(295 + 3 * n, 295 + 3 * n, 3, 3, 10)
  {
    if n > 0 {
      RisingPhase(n - 1);
    }
  }

  /** The first reflection happens on tick 99, at y = 592, after which y
      decreases. Note that y + radius = 602 there: the wall is detected only
      after the ball has already crossed it, so the ball's edge is not kept
      within [0, WindowHeight]. */
  lemma FirstBounce()
    ensures Ticks(Start, 98).y == 589 && Ticks(Start, 98).vy == 3
    ensures Ticks(Start, 99).y == 592 && Ticks(Start, 99).vy == -3
    ensures Ticks(Start, 99).y + Ticks(Start, 99).radius > WindowHeight
    ensures Ticks(Start, 100).y == 589 && Ticks(Start, 100).vy == -3
  {
    RisingPhase(98);
  }

  class Ball {
    var x: int
    var y: int
    var vx: int
    var vy: int
    var radius: int

    function State(): BallState
      reads this
    {
      BallState(x, y, vx, vy, radius)
    }

    constructor ()
      ensures State() == Start
    {
      x, y := BallStartX, BallStartY;
      vx, vy := BallSpeed, BallSpeed;
      radius := BallRadius;
    }

    method Update()
      modifies this
      ensures State() == Step(old(State()))
    {
      x, y := x + vx, y + vy;
      if y - radius <= 0 || y + radius >= WindowHeight {
        vy := -vy;
      }
    }

    /** The getters the controller reads. */
    function Position(): (p: (int, int)) reads this { (x, y) }
    function Velocity(): (v: (int, int)) reads this { (vx, vy) }
    function Radius(): int reads this { radius }

    method SetVelocityX(v: int)
      modifies this
      ensures State() == old(State()).(vx := v)
    {
      vx := v;
    }
  }
}
