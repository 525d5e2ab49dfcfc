/** A Pong paddle: a top-left corner and a side id (1 = left, 2 = right)
    that chooses which two keys move it, in steps of PaddleSpeed, clamped to
    the board after every step. */
module PongPaddle {
  import opened PongConstants

  /** The four keys the paddles poll each frame (held = true). */
  datatype Keys = Keys(w: bool, s: bool, arrowUp: bool, arrowDown: bool)

  const NoKeys: Keys := Keys(false, false, false, false)

  datatype PaddleState = PaddleState(x: int, y: int, id: int)

  predicate ValidId(id: int) { id == 1 || id == 2 }

  /** The paddle's top edge lies on the board. */
  predicate InRange(p: PaddleState) { 0 <= p.y <= PaddleMaxY }

  /** Where `Paddle::new(id)` places the paddle. */
  function Initial(id: int): (p: PaddleState)
    requires ValidId(id)
    ensures p.id == id && InRange(p)
    ensures id == 1 ==> p.x == 20 && p.y == 250
    ensures id == 2 ==> p.x == 580 && p.y == 250
  {
    if id == 1 then PaddleState(Paddle1X, Paddle1Y, id) else PaddleState(Paddle2X, Paddle2Y, id)
  }

  function Clamp(v: int, lo: int, hi: int): int
    requires lo <= hi
  {
    if v < lo then lo else if hi < v then hi else v
  }

  /** `move_paddle(dy)`: shift, then clamp to [0, PaddleMaxY]. */
  function Moved(p: PaddleState, dy: int): (r: PaddleState)
    ensures InRange(r) && r.x == p.x && r.id == p.id
    ensures 0 <= p.y + dy <= PaddleMaxY ==> r.y == p.y + dy
    ensures p.y + dy < 0 ==> r.y == 0
    ensures PaddleMaxY < p.y + dy ==> r.y == PaddleMaxY
  {
    p.(y := Clamp(p.y + dy, 0, PaddleMaxY))
  }

  /** The up move, then the down move, as the key states ask. */
  function Keyed(p: PaddleState, up: bool, down: bool): PaddleState {
    var p1 := if up then Moved(p, -PaddleSpeed) else p;
    if down then Moved(p1, PaddleSpeed) else p1
  }

  /** One `Paddle::update`: paddle 1 polls W/S, paddle 2 the arrow keys. */
  function Step(p: PaddleState, keys: Keys): PaddleState {
    if p.id == 1 then Keyed(p, keys.w, keys.s)
    else if p.id == 2 then Keyed(p, keys.arrowUp, keys.arrowDown)
    else p
  }

  /** `update` never moves the paddle sideways nor changes its id, and it
      keeps (or, once a key is held, puts) the paddle on the board. */
  lemma StepInRange(p: PaddleState, keys: Keys)
    requires InRange(p)
    ensures InRange(Step(p, keys))
    ensures Step(p, keys).x == p.x && Step(p, keys).id == p.id
  {
  }

  /** Paddle 1 ignores the arrow keys; paddle 2 ignores W and S. */
  lemma KeyBindings(p: PaddleState, k1: Keys, k2: Keys)
    ensures p.id == 1 && k1.w == k2.w && k1.s == k2.s ==> Step(p, k1) == Step(p, k2)
    ensures p.id == 2 && k1.arrowUp == k2.arrowUp && k1.arrowDown == k2.arrowDown ==> Step(p, k1) == Step(p, k2)
    ensures p.id == 1 && !k1.w && !k1.s ==> Step(p, k1) == p
    ensures p.id == 2 && !k1.arrowUp && !k1.arrowDown ==> Step(p, k1) == p
  {
  }

  /** Both keys of a paddle held: up then down, with a clamp after each,
      ends at max(y, 5): 0 goes to 5, 500 stays, the interior nets zero. */
  lemma BothKeysHeld(p: PaddleState)
    requires InRange(p)
    ensures Keyed(p, true, true).y == if p.y < PaddleSpeed then PaddleSpeed else p.y
  {
  }

  /** n ticks of paddle 1 with only S held. */
  function HoldDown(p: PaddleState, n: nat): PaddleState {
    if n == 0 then p else Step(HoldDown(p, n - 1), NoKeys.(s := true))
  }

  lemma {:induction false} HoldDownReaches(p: PaddleState, n: nat)
    requires p.id == 1 && InRange(p)
    ensures HoldDown(p, n).id == 1 && HoldDown(p, n).x == p.x
    ensures HoldDown(p, n).y == if p.y + PaddleSpeed * n < PaddleMaxY then p.y + PaddleSpeed * n else PaddleMaxY
  {
    if n > 0 {
      HoldDownReaches(p, n - 1);
    }
  }

  /** From the start, holding S for 10 ticks gives y = 300, for 60 ticks the floor 500. */
  lemma HoldDownScenario()
    ensures HoldDown(Initial(1), 10).y == 300
    ensures HoldDown(Initial(1), 60).y == 500
  {
    HoldDownReaches(Initial(1), 10);
    HoldDownReaches(Initial(1), 60);
  }

  class Paddle {
    var x: int
    var y: int
    const id: int

    function State(): PaddleState
      reads this
    {
      PaddleState(x, y, id)
    }

    /** `Paddle::new` panics on an id other than 1 or 2. */
    constructor (id: int)
      requires ValidId(id)
      ensures State() == Initial(id)
    {
      this.id := id;
      if id == 1 {
        x, y := Paddle1X, Paddle1Y;
      } else {
        x, y := Paddle2X, Paddle2Y;
      }
    }

    method Update(keys: Keys)
      modifies this
      ensures State() == Step(old(State()), keys)
    {
      if id == 1 {
        if keys.w { MovePaddle(-PaddleSpeed); }
        if keys.s { MovePaddle(PaddleSpeed); }
      } else if id == 2 {
        if keys.arrowUp { MovePaddle(-PaddleSpeed); }
        if keys.arrowDown { MovePaddle(PaddleSpeed); }
      }
    }

    method MovePaddle(dy: int)
      modifies this
      ensures State() == Moved(old(State()), dy)
    {
      y := Clamp(y + dy, 0, PaddleMaxY);
    }

    function Position(): (p: (int, int)) reads this { (x, y) }
  }
}
