/** The macroquad demo's square: moved by the arrow keys at its speed, then
    clamped so that it stays on the 600 by 600 screen. */
module Square {
  import opened Common

  const ScreenWidth: real := 600.0
  const ScreenHeight: real := 600.0

  /** The colours the control panel's buttons choose from. */
  datatype Palette = Red | Green | Blue

  datatype ArrowKeys = ArrowKeys(left: bool, right: bool, up: bool, down: bool)

  datatype SquareState = SquareState(pos: Vec2, size: real, color: Palette, speed: real)

  const Start: SquareState := SquareState(Vec2(ScreenWidth / 2.0, ScreenHeight / 2.0), 50.0, Red, 5.0)

  /** The slider ranges of the control panel: size 10 to 100, speed 1 to 20. */
  ghost predicate InSliderRange(s: SquareState) {
    10.0 <= s.size <= 100.0 && 1.0 <= s.speed <= 20.0
  }

  /** The square lies wholly on the screen. */
  ghost predicate OnScreen(s: SquareState) {
    0.0 <= s.pos.x <= ScreenWidth - s.size && 0.0 <= s.pos.y <= ScreenHeight - s.size
  }

  /** The key moves, in the source's order: left, right, up, down. */
  function Moved(p: Vec2, speed: real, k: ArrowKeys): Vec2 {
    var x1 := if k.left then p.x - speed else p.x;
    var x2 := if k.right then x1 + speed else x1;
    var y1 := if k.up then p.y - speed else p.y;
    var y2 := if k.down then y1 + speed else y1;
    Vec2(x2, y2)
  }

  /** `Square::update`. `f32::clamp` panics when the bound is below zero,
      so the square may be at most as large as the screen. */
  function Step(s: SquareState, k: ArrowKeys): (r: SquareState)
    requires s.size <= ScreenWidth && s.size <= ScreenHeight
    ensures OnScreen(r)
    ensures r.size == s.size && r.color == s.color && r.speed == s.speed
  {
    var m := Moved(s.pos, s.speed, k);
    s.(pos := Vec2(Clamp(m.x, 0.0, ScreenWidth - s.size), Clamp(m.y, 0.0, ScreenHeight - s.size)))
  }

  lemma StartFacts()
    ensures Start.pos == Vec2(300.0, 300.0) && InSliderRange(Start) && OnScreen(Start)
  {
  }

  /** Opposite keys cancel: holding both is the same as holding neither. */
  lemma OppositeKeysCancel(s: SquareState, k: ArrowKeys)
    requires s.size <= ScreenWidth && s.size <= ScreenHeight
    ensures Step(s, k.(left := true, right := true)) == Step(s, k.(left := false, right := false))
    ensures Step(s, k.(up := true, down := true)) == Step(s, k.(up := false, down := false))
  {
  }

  /** Away from the edges, one held key moves the square by exactly its
      speed in that direction. */
  lemma SingleKeyMovesBySpeed(s: SquareState)
    requires s.size <= ScreenWidth && s.size <= ScreenHeight && 0.0 <= s.speed
    requires s.speed <= s.pos.x <= ScreenWidth - s.size - s.speed
    requires s.speed <= s.pos.y <= ScreenHeight - s.size - s.speed
    ensures Step(s, ArrowKeys(true, false, false, false)).pos == Vec2(s.pos.x - s.speed, s.pos.y)
    ensures Step(s, ArrowKeys(false, true, false, false)).pos == Vec2(s.pos.x + s.speed, s.pos.y)
    ensures Step(s, ArrowKeys(false, false, true, false)).pos == Vec2(s.pos.x, s.pos.y - s.speed)
    ensures Step(s, ArrowKeys(false, false, false, true)).pos == Vec2(s.pos.x, s.pos.y + s.speed)
  {
  }

  /** With no key held, a square on the screen stays where it is. */
  lemma IdleStays(s: SquareState)
    requires s.size <= ScreenWidth && s.size <= ScreenHeight && OnScreen(s)
    ensures Step(s, ArrowKeys(false, false, false, false)) == s
  {
  }

  /** The slider's size range keeps the clamp's bounds sound. */
  lemma SliderRangeSuffices(s: SquareState)
    requires InSliderRange(s)
    ensures s.size <= ScreenWidth && s.size <= ScreenHeight
    ensures ScreenWidth - s.size >= 500.0
  {
  }

  class Square {
    var position: Vec2
    var size: real
    var color: Palette
    var speed: real

    function State(): SquareState
      reads this
    {
      SquareState(position, size, color, speed)
    }

    constructor ()
      ensures State() == Start
    {
      position := Vec2(ScreenWidth / 2.0, ScreenHeight / 2.0);
      size := 50.0;
      color := Red;
      speed := 5.0;
    }

    /** One frame: the key moves, then each axis clamped to the screen. */
    method Update(k: ArrowKeys)
      requires size <= ScreenWidth && size <= ScreenHeight
      modifies this`position
      ensures State() == Step(old(State()), k)
    {
      if k.left {
        position := position.(x := position.x - speed);
      }
      if k.right {
        position := position.(x := position.x + speed);
      }
      if k.up {
        position := position.(y := position.y - speed);
      }
      if k.down {
        position := position.(y := position.y + speed);
      }
      var maxX := ScreenWidth - size;
      var maxY := ScreenHeight - size;
      position := position.(x := Clamp(position.x, 0.0, maxX));
      position := position.(y := Clamp(position.y, 0.0, maxY));
    }
  }
}
