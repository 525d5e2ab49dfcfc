/** The generic egui helpers: a text label, a rectangle kept as its top-left
    corner and size, a scene of objects, the nine key anchor points of the
    screen, and percentages of the screen size. The screen size, which the
    source reads from the egui context, is a parameter here. */
module EguiUtils {
  import opened Common

  class TextLabel {
    const text: string
    var position: Vec2

    constructor (text: string, position: Vec2)
      ensures this.text == text && this.position == position
    {
      this.text := text;
      this.position := position;
    }

    /** The text the label was built with; no operation rewrites it. */
    method GetText() returns (r: string)
      ensures r == text
    {
      r := text;
    }

    method SetPosition(newPosition: Vec2)
      modifies this`position
      ensures position == newPosition
    {
      position := newPosition;
    }
  }

  /** The size a rectangle stores for two corners. */
  function SizeBetween(topLeft: Vec2, bottomRight: Vec2): Vec2 {
    Vec2(bottomRight.x - topLeft.x, bottomRight.y - topLeft.y)
  }

  /** The bottom-right corner `draw` rebuilds from a corner and a size. */
  function CornerOf(topLeft: Vec2, size: Vec2): Vec2 {
    Vec2(topLeft.x + size.x, topLeft.y + size.y)
  }

  /** Corners and sizes convert into each other without loss, both ways. */
  lemma CornerSizeRoundTrip(topLeft: Vec2, bottomRight: Vec2, size: Vec2)
    ensures CornerOf(topLeft, SizeBetween(topLeft, bottomRight)) == bottomRight
    ensures SizeBetween(topLeft, CornerOf(topLeft, size)) == size
  {
  }

  /** egui's `Rect`, by its minimum and maximum corners. */
  datatype Rect = Rect(min: Vec2, max: Vec2)

  /** `Rect::from_two_pos`: the box spanned by two points, whichever way round. */
  function FromTwoPos(a: Vec2, b: Vec2): (r: Rect)
    ensures r.min.x <= r.max.x && r.min.y <= r.max.y
    ensures {r.min.x, r.max.x} == {a.x, b.x} && {r.min.y, r.max.y} == {a.y, b.y}
  {
    Rect(Vec2(if a.x <= b.x then a.x else b.x, if a.y <= b.y then a.y else b.y),
         Vec2(if a.x <= b.x then b.x else a.x, if a.y <= b.y then b.y else a.y))
  }

  class Rectangle {
    var topLeft: Vec2
    const width: real
    const height: real
    const color: Color32

    function BottomRight(): Vec2
      reads this
    {
      CornerOf(topLeft, Vec2(width, height))
    }

    /** The size is taken from the two corners, and `draw` rebuilds the
        bottom-right corner passed in. */
    constructor (topLeft: Vec2, bottomRight: Vec2, color: Color32)
      ensures this.topLeft == topLeft && this.color == color
      ensures width == bottomRight.x - topLeft.x && height == bottomRight.y - topLeft.y
      ensures BottomRight() == bottomRight
    {
      this.topLeft := topLeft;
      var size := SizeBetween(topLeft, bottomRight);
      width := size.x;
      height := size.y;
      this.color := color;
      CornerSizeRoundTrip(topLeft, bottomRight, size);
    }

    method GetWidth() returns (r: real)
      ensures r == BottomRight().x - topLeft.x
    {
      r := width;
    }

    method GetHeight() returns (r: real)
      ensures r == BottomRight().y - topLeft.y
    {
      r := height;
    }

    /** Moves the rectangle: the size is kept, so the far corner moves by
        the same displacement. */
    method SetPosition(position: Vec2)
      modifies this`topLeft
      ensures topLeft == position
      ensures BottomRight() == Vec2(old(BottomRight()).x + (position.x - old(topLeft).x),
                                    old(BottomRight()).y + (position.y - old(topLeft).y))
    {
      topLeft := position;
    }

    /** The box `draw` fills; for a rectangle built from a top-left and a
        bottom-right corner it is exactly the one spanned by them. */
    method Draw() returns (rect: Rect)
      ensures rect == FromTwoPos(topLeft, BottomRight())
      ensures width >= 0.0 && height >= 0.0 ==> rect == Rect(topLeft, BottomRight())
    {
      var bottomRight := Vec2(topLeft.x + width, topLeft.y + height);
      rect := FromTwoPos(topLeft, bottomRight);
    }
  }

  /** The generic scene: objects of any kind, each updated by `step` (its own
      `update` with this frame's context). */
  class Scene<T> {
    var objects: seq<T>

    constructor ()
      ensures objects == []
    {
      objects := [];
    }

    method Add(obj: T)
      modifies this
      ensures objects == old(objects) + [obj]
    {
      objects := objects + [obj];
    }

    /** `Vec::remove` panics on an index past the end. */
    method Remove(index: nat)
      requires index < |objects|
      modifies this
      ensures |objects| == old(|objects|) - 1
      ensures objects == old(objects[..index]) + old(objects[index + 1..])
    {
      objects := objects[..index] + objects[index + 1..];
    }

    method Len() returns (n: nat)
      ensures n == |objects|
    {
      n := |objects|;
    }

    method Update(step: T -> T)
      modifies this
      ensures |objects| == |old(objects)|
      ensures forall k :: 0 <= k < |objects| ==> objects[k] == step(old(objects)[k])
    {
      var i := 0;
      while i < |objects|
        invariant 0 <= i <= |objects| == |old(objects)|
        invariant forall k :: 0 <= k < i ==> objects[k] == step(old(objects)[k])
        invariant forall k :: i <= k < |objects| ==> objects[k] == old(objects)[k]
      {
        objects := objects[i := step(objects[i])];
        i := i + 1;
      }
    }

    /** Every object draws itself once, in insertion order, without
        changing; `draw` gives what an object paints. */
    method Draw<D>(draw: T -> D) returns (painted: seq<D>)
      ensures |painted| == |objects|
      ensures forall k :: 0 <= k < |painted| ==> painted[k] == draw(objects[k])
    {
      painted := [];
      var i := 0;
      while i < |objects|
        invariant 0 <= i <= |objects| && |painted| == i
        invariant forall k :: 0 <= k < i ==> painted[k] == draw(objects[k])
      {
        painted := painted + [draw(objects[i])];
        i := i + 1;
      }
    }
  }

  /** Removing what was just added gives the scene back. */
  lemma AddThenRemove<T>(objects: seq<T>, obj: T)
    ensures var s := objects + [obj]; s[..|objects|] + s[|objects| + 1..] == objects
  {
    var s := objects + [obj];
    assert s[..|objects|] == objects;
  }

  /** `KeyCoords`: the corners, edge midpoints and centre of a w-by-h screen. */
  datatype Anchor =
    | TopLeftPos | TopRightPos | BottomLeftPos | BottomRightPos
    | MiddleLeftPos | MiddlePos | MiddleRightPos | TopCenterPos | BottomCenterPos

  function KeyCoord(a: Anchor, w: real, h: real): (p: Vec2)
    ensures 0.0 <= w && 0.0 <= h ==> 0.0 <= p.x <= w && 0.0 <= p.y <= h
  {
    match a
    case TopLeftPos => Vec2(0.0, 0.0)
    case TopRightPos => Vec2(w, 0.0)
    case BottomLeftPos => Vec2(0.0, h)
    case BottomRightPos => Vec2(w, h)
    case MiddleLeftPos => Vec2(0.0, h / 2.0)
    case MiddlePos => Vec2(w / 2.0, h / 2.0)
    case MiddleRightPos => Vec2(w, h / 2.0)
    case TopCenterPos => Vec2(w / 2.0, 0.0)
    case BottomCenterPos => Vec2(w / 2.0, h)
  }

  function Midpoint(p: Vec2, q: Vec2): Vec2 {
    Vec2((p.x + q.x) / 2.0, (p.y + q.y) / 2.0)
  }

  /** The anchors are laid out symmetrically: the centre is the midpoint of
      every pair of opposite anchors, and each edge midpoint halves its edge. */
  lemma KeyCoordsSymmetric(w: real, h: real)
    ensures KeyCoord(MiddlePos, w, h) == Midpoint(KeyCoord(TopLeftPos, w, h), KeyCoord(BottomRightPos, w, h))
    ensures KeyCoord(MiddlePos, w, h) == Midpoint(KeyCoord(TopRightPos, w, h), KeyCoord(BottomLeftPos, w, h))
    ensures KeyCoord(MiddlePos, w, h) == Midpoint(KeyCoord(MiddleLeftPos, w, h), KeyCoord(MiddleRightPos, w, h))
    ensures KeyCoord(MiddlePos, w, h) == Midpoint(KeyCoord(TopCenterPos, w, h), KeyCoord(BottomCenterPos, w, h))
    ensures KeyCoord(TopCenterPos, w, h) == Midpoint(KeyCoord(TopLeftPos, w, h), KeyCoord(TopRightPos, w, h))
    ensures KeyCoord(BottomCenterPos, w, h) == Midpoint(KeyCoord(BottomLeftPos, w, h), KeyCoord(BottomRightPos, w, h))
    ensures KeyCoord(MiddleLeftPos, w, h) == Midpoint(KeyCoord(TopLeftPos, w, h), KeyCoord(BottomLeftPos, w, h))
    ensures KeyCoord(MiddleRightPos, w, h) == Midpoint(KeyCoord(TopRightPos, w, h), KeyCoord(BottomRightPos, w, h))
  {
  }

  /** `HelperFunctions::get_percentage_of_screen_width` and `_height`: the
      screen's width, or its height, times the percentage. */
  function PercentageOf(extent: real, percentage: real): (r: real)
    ensures 0.0 <= extent && 0.0 <= percentage <= 1.0 ==> 0.0 <= r <= extent
    ensures percentage == 1.0 ==> r == extent
    ensures percentage == 0.0 ==> r == 0.0
  {
    extent * percentage
  }
}
