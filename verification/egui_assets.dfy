/** The todo app's drawing helpers: a sized text label and a scene, an
    ordered list of objects that are updated and drawn in insertion order. */
module EguiAssets {
  import opened Common

  class TextLabel {
    const text: string
    var position: Vec2
    const size: real

    /** `TextLabel::new_with_size` stores its arguments unchanged. */
    constructor NewWithSize(text: string, position: Vec2, size: real)
      ensures this.text == text && this.position == position && this.size == size
    {
      this.text := text;
      this.position := position;
      this.size := size;
    }

    /** Only the position changes (text and size are never written). */
    method SetPosition(newPosition: Vec2)
      modifies this`position
      ensures position == newPosition
    {
      position := newPosition;
    }
  }

  /** The scene's objects, of whatever kind, updated by `step` (the
      object's own `update` with this frame's context) and drawn by `draw`
      (its own `draw` with this frame's UI). */
  class Scene<T> {
    var objects: seq<T>

    constructor ()
      ensures objects == []
    {
      objects := [];
    }

    method Add(obj: T)
      modifies this
      ensures objects == old(objects) + [obj]
    {
      objects := objects + [obj];
    }

    /** Every object is updated exactly once, in place and in order. */
    method Update(step: T -> T)
      modifies this
      ensures |objects| == |old(objects)|
      ensures forall k :: 0 <= k < |objects| ==> objects[k] == step(old(objects)[k])
    {
      var i := 0;
      while i < |objects|
        invariant 0 <= i <= |objects| == |old(objects)|
        invariant forall k :: 0 <= k < i ==> objects[k] == step(old(objects)[k])
        invariant forall k :: i <= k < |objects| ==> objects[k] == old(objects)[k]
      {
        objects := objects[i := step(objects[i])];
        i := i + 1;
      }
    }

    /** `draw` borrows each object mutably: every object draws itself once,
        in insertion order, and may change while doing so (the todo
        controller handles its clicks and its add dialog there). `draw`
        gives the object after drawing and what it painted. */
    method Draw<D>(draw: T -> (T, D)) returns (painted: seq<D>)
      modifies this
      ensures |objects| == |old(objects)| == |painted|
      ensures forall k :: 0 <= k < |objects| ==>
                objects[k] == draw(old(objects)[k]).0 && painted[k] == draw(old(objects)[k]).1
    {
      painted := [];
      var i := 0;
      while i < |objects|
        invariant 0 <= i <= |objects| == |old(objects)| && |painted| == i
        invariant forall k :: 0 <= k < i ==>
                    objects[k] == draw(old(objects)[k]).0 && painted[k] == draw(old(objects)[k]).1
        invariant forall k :: i <= k < |objects| ==> objects[k] == old(objects)[k]
      {
        var (next, out) := draw(objects[i]);
        objects := objects[i := next];
        painted := painted + [out];
        i := i + 1;
      }
    }
  }
}
