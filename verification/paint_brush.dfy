/** The paint brush: follows the mouse, and records strokes into the screen's
    history while the left button is pressed or held. */
module PaintBrush {
  import opened Common
  import opened PaintScreen

  /** macroquad's three left-button queries for the current frame. */
  datatype MouseButton = MouseButton(pressed: bool, down: bool, released: bool)

  /** The strokes one `update` appends: an unconnected one on a new press,
      then a connected one while drawing (or just starting) with the button
      down, both at the mouse position in the given size and colour. */
  function Appended(drawing: bool, m: MouseButton, pos: Vec2, size: real, color: Color32): (r: seq<Stroke>)
    ensures |r| <= 2
    ensures forall k :: 0 <= k < |r| ==> r[k].pos == pos && r[k].size == size && r[k].color == color
    // every press records an unconnected stroke first
    ensures m.pressed ==> |r| >= 1 && r[0] == Stroke(pos, size, color, false)
    // a press while the button is down: unconnected then connected
    ensures m.pressed && m.down ==> r == [Stroke(pos, size, color, false), Stroke(pos, size, color, true)]
    // already drawing, held, no new press: exactly one connected stroke
    ensures drawing && m.down && !m.pressed ==> r == [Stroke(pos, size, color, true)]
    // the button up: at most the press's unconnected stroke
    ensures !m.down ==> r == (if m.pressed then [Stroke(pos, size, color, false)] else [])
    // neither drawing nor pressed: nothing recorded
    ensures !drawing && !m.pressed ==> r == []
    // a connected stroke is only recorded with the button down
    ensures forall k :: 0 <= k < |r| && r[k].connected ==> m.down
  {
    (if m.pressed then [Stroke(pos, size, color, false)] else [])
    + (if (drawing || m.pressed) && m.down then [Stroke(pos, size, color, true)] else [])
  }

  /** The drawing flag after one `update`. */
  function NextDrawing(drawing: bool, m: MouseButton): (r: bool)
    ensures m.released ==> !r
    ensures !m.released ==> (r <==> drawing || m.pressed)
  {
    var d := drawing || m.pressed;
    if m.released then false else d
  }

  class Brush {
    var color: Color32
    var size: real
    var pos: Vec2
    var drawing: bool

    constructor ()
      ensures color == Black && size == 10.0 && pos == Origin && !drawing
    {
      color := Black;
      size := 10.0;
      pos := Origin;
      drawing := false;
    }

    method Update(screen: Screen, mousePos: Vec2, color: Color32, size: real, m: MouseButton)
      modifies this, screen
      ensures this.pos == mousePos && this.color == color && this.size == size
      ensures drawing == NextDrawing(old(drawing), m)
      ensures screen.history == old(screen.history) + Appended(old(drawing), m, mousePos, size, color)
      ensures screen.lastWasConnected ==
                if Appended(old(drawing), m, mousePos, size, color) == [] then old(screen.lastWasConnected)
                else (old(drawing) || m.pressed) && m.down
    {
      this.pos := mousePos;
      this.color := color;
      this.size := size;

      if m.pressed {
        drawing := true;
        screen.AddStroke(mousePos, this.size, this.color, false);
      }

      if drawing && m.down {
        screen.AddStroke(mousePos, this.size, this.color, true);
      }

      if m.released {
        drawing := false;
      }
    }
  }
}
