/** nannou's `Rect` as the music visualizer uses it: a centre and a size,
    with the y axis pointing up, so the top edge is above the centre.
    Containment includes the edges. */
module NannouRect {
  import opened Common

  datatype Rect = Rect(x: real, y: real, w: real, h: real)
  {
    function Left(): real { x - w / 2.0 }
    function Right(): real { x + w / 2.0 }
    function Top(): real { y + h / 2.0 }
    function Bottom(): real { y - h / 2.0 }

    predicate Contains(p: Vec2) {
      Left() <= p.x <= Right() && Bottom() <= p.y <= Top()
    }
  }

  /** `Rect::from_x_y_w_h`: the centre and size are stored as given, so the
      width is the distance between the edges. */
  function FromXYWH(x: real, y: real, w: real, h: real): (r: Rect)
    ensures r.Right() - r.Left() == w && r.Top() - r.Bottom() == h
    ensures (r.Left() + r.Right()) / 2.0 == x && (r.Top() + r.Bottom()) / 2.0 == y
  {
    Rect(x, y, w, h)
  }
}
