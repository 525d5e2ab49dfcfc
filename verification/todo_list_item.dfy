/** One todo entry: its text, its place in the list, and two flags flipped
    by its buttons — done (toggled by the main button) and to-remove (set by
    the delete button). */
module TodoListItem {
  import opened Common

  datatype ItemState = ItemState(id: int, pos: Vec2, text: string, done: bool, toRemove: bool)

  /** The clicks an item's two buttons received this frame. */
  datatype ItemClick = ItemClick(main: bool, delete: bool)

  const NoClick: ItemClick := ItemClick(false, false)

  /** `ListItem::new`. */
  function Fresh(text: string, id: int): ItemState {
    ItemState(id, Origin, text, false, false)
  }

  /** The effect of `draw` on the item's flags. */
  function Clicked(s: ItemState, c: ItemClick): (r: ItemState)
    ensures r.id == s.id && r.pos == s.pos && r.text == s.text
    // the main button toggles done, whatever the delete button does
    ensures r.done == (if c.main then !s.done else s.done)
    // the delete button sets to-remove, whatever the main button does
    ensures r.toRemove == (s.toRemove || c.delete)
  {
    var s1 := if c.main then s.(done := !s.done) else s;
    if c.delete then s1.(toRemove := true) else s1
  }

  /** Two main-button clicks restore done; nothing ever clears to-remove. */
  lemma ClickFacts(s: ItemState, c1: ItemClick, c2: ItemClick)
    ensures Clicked(Clicked(s, ItemClick(true, false)), ItemClick(true, false)) == s
    ensures s.toRemove ==> Clicked(s, c1).toRemove && Clicked(Clicked(s, c1), c2).toRemove
  {
  }

  const DoneMark: string := "\U{2705} |  "
  const OpenMark: string := "\U{2B1C} |  "

  /** The main button's caption. */
  function Label(done: bool, text: string): (r: string)
    ensures |r| == |text| + 5 && r[5..] == text
  {
    (if done then DoneMark else OpenMark) + text
  }

  /** The caption shows the text and the state: both can be read back. */
  lemma LabelReadsBack(done: bool, text: string)
    ensures Label(done, text)[5..] == text
    ensures (Label(done, text)[0] == '\U{2705}') == done
    ensures Label(done, text)[1..5] == " |  "
  {
  }

  /** Layout of `update`: centred under the top edge, each row 7% of the
      screen height below the previous one. */
  function LayoutPos(screenW: real, screenH: real, id: int): Vec2 {
    Vec2(screenW / 2.0, 0.0 + screenH * 0.07 * (id as real + 1.5))
  }

  /** Rows are stacked downwards in id order on any screen of positive height. */
  lemma LayoutIncreasing(screenW: real, screenH: real, id1: int, id2: int)
    requires screenH > 0.0 && id1 < id2
    ensures LayoutPos(screenW, screenH, id1).y < LayoutPos(screenW, screenH, id2).y
    ensures LayoutPos(screenW, screenH, id1).x == LayoutPos(screenW, screenH, id2).x
  {
    var d := (id2 - id1) as real;
    assert LayoutPos(screenW, screenH, id2).y - LayoutPos(screenW, screenH, id1).y == screenH * 0.07 * d;
    assert d >= 1.0;
    assert screenH * 0.07 * d >= screenH * 0.07;
  }

  class ListItem {
    var id: int
    var pos: Vec2
    const text: string
    var done: bool
    var toRemove: bool

    function State(): ItemState
      reads this
    {
      ItemState(id, pos, text, done, toRemove)
    }

    constructor (text: string, id: int)
      ensures State() == Fresh(text, id)
    {
      this.id := id;
      pos := Origin;
      this.text := text;
      done := false;
      toRemove := false;
    }

    /** `set_id` changes only the id. */
    method SetId(id: int)
      modifies this`id
      ensures State() == old(State()).(id := id)
    {
      this.id := id;
    }

    method Update(screenW: real, screenH: real)
      modifies this`pos
      ensures State() == old(State()).(pos := LayoutPos(screenW, screenH, id))
    {
      var x := screenW / 2.0;
      var y := 0.0 + screenH * 0.07 * (id as real + 1.5);
      pos := Vec2(x, y);
    }

    /** The clickable part of `draw`: returns the main button's caption and
        applies this frame's clicks. */
    method Draw(c: ItemClick) returns (caption: string)
      modifies this`done, this`toRemove
      ensures caption == Label(old(done), text)
      ensures State() == Clicked(old(State()), c)
    {
      caption := if done then DoneMark + text else OpenMark + text;
      if c.main {
        done := !done;
      }
      if c.delete {
        toRemove := true;
      }
    }
  }
}
