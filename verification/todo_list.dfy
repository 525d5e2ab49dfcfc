/** The todo list: a titled, capacity-bounded list of items. `update` sweeps
    out the items marked for removal, renumbers the survivors so that ids
    equal indices, and lays them out. */
module TodoList {
  import opened Common
  import opened EguiAssets
  import opened TodoListItem

  /** The app's window height and list-item button height. */
  const WindowHeight: real := 800.0
  const ButtonHeight: real := 40.0

  /** How many items fit: (WINDOW_HEIGHT / (BUTTON_SIZE.y * 1.65)) as i32. */
  const Capacity: int := (WindowHeight / (ButtonHeight * 1.65)).Floor

  lemma CapacityIsTwelve()
    ensures Capacity == 12
  {
    var q := WindowHeight / (ButtonHeight * 1.65);
    assert ButtonHeight * 1.65 == 66.0;
    assert 12.0 <= q < 13.0;
  }

  /** The items the retain keeps, in their order. */
  function Kept(s: seq<ItemState>): (r: seq<ItemState>)
    ensures |r| <= |s|
    ensures forall k :: 0 <= k < |r| ==> !r[k].toRemove && r[k] in s
  {
    if s == [] then []
    else Kept(s[..|s| - 1]) + (if s[|s| - 1].toRemove then [] else [s[|s| - 1]])
  }

  /** The retain distributes over concatenation: it keeps each unmarked
      item, drops each marked one, and never reorders. */
  lemma {:induction false} KeptConcat(a: seq<ItemState>, b: seq<ItemState>)
    ensures Kept(a + b) == Kept(a) + Kept(b)
    decreases |b|
  {
    if b == [] {
      assert a + b == a;
    } else {
      var b' := b[..|b| - 1];
      assert (a + b)[..|a + b| - 1] == a + b';
      KeptConcat(a, b');
    }
  }

  lemma KeptSingle(x: ItemState)
    ensures Kept([x]) == if x.toRemove then [] else [x]
  {
    assert [x][..0] == [];
  }

  /** An item survives iff it is not marked. */
  lemma {:induction false} KeptMembers(s: seq<ItemState>, x: ItemState)
    ensures x in Kept(s) <==> x in s && !x.toRemove
  {
    if s != [] {
      KeptMembers(s[..|s| - 1], x);
      assert s == s[..|s| - 1] + [s[|s| - 1]];
    }
  }

  /** Nothing marked, nothing removed. */
  lemma {:induction false} KeptNothingMarked(s: seq<ItemState>)
    requires forall k :: 0 <= k < |s| ==> !s[k].toRemove
    ensures Kept(s) == s
  {
    if s != [] {
      KeptNothingMarked(s[..|s| - 1]);
    }
  }

  function Renumbered(s: seq<ItemState>): (r: seq<ItemState>)
    ensures |r| == |s|
    ensures forall k :: 0 <= k < |r| ==> r[k] == s[k].(id := k)
  {
    seq(|s|, k requires 0 <= k < |s| => s[k].(id := k))
  }

  /** Retain, then renumber. */
  function Sweep(s: seq<ItemState>): seq<ItemState> {
    Renumbered(Kept(s))
  }

  predicate IdsAreIndices(s: seq<ItemState>) {
    forall k :: 0 <= k < |s| ==> s[k].id == k
  }

  /** After a sweep ids equal indices and nothing is marked, so a second
      sweep changes nothing. */
  lemma SweepFacts(s: seq<ItemState>)
    ensures IdsAreIndices(Sweep(s))
    ensures forall k :: 0 <= k < |Sweep(s)| ==> !Sweep(s)[k].toRemove
    ensures Sweep(Sweep(s)) == Sweep(s)
  {
    var t := Sweep(s);
    KeptNothingMarked(t);
  }

  /** `add`: a fresh item numbered by the current length while there is
      room; a full list is left as it is. */
  function Added(s: seq<ItemState>, text: string): seq<ItemState> {
    if |s| < Capacity then s + [Fresh(text, |s|)] else s
  }

  /** An add keeps the bound and ids equal to indices, extends the list by
      exactly the new item when there is room, and otherwise changes nothing. */
  lemma AddedFacts(s: seq<ItemState>, text: string)
    requires |s| <= Capacity && IdsAreIndices(s)
    ensures |Added(s, text)| <= Capacity && IdsAreIndices(Added(s, text))
    ensures |s| < Capacity ==>
              |Added(s, text)| == |s| + 1 && Added(s, text)[..|s|] == s
              && Added(s, text)[|s|] == ItemState(|s|, Origin, text, false, false)
    ensures |s| == Capacity ==> Added(s, text) == s
  {
    if |s| < Capacity {
      assert Added(s, text)[..|s|] == s;
    }
  }

  /** `update`'s layout pass over the swept items. */
  function LaidOut(s: seq<ItemState>, screenW: real, screenH: real): (r: seq<ItemState>)
    ensures |r| == |s|
    ensures forall k :: 0 <= k < |r| ==> r[k] == s[k].(pos := LayoutPos(screenW, screenH, s[k].id))
  {
    seq(|s|, k requires 0 <= k < |s| => s[k].(pos := LayoutPos(screenW, screenH, s[k].id)))
  }

  /** Laying out moves items but keeps their ids. */
  lemma LaidOutKeepsIds(s: seq<ItemState>, screenW: real, screenH: real)
    requires IdsAreIndices(s)
    ensures IdsAreIndices(LaidOut(s, screenW, screenH))
  {
    var r := LaidOut(s, screenW, screenH);
    forall k | 0 <= k < |r|
      ensures r[k].id == k
    {
      assert r[k] == s[k].(pos := LayoutPos(screenW, screenH, s[k].id));
    }
  }

  function ClickAt(clicks: seq<ItemClick>, k: nat): ItemClick {
    if k < |clicks| then clicks[k] else NoClick
  }

  /** `draw`'s effect on the items: each handles its own buttons' clicks. */
  function Clicks(s: seq<ItemState>, clicks: seq<ItemClick>): (r: seq<ItemState>)
    ensures |r| == |s|
    ensures forall k :: 0 <= k < |r| ==> r[k] == Clicked(s[k], ClickAt(clicks, k))
  {
    seq(|s|, k requires 0 <= k < |s| => Clicked(s[k], ClickAt(clicks, k)))
  }

  /** Handling clicks never renumbers. */
  lemma ClicksKeepIds(s: seq<ItemState>, clicks: seq<ItemClick>)
    requires IdsAreIndices(s)
    ensures IdsAreIndices(Clicks(s, clicks))
  {
    var r := Clicks(s, clicks);
    forall k | 0 <= k < |r|
      ensures r[k].id == k
    {
      assert r[k] == Clicked(s[k], ClickAt(clicks, k));
    }
  }

  function Snapshot(items: seq<ListItem>): (r: seq<ItemState>)
    reads items
    ensures |r| == |items| && forall k :: 0 <= k < |r| ==> r[k] == items[k].State()
  {
    seq(|items|, k requires 0 <= k < |items| reads items => items[k].State())
  }

  /** The object-level retain: the items not marked, in order. */
  function KeptItems(items: seq<ListItem>): (r: seq<ListItem>)
    reads items
    ensures forall x :: x in r ==> x in items
  {
    if items == [] then []
    else KeptItems(items[..|items| - 1]) + (if items[|items| - 1].toRemove then [] else [items[|items| - 1]])
  }

  ghost predicate Distinct(items: seq<ListItem>) {
    forall i, j :: 0 <= i < j < |items| ==> items[i] != items[j]
  }

  lemma {:induction false} KeptItemsFacts(items: seq<ListItem>)
    requires Distinct(items)
    ensures Distinct(KeptItems(items))
    ensures Snapshot(KeptItems(items)) == Kept(Snapshot(items))
  {
    if items != [] {
      var init := items[..|items| - 1];
      var last := items[|items| - 1];
      KeptItemsFacts(init);
      assert Snapshot(items)[..|items| - 1] == Snapshot(init);
      assert last !in init;
    }
  }

  lemma KeptItemsSnoc(items: seq<ListItem>, i: nat)
    requires i < |items|
    ensures KeptItems(items[..i + 1]) == KeptItems(items[..i]) + (if items[i].toRemove then [] else [items[i]])
  {
    assert items[..i + 1][..i] == items[..i];
  }

  class TodoList {
    var todos: seq<ListItem>
    const name: TextLabel

    ghost predicate Valid()
      reads this, todos
    {
      Distinct(todos) && |todos| <= Capacity && IdsAreIndices(Items())
    }

    function Items(): seq<ItemState>
      reads this, todos
    {
      Snapshot(todos)
    }

    constructor (title: string)
      ensures Valid() && Items() == [] && fresh(name)
      ensures name.text == title && name.position == Origin && name.size == 24.0
    {
      todos := [];
      name := new TextLabel.NewWithSize(title, Origin, 24.0);
    }

    /** Appends a fresh item numbered by the old length while there is room;
        a full list is left as it is. */
    method Add(text: string)
      requires Valid()
      modifies this
      ensures Valid()
      ensures Items() == Added(old(Items()), text)
      ensures old(|todos|) < Capacity ==>
                |todos| == old(|todos|) + 1 && todos[..|todos| - 1] == old(todos) && fresh(todos[|todos| - 1])
      ensures old(|todos|) >= Capacity ==> todos == old(todos)
    {
      if |todos| < Capacity {
        var id := |todos|;
        var item := new ListItem(text, id);
        todos := todos + [item];
        assert todos[..|todos| - 1] == old(todos);
      }
    }

    /** Sweep, renumber, place the title, lay out the items. */
    method Update(screenW: real, screenH: real)
      requires Valid()
      modifies this, (set x | x in todos), name
      ensures Valid()
      ensures Items() == LaidOut(Sweep(old(Items())), screenW, screenH)
      ensures forall x :: x in todos ==> x in old(todos)
      ensures name.position == Vec2(screenW / 2.0, 0.0 + screenH * 0.05)
    {
      ghost var before := Items();
      SweepItems();
      ghost var swept := Items();
      PlaceTitle(screenW, screenH);
      assert Items() == swept;
      LayOut(screenW, screenH);
      assert IdsAreIndices(Items()) by {
        SweepFacts(before);
        LaidOutKeepsIds(swept, screenW, screenH);
      }
    }

    /** The retain followed by the renumbering loop. */
    method SweepItems()
      requires Distinct(todos)
      modifies this, set x | x in todos
      ensures Distinct(todos) && |todos| <= old(|todos|)
      ensures Items() == Sweep(old(Items()))
      ensures forall x :: x in todos ==> x in old(todos)
    {
      Retain();
      Renumber();
    }

    /** The title sits centred, 5% of the screen height from the top. */
    method PlaceTitle(screenW: real, screenH: real)
      modifies name
      ensures name.position == Vec2(screenW / 2.0, 0.0 + screenH * 0.05)
    {
      var pos := Vec2(screenW / 2.0, 0.0);
      pos := pos.(y := pos.y + screenH * 0.05);
      name.SetPosition(pos);
    }

    /** `todos.retain(|item| !item.to_remove)`. */
    method Retain()
      requires Distinct(todos)
      modifies this
      ensures Distinct(todos) && Items() == Kept(old(Items()))
      ensures |todos| <= old(|todos|)
      ensures forall x :: x in todos ==> x in old(todos)
    {
      var kept: seq<ListItem> := [];
      var i := 0;
      while i < |todos|
        invariant 0 <= i <= |todos|
        invariant kept == KeptItems(todos[..i])
      {
        assert KeptItems(todos[..i + 1]) == kept + (if todos[i].toRemove then [] else [todos[i]]) by {
          KeptItemsSnoc(todos, i);
        }
        if !todos[i].toRemove {
          kept := kept + [todos[i]];
        }
        i := i + 1;
      }
      assert todos[..i] == todos;
      KeptItemsFacts(todos);
      todos := kept;
    }

    /** The renumbering loop: item k gets id k. */
    method Renumber()
      requires Distinct(todos)
      modifies set x | x in todos
      ensures Items() == Renumbered(old(Items()))
    {
      ghost var before := Items();
      var i := 0;
      while i < |todos|
        invariant 0 <= i <= |todos|
        invariant forall k :: 0 <= k < |todos| ==>
                    (todos[k].State() == if k < i then before[k].(id := k) else before[k])
      {
        todos[i].SetId(i);
        i := i + 1;
      }
    }

    /** Each item's own `update`, in list order. */
    method LayOut(screenW: real, screenH: real)
      requires Distinct(todos)
      modifies set x | x in todos
      ensures Items() == LaidOut(old(Items()), screenW, screenH)
    {
      ghost var before := Items();
      var i := 0;
      while i < |todos|
        invariant 0 <= i <= |todos|
        invariant forall k :: 0 <= k < |todos| ==>
                    (todos[k].State() == if k < i then before[k].(pos := LayoutPos(screenW, screenH, before[k].id)) else before[k])
      {
        todos[i].Update(screenW, screenH);
        i := i + 1;
      }
    }

    /** The clickable part of `draw`: each item handles its own clicks and
        yields its caption, in list order. */
    method Draw(clicks: seq<ItemClick>) returns (captions: seq<string>)
      requires Valid()
      modifies set x | x in todos
      ensures Valid()
      ensures |captions| == |todos| == |old(Items())|
      ensures forall k :: 0 <= k < |todos| ==>
                captions[k] == Label(old(Items())[k].done, old(Items())[k].text)
      ensures Items() == Clicks(old(Items()), clicks)
    {
      ghost var before := Items();
      captions := [];
      var i := 0;
      while i < |todos|
        invariant 0 <= i <= |todos| && |captions| == i
        invariant forall k :: 0 <= k < |todos| ==>
                    (todos[k].State() == if k < i then Clicked(before[k], ClickAt(clicks, k)) else before[k])
        invariant forall k :: 0 <= k < i ==> captions[k] == Label(before[k].done, before[k].text)
      {
        var c := todos[i].Draw(ClickAt(clicks, i));
        captions := captions + [c];
        i := i + 1;
      }
      assert Items() == Clicks(before, clicks);
      ClicksKeepIds(before, clicks);
    }
  }
}
