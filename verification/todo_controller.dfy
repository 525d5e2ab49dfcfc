/** The todo app's controller: the list, plus the two-mode add-item dialog.
    In browsing mode an "Add Item" button shows; clicking it opens the input
    mode, where a text field and a "Done" button show. "Done" adds the typed
    text when it is not blank and always returns to browsing mode. */
module TodoController {
  import opened Common
  import opened TodoListItem
  import opened TodoList

  /** Unicode White_Space, the set Rust's `str::trim` strips. */
  predicate IsWhitespace(c: char) {
    ('\U{9}' <= c <= '\U{D}') || c == ' ' || c == '\U{85}' || c == '\U{A0}'
    || c == '\U{1680}' || ('\U{2000}' <= c <= '\U{200A}') || c == '\U{2028}' || c == '\U{2029}'
    || c == '\U{202F}' || c == '\U{205F}' || c == '\U{3000}'
  }

  /** Where the leading whitespace run starting at `i` ends. */
  function LeadEnd(s: string, i: nat): (r: nat)
    requires i <= |s|
    ensures i <= r <= |s|
    ensures forall k :: i <= k < r ==> IsWhitespace(s[k])
    ensures r < |s| ==> !IsWhitespace(s[r])
    decreases |s| - i
  {
    if i == |s| || !IsWhitespace(s[i]) then i else LeadEnd(s, i + 1)
  }

  /** Where the trailing whitespace run ending at `j` starts, not going
      below `lo`. */
  function TrailStart(s: string, lo: nat, j: nat): (r: nat)
    requires lo <= j <= |s|
    ensures lo <= r <= j
    ensures forall k :: r <= k < j ==> IsWhitespace(s[k])
    ensures r > lo ==> !IsWhitespace(s[r - 1])
    decreases j
  {
    if j == lo || !IsWhitespace(s[j - 1]) then j else TrailStart(s, lo, j - 1)
  }

  /** `str::trim`: the text without its leading and trailing whitespace. */
  function Trim(s: string): (r: string)
    ensures |r| <= |s|
  {
    var i := LeadEnd(s, 0);
    s[i..TrailStart(s, i, |s|)]
  }

  /** Trimming leaves a contiguous piece of the text that neither starts nor
      ends with whitespace, and everything cut away was whitespace. */
  lemma TrimIsSlice(s: string)
    ensures exists i, j :: 0 <= i <= j <= |s| && Trim(s) == s[i..j]
              && (forall k :: 0 <= k < i ==> IsWhitespace(s[k]))
              && (forall k :: j <= k < |s| ==> IsWhitespace(s[k]))
    ensures Trim(s) != [] ==> !IsWhitespace(Trim(s)[0]) && !IsWhitespace(Trim(s)[|Trim(s)| - 1])
  {
    var i := LeadEnd(s, 0);
    var j := TrailStart(s, i, |s|);
    assert Trim(s) == s[i..j];
  }

  /** The text is blank exactly when every character is whitespace. */
  lemma TrimEmptyIff(s: string)
    ensures Trim(s) == [] <==> forall k :: 0 <= k < |s| ==> IsWhitespace(s[k])
  {
    var i := LeadEnd(s, 0);
    var j := TrailStart(s, i, |s|);
    assert |Trim(s)| == j - i;
  }

  /** The dialog's own state. */
  datatype Dialog = Dialog(addingItem: bool, newItemText: string)

  const Closed: Dialog := Dialog(false, [])

  /** What the dialog hands to the list this frame: the untrimmed text, when
      "Done" was clicked in input mode and the text is not blank. */
  function Submitted(d: Dialog, typed: string, doneClicked: bool): Option<string> {
    if d.addingItem && doneClicked && Trim(typed) != [] then Some(typed) else None
  }

  /** The dialog after a frame. In browsing mode only the "Add Item" click
      matters; in input mode the field holds what was typed, and "Done"
      clears it and closes the dialog. */
  function NextDialog(d: Dialog, addClicked: bool, typed: string, doneClicked: bool): Dialog {
    if !d.addingItem then d.(addingItem := addClicked)
    else if doneClicked then Closed
    else Dialog(true, typed)
  }

  /** The mode machine: "Add Item" opens the dialog, "Done" always closes and
      clears it, and nothing else changes the mode. */
  lemma DialogModes(d: Dialog, addClicked: bool, typed: string, doneClicked: bool)
    ensures !d.addingItem ==> NextDialog(d, addClicked, typed, doneClicked).addingItem == addClicked
    ensures !d.addingItem ==> Submitted(d, typed, doneClicked) == None
    ensures d.addingItem && doneClicked ==> NextDialog(d, addClicked, typed, doneClicked) == Closed
    ensures d.addingItem && !doneClicked ==>
              NextDialog(d, addClicked, typed, doneClicked) == Dialog(true, typed)
              && Submitted(d, typed, doneClicked) == None
  {
  }

  /** "Done" submits exactly the non-blank texts, untrimmed. */
  lemma DoneSubmitsNonBlank(text: string, typed: string)
    ensures (Submitted(Dialog(true, text), typed, true).Some?
             <==> exists k :: 0 <= k < |typed| && !IsWhitespace(typed[k]))
    ensures Submitted(Dialog(true, text), typed, true).Some? ==>
              Submitted(Dialog(true, text), typed, true).value == typed
  {
    TrimEmptyIff(typed);
  }

  /** The list after a submission: one add, or none. */
  function AfterSubmit(items: seq<ItemState>, sub: Option<string>): seq<ItemState> {
    if sub.Some? then Added(items, sub.value) else items
  }

  /** Opening the dialog, typing "milk" and clicking "Done" adds one item
      "milk" to an empty list and closes the dialog. */
  lemma AddMilkScenario()
    ensures NextDialog(Closed, true, [], false) == Dialog(true, [])
    ensures Submitted(Dialog(true, []), "milk", true) == Some("milk")
    ensures AfterSubmit([], Submitted(Dialog(true, []), "milk", true)) == [Fresh("milk", 0)]
    ensures NextDialog(Dialog(true, []), false, "milk", true) == Closed
  {
    assert !IsWhitespace('m');
    assert Trim("milk") == "milk";
    CapacityIsTwelve();
  }

  /** A blank entry adds nothing. */
  lemma BlankScenario(d: Dialog)
    requires d.addingItem
    ensures Submitted(d, "  \t ", true) == None
    ensures NextDialog(d, false, "  \t ", true) == Closed
  {
    TrimEmptyIff("  \t ");
  }

  class Controller {
    const todoList: TodoList
    var addingItem: bool
    var newItemText: string

    ghost predicate Valid()
      reads this, todoList, todoList.todos
    {
      todoList.Valid()
    }

    function DialogState(): Dialog
      reads this
    {
      Dialog(addingItem, newItemText)
    }

    /** The input field shows in input mode, the "Add Item" button otherwise. */
    function ShowsInputField(): (r: bool)
      reads this
      ensures r <==> DialogState().addingItem
    {
      addingItem
    }

    constructor ()
      ensures Valid() && fresh(todoList) && todoList.Items() == []
      ensures todoList.name.text == "Todo List:"
      ensures DialogState() == Closed
    {
      todoList := new TodoList("Todo List:");
      addingItem := false;
      newItemText := [];
    }

    /** Delegates to the list, so its capacity bound applies. */
    method Add(text: string)
      requires Valid()
      modifies todoList
      ensures Valid()
      ensures todoList.Items() == Added(old(todoList.Items()), text)
      ensures forall x :: x in old(todoList.todos) ==> x in todoList.todos
    {
      todoList.Add(text);
    }

    /** The input mode: the text field edits the pending text, and "Done"
        submits it when it is not blank, then clears it and closes the dialog. */
    method DisplayAddOption(typed: string, doneClicked: bool)
      requires Valid() && addingItem
      modifies this, todoList
      ensures Valid()
      ensures DialogState() == NextDialog(old(DialogState()), false, typed, doneClicked)
      ensures todoList.Items() == AfterSubmit(old(todoList.Items()), Submitted(old(DialogState()), typed, doneClicked))
    {
      newItemText := typed;
      if doneClicked {
        if Trim(newItemText) != [] {
          Add(newItemText);
        }
        newItemText := [];
        addingItem := false;
      }
    }

    /** The browsing mode: "Add Item" opens the dialog. */
    method DisplayAddButton(addClicked: bool)
      requires !addingItem
      modifies this`addingItem
      ensures DialogState() == NextDialog(old(DialogState()), addClicked, [], false)
    {
      if addClicked {
        addingItem := true;
      }
    }

    /** The list's layout pass. */
    method Update(screenW: real, screenH: real)
      requires Valid()
      modifies todoList, (set x | x in todoList.todos), todoList.name
      ensures Valid()
      ensures todoList.Items() == LaidOut(Sweep(old(todoList.Items())), screenW, screenH)
    {
      todoList.Update(screenW, screenH);
    }

    /** A frame's drawing: the list handles its items' clicks first, then the
        dialog handles its own inputs in its current mode. */
    method Draw(clicks: seq<ItemClick>, addClicked: bool, typed: string, doneClicked: bool)
      returns (captions: seq<string>)
      requires Valid()
      modifies this, todoList, set x | x in todoList.todos
      ensures Valid()
      ensures |captions| == |old(todoList.Items())|
      ensures forall k :: 0 <= k < |captions| ==>
                captions[k] == Label(old(todoList.Items())[k].done, old(todoList.Items())[k].text)
      ensures DialogState() == NextDialog(old(DialogState()), addClicked, typed, doneClicked)
      ensures todoList.Items() ==
                AfterSubmit(Clicks(old(todoList.Items()), clicks), Submitted(old(DialogState()), typed, doneClicked))
    {
      captions := todoList.Draw(clicks);
      if addingItem {
        DisplayAddOption(typed, doneClicked);
      } else {
        DisplayAddButton(addClicked);
      }
    }
  }
}
