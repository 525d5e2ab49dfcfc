/** The visualizer's control panel: a play/pause button that toggles on a
    fresh click, and the song library whose titles it lists until a song
    is selected. */
module MusicMenu {
  import opened Common
  import opened NannouRect
  import opened MusicSong
  import opened MusicLibrary

  datatype MenuButton = MenuButton(title: string, tag: string, rect: Rect)

  /** The play button: centred on the panel horizontally, 80% of its width,
      50 high, its centre 30% of the panel height above the panel's centre. */
  function PlayButton(menuRect: Rect): MenuButton {
    MenuButton("PLAY", "play_button",
               FromXYWH(menuRect.x, menuRect.y + menuRect.h * 0.3, menuRect.w * 0.8, 50.0))
  }

  lemma PlayButtonLayout(menuRect: Rect)
    ensures var r := PlayButton(menuRect).rect;
            (r.Left() + r.Right()) / 2.0 == menuRect.x
            && r.Right() - r.Left() == 0.8 * menuRect.w
            && r.Top() - r.Bottom() == 50.0
            && (r.Top() + r.Bottom()) / 2.0 == menuRect.y + 0.3 * menuRect.h
  {
  }

  /** The first button under the mouse, if any. */
  function FirstHit(buttons: seq<MenuButton>, mouse: Vec2): (r: Option<nat>)
    ensures r.Some? ==> r.value < |buttons| && buttons[r.value].rect.Contains(mouse)
                        && forall k :: 0 <= k < r.value ==> !buttons[k].rect.Contains(mouse)
    ensures r.None? ==> forall k :: 0 <= k < |buttons| ==> !buttons[k].rect.Contains(mouse)
  {
    FirstWhere(buttons, (b: MenuButton) => b.rect.Contains(mouse))
  }

  /** The first button with the given tag, if any. */
  function FirstTagged(buttons: seq<MenuButton>, tag: string): (r: Option<nat>)
    ensures r.Some? ==> r.value < |buttons| && buttons[r.value].tag == tag
                        && forall k :: 0 <= k < r.value ==> buttons[k].tag != tag
    ensures r.None? ==> forall k :: 0 <= k < |buttons| ==> buttons[k].tag != tag
  {
    FirstWhere(buttons, (b: MenuButton) => b.tag == tag)
  }

  /** A click is a press that was not already held last frame; it toggles
      playback when the first button under the mouse is the play button. */
  function Toggled(isPlaying: bool, wasPressed: bool, pressed: bool, buttons: seq<MenuButton>, mouse: Vec2): bool {
    if pressed && !wasPressed && FirstHit(buttons, mouse) == Some(0) then !isPlaying else isPlaying
  }

  /** Only a fresh press on the play button toggles: holding the button,
      releasing it, or pressing anywhere else changes nothing. */
  lemma ToggleOnlyOnRisingEdge(isPlaying: bool, wasPressed: bool, pressed: bool, buttons: seq<MenuButton>, mouse: Vec2)
    ensures (Toggled(isPlaying, wasPressed, pressed, buttons, mouse) != isPlaying)
            <==> (pressed && !wasPressed && FirstHit(buttons, mouse) == Some(0))
    ensures FirstHit(buttons, mouse).None? ==> Toggled(isPlaying, wasPressed, pressed, buttons, mouse) == isPlaying
  {
  }

  /** A press held across two frames toggles at most once, wherever the
      mouse moves meanwhile. */
  lemma HeldPressTogglesOnce(isPlaying: bool, wasPressed: bool, buttons: seq<MenuButton>, m1: Vec2, m2: Vec2)
    ensures var p1 := Toggled(isPlaying, wasPressed, true, buttons, m1);
            Toggled(p1, true, true, buttons, m2) == p1
  {
  }

  /** Song titles are listed downwards from the panel's top, 150 below it
      and then 100 apart. */
  function SongLabelY(top: real, index: nat): real {
    top - (150.0 + 100.0 * index as real)
  }

  lemma SongLabelsDescend(top: real, i: nat, j: nat)
    requires i < j
    ensures SongLabelY(top, j) <= SongLabelY(top, i) - 100.0
    ensures SongLabelY(top, 0) == top - 150.0
  {
    assert (j - i) as real >= 1.0;
    assert SongLabelY(top, i) - SongLabelY(top, j) == 100.0 * (j - i) as real;
  }

  /** The play button's caption offers the action the click would take. */
  function PlayButtonCaption(isPlaying: bool): (s: string)
    ensures s == "PAUSE" <==> isPlaying
    ensures s == "PLAY" <==> !isPlaying
  {
    if isPlaying then "PAUSE" else "PLAY"
  }

  /** nannou's named colours the play button is filled with. */
  datatype ButtonColor = Green | Red

  function PlayButtonColor(isPlaying: bool): (c: ButtonColor)
    ensures c == Green <==> isPlaying
    ensures c == Red <==> !isPlaying
  {
    if isPlaying then Green else Red
  }

  /** Playing and paused always look different, in colour and in caption. */
  lemma PlayButtonDistinguishable()
    ensures PlayButtonCaption(true) != PlayButtonCaption(false)
    ensures PlayButtonColor(true) != PlayButtonColor(false)
  {
  }

  class Menu {
    var isPlaying: bool
    const menuRect: Rect
    const buttons: seq<MenuButton>
    var wasMousePressed: bool
    const library: Library

    /** `Menu::new`: not playing, no press seen, just the play button, and a
        fresh library with nothing selected. */
    constructor (menuRect: Rect, fileNames: seq<string>, audioOf: string -> Option<seq<real>>)
      ensures !isPlaying && !wasMousePressed && this.menuRect == menuRect
      ensures buttons == [PlayButton(menuRect)]
      ensures fresh(library) && fresh(library.selected) && library.Valid()
      ensures !library.HasSelectedSong()
      ensures |library.songs| == |fileNames|
      ensures GetButton("play_button") == Some(PlayButton(menuRect))
    {
      isPlaying := false;
      library := new Library(fileNames, audioOf);
      this.menuRect := menuRect;
      buttons := [PlayButton(menuRect)];
      wasMousePressed := false;
    }

    /** One frame of input: a fresh press handles at most one button, the
        first one under the mouse, and the current press is remembered. */
    method Update(mouse: Vec2, pressed: bool)
      modifies this`isPlaying, this`wasMousePressed
      ensures isPlaying == Toggled(old(isPlaying), old(wasMousePressed), pressed, buttons, mouse)
      ensures wasMousePressed == pressed
    {
      if pressed && !wasMousePressed {
        var i := 0;
        while i < |buttons|
          invariant 0 <= i <= |buttons|
          invariant forall k :: 0 <= k < i ==> !buttons[k].rect.Contains(mouse)
          invariant isPlaying == old(isPlaying)
        {
          if buttons[i].rect.Contains(mouse) {
            assert FirstHit(buttons, mouse) == Some(i);
            if i == 0 {
              isPlaying := !isPlaying;
            }
            break;
          }
          i := i + 1;
        }
      }
      wasMousePressed := pressed;
    }

    /** `get_button`: the first button with the tag. */
    function GetButton(tag: string): (r: Option<MenuButton>)
      reads this
      ensures r.Some? <==> exists k :: 0 <= k < |buttons| && buttons[k].tag == tag
      ensures r.Some? ==> r.value.tag == tag && r.value in buttons
    {
      match FirstTagged(buttons, tag)
      case Some(i) => Some(buttons[i])
      case None => None
    }

    function IsPlaying(): (r: bool)
      reads this
      ensures r == isPlaying
    {
      isPlaying
    }

    /** `draw` shows the playback controls once a song is selected, and the
        song list before that. */
    function ShowsPlaybackControls(): (r: bool)
      reads this, library
      ensures r <==> library.selected.title != []
    {
      library.HasSelectedSong()
    }

    /** What `draw_playback_controls` paints: the play button's rectangle,
        found by its tag (the source unwraps the lookup), filled in the
        state's colour and captioned with the state's action, under the
        "CONTROLS" title 30 below the panel's top. */
    method DrawPlaybackControls() returns (rect: Rect, color: ButtonColor, caption: string, title: string, titleAt: Vec2)
      requires GetButton("play_button").Some?
      ensures rect == GetButton("play_button").value.rect
      ensures color == PlayButtonColor(isPlaying) && caption == PlayButtonCaption(isPlaying)
      ensures title == "CONTROLS" && titleAt == Vec2(menuRect.x, menuRect.Top() - 30.0)
    {
      color := if isPlaying then Green else Red;
      var playButton := GetButton("play_button");
      rect := playButton.value.rect;
      caption := if isPlaying then "PAUSE" else "PLAY";
      title := "CONTROLS";
      titleAt := Vec2(menuRect.x, menuRect.Top() - 30.0);
    }

    /** Where `draw` puts the song titles: one per library song, in order,
        each 100 below the previous. */
    function SongLabelPositions(): (r: seq<Vec2>)
      reads this, library
      ensures |r| == |library.songs|
      ensures forall i, j :: 0 <= i < j < |r| ==> r[j].y <= r[i].y - 100.0 && r[i].x == r[j].x == menuRect.x
    {
      var names := library.SongNames();
      var ps := seq(|names|, i requires 0 <= i < |names| => Vec2(menuRect.x, SongLabelY(menuRect.Top(), i)));
      assert forall i, j :: 0 <= i < j < |ps| ==> ps[j].y <= ps[i].y - 100.0 by {
        forall i, j | 0 <= i < j < |ps|
          ensures ps[j].y <= ps[i].y - 100.0
        {
          SongLabelsDescend(menuRect.Top(), i, j);
        }
      }
      ps
    }
  }
}
