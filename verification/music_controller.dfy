/** The visualizer's controller: it splits the window into the view on the
    left and a 200-wide menu on the right, and each frame passes the menu's
    play state to the song and the song's to the view. */
module MusicController {
  import opened Common
  import opened NannouRect
  import opened MusicSong
  import opened MusicView
  import opened MusicMenu

  const MenuWidth: real := 200.0

  function MenuRect(win: Rect): Rect {
    FromXYWH(win.Right() - MenuWidth / 2.0, win.y, MenuWidth, win.h)
  }

  function ViewRect(win: Rect): Rect {
    FromXYWH(win.Left() + (win.w - MenuWidth) / 2.0, win.y, win.w - MenuWidth, win.h)
  }

  /** The divider line `view` draws between the two parts. */
  function Divider(win: Rect): (Vec2, Vec2) {
    (Vec2(win.Right() - 200.0, win.Top()), Vec2(win.Right() - 200.0, win.Bottom()))
  }

  /** The two parts tile the window: the menu is 200 wide against the right
      edge, the view fills the rest from the left edge, they meet where the
      divider is drawn, and both span the window's full height. */
  lemma LayoutTiles(win: Rect)
    ensures MenuRect(win).Right() == win.Right() && MenuRect(win).Right() - MenuRect(win).Left() == 200.0
    ensures ViewRect(win).Left() == win.Left() && ViewRect(win).Right() - ViewRect(win).Left() == win.w - 200.0
    ensures ViewRect(win).Right() == MenuRect(win).Left() == Divider(win).0.x == Divider(win).1.x
    ensures MenuRect(win).Top() == ViewRect(win).Top() == win.Top() == Divider(win).0.y
    ensures MenuRect(win).Bottom() == ViewRect(win).Bottom() == win.Bottom() == Divider(win).1.y
    ensures MenuRect(win).y == ViewRect(win).y == win.y
  {
  }

  class Controller {
    const view: View
    const menu: Menu
    const song: Song
    const windowRect: Rect

    ghost predicate Valid()
      reads this, song
    {
      song.Valid()
    }

    /** The source builds the song with a `Song::new` that the song module
        does not define; the empty song stands in for it. */
    constructor (win: Rect, fileNames: seq<string>, audioOf: string -> Option<seq<real>>)
      ensures Valid() && windowRect == win
      ensures view.viewRect == ViewRect(win) && !view.isPlaying
      ensures menu.menuRect == MenuRect(win) && !menu.isPlaying && !menu.wasMousePressed
      ensures song.State() == Playback(false, false) && song.title == []
      ensures fresh(view) && fresh(menu) && fresh(song)
    {
      view := new View(ViewRect(win));
      menu := new Menu(MenuRect(win), fileNames, audioOf);
      song := new Song.Empty();
      windowRect := win;
    }

    /** Menu first, then the song with the menu's state, then the view with
        the song's: after a frame all three agree. */
    method Update(mouse: Vec2, pressed: bool, streamBuilt: bool)
      requires Valid()
      modifies menu`isPlaying, menu`wasMousePressed, song, view`isPlaying
      ensures Valid()
      ensures menu.isPlaying == Toggled(old(menu.isPlaying), old(menu.wasMousePressed), pressed, menu.buttons, mouse)
      ensures menu.wasMousePressed == pressed
      ensures song.State() == Updated(old(song.State()), menu.isPlaying, streamBuilt)
      ensures view.isPlaying == song.isPlaying == menu.isPlaying
    {
      menu.Update(mouse, pressed);
      song.Update(menu.IsPlaying(), streamBuilt);
      view.Update(song.IsPlaying());
    }
  }

  /** Two frames of a fresh click followed by holding the button on the
      play button start playback once and keep it. */
  lemma ClickThenHold(buttons: seq<MenuButton>, mouse: Vec2, p: Playback, streamBuilt: bool)
    requires FirstHit(buttons, mouse) == Some(0) && p == Playback(false, false)
    ensures var on := Toggled(false, false, true, buttons, mouse);
            on && Toggled(on, true, true, buttons, mouse)
            && Updated(Updated(p, on, streamBuilt), on, streamBuilt) == Playback(true, streamBuilt)
  {
  }
}
