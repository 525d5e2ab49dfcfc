/** The paint controller: each frame it takes the settings window's values,
    lets the brush record strokes while the left button is down, then clears
    the canvas if the Clear button was clicked. */
module PaintController {
  import opened Common
  import opened PaintScreen
  import opened PaintBrush

  /** What the settings window holds after its frame. */
  datatype Settings = Settings(brushSize: real, brushColor: Color32, isClear: bool)

  /** `Settings::new`. */
  const DefaultSettings: Settings := Settings(10.0, Black, false)

  /** The history after one controller frame, from the one before. */
  function NextHistory(h: seq<Stroke>, drawing: bool, ui: Settings, m: MouseButton, mousePos: Vec2): (r: seq<Stroke>)
    // a Clear click empties the history, including this frame's strokes
    ensures ui.isClear ==> r == []
    // with the button up nothing is recorded
    ensures !ui.isClear && !m.down ==> r == h
    // otherwise the history only grows, with strokes in the window's size and colour
    ensures !ui.isClear ==> |h| <= |r| && r[..|h|] == h
    ensures !ui.isClear ==> forall k :: |h| <= k < |r| ==> r[k].size == ui.brushSize && r[k].color == ui.brushColor && r[k].pos == mousePos
  {
    var h1 := if m.down then h + Appended(drawing, m, mousePos, ui.brushSize, ui.brushColor) else h;
    if ui.isClear then [] else h1
  }

  /** The screen's `last_was_connected` after one controller frame: a Clear
      click resets it; otherwise a frame that records strokes leaves it set
      (the last stroke recorded is always a connected one), and any other
      frame keeps it. */
  function NextLastConnected(last: bool, drawing: bool, ui: Settings, m: MouseButton): (r: bool)
    ensures ui.isClear ==> !r
    ensures !ui.isClear && (!m.down || !(drawing || m.pressed)) ==> r == last
    ensures !ui.isClear && m.down && (drawing || m.pressed) ==> r
  {
    if ui.isClear then false
    else if m.down && (drawing || m.pressed) then true
    else last
  }

  /** The flag agrees with the history: when the frame recorded strokes and
      did not clear, it says whether the newest stroke is connected. */
  lemma NextLastConnectedAgrees(h: seq<Stroke>, last: bool, drawing: bool, ui: Settings, m: MouseButton, pos: Vec2)
    ensures var r := NextHistory(h, drawing, ui, m, pos);
            |r| > |h| ==> NextLastConnected(last, drawing, ui, m) == r[|r| - 1].connected
  {
  }

  class Controller {
    const brush: Brush
    const screen: Screen
    var settings: Settings

    constructor ()
      ensures fresh(brush) && fresh(screen)
      ensures brush.color == Black && brush.size == 10.0 && brush.pos == Origin && !brush.drawing
      ensures screen.history == [] && !screen.lastWasConnected
      ensures settings == DefaultSettings
    {
      brush := new Brush();
      screen := new Screen();
      settings := DefaultSettings;
    }

    /** One frame: `ui` is the settings window's result, `m` and `mousePos`
        the left button and the cursor. */
    method Update(ui: Settings, m: MouseButton, mousePos: Vec2)
      modifies this, brush, screen
      ensures settings == ui
      ensures screen.history == NextHistory(old(screen.history), old(brush.drawing), ui, m, mousePos)
      ensures screen.lastWasConnected == NextLastConnected(old(screen.lastWasConnected), old(brush.drawing), ui, m)
      ensures !m.down ==> brush.drawing == old(brush.drawing) && brush.pos == old(brush.pos)
                          && brush.color == old(brush.color) && brush.size == old(brush.size)
      ensures m.down ==> brush.drawing == NextDrawing(old(brush.drawing), m) && brush.pos == mousePos
                         && brush.color == ui.brushColor && brush.size == ui.brushSize
    {
      settings := ui;

      if m.down {
        brush.Update(screen, mousePos, settings.brushColor, settings.brushSize, m);
      }

      if settings.isClear {
        screen.Clear();
      }
    }

    /** `draw` only replays the history; it changes nothing. */
    method Draw(stepsOf: StepCount) returns (stamps: seq<Stamp>)
      ensures stamps == Plan(screen.history, |screen.history|, stepsOf)
    {
      stamps := screen.Draw(stepsOf);
    }
  }
}
