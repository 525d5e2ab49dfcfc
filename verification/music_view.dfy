/** The visualizer's main display: a rectangle whose colour and caption
    show whether the song is playing. */
module MusicView {
  import NannouRect

  /** nannou's `rgba`, channels as fractions. */
  datatype Rgba = Rgba(r: real, g: real, b: real, a: real)

  /** The background: green while playing, red while paused, both at 80%
      opacity. */
  function Background(isPlaying: bool): (c: Rgba)
    ensures c.a == 0.8 && c.b == 0.0
    ensures isPlaying ==> c.g == 0.5 && c.r == 0.0
    ensures !isPlaying ==> c.r == 0.5 && c.g == 0.0
  {
    if isPlaying then Rgba(0.0, 0.5, 0.0, 0.8) else Rgba(0.5, 0.0, 0.0, 0.8)
  }

  function StatusText(isPlaying: bool): (s: string)
    ensures s == "PLAYING" <==> isPlaying
    ensures s == "PAUSED" <==> !isPlaying
  {
    if isPlaying then "PLAYING" else "PAUSED"
  }

  /** The two states always look different, in colour and in caption. */
  lemma StatesDistinguishable()
    ensures Background(true) != Background(false)
    ensures StatusText(true) != StatusText(false)
  {
  }

  class View {
    const viewRect: NannouRect.Rect
    var isPlaying: bool

    constructor (viewRect: NannouRect.Rect)
      ensures this.viewRect == viewRect && !isPlaying
    {
      this.viewRect := viewRect;
      isPlaying := false;
    }

    /** Records the playback state; the rectangle never changes. */
    method Update(isPlaying: bool)
      modifies this`isPlaying
      ensures this.isPlaying == isPlaying
    {
      this.isPlaying := isPlaying;
    }

    /** What `draw` paints: the view's rectangle in the state's colour, with
        the state's caption at its centre. */
    method Draw() returns (rect: NannouRect.Rect, color: Rgba, caption: string)
      ensures rect == viewRect
      ensures color == Background(isPlaying) && caption == StatusText(isPlaying)
    {
      rect := viewRect;
      color := if isPlaying then Rgba(0.0, 0.5, 0.0, 0.8) else Rgba(0.5, 0.0, 0.0, 0.8);
      caption := if isPlaying then "PLAYING" else "PAUSED";
    }
  }
}
