/** The paint canvas: an append-only history of brush strokes that is
    replayed every frame, with connected strokes joined to their predecessor
    by a line of interpolated stamps. */
module PaintScreen {
  import opened Common

  const Black: Color32 := Color32(0, 0, 0, 255)

  /** macroquad's `Color`: channels as fractions. */
  datatype Color = Color(r: real, g: real, b: real, a: real)

  function ChannelToUnit(c: Channel): real { c as real / 255.0 }

  /** `color32_to_color`: each channel c becomes c / 255. */
  function ToColor(c: Color32): (r: Color)
    ensures 0.0 <= r.r <= 1.0 && 0.0 <= r.g <= 1.0 && 0.0 <= r.b <= 1.0 && 0.0 <= r.a <= 1.0
    ensures r.r * 255.0 == c.r as real && r.g * 255.0 == c.g as real
    ensures r.b * 255.0 == c.b as real && r.a * 255.0 == c.a as real
  {
    Color(ChannelToUnit(c.r), ChannelToUnit(c.g), ChannelToUnit(c.b), ChannelToUnit(c.a))
  }

  /** 0 maps to 0, 255 to 1, and no two colours are confused. */
  lemma ToColorExact(c1: Color32, c2: Color32)
    ensures ToColor(Color32(0, 0, 0, 0)) == Color(0.0, 0.0, 0.0, 0.0)
    ensures ToColor(Color32(255, 255, 255, 255)) == Color(1.0, 1.0, 1.0, 1.0)
    ensures ToColor(c1) == ToColor(c2) ==> c1 == c2
  {
  }

  datatype Stroke = Stroke(pos: Vec2, size: real, color: Color32, connected: bool)

  /** One `draw_circle` call of the replay. */
  datatype Stamp = Stamp(center: Vec2, radius: real, color: Color)

  /** The number of interpolation steps for a connected stroke, given the
      previous position, the current one and the brush size:
      ceil(distance / (size * 0.3)) in the source, a parameter here. */
  type StepCount = (Vec2, Vec2, real) -> nat

  function Lerp(a: Vec2, b: Vec2, t: real): Vec2 {
    Vec2(a.x + (b.x - a.x) * t, a.y + (b.y - a.y) * t)
  }

  /** t = j / steps; the 0 / 0 of a zero step count is taken as 0. */
  function Fraction(j: nat, steps: nat): real {
    if steps == 0 then 0.0 else j as real / steps as real
  }

  function OwnStamp(s: Stroke): Stamp {
    Stamp(s.pos, s.size * 0.5, ToColor(s.color))
  }

  /** The j-th interpolated stamp between prev and cur, in cur's size and colour. */
  function SegmentStamp(prev: Stroke, cur: Stroke, steps: nat, j: nat): Stamp {
    Stamp(Lerp(prev.pos, cur.pos, Fraction(j, steps)), cur.size * 0.5, ToColor(cur.color))
  }

  function Segment(prev: Stroke, cur: Stroke, steps: nat): seq<Stamp> {
    seq(steps + 1, j requires 0 <= j => SegmentStamp(prev, cur, steps, j))
  }

  /** The stamps stroke i contributes: its segment from stroke i - 1 when it
      is connected and not the first, then its own circle. */
  function StrokeStamps(h: seq<Stroke>, i: nat, stepsOf: StepCount): seq<Stamp>
    requires i < |h|
  {
    (if h[i].connected && i > 0 then Segment(h[i - 1], h[i], stepsOf(h[i - 1].pos, h[i].pos, h[i].size)) else [])
    + [OwnStamp(h[i])]
  }

  /** The stamps of each stroke, in history order. */
  function Chunks(h: seq<Stroke>, stepsOf: StepCount): (r: seq<seq<Stamp>>)
    ensures |r| == |h| && forall i :: 0 <= i < |h| ==> r[i] == StrokeStamps(h, i, stepsOf)
  {
    seq(|h|, i requires 0 <= i < |h| => StrokeStamps(h, i, stepsOf))
  }

  /** The first n chunks, one after the other. */
  function Flatten(parts: seq<seq<Stamp>>, n: nat): seq<Stamp>
    requires n <= |parts|
  {
    if n == 0 then [] else Flatten(parts, n - 1) + parts[n - 1]
  }

  /** The stamps of the first n strokes, in history order. */
  function Plan(h: seq<Stroke>, n: nat, stepsOf: StepCount): seq<Stamp>
    requires n <= |h|
  {
    Flatten(Chunks(h, stepsOf), n)
  }

  lemma PlanSnoc(h: seq<Stroke>, i: nat, stepsOf: StepCount)
    requires i < |h|
    ensures Plan(h, i + 1, stepsOf) == Plan(h, i, stepsOf) + StrokeStamps(h, i, stepsOf)
  {
  }

  /** A segment of `steps > 0` has steps + 1 stamps, the first at the
      previous stroke, the last at the current one. */
  lemma SegmentEnds(prev: Stroke, cur: Stroke, steps: nat)
    requires steps > 0
    ensures |Segment(prev, cur, steps)| == steps + 1
    ensures Segment(prev, cur, steps)[0].center == prev.pos
    ensures Segment(prev, cur, steps)[steps].center == cur.pos
  {
    FractionWhole(steps);
    assert Segment(prev, cur, steps)[steps] == SegmentStamp(prev, cur, steps, steps);
  }

  lemma FractionWhole(steps: nat)
    requires steps > 0
    ensures Fraction(steps, steps) == 1.0
  {
    var d := steps as real;
    assert d / d == 1.0;
  }

  /** The first stroke's connected flag is ignored; an unconnected stroke
      gets its own circle only. */
  lemma LoneStamps(h: seq<Stroke>, i: nat, stepsOf: StepCount)
    requires i < |h| && (i == 0 || !h[i].connected)
    ensures StrokeStamps(h, i, stepsOf) == [OwnStamp(h[i])]
  {
  }

  /** Flattening more chunks only extends the result. */
  lemma {:induction false} FlattenPrefix(parts: seq<seq<Stamp>>, m: nat, n: nat)
    requires m <= n <= |parts|
    ensures |Flatten(parts, m)| <= |Flatten(parts, n)|
    ensures Flatten(parts, m) == Flatten(parts, n)[..|Flatten(parts, m)|]
    decreases n - m
  {
    if m < n {
      FlattenPrefix(parts, m, n - 1);
      ConcatPrefix(Flatten(parts, n - 1), parts[n - 1], Flatten(parts, n));
      PrefixTrans(Flatten(parts, m), Flatten(parts, n - 1), Flatten(parts, n));
    }
  }

  /** Replaying more strokes only extends the plan. */
  lemma PlanPrefix(h: seq<Stroke>, m: nat, n: nat, stepsOf: StepCount)
    requires m <= n <= |h|
    ensures |Plan(h, m, stepsOf)| <= |Plan(h, n, stepsOf)|
    ensures Plan(h, m, stepsOf) == Plan(h, n, stepsOf)[..|Plan(h, m, stepsOf)|]
  {
    FlattenPrefix(Chunks(h, stepsOf), m, n);
  }

  lemma ConcatPrefix(a: seq<Stamp>, b: seq<Stamp>, c: seq<Stamp>)
    requires c == a + b
    ensures |a| <= |c| && a == c[..|a|]
  {
  }

  lemma PrefixTrans(a: seq<Stamp>, b: seq<Stamp>, c: seq<Stamp>)
    requires |a| <= |b| <= |c| && a == b[..|a|] && b == c[..|b|]
    ensures a == c[..|a|]
  {
  }

  /** The last stamp of the first n strokes is stroke n - 1's own circle. */
  lemma PlanLast(h: seq<Stroke>, n: nat, stepsOf: StepCount)
    requires 0 < n <= |h|
    ensures |Plan(h, n - 1, stepsOf)| < |Plan(h, n, stepsOf)|
    ensures Plan(h, n, stepsOf)[|Plan(h, n, stepsOf)| - 1] == OwnStamp(h[n - 1])
  {
    var ss := StrokeStamps(h, n - 1, stepsOf);
    assert ss[|ss| - 1] == OwnStamp(h[n - 1]);
  }

  /** Stroke i's own circle stays where it is as more strokes are replayed. */
  lemma OwnStampAt(h: seq<Stroke>, i: nat, n: nat, stepsOf: StepCount)
    requires i < n <= |h|
    ensures 0 < |Plan(h, i + 1, stepsOf)| <= |Plan(h, n, stepsOf)|
    ensures Plan(h, n, stepsOf)[|Plan(h, i + 1, stepsOf)| - 1] == OwnStamp(h[i])
  {
    var c := Chunks(h, stepsOf);
    var ss := StrokeStamps(h, i, stepsOf);
    assert ss[|ss| - 1] == OwnStamp(h[i]);
    FlattenLastStays(c, i, n);
  }

  /** A non-empty chunk's last element keeps its place in the flattening
      as more chunks follow. */
  lemma FlattenLastStays(parts: seq<seq<Stamp>>, i: nat, n: nat)
    requires i < n <= |parts| && parts[i] != []
    ensures 0 < |Flatten(parts, i + 1)| <= |Flatten(parts, n)|
    ensures Flatten(parts, n)[|Flatten(parts, i + 1)| - 1] == parts[i][|parts[i]| - 1]
  {
    var fi := Flatten(parts, i + 1);
    FlattenPrefix(parts, i + 1, n);
    assert fi == Flatten(parts, i) + parts[i];
    PrefixIndex(fi, Flatten(parts, n), |fi| - 1);
  }

  lemma PrefixIndex(a: seq<Stamp>, c: seq<Stamp>, k: nat)
    requires |a| <= |c| && a == c[..|a|] && k < |a|
    ensures c[k] == a[k]
  {
  }

  /** Every stroke's own circle is stamped, at the stroke's position, and
      those circles come in history order: stroke i's at index
      |Plan(h, i + 1)| - 1, which grows strictly with i. */
  lemma OwnStampsInOrder(h: seq<Stroke>, i: nat, k: nat, stepsOf: StepCount)
    requires i < k < |h|
    ensures 0 < |Plan(h, i + 1, stepsOf)| < |Plan(h, k + 1, stepsOf)| <= |Plan(h, |h|, stepsOf)|
    ensures Plan(h, |h|, stepsOf)[|Plan(h, i + 1, stepsOf)| - 1] == OwnStamp(h[i])
    ensures Plan(h, |h|, stepsOf)[|Plan(h, k + 1, stepsOf)| - 1] == OwnStamp(h[k])
  {
    OwnStampAt(h, i, |h|, stepsOf);
    OwnStampAt(h, k, |h|, stepsOf);
    PlanLast(h, k + 1, stepsOf);
    PlanPrefix(h, i + 1, k, stepsOf);
  }

  /** The interpolation loop of `draw`: stamps j = 0 ..= steps, at fraction
      j / steps of the way from the previous stroke to the current one. */
  method StampSegment(prev: Stroke, cur: Stroke, steps: nat) returns (stamps: seq<Stamp>)
    ensures stamps == Segment(prev, cur, steps)
  {
    stamps := [];
    var j := 0;
    while j <= steps
      invariant 0 <= j <= steps + 1
      invariant stamps == Segment(prev, cur, steps)[..j]
    {
      var t := Fraction(j, steps);
      stamps := stamps + [Stamp(Lerp(prev.pos, cur.pos, t), cur.size * 0.5, ToColor(cur.color))];
      assert Segment(prev, cur, steps)[..j + 1] == Segment(prev, cur, steps)[..j] + [SegmentStamp(prev, cur, steps, j)];
      j := j + 1;
    }
    assert Segment(prev, cur, steps)[..j] == Segment(prev, cur, steps);
  }

  class Screen {
    var history: seq<Stroke>
    var lastWasConnected: bool

    constructor ()
      ensures history == [] && !lastWasConnected
    {
      history := [];
      lastWasConnected := false;
    }

    method AddStroke(pos: Vec2, size: real, color: Color32, isConnected: bool)
      modifies this
      ensures history == old(history) + [Stroke(pos, size, color, isConnected)]
      ensures lastWasConnected == isConnected
    {
      history := history + [Stroke(pos, size, color, isConnected)];
      lastWasConnected := isConnected;
    }

    /** The post-state does not depend on the pre-state: clearing twice is clearing once. */
    method Clear()
      modifies this
      ensures history == [] && !lastWasConnected
    {
      history := [];
      lastWasConnected := false;
    }

    /** The replay of `draw`: the circles it stamps, in order. */
    method Draw(stepsOf: StepCount) returns (stamps: seq<Stamp>)
      ensures stamps == Plan(history, |history|, stepsOf)
    {
      stamps := [];
      var i := 0;
      while i < |history|
        invariant 0 <= i <= |history|
        invariant stamps == Plan(history, i, stepsOf)
      {
        var stroke := history[i];
        var segment: seq<Stamp> := [];
        if stroke.connected && i > 0 {
          var prev := history[i - 1];
          segment := StampSegment(prev, stroke, stepsOf(prev.pos, stroke.pos, stroke.size));
        }
        var own := Stamp(stroke.pos, stroke.size * 0.5, ToColor(stroke.color));
        assert segment + [own] == StrokeStamps(history, i, stepsOf);
        PlanSnoc(history, i, stepsOf);
        stamps := stamps + (segment + [own]);
        i := i + 1;
      }
    }
  }
}
