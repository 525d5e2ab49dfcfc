/** Small shared vocabulary: an optional value, a 2D vector over the reals
    (the f32 `Vec2`/`Pos2` of the GUI frameworks, without rounding), the
    first-match search of Rust's iterators and the clamp that `f32::clamp`
    performs. */
module Common {

  datatype Option<T> = None | Some(value: T)

  /** A point or displacement in screen coordinates. */
  datatype Vec2 = Vec2(x: real, y: real)
  {
    function Plus(o: Vec2): Vec2 { Vec2(x + o.x, y + o.y) }
  }

  const Origin: Vec2 := Vec2(0.0, 0.0)

  /** One 8-bit colour channel. */
  type Channel = c: int | 0 <= c < 256

  /** egui's `Color32`, channel by channel. */
  datatype Color32 = Color32(r: Channel, g: Channel, b: Channel, a: Channel)

  /** `iter().position(p)` / `iter().find(p)`: the index of the first
      element satisfying `p`, if any. */
  function FirstWhere<T>(s: seq<T>, p: T -> bool): (r: Option<nat>)
    ensures r.Some? ==> r.value < |s| && p(s[r.value])
                        && forall k :: 0 <= k < r.value ==> !p(s[k])
    ensures r.None? ==> forall k :: 0 <= k < |s| ==> !p(s[k])
    decreases |s|
  {
    if s == [] then None
    else if p(s[0]) then Some(0)
    else match FirstWhere(s[1..], p)
      case Some(i) => Some(i + 1)
      case None => None
  }

  /** `v.clamp(lo, hi)`; Rust panics when lo > hi, so that is excluded. */
  function Clamp(v: real, lo: real, hi: real): (r: real)
    requires lo <= hi
    ensures lo <= r <= hi
    ensures lo <= v <= hi ==> r == v
    ensures v < lo ==> r == lo
    ensures hi < v ==> r == hi
  {
    if v < lo then lo else if hi < v then hi else v
  }
}
