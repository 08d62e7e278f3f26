/**
 * The polaroid gallery: eight cards laid out on a circle of radius 5. A
 * click selects a card (or deselects it if it was selected); the selected
 * card flies to the front at 1.8x size, the others float at their places,
 * growing slightly while hovered. Every card eases toward its target.
 */
module Polaroid {
  import opened Anim

  datatype Photo = Photo(color: string, caption: string, year: string)

  const Photos: seq<Photo> := [
    Photo("#ff6b6b", "Love", "2024"),
    Photo("#4ecdc4", "Adventure", "2023"),
    Photo("#45b7d1", "Dreams", "2022"),
    Photo("#96ceb4", "Peace", "2021"),
    Photo("#ffeaa7", "Joy", "2020"),
    Photo("#dfe6e9", "Serenity", "2019"),
    Photo("#a29bfe", "Magic", "2018"),
    Photo("#fd79a8", "Memories", "2017")
  ]

  const Radius: real := 5.0
  const FrontSpot: Vec3 := Vec3(0.0, 0.0, 3.0)
  const SelectedScale: real := 1.8
  const HoverScale: real := 1.15

  /** Card `i`'s angle on the circle: `i / 8 * 2 pi`. */
  function Angle(i: nat): real {
    (i as real) / (|Photos| as real) * Pi * 2.0
  }

  /** Card `i`'s resting place: on the circle, half a unit above or below the plane by parity. */
  function Place(i: nat, cos: real -> real, sin: real -> real): Vec3 {
    Vec3(cos(Angle(i)) * Radius, if i % 2 == 0 then 0.5 else -0.5, sin(Angle(i)) * Radius)
  }

  function Layout(cos: real -> real, sin: real -> real): (ps: seq<Vec3>)
    ensures |ps| == |Photos|
    ensures forall i :: 0 <= i < |ps| ==> ps[i] == Place(i, cos, sin)
  {
    seq(|Photos|, i requires 0 <= i < |Photos| => Place(i, cos, sin))
  }

  /**
   * The layout's geometry: every card sits at distance 5 from the axis,
   * cards alternate above and below, and card `i + 4` faces card `i` across
   * the circle.
   */
  lemma LayoutGeometry(cos: real -> real, sin: real -> real, i: nat)
    requires TrigLaws(cos, sin)
    requires i < |Photos|
    ensures var p := Layout(cos, sin)[i]; p.x * p.x + p.z * p.z == 25.0
    ensures Layout(cos, sin)[i].y == (if i % 2 == 0 then 0.5 else -0.5)
    ensures i + 4 < |Photos| ==>
      Layout(cos, sin)[i + 4].x == -Layout(cos, sin)[i].x && Layout(cos, sin)[i + 4].z == -Layout(cos, sin)[i].z
      && Layout(cos, sin)[i + 4].y == Layout(cos, sin)[i].y
  {
    var c, s := cos(Angle(i)), sin(Angle(i));
    assert c * c + s * s == 1.0;
    assert (c * Radius) * (c * Radius) + (s * Radius) * (s * Radius) == 25.0 * (c * c + s * s);
    if i + 4 < |Photos| {
      assert Angle(i + 4) == Angle(i) + Pi;
    }
  }

  datatype Card = Card(hovered: bool, pos: Vec3, scale: real, rotY: real, rotZ: real)

  datatype State = State(selected: Option<nat>, pointerCursor: bool, cards: seq<Card>)

  /** On mount each card sits at its place at scale 1; nothing is selected. */
  function Initial(cos: real -> real, sin: real -> real): State {
    var ps := Layout(cos, sin);
    State(None, false, seq(|ps|, i requires 0 <= i < |ps| => Card(false, ps[i], 1.0, 0.0, 0.0)))
  }

  /** The two sines a card samples per frame: `sin(0.5 t + i)` (bob) and `sin(0.3 t + i)` (sway). */
  datatype Wave = Wave(bob: real, sway: real)

  /** A frame's bob and sway samples: one pair of sines per card. */
  predicate ValidWaves(n: nat, waves: seq<Wave>) {
    |waves| == n && forall k :: 0 <= k < |waves| ==> Unit(waves[k].bob) && Unit(waves[k].sway)
  }

  datatype Event =
    | Click(i: nat)
    | PointerOver(i: nat)
    | PointerOut(i: nat)
    | Tick(delta: real, waves: seq<Wave>)

  predicate ValidEvent(s: State, e: Event) {
    && (e.Click? || e.PointerOver? || e.PointerOut? ==> e.i < |s.cards|)
    && (e.Tick? ==> e.delta > 0.0 && ValidWaves(|s.cards|, e.waves))
  }

  /** The selection is null or the index of one of the cards. */
  predicate SelectionInRange(s: State) {
    s.selected.Some? ==> s.selected.value < |s.cards|
  }

  /** The `onSelect(isSelected ? null : index)` call of a card's click handler. */
  function Select(selected: Option<nat>, i: nat): (r: Option<nat>)
    ensures r == Some(i) <==> selected != Some(i)
    ensures r.None? <==> selected == Some(i)
  {
    if selected == Some(i) then None else Some(i)
  }

  /** Clicking the same card twice restores the selection, unless another card was selected. */
  lemma SelectTwice(selected: Option<nat>, i: nat)
    ensures Select(Select(selected, i), i) == (if selected == Some(i) then Some(i) else None)
    ensures selected.None? || selected == Some(i) ==> Select(Select(selected, i), i) == selected
  {
  }

  /** A card's target for one frame: the front spot when selected, its place bobbing by 0.15 otherwise. */
  function TargetPos(place: Vec3, selected: bool, bob: real): (t: Vec3)
    ensures selected ==> t == Vec3(0.0, 0.0, 3.0)
    ensures !selected ==> t.x == place.x && t.z == place.z
    ensures !selected && Unit(bob) ==> place.y - 0.15 <= t.y <= place.y + 0.15
  {
    if selected then FrontSpot else Vec3(place.x, place.y + bob * 0.15, place.z)
  }

  function TargetScale(selected: bool, hovered: bool): (k: real)
    ensures selected ==> k == 1.8
    ensures !selected ==> (k == 1.15 <==> hovered) && (k == 1.0 <==> !hovered)
  {
    if selected then SelectedScale else if hovered then HoverScale else 1.0
  }

  /**
   * One card's frame callback: the card moves a fraction 3 delta and scales a
   * fraction 5 delta of the way to its targets; the selected card straightens
   * up while the others turn slowly and sway within +-0.03.
   */
  function CardFrame(c: Card, place: Vec3, selected: bool, delta: real, w: Wave): (r: Card)
    requires Unit(w.sway)
    ensures var t := TargetPos(place, selected, w.bob); r.pos.Sub(t) == c.pos.Sub(t).Scale(1.0 - 3.0 * delta)
    ensures var k := TargetScale(selected, c.hovered); r.scale - k == (1.0 - 5.0 * delta) * (c.scale - k)
    ensures 0.0 <= 5.0 * delta <= 1.0 ==> Between(c.scale, r.scale, TargetScale(selected, c.hovered))
    ensures r.hovered == c.hovered
    ensures selected ==> r.rotY == (1.0 - 3.0 * delta) * c.rotY && r.rotZ == (1.0 - 3.0 * delta) * c.rotZ
    ensures !selected ==> r.rotY == c.rotY + 0.02 * delta && -0.03 <= r.rotZ <= 0.03
  {
    var target := TargetPos(place, selected, w.bob);
    var pos := Vec3(Lerp(c.pos.x, target.x, delta * 3.0), Lerp(c.pos.y, target.y, delta * 3.0), Lerp(c.pos.z, target.z, delta * 3.0));
    var scale := Lerp(c.scale, TargetScale(selected, c.hovered), delta * 5.0);
    if !selected then c.(pos := pos, scale := scale, rotY := c.rotY + delta * 0.02, rotZ := w.sway * 0.03)
    else c.(pos := pos, scale := scale, rotY := Lerp(c.rotY, 0.0, delta * 3.0), rotZ := Lerp(c.rotZ, 0.0, delta * 3.0))
  }

  function Step(s: State, e: Event, cos: real -> real, sin: real -> real): (r: State)
    requires ValidEvent(s, e)
    ensures |r.cards| == |s.cards|
    ensures SelectionInRange(s) ==> SelectionInRange(r)
    // a click toggles that card's selection and replaces any other
    ensures e.Click? ==> r.selected == Select(s.selected, e.i) && r.cards == s.cards
    ensures !e.Click? ==> r.selected == s.selected
    ensures e.PointerOver? ==> r.cards[e.i].hovered && r.pointerCursor
    ensures e.PointerOut? ==> !r.cards[e.i].hovered && !r.pointerCursor
    ensures e.PointerOver? || e.PointerOut? ==> forall k :: 0 <= k < |s.cards| && k != e.i ==> r.cards[k] == s.cards[k]
    ensures e.Tick? ==> forall k :: 0 <= k < |s.cards| ==>
      r.cards[k] == CardFrame(s.cards[k], Place(k, cos, sin), s.selected == Some(k), e.delta, e.waves[k])
  {
    match e
    case Click(i) => s.(selected := Select(s.selected, i))
    case PointerOver(i) => s.(pointerCursor := true, cards := s.cards[i := s.cards[i].(hovered := true)])
    case PointerOut(i) => s.(pointerCursor := false, cards := s.cards[i := s.cards[i].(hovered := false)])
    case Tick(delta, waves) =>
      s.(cards := seq(|s.cards|, k requires 0 <= k < |s.cards| =>
        CardFrame(s.cards[k], Place(k, cos, sin), s.selected == Some(k), delta, waves[k])))
  }

  /**
   * A run of frames of the same length `delta`, one wave sample per card and
   * frame, with no click or pointer event in between: the selection and every
   * card's hover stay as they were.
   */
  function Frames(s: State, delta: real, ticks: seq<seq<Wave>>, cos: real -> real, sin: real -> real): (r: State)
    requires delta > 0.0
    requires forall i :: 0 <= i < |ticks| ==> ValidWaves(|s.cards|, ticks[i])
    ensures |r.cards| == |s.cards| && r.selected == s.selected
    ensures forall k :: 0 <= k < |s.cards| ==> r.cards[k].hovered == s.cards[k].hovered
    decreases |ticks|
  {
    if ticks == [] then s
    else
      var s' := Step(s, Tick(delta, ticks[0]), cos, sin);
      Frames(s', delta, ticks[1..], cos, sin)
  }

  /** Card `k`'s own samples are present in every frame of `ticks`. */
  predicate HasWaves(ticks: seq<seq<Wave>>, k: nat) {
    forall i :: 0 <= i < |ticks| ==> k < |ticks[i]| && Unit(ticks[i][k].sway)
  }

  /** One card's frames on its own: `CardFrame` applied once per frame, with the card's own wave samples. */
  function CardFrames(c: Card, place: Vec3, selected: bool, delta: real, ticks: seq<seq<Wave>>, k: nat): (r: Card)
    requires HasWaves(ticks, k)
    ensures r.hovered == c.hovered
    decreases |ticks|
  {
    if ticks == [] then c
    else CardFrames(CardFrame(c, place, selected, delta, ticks[0][k]), place, selected, delta, ticks[1..], k)
  }

  /**
   * Cards do not influence each other: after a run of frames, card `k` is
   * what its own frames make of it, given its place, whether it is selected,
   * and its own wave samples.
   */
  lemma {:induction false} FramesPerCard(s: State, delta: real, ticks: seq<seq<Wave>>, cos: real -> real, sin: real -> real, k: nat)
    requires delta > 0.0
    requires forall i :: 0 <= i < |ticks| ==> ValidWaves(|s.cards|, ticks[i])
    requires k < |s.cards|
    ensures HasWaves(ticks, k)
    ensures Frames(s, delta, ticks, cos, sin).cards[k]
      == CardFrames(s.cards[k], Place(k, cos, sin), s.selected == Some(k), delta, ticks, k)
    decreases |ticks|
  {
    if ticks != [] {
      var s' := Step(s, Tick(delta, ticks[0]), cos, sin);
      assert s'.cards[k] == CardFrame(s.cards[k], Place(k, cos, sin), s.selected == Some(k), delta, ticks[0][k]);
      FramesPerCard(s', delta, ticks[1..], cos, sin, k);
    }
  }

  /** A card's own frames move its scale by `n` repeated lerps toward its target, with factor 5 delta. */
  lemma {:induction false} CardScaleIsLerpN(c: Card, place: Vec3, selection: Option<nat>, delta: real, ticks: seq<seq<Wave>>, k: nat)
    requires HasWaves(ticks, k)
    ensures CardFrames(c, place, selection == Some(k), delta, ticks, k).scale
      == LerpN(c.scale, TargetScale(selection == Some(k), c.hovered), delta * 5.0, |ticks|)
    decreases |ticks|
  {
    if ticks != [] {
      var c' := CardFrame(c, place, selection == Some(k), delta, ticks[0][k]);
      CardScaleIsLerpN(c', place, selection, delta, ticks[1..], k);
    }
  }

  /** `LerpNDistance` for card `k`'s scale and one frame length per run. */
  lemma ScaleLerpNGap(s: State, delta: real, ticks: seq<seq<Wave>>, k: nat)
    requires k < |s.cards|
    ensures LerpN(s.cards[k].scale, TargetScale(s.selected == Some(k), s.cards[k].hovered), delta * 5.0, |ticks|)
      - TargetScale(s.selected == Some(k), s.cards[k].hovered)
      == Pow(1.0 - delta * 5.0, |ticks|) * (s.cards[k].scale - TargetScale(s.selected == Some(k), s.cards[k].hovered))
  {
    LerpNDistance(s.cards[k].scale, TargetScale(s.selected == Some(k), s.cards[k].hovered), delta * 5.0, |ticks|);
  }

  /**
   * `n` frames of equal length with no click or pointer event in between
   * leave each card's scale `(1 - 5 delta)^n` of its starting gap from its
   * target: the card grows or shrinks geometrically toward 1.8, 1.15 or 1.
   */
  lemma ScaleConverges(s: State, delta: real, ticks: seq<seq<Wave>>, cos: real -> real, sin: real -> real, k: nat)
    requires delta > 0.0
    requires forall i :: 0 <= i < |ticks| ==> ValidWaves(|s.cards|, ticks[i])
    requires k < |s.cards|
    ensures Frames(s, delta, ticks, cos, sin).cards[k].scale - TargetScale(s.selected == Some(k), s.cards[k].hovered)
      == Pow(1.0 - delta * 5.0, |ticks|) * (s.cards[k].scale - TargetScale(s.selected == Some(k), s.cards[k].hovered))
  {
    FramesPerCard(s, delta, ticks, cos, sin, k);
    CardScaleIsLerpN(s.cards[k], Place(k, cos, sin), s.selected, delta, ticks, k);
    ScaleLerpNGap(s, delta, ticks, k);
  }

  /** What a card shows: its photo, the emissive glow and the hover/selection light. */
  datatype CardView = CardView(photo: Photo, emissive: real, light: bool)

  function RenderCard(s: State, k: nat): (v: CardView)
    requires k < |s.cards| && k < |Photos|
    ensures v.photo == Photos[k]
    ensures v.light <==> s.cards[k].hovered || s.selected == Some(k)
    ensures v.emissive == 0.3 <==> v.light
  {
    var lit := s.cards[k].hovered || s.selected == Some(k);
    CardView(Photos[k], if lit then 0.3 else 0.1, lit)
  }

}
