/**
 * A paper lantern: it bobs on the water until clicked. The first click
 * ignites it (calling `onIgnite` once) and sets a 2000 ms timeout after which
 * it is released and floats upward. While ignited the light flickers and the
 * flame grows toward full size.
 */
module Lantern {
  import opened Anim

  const ReleaseDelayMs: nat := 2000

  datatype State = State(
    ignited: bool,
    released: bool,
    releasePending: bool, // the 2000 ms release timeout is set and has not fired
    hovered: bool,
    pointerCursor: bool,  // document.body.style.cursor is 'pointer' (else 'auto')
    pos: Vec3,            // the group's position
    rotY: real,
    flameScale: real,     // uniform scale of the flame group
    light: real           // the point light's intensity
  )

  /** A lantern mounted at `position`: unlit, the flame at scale 0, the light off. */
  function Initial(position: Vec3): State {
    State(false, false, false, false, false, position, 0.0, 0.0, 0.0)
  }

  /**
   * The sines and cosines one frame samples from the offset clock `t`:
   * sin 2t, sin 15t, cos 43t, sin 0.5t, cos 0.3t.
   */
  datatype Samples = Samples(sin2t: real, sin15t: real, cos43t: real, sinHalfT: real, cos03t: real)

  predicate ValidSamples(w: Samples) {
    Unit(w.sin2t) && Unit(w.sin15t) && Unit(w.cos43t) && Unit(w.sinHalfT) && Unit(w.cos03t)
  }

  datatype Event = Tick(delta: real, w: Samples) | Click | ReleaseTimer | PointerOver | PointerOut

  predicate ValidEvent(e: Event) { e.Tick? ==> e.delta > 0.0 && ValidSamples(e.w) }

  predicate ValidEvents(evs: seq<Event>) { forall i :: 0 <= i < |evs| ==> ValidEvent(evs[i]) }

  datatype Effect = ScheduleRelease(delayMs: nat)

  /** `calledOnIgnite` is true when the step invokes the `onIgnite` callback (when one was passed). */
  datatype Output = Output(state: State, effects: seq<Effect>, calledOnIgnite: bool)

  /** The release follows the ignition; the timeout is pending exactly between the two. */
  ghost predicate Inv(s: State) {
    && (s.released ==> s.ignited)
    && (s.releasePending <==> s.ignited && !s.released)
    && 0.0 <= s.flameScale <= 1.0
  }

  /** The flame lerps toward full size at rate `2 delta` while still smaller than 1. */
  function FlameStep(f: real, delta: real): real {
    if f < 1.0 then Lerp(f, 1.0, delta * 2.0) else f
  }

  /** The light intensity of an ignited frame: `2 + 0.5 sin 15t + 0.3 cos 43t`. */
  function Flicker(w: Samples): (i: real)
    requires ValidSamples(w)
    ensures 1.2 <= i <= 2.8
  {
    2.0 + w.sin15t * 0.5 + w.cos43t * 0.3
  }

  /** A released lantern's sideways drift on one frame: a wave sample times `delta` times the drift rate. */
  function Drift(wave: real, delta: real, rate: real): (r: real)
    requires Unit(wave) && delta > 0.0 && rate >= 0.0
    ensures -rate * delta <= r <= rate * delta
  {
    assert -delta <= wave * delta <= delta;
    wave * delta * rate
  }

  /** The frame callback; `base` is the `position` prop and `speed` the float-up speed. */
  function TickStep(s: State, delta: real, w: Samples, base: Vec3, speed: real): State
    requires delta > 0.0 && ValidSamples(w)
  {
    var bobbed := if !s.released then s.(pos := s.pos.(y := base.y + w.sin2t * 0.1)) else s;
    var lit := if s.ignited then bobbed.(light := Flicker(w), flameScale := FlameStep(s.flameScale, delta)) else bobbed;
    if s.released then
      lit.(pos := Vec3(lit.pos.x + Drift(w.sinHalfT, delta, 0.2),
                       lit.pos.y + delta * 0.5 * speed,
                       lit.pos.z + Drift(w.cos03t, delta, 0.1)),
           rotY := lit.rotY + delta * 0.1)
    else lit
  }

  function Step(s: State, e: Event, base: Vec3, speed: real, hasOnIgnite: bool): (o: Output)
    requires ValidEvent(e)
    ensures Inv(s) && (e.Tick? ==> e.delta * 2.0 <= 1.0) ==> Inv(o.state)
    // ignition is one-way, happens on the first click only, and schedules the release in 2000 ms
    ensures s.ignited ==> o.state.ignited
    ensures !s.ignited && o.state.ignited <==> e.Click? && !s.ignited
    ensures o.calledOnIgnite <==> e.Click? && !s.ignited && hasOnIgnite
    ensures o.effects == if e.Click? && !s.ignited then [ScheduleRelease(2000)] else []
    // the release happens only when the pending timeout fires, and is one-way
    ensures s.released ==> o.state.released
    ensures !s.released && o.state.released ==> e.ReleaseTimer? && s.releasePending
    // unreleased frames bob around the rest height; released ones rise by 0.5 * speed per second
    ensures e.Tick? && !s.released ==> base.y - 0.1 <= o.state.pos.y <= base.y + 0.1
    ensures e.Tick? && s.released ==> o.state.pos.y == s.pos.y + 0.5 * speed * e.delta && o.state.rotY == s.rotY + 0.1 * e.delta
    // and drift sideways by at most 0.2 * delta in x and 0.1 * delta in z
    ensures e.Tick? && s.released ==>
      && -0.2 * e.delta <= o.state.pos.x - s.pos.x <= 0.2 * e.delta
      && -0.1 * e.delta <= o.state.pos.z - s.pos.z <= 0.1 * e.delta
    // the flickering light stays within [1.2, 2.8]; the flame grows and never shrinks
    ensures e.Tick? && s.ignited ==> 1.2 <= o.state.light <= 2.8
    ensures e.Tick? && s.ignited ==> o.state.flameScale == FlameStep(s.flameScale, e.delta)
    ensures e.Tick? && 0.0 <= s.flameScale <= 1.0 && e.delta * 2.0 <= 1.0 ==> s.flameScale <= o.state.flameScale <= 1.0
    ensures !e.Tick? ==> o.state.flameScale == s.flameScale && o.state.pos == s.pos
    ensures e.PointerOver? ==> o.state == s.(hovered := true, pointerCursor := true)
    ensures e.PointerOut? ==> o.state == s.(hovered := false, pointerCursor := false)
  {
    match e
    case Tick(delta, w) => Output(TickStep(s, delta, w, base, speed), [], false)
    case Click =>
      if s.ignited then Output(s, [], false)
      else Output(s.(ignited := true, releasePending := true), [ScheduleRelease(ReleaseDelayMs)], hasOnIgnite)
    case ReleaseTimer =>
      if s.releasePending then Output(s.(released := true, releasePending := false), [], false)
      else Output(s, [], false)
    case PointerOver => Output(s.(hovered := true, pointerCursor := true), [], false)
    case PointerOut => Output(s.(hovered := false, pointerCursor := false), [], false)
  }

  function Run(s: State, evs: seq<Event>, base: Vec3, speed: real, hasOnIgnite: bool): State
    requires ValidEvents(evs)
    decreases |evs|
  {
    if evs == [] then s else Run(Step(s, evs[0], base, speed, hasOnIgnite).state, evs[1..], base, speed, hasOnIgnite)
  }

  /** How many times `onIgnite` is invoked along a run. */
  function IgniteCalls(s: State, evs: seq<Event>, base: Vec3, speed: real, hasOnIgnite: bool): nat
    requires ValidEvents(evs)
    decreases |evs|
  {
    if evs == [] then 0
    else
      var o := Step(s, evs[0], base, speed, hasOnIgnite);
      (if o.calledOnIgnite then 1 else 0) + IgniteCalls(o.state, evs[1..], base, speed, hasOnIgnite)
  }

  lemma {:induction false} IgnitedStaysIgnited(s: State, evs: seq<Event>, base: Vec3, speed: real, hasOnIgnite: bool)
    requires ValidEvents(evs)
    requires s.ignited
    ensures Run(s, evs, base, speed, hasOnIgnite).ignited
    decreases |evs|
  {
    if evs != [] {
      IgnitedStaysIgnited(Step(s, evs[0], base, speed, hasOnIgnite).state, evs[1..], base, speed, hasOnIgnite);
    }
  }

  /** Repeated clicks ignite the lantern once: `onIgnite` runs exactly when a run lights it. */
  lemma {:induction false} OnIgniteCalledOnce(s: State, evs: seq<Event>, base: Vec3, speed: real, hasOnIgnite: bool)
    requires ValidEvents(evs)
    ensures IgniteCalls(s, evs, base, speed, hasOnIgnite)
      == if hasOnIgnite && !s.ignited && Run(s, evs, base, speed, hasOnIgnite).ignited then 1 else 0
    decreases |evs|
  {
    if evs != [] {
      var s' := Step(s, evs[0], base, speed, hasOnIgnite).state;
      OnIgniteCalledOnce(s', evs[1..], base, speed, hasOnIgnite);
      if s'.ignited {
        IgnitedStaysIgnited(s', evs[1..], base, speed, hasOnIgnite);
      }
    }
  }

  /** `n` ignited frames of equal length, starting from a flame below full size. */
  function Flame(f: real, delta: real, n: nat): real
    decreases n
  {
    if n == 0 then f else Flame(FlameStep(f, delta), delta, n - 1)
  }

  /**
   * With a frame time below half a second, the flame never reaches full size,
   * and the gap to full size shrinks geometrically: after `n` frames it is
   * `(1 - 2 delta)^n` times the starting gap.
   */
  lemma {:induction false} FlameApproachesFull(f: real, delta: real, n: nat)
    requires 0.0 <= f < 1.0 && 0.0 < delta * 2.0 < 1.0
    ensures Flame(f, delta, n) == LerpN(f, 1.0, delta * 2.0, n)
    ensures 1.0 - Flame(f, delta, n) == Pow(1.0 - delta * 2.0, n) * (1.0 - f)
    ensures f <= Flame(f, delta, n) < 1.0
    decreases n
  {
    if n > 0 {
      var g := Lerp(f, 1.0, delta * 2.0);
      StrictStep(f, delta * 2.0);
      FlameApproachesFull(g, delta, n - 1);
    }
    LerpNDistance(f, 1.0, delta * 2.0, n);
  }

  lemma StrictStep(f: real, t: real)
    requires 0.0 <= f < 1.0 && 0.0 < t < 1.0
    ensures f <= Lerp(f, 1.0, t) < 1.0
  {
    var g := Lerp(f, 1.0, t);
    assert Between(f, g, 1.0);
    assert g - 1.0 == (1.0 - t) * (f - 1.0);
    NegProduct(1.0 - t, f - 1.0);
    assert g - 1.0 < 0.0;
  }

  lemma NegProduct(a: real, b: real)
    requires a > 0.0 && b < 0.0
    ensures a * b < 0.0
  {
  }

  /** The lantern's appearance: text fill, paper glow, the atmosphere sprite, the float range. */
  datatype View = View(textOpacity: real, emissive: real, glow: bool, floatSpeed: real, floatRange: (real, real))

  function Render(s: State): (v: View)
    ensures v.textOpacity == 0.8 <==> s.ignited
    ensures v.textOpacity == 0.0 <==> !s.ignited
    ensures v.emissive > 0.0 <==> v.glow
    ensures v.glow <==> s.ignited
    ensures s.released ==> v.floatRange.0 >= 0.0 && v.floatSpeed == 2.0
  {
    View(
      if s.ignited then 0.8 else 0.0,
      if s.ignited then 0.5 else 0.0,
      s.ignited,
      if s.released then 2.0 else 1.0,
      if s.released then (0.0, 2.0) else (-0.1, 0.1))
  }
}
