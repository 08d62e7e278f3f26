/**
 * The Chronosphere artifact: a charge that builds while the user holds the
 * pointer down and decays when released, clamped to [0, 1.2]. The first frame
 * that renders a charge of at least 1 sets off a one-shot explosion, which
 * schedules the gift reveal 500 ms later; from then on the frame step only
 * shrinks the container and grows the revealed gift.
 */
module Chronosphere {
  import opened Anim

  const ChargeRate: real := 0.5
  const ChargeMax: real := 1.2
  const ExplodeAt: real := 1.0
  const RevealDelayMs: nat := 500
  /** Shake amplitude per unit of charge: offsets are `(random - 0.5) * charge * 0.05`. */
  const ShakeFactor: real := 0.05

  datatype State = State(
    charge: real,
    stabilized: bool,     // pointer held on the artifact
    pointerCursor: bool,  // document.body.style.cursor is 'pointer' (else 'auto')
    exploded: bool,
    revealPending: bool,  // the 500 ms reveal timer has been set and not yet fired
    showGift: bool,
    containerScale: real, // uniform scale of the artifact's container group
    giftScale: real       // uniform scale of the revealed gift wrapper
  )

  const Initial: State := State(0.0, false, false, false, false, false, 1.0, 0.0)

  /**
   * One frame (`delta` seconds, with the three `Math.random()` draws used for
   * the shake), a pointer event on the container, or the reveal timer firing.
   */
  datatype Event =
    | Tick(delta: real, jitter: Vec3)
    | PointerDown
    | PointerUp
    | PointerLeave
    | PointerOver
    | PointerOut
    | RevealTimer

  predicate Draw(r: real) { 0.0 <= r < 1.0 }

  predicate ValidEvent(e: Event) {
    e.Tick? ==> e.delta > 0.0 && Draw(e.jitter.x) && Draw(e.jitter.y) && Draw(e.jitter.z)
  }

  predicate ValidEvents(evs: seq<Event>) {
    forall i :: 0 <= i < |evs| ==> ValidEvent(evs[i])
  }

  /** A `setTimeout` the step asks for. */
  datatype Effect = ScheduleReveal(delayMs: nat)

  /** What a charging frame writes to the scene graph. */
  datatype Frame = Frame(shake: Vec3, coreScale: real, coreSpin: real, emissive: real)

  datatype Output = Output(state: State, effects: seq<Effect>, frame: Option<Frame>)

  predicate ChargeInRange(s: State) { 0.0 <= s.charge <= ChargeMax }

  /** The container position for one frame: each axis `(r - 0.5) * charge * 0.05`. */
  function Shake(charge: real, jitter: Vec3): (v: Vec3)
    requires Draw(jitter.x) && Draw(jitter.y) && Draw(jitter.z)
    ensures 0.0 <= charge ==> -0.025 * charge <= v.x <= 0.025 * charge
    ensures 0.0 <= charge ==> -0.025 * charge <= v.y <= 0.025 * charge
    ensures 0.0 <= charge ==> -0.025 * charge <= v.z <= 0.025 * charge
  {
    var amp := charge * ShakeFactor;
    Vec3(Jitter(jitter.x, amp), Jitter(jitter.y, amp), Jitter(jitter.z, amp))
  }

  function Jitter(r: real, amp: real): (o: real)
    requires Draw(r)
    ensures 0.0 <= amp ==> -amp / 2.0 <= o <= amp / 2.0
  {
    ScaledWithin(amp, r);
    (r - 0.5) * amp
  }

  /** The core's turn on a charging frame: one radian per second, five more per unit of charge. */
  function CoreSpin(charge: real, delta: real): (r: real)
    requires delta > 0.0
    ensures 0.0 <= charge <= ChargeMax ==> delta <= r <= 7.0 * delta
  {
    assert 0.0 <= charge <= ChargeMax ==> 0.0 <= delta * charge <= delta * ChargeMax;
    delta * (1.0 + charge * 5.0)
  }

  /** The frame callback (source lines 111-152), with the charge it renders being `s.charge`. */
  function TickStep(s: State, delta: real, jitter: Vec3): Output
    requires delta > 0.0 && Draw(jitter.x) && Draw(jitter.y) && Draw(jitter.z)
  {
    var giftScale := if s.showGift then Lerp(s.giftScale, 1.0, delta * 2.0) else s.giftScale;
    if s.exploded then
      // post-explosion: only the container shrinks (and the mounted gift grows)
      Output(s.(containerScale := Lerp(s.containerScale, 0.0, delta * 2.0), giftScale := giftScale), [], None)
    else
      var charge :=
        if s.stabilized then Min(s.charge + delta * ChargeRate, ChargeMax)
        else Max(s.charge - delta * ChargeRate, 0.0);
      var explode := s.charge >= ExplodeAt;
      var frame := Frame(Shake(s.charge, jitter), 1.0 + s.charge * 0.5, CoreSpin(s.charge, delta), s.charge * 5.0);
      Output(
        s.(charge := charge, exploded := explode, revealPending := s.revealPending || explode, giftScale := giftScale),
        if explode then [ScheduleReveal(RevealDelayMs)] else [],
        Some(frame))
  }

  function Step(s: State, e: Event): (o: Output)
    requires ValidEvent(e)
    // the charge stays clamped to [0, 1.2]
    ensures ChargeInRange(s) ==> ChargeInRange(o.state)
    // held: charge rises by 0.5 per second up to 1.2; released: it decays to 0
    ensures e.Tick? && !s.exploded && s.stabilized ==> o.state.charge == Min(s.charge + 0.5 * e.delta, 1.2)
    ensures e.Tick? && !s.exploded && !s.stabilized ==> o.state.charge == Max(s.charge - 0.5 * e.delta, 0.0)
    // the explosion is one-way and fires exactly on a frame that renders a charge >= 1
    ensures s.exploded ==> o.state.exploded
    ensures !s.exploded ==> (o.state.exploded <==> e.Tick? && s.charge >= 1.0)
    // the reveal is scheduled, 500 ms out, exactly on the exploding frame
    ensures o.effects == if !s.exploded && o.state.exploded then [ScheduleReveal(500)] else []
    // after the explosion a frame leaves the charge alone and only shrinks the container
    ensures s.exploded && e.Tick? ==> o.state.charge == s.charge && o.frame.None?
    ensures s.exploded && e.Tick? && 0.0 <= s.containerScale && e.delta * 2.0 <= 1.0 ==>
      0.0 <= o.state.containerScale <= s.containerScale
    // the revealed gift grows from 0 towards 1 without overshooting
    ensures 0.0 <= s.giftScale <= 1.0 && (e.Tick? ==> e.delta * 2.0 <= 1.0) ==> 0.0 <= o.state.giftScale <= 1.0
    // pointer down stabilises; pointer up and pointer leave release
    ensures e.PointerDown? ==> o.state == s.(stabilized := true)
    ensures e.PointerUp? || e.PointerLeave? ==> o.state == s.(stabilized := false)
    // the pointer shows the hand exactly while it is over the artifact, which is not a hold
    ensures e.PointerOver? ==> o.state == s.(pointerCursor := true)
    ensures e.PointerOut? ==> o.state == s.(pointerCursor := false)
    // charging frames shake within +-0.025 * charge, scale the core to 1 + 0.5 * charge and spin it 1 to 7 radians per second
    ensures e.Tick? && !s.exploded && ChargeInRange(s) ==>
      && o.frame.Some?
      && -0.025 * s.charge <= o.frame.value.shake.x <= 0.025 * s.charge
      && -0.025 * s.charge <= o.frame.value.shake.y <= 0.025 * s.charge
      && -0.025 * s.charge <= o.frame.value.shake.z <= 0.025 * s.charge
      && o.frame.value.coreScale == 1.0 + 0.5 * s.charge
      && e.delta <= o.frame.value.coreSpin <= 7.0 * e.delta
    // the gift shows only when the pending reveal timer fires
    ensures !s.showGift && o.state.showGift ==> e.RevealTimer? && s.revealPending
  {
    match e
    case Tick(delta, jitter) => TickStep(s, delta, jitter)
    case PointerDown => Output(s.(stabilized := true), [], None)
    case PointerUp => Output(s.(stabilized := false), [], None)
    case PointerLeave => Output(s.(stabilized := false), [], None)
    case PointerOver => Output(s.(pointerCursor := true), [], None)
    case PointerOut => Output(s.(pointerCursor := false), [], None)
    case RevealTimer =>
      if s.revealPending then Output(s.(revealPending := false, showGift := true), [], None)
      else Output(s, [], None)
  }

  /** The state after a sequence of events. */
  function Run(s: State, evs: seq<Event>): State
    requires ValidEvents(evs)
    decreases |evs|
  {
    if evs == [] then s else Run(Step(s, evs[0]).state, evs[1..])
  }

  /** All `setTimeout` requests made along a run. */
  function Effects(s: State, evs: seq<Event>): seq<Effect>
    requires ValidEvents(evs)
    decreases |evs|
  {
    if evs == [] then [] else Step(s, evs[0]).effects + Effects(Step(s, evs[0]).state, evs[1..])
  }

  /** Every state along a run, including the first, renders a charge below 1. */
  ghost predicate StaysBelowThreshold(s: State, evs: seq<Event>)
    requires ValidEvents(evs)
    decreases |evs|
  {
    s.charge < ExplodeAt && (evs == [] || StaysBelowThreshold(Step(s, evs[0]).state, evs[1..]))
  }

  /** Starting from a clamped charge, no sequence of held and released frames leaves [0, 1.2]. */
  lemma {:induction false} ChargeStaysInRange(s: State, evs: seq<Event>)
    requires ValidEvents(evs)
    requires ChargeInRange(s)
    ensures ChargeInRange(Run(s, evs))
    decreases |evs|
  {
    if evs != [] {
      ChargeStaysInRange(Step(s, evs[0]).state, evs[1..]);
    }
  }

  /**
   * The reveal is scheduled exactly once over a run that explodes, never over
   * one that does not, and always with the 500 ms delay.
   */
  lemma {:induction false} RevealScheduledOnce(s: State, evs: seq<Event>)
    requires ValidEvents(evs)
    ensures Effects(s, evs) == if !s.exploded && Run(s, evs).exploded then [ScheduleReveal(500)] else []
    decreases |evs|
  {
    if evs != [] {
      var s' := Step(s, evs[0]).state;
      RevealScheduledOnce(s', evs[1..]);
      if s'.exploded {
        ExplodedStaysExploded(s', evs[1..]);
      }
    }
  }

  lemma {:induction false} ExplodedStaysExploded(s: State, evs: seq<Event>)
    requires ValidEvents(evs)
    requires s.exploded
    ensures Run(s, evs).exploded
    decreases |evs|
  {
    if evs != [] {
      ExplodedStaysExploded(Step(s, evs[0]).state, evs[1..]);
    }
  }

  /** A charge that never reaches 1 never sets off the explosion. */
  lemma {:induction false} NoExplosionBelowThreshold(s: State, evs: seq<Event>)
    requires ValidEvents(evs)
    requires !s.exploded
    requires StaysBelowThreshold(s, evs)
    ensures !Run(s, evs).exploded
    decreases |evs|
  {
    if evs != [] {
      NoExplosionBelowThreshold(Step(s, evs[0]).state, evs[1..]);
    }
  }

  /** The stabilisation bar's width in percent: `min(charge * 100, 100)`. */
  function ProgressWidth(charge: real): (w: real)
    ensures w <= 100.0
    ensures 0.0 <= charge ==> 0.0 <= w
    ensures w == 100.0 <==> charge >= 1.0
  {
    Min(charge * 100.0, 100.0)
  }

  /** What the artifact shows: the "Hold to Stabilize" hint, the progress bar, the rings, the burst, the gift. */
  datatype View = View(hint: bool, progress: Option<real>, rings: bool, supernova: bool, gift: bool)

  function Render(s: State): (v: View)
    ensures v.hint ==> v.progress.None?
    ensures v.progress.Some? <==> s.stabilized && !s.exploded
    ensures v.progress.Some? ==> 0.0 <= v.progress.value <= 100.0 || s.charge < 0.0
    ensures v.rings <==> !v.supernova
  {
    View(
      !s.exploded && !s.stabilized,
      if s.stabilized && !s.exploded then Some(ProgressWidth(s.charge)) else None,
      !s.exploded,
      s.exploded,
      s.showGift)
  }
}
