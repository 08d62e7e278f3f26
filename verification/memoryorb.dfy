/**
 * A memory orb: a glass bubble that pops on its first click, calling
 * `onPop` once. After the pop each frame grows the shell by 5 per second and
 * fades it by 3 per second; once faded out the shell is hidden and the
 * compliment text is revealed.
 */
module MemoryOrb {
  import opened Anim

  datatype State = State(
    popped: bool,
    hovered: bool,
    visible: bool,       // the shell and the inner nebula are mounted
    pointerCursor: bool, // document.body.style.cursor is 'pointer' (else 'auto')
    popScale: real,
    opacity: real
  )

  const Initial: State := State(false, false, true, false, 1.0, 1.0)

  /** A frame (`delta` seconds, `time` the clock's elapsed time), a click, pointer over / out. */
  datatype Event = Tick(delta: real, time: real) | Click | PointerOver | PointerOut

  predicate ValidEvent(e: Event) { e.Tick? ==> e.delta > 0.0 }

  predicate ValidEvents(evs: seq<Event>) { forall i :: 0 <= i < |evs| ==> ValidEvent(evs[i]) }

  /** What a frame writes to the meshes it finds mounted. */
  datatype Frame =
    | Wobble(innerRotX: real, innerRotY: real)         // unpopped: the nebula turns with the clock
    | PopFrame(shellScale: real, shellOpacity: real)   // popped, shell still mounted
    | NoFrame                                          // popped, shell gone

  /** `calledOnPop` is true when the step invokes the `onPop` callback (when one was passed). */
  datatype Output = Output(state: State, calledOnPop: bool, frame: Frame)

  /**
   * The bubble is whole before the pop; the shell only grows and fades after
   * it, and is hidden only once fully transparent.
   */
  ghost predicate Inv(s: State) {
    && s.popScale >= 1.0
    && s.opacity <= 1.0
    && (!s.popped ==> s.popScale == 1.0 && s.opacity == 1.0 && s.visible)
    && (!s.visible ==> s.popped && s.opacity <= 0.0)
  }

  function Step(s: State, e: Event, hasOnPop: bool): (o: Output)
    requires ValidEvent(e)
    ensures Inv(s) ==> Inv(o.state)
    // popping is one-way, happens only on a click, and calls onPop exactly then
    ensures s.popped ==> o.state.popped
    ensures !s.visible ==> !o.state.visible
    ensures !s.popped && o.state.popped <==> e.Click? && !s.popped
    ensures o.calledOnPop <==> e.Click? && !s.popped && hasOnPop
    // after the pop a frame grows the shell by 5 delta and fades it by 3 delta
    ensures e.Tick? && s.popped ==>
      o.state.popScale == s.popScale + 5.0 * e.delta && o.state.opacity == s.opacity - 3.0 * e.delta
    // the faded shell is hidden on the first frame that takes its opacity to 0 or below
    ensures e.Tick? && s.popped && s.visible ==> (o.state.visible <==> s.opacity - 3.0 * e.delta > 0.0)
    // the material opacity written to the shell is clamped at 0 and never exceeds the fade value's start
    ensures Inv(s) && o.frame.PopFrame? ==> 0.0 <= o.frame.shellOpacity <= 1.0 && o.frame.shellScale > 1.0
    ensures e.Tick? && !s.popped ==> o.frame == Wobble(0.2 * e.time, 0.3 * e.time) && o.state == s
    // hovering starts only on an unpopped orb; pointer out always ends it
    ensures e.PointerOver? ==> o.state == (if s.popped then s else s.(hovered := true, pointerCursor := true))
    ensures e.PointerOut? ==> o.state == s.(hovered := false, pointerCursor := false)
  {
    match e
    case Click =>
      if s.popped then Output(s, false, NoFrame)
      else Output(s.(popped := true), hasOnPop, NoFrame)
    case PointerOver =>
      Output(if s.popped then s else s.(hovered := true, pointerCursor := true), false, NoFrame)
    case PointerOut => Output(s.(hovered := false, pointerCursor := false), false, NoFrame)
    case Tick(delta, time) =>
      if !s.popped then Output(s, false, Wobble(time * 0.2, time * 0.3))
      else
        var scale := s.popScale + delta * 5.0;
        var opacity := s.opacity - delta * 3.0;
        var frame := if s.visible then PopFrame(scale, Max(0.0, opacity)) else NoFrame;
        Output(s.(popScale := scale, opacity := opacity, visible := s.visible && !(opacity <= 0.0)), false, frame)
  }

  function Run(s: State, evs: seq<Event>, hasOnPop: bool): State
    requires ValidEvents(evs)
    decreases |evs|
  {
    if evs == [] then s else Run(Step(s, evs[0], hasOnPop).state, evs[1..], hasOnPop)
  }

  /** How many times `onPop` is invoked along a run. */
  function PopCalls(s: State, evs: seq<Event>, hasOnPop: bool): nat
    requires ValidEvents(evs)
    decreases |evs|
  {
    if evs == [] then 0
    else (if Step(s, evs[0], hasOnPop).calledOnPop then 1 else 0) + PopCalls(Step(s, evs[0], hasOnPop).state, evs[1..], hasOnPop)
  }

  lemma {:induction false} PoppedStaysPopped(s: State, evs: seq<Event>, hasOnPop: bool)
    requires ValidEvents(evs)
    requires s.popped
    ensures Run(s, evs, hasOnPop).popped
    decreases |evs|
  {
    if evs != [] {
      PoppedStaysPopped(Step(s, evs[0], hasOnPop).state, evs[1..], hasOnPop);
    }
  }

  /** However often the orb is clicked, `onPop` runs at most once: exactly when a run pops it. */
  lemma {:induction false} OnPopCalledOnce(s: State, evs: seq<Event>, hasOnPop: bool)
    requires ValidEvents(evs)
    ensures PopCalls(s, evs, hasOnPop) == if hasOnPop && !s.popped && Run(s, evs, hasOnPop).popped then 1 else 0
    decreases |evs|
  {
    if evs != [] {
      var s' := Step(s, evs[0], hasOnPop).state;
      OnPopCalledOnce(s', evs[1..], hasOnPop);
      if s'.popped {
        PoppedStaysPopped(s', evs[1..], hasOnPop);
      }
    }
  }

  /** The shell, the nebula, the sparkles and the compliment text, as rendered. */
  datatype View = View(
    floatSpeed: real,
    shellColor: string,
    shellEmissive: real,
    shellMounted: bool,
    sparkles: bool,
    textScale: Option<real>  // None: the text group is not rendered at all
  )

  function Render(s: State): (v: View)
    ensures Inv(s) ==> (v.textScale == Some(1.0) ==> s.popped && s.opacity <= 0.0)
    ensures v.sparkles <==> s.popped
    ensures v.textScale.Some? <==> s.popped
    ensures Inv(s) ==> (v.shellMounted <==> v.textScale != Some(1.0))
    ensures v.floatSpeed == 0.0 <==> s.popped
    ensures v.shellEmissive == 0.8 <==> s.hovered
  {
    View(
      if s.popped then 0.0 else 2.0,
      if s.hovered then "#ffffff" else "#cceeff",
      if s.hovered then 0.8 else 0.2,
      s.visible,
      s.popped,
      if s.popped then Some(if s.visible then 0.0 else 1.0) else None)
  }
}
