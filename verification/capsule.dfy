/**
 * The time capsule: a click toggles it open or closed. Opening restarts a
 * typewriter that, after a 500 ms pause, reveals the fixed message one
 * character per timer firing with a trailing block cursor, and finally shows
 * the whole message without the cursor. Each frame the shell opening and the
 * projection beam are smoothed toward 1 (open) or 0 (closed); a closed capsule
 * spins idly (faster while hovered) and wobbles, an open one eases back to
 * face front, and the core turns all the while.
 */
module Capsule {
  import opened Anim

  /** The transmission shown in the beam (a template literal in the source, newlines and indentation included). */
  const Message: string :=
    "\n    // INCOMING TRANSMISSION //\n    // RE: BIRTHDAY PROTOCOL //\n\n    Dearest Nanniii,\n\n"
    + "    As you complete another orbital rotation,\n    data analysis indicates maximum joy levels.\n\n"
    + "    Each star in this sector represents a\n    shared memory file. Access them often.\n\n"
    + "    Your mission objectives for this cycle:\n    1. Explore unknown sectors.\n"
    + "    2. Maintain high wonder levels.\n    3. Accept maximizing love inputs.\n\n"
    + "    Status: HAPPINESS_OPTIMAL\n    \n    // END TRANSMISSION //\n    - Aadi\n    "

  const Cursor: char := '█'
  const StartDelayMs: real := 500.0

  datatype State = State(
    message: string,      // the constant fullMessage of this capsule
    mounted: bool,
    open: bool,
    hovered: bool,
    shown: string,        // displayedText
    typed: nat,           // the typewriter's currentIndex
    timer: Option<real>,  // delay (ms) of the pending typing timeout, if one is set
    openProgress: real,
    beamProgress: real,
    pointerCursor: bool,  // document.body.style.cursor is 'pointer' (else 'auto')
    rotY: real,           // the capsule group's yaw
    rotZ: real,           // the capsule group's wobble
    coreRotY: real        // the core's own yaw
  )

  /** After mount: closed, nothing shown, no timeout pending. */
  const Initial: State := State(Message, true, false, false, "", 0, None, 0.0, 0.0, false, 0.0, 0.0, 0.0)

  /**
   * A click on the capsule, pointer over / out, the pending typing timeout
   * firing (with the `Math.random()` draw for the next delay), a frame
   * (`delta` seconds, `sinT` = `Math.sin(elapsedTime)`, `sin6t` =
   * `Math.sin(elapsedTime * 6)`), or unmounting.
   */
  datatype Event =
    | Click
    | PointerOver
    | PointerOut
    | TypeTimer(draw: real)
    | Tick(delta: real, sinT: real, sin6t: real)
    | Unmount

  predicate ValidEvent(e: Event) {
    && (e.TypeTimer? ==> 0.0 <= e.draw < 1.0)
    && (e.Tick? ==> e.delta > 0.0 && Unit(e.sinT) && Unit(e.sin6t))
  }

  /** The values a frame writes to the scene graph. */
  datatype Frame = Frame(topY: real, bottomY: real, coreScale: real, beamScaleY: real, beamVisible: bool)

  datatype Output = Output(state: State, frame: Option<Frame>)

  /** The typewriter's text invariant: nothing, a prefix with the cursor, or the whole message. */
  ghost predicate TextInv(s: State) {
    s.mounted ==> TypewriterInv(s)
  }

  ghost predicate TypewriterInv(s: State) {
    && s.typed <= |s.message|
    && (!s.open ==> s.shown == [] && s.timer.None?)
    && (s.open ==>
          || (s.typed == 0 && s.shown == [] && s.timer == Some(StartDelayMs))
          || (0 < s.typed && s.shown == s.message[..s.typed] + [Cursor] && s.timer.Some?)
          || (s.typed == |s.message| && s.shown == s.message && s.timer.None?))
  }

  /** The `isOpen` effect: reset the text and (re)start the typewriter, or clear it. */
  function OnOpenChanged(s: State): State {
    if s.open then s.(typed := 0, shown := [], timer := Some(StartDelayMs))
    else s.(shown := [], timer := None)
  }

  /** One firing of `typeChar`. */
  function TypeChar(s: State, draw: real): State {
    if s.typed < |s.message| then
      s.(shown := s.message[..s.typed + 1] + [Cursor], typed := s.typed + 1, timer := Some(draw * 30.0 + 20.0))
    else
      s.(shown := s.message, timer := None)
  }

  /** Where the shells sit for a given opening progress. */
  function Shells(openProgress: real): (r: (real, real))
    ensures r.0 == -r.1
    ensures 0.0 <= openProgress <= 1.0 ==> 1.0 <= r.0 <= 2.5
    ensures r.0 - 1.0 == 1.5 * openProgress
  {
    (1.0 + openProgress * 1.5, -1.0 - openProgress * 1.5)
  }

  function Target(open: bool): real { if open then 1.0 else 0.0 }

  /** The closed capsule's idle spin, in radians per second. */
  function SpinRate(hovered: bool): real { if hovered then 2.0 else 0.5 }

  /**
   * The turn the open capsule eases through to face front, as written: the
   * yaw is reduced with `%`, and `diff + pi` is wrapped with `%` again. It
   * always aims at a front-facing yaw, but may turn through more than half a
   * turn, because `%` keeps the sign of a negative `diff + pi`.
   */
  function YawCorrection(rotY: real): (r: real)
    ensures -FullTurn < r < Pi
    ensures WholeTurns(rotY + r)
  {
    var current := RemTurn(rotY);
    var diff := 0.0 - current;
    var wrapped := RemTurn(diff + Pi);
    WholeTurnsDiff(rotY - current, diff + Pi - wrapped);
    assert rotY + (wrapped - Pi) == (rotY - current) - (diff + Pi - wrapped);
    wrapped - Pi
  }

  /** The intended shortest turn to a front-facing yaw: `diff + pi` wrapped into [0, 2 pi) before taking pi off. */
  function ShortestYaw(rotY: real): (r: real)
    ensures -Pi <= r < Pi
    ensures WholeTurns(rotY + r)
  {
    var current := RemTurn(rotY);
    var diff := 0.0 - current;
    var wrapped := FloorRemTurn(diff + Pi);
    WholeTurnsDiff(rotY - current, diff + Pi - wrapped);
    assert rotY + (wrapped - Pi) == (rotY - current) - (diff + Pi - wrapped);
    wrapped - Pi
  }

  /**
   * A yaw between half a turn and a full turn, which the idle spin reaches,
   * is turned back through more than half a turn; the shortest turn, forward
   * to the next full turn, is under half a turn.
   */
  lemma YawLockTakesLongWay(rotY: real)
    requires Pi < rotY < FullTurn
    ensures YawCorrection(rotY) == -rotY < -Pi
    ensures ShortestYaw(rotY) == FullTurn - rotY < Pi
  {
  }

  /** The capsule group's yaw after one frame: the idle spin while closed, the yaw lock while open. */
  function Yaw(open: bool, hovered: bool, rotY: real, delta: real): (r: real)
    requires delta > 0.0
    ensures !open ==> r > rotY
    ensures open && 4.0 * delta <= 1.0 ==> Between(rotY, r, rotY + YawCorrection(rotY))
  {
    if !open then rotY + delta * SpinRate(hovered)
    else Turn(rotY, YawCorrection(rotY), delta * 4.0)
  }

  /** `rotation.y += correction * t`: for t in [0, 1] the yaw stays between where it was and where the correction aims. */
  function Turn(rotY: real, correction: real, t: real): (r: real)
    ensures 0.0 <= t <= 1.0 ==> Between(rotY, r, rotY + correction)
  {
    ScaledWithin(correction, t);
    rotY + correction * t
  }

  /** The capsule group's wobble after one frame: a sine of the clock while closed, eased out while open. */
  function Wobble(open: bool, rotZ: real, delta: real, sinT: real): (r: real)
    requires Unit(sinT)
    ensures !open ==> -0.1 <= r <= 0.1
    ensures open && 0.0 <= 4.0 * delta <= 1.0 ==> Between(rotZ, r, 0.0)
  {
    if !open then sinT * 0.1 else Lerp(rotZ, 0.0, delta * 4.0)
  }

  /** Where the shortest correction is under half a turn, the written one agrees with it. */
  lemma YawLockAgreesWithinHalfTurn(rotY: real)
    requires -Pi < RemTurn(rotY) <= Pi
    ensures YawCorrection(rotY) == ShortestYaw(rotY)
  {
  }

  function Step(s: State, e: Event): (o: Output)
    requires ValidEvent(e)
    // the text is always empty, a prefix plus one cursor, or the full message
    ensures TextInv(s) ==> TextInv(o.state)
    // a click toggles the capsule
    ensures e.Click? ==> o.state.open == !s.open
    // opening resets the text and starts typing after 500 ms; closing clears text and timeout
    ensures e.Click? && !s.open ==> o.state.shown == [] && o.state.typed == 0 && o.state.timer == Some(500.0)
    ensures e.Click? && s.open ==> o.state.shown == [] && o.state.timer.None?
    // each firing shows the first k+1 characters and one cursor, and waits 20 to 50 ms
    ensures e.TypeTimer? && s.timer.Some? && s.typed < |s.message| ==>
      && o.state.typed == s.typed + 1
      && o.state.shown == s.message[..s.typed + 1] + [Cursor]
      && o.state.timer.Some? && 20.0 <= o.state.timer.value < 50.0
    // after the last character the full message shows without a cursor
    ensures e.TypeTimer? && s.timer.Some? && s.typed >= |s.message| ==> o.state.shown == s.message && o.state.timer.None?
    // the message itself never changes
    ensures o.state.message == s.message
    // a cleared timeout never fires
    ensures e.TypeTimer? && s.timer.None? ==> o.state == s
    ensures e.Unmount? ==> o.state.timer.None?
    // the pointer shows the hand exactly while it is over the capsule
    ensures e.PointerOver? ==> o.state == s.(hovered := true, pointerCursor := true)
    ensures e.PointerOut? ==> o.state == s.(hovered := false, pointerCursor := false)
    // closed, the capsule spins forward and wobbles by at most 0.1
    ensures e.Tick? && !s.open ==> o.state.rotY > s.rotY && -0.1 <= o.state.rotZ <= 0.1
    // open, with 4 * delta <= 1, it turns toward a front-facing yaw and straightens its wobble
    ensures e.Tick? && s.open && 4.0 * e.delta <= 1.0 ==>
      && Between(s.rotY, o.state.rotY, s.rotY + YawCorrection(s.rotY))
      && WholeTurns(s.rotY + YawCorrection(s.rotY))
      && Between(s.rotZ, o.state.rotZ, 0.0)
    // the core turns backward on every frame, open or closed
    ensures e.Tick? ==> o.state.coreRotY < s.coreRotY
    // with 5 * delta <= 1 the progress values stay in [0, 1] and move toward the target
    ensures e.Tick? && 0.0 <= s.openProgress <= 1.0 && 0.0 <= s.beamProgress <= 1.0 && 5.0 * e.delta <= 1.0 ==>
      && Between(s.openProgress, o.state.openProgress, Target(s.open))
      && Between(s.beamProgress, o.state.beamProgress, Target(s.open))
      && 0.0 <= o.state.openProgress <= 1.0 && 0.0 <= o.state.beamProgress <= 1.0
    // the shells mirror each other, and the beam shows iff its progress exceeds 0.01
    ensures e.Tick? ==>
      && o.frame.Some?
      && o.frame.value.topY == -o.frame.value.bottomY
      && (0.0 <= o.state.openProgress <= 1.0 ==> 1.0 <= o.frame.value.topY <= 2.5)
      && (o.frame.value.beamVisible <==> o.state.beamProgress > 0.01)
  {
    match e
    case Click => Output(OnOpenChanged(s.(open := !s.open)), None)
    case PointerOver => Output(s.(hovered := true, pointerCursor := true), None)
    case PointerOut => Output(s.(hovered := false, pointerCursor := false), None)
    case TypeTimer(draw) =>
      if s.timer.Some? then Output(TypeChar(s, draw), None) else Output(s, None)
    case Unmount => Output(s.(mounted := false, timer := None), None)
    case Tick(delta, sinT, sin6t) =>
      var rotY := Yaw(s.open, s.hovered, s.rotY, delta);
      var rotZ := Wobble(s.open, s.rotZ, delta, sinT);
      var op := Lerp(s.openProgress, Target(s.open), delta * 3.0);
      var bp := Lerp(s.beamProgress, Target(s.open), delta * 5.0);
      var shells := Shells(op);
      var pulse := 1.0 + sin6t * 0.1;
      Output(s.(rotY := rotY, rotZ := rotZ, coreRotY := s.coreRotY - delta * 2.0, openProgress := op, beamProgress := bp),
             Some(Frame(shells.0, shells.1, 0.8 + op * 0.5 * pulse, bp, bp > 0.01)))
  }

  /** While closed, a hovered capsule spins four times as fast as an idle one, half a radian per second. */
  lemma HoverSpinsFaster(s: State, delta: real, sinT: real, sin6t: real)
    requires !s.open && delta > 0.0 && Unit(sinT) && Unit(sin6t)
    ensures var idle := Step(s.(hovered := false), Tick(delta, sinT, sin6t)).state.rotY - s.rotY;
      && idle == 0.5 * delta
      && Step(s.(hovered := true), Tick(delta, sinT, sin6t)).state.rotY - s.rotY == 4.0 * idle
  {
  }

  /** Fires the pending typing timeout once per draw. */
  function Typing(s: State, draws: seq<real>): State
    requires forall i :: 0 <= i < |draws| ==> 0.0 <= draws[i] < 1.0
    decreases |draws|
  {
    if draws == [] then s else Typing(Step(s, TypeTimer(draws[0])).state, draws[1..])
  }

  /** After `j` further firings the first `typed + j` characters and the cursor show. */
  lemma {:induction false} TypingShowsPrefix(s: State, draws: seq<real>)
    requires forall i :: 0 <= i < |draws| ==> 0.0 <= draws[i] < 1.0
    requires s.open && s.timer.Some? && s.typed + |draws| <= |s.message|
    ensures Typing(s, draws).message == s.message
    ensures Typing(s, draws).typed == s.typed + |draws|
    ensures Typing(s, draws).timer.Some? && Typing(s, draws).open
    ensures |draws| > 0 ==> Typing(s, draws).shown == s.message[..s.typed + |draws|] + [Cursor]
    decreases |draws|
  {
    if draws != [] {
      TypingShowsPrefix(Step(s, TypeTimer(draws[0])).state, draws[1..]);
    }
  }

  /**
   * Opening a closed capsule and letting the typewriter fire once per
   * character plus once more always ends on exactly the message, whatever
   * was shown before and whatever the random delays were: a re-open reaches
   * the identical final string.
   */
  lemma TypewriterCompletes(s: State, draws: seq<real>)
    requires !s.open
    requires |draws| == |s.message| + 1
    requires forall i :: 0 <= i < |draws| ==> 0.0 <= draws[i] < 1.0
    ensures Typing(Step(s, Click).state, draws).shown == s.message
    ensures Typing(Step(s, Click).state, draws).timer.None?
  {
    var reopened := Step(s, Click).state;
    var n := |s.message|;
    TypingShowsPrefix(reopened, draws[..n]);
    TypingSplit(reopened, draws[..n], draws[n..]);
    assert draws[..n] + draws[n..] == draws;
  }

  lemma {:induction false} TypingSplit(s: State, a: seq<real>, b: seq<real>)
    requires forall i :: 0 <= i < |a| ==> 0.0 <= a[i] < 1.0
    requires forall i :: 0 <= i < |b| ==> 0.0 <= b[i] < 1.0
    ensures forall i :: 0 <= i < |a + b| ==> 0.0 <= (a + b)[i] < 1.0
    ensures Typing(s, a + b) == Typing(Typing(s, a), b)
    decreases |a|
  {
    if a == [] {
      assert a + b == b;
    } else {
      assert (a + b)[1..] == a[1..] + b;
      TypingSplit(Step(s, TypeTimer(a[0])).state, a[1..], b);
    }
  }
}
