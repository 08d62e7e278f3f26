/**
 * The gift box: a click opens it for good. Every frame after that eases the
 * lid 10% of the remaining way toward its open pose, shows the cake, and
 * moves the 200 confetti pieces under gravity and drag.
 */
module GiftBox {
  import opened Anim

  const ConfettiCount: nat := 200
  const LidClosed: Vec3 := Vec3(0.0, 1.2, 0.0)
  const LidOpen: Vec3 := Vec3(0.0, 3.0, -1.0)
  /** The open lid's tilt about x: `-Math.PI / 4`. */
  const LidOpenTilt: real := -Pi / 4.0
  const LidEase: real := 0.1
  const Gravity: real := 0.005
  const Drag: real := 0.99

  /** One confetto's fixed data: start position, velocity, hue, scale and spin rates about x and y. */
  datatype Confetto = Confetto(start: Vec3, vel: Vec3, hue: real, scale: real, spinX: real, spinY: real)

  /** The mesh a confetto drives: its position and rotation about x and y. */
  datatype Piece = Piece(pos: Vec3, rotX: real, rotY: real)

  /** The nine `Math.random()` draws that make one confetto, in source order. */
  datatype Draws = Draws(px: real, pz: real, vx: real, vy: real, vz: real, hue: real, scale: real, rx: real, ry: real)

  predicate Draw(r: real) { 0.0 <= r < 1.0 }

  predicate ValidDraws(d: Draws) {
    Draw(d.px) && Draw(d.pz) && Draw(d.vx) && Draw(d.vy) && Draw(d.vz)
    && Draw(d.hue) && Draw(d.scale) && Draw(d.rx) && Draw(d.ry)
  }

  function MakeConfetto(d: Draws): (c: Confetto)
    requires ValidDraws(d)
    ensures -0.5 <= c.start.x <= 0.5 && c.start.y == 0.0 && -0.5 <= c.start.z <= 0.5
    ensures -0.15 <= c.vel.x <= 0.15 && 0.1 <= c.vel.y < 0.5 && -0.15 <= c.vel.z <= 0.15
    ensures 0.5 <= c.scale < 1.0 && 0.0 <= c.hue < 1.0
    ensures 0.0 <= c.spinX < Pi && 0.0 <= c.spinY < Pi
  {
    ScaledWithin(Pi, d.rx);
    ScaledWithin(Pi, d.ry);
    Confetto(
      Vec3((d.px - 0.5) * 1.0, 0.0, (d.pz - 0.5) * 1.0),
      Vec3((d.vx - 0.5) * 0.3, d.vy * 0.4 + 0.1, (d.vz - 0.5) * 0.3),
      d.hue,
      d.scale * 0.5 + 0.5,
      d.rx * Pi, d.ry * Pi)
  }

  /** The confetti are drawn once, on mount: 200 of them, each upward-bound at first. */
  function MakeConfetti(draws: seq<Draws>): (cs: seq<Confetto>)
    requires |draws| == ConfettiCount
    requires forall i :: 0 <= i < |draws| ==> ValidDraws(draws[i])
    ensures |cs| == 200
    ensures forall i :: 0 <= i < |cs| ==> cs[i].vel.y > 0.0 && 0.5 <= cs[i].scale < 1.0
  {
    seq(ConfettiCount, i requires 0 <= i < ConfettiCount => MakeConfetto(draws[i]))
  }

  datatype State = State(
    isOpen: bool,
    pointerCursor: bool,
    lidPos: Vec3,
    lidTilt: real,
    confetti: seq<Confetto>, // velocities evolve; start, hue, scale and spin do not
    pieces: seq<Piece>
  )

  function Initial(draws: seq<Draws>): State
    requires |draws| == ConfettiCount
    requires forall i :: 0 <= i < |draws| ==> ValidDraws(draws[i])
  {
    var cs := MakeConfetti(draws);
    State(false, false, LidClosed, 0.0, cs,
          seq(|cs|, i requires 0 <= i < |cs| => Piece(cs[i].start, 0.0, 0.0)))
  }

  ghost predicate Inv(s: State) { |s.confetti| == |s.pieces| }

  datatype Event = Tick(delta: real) | Click | PointerOver | PointerOut

  /** One confetto's update: move by the current velocity, spin, then gravity and drag. */
  function Fly(c: Confetto, p: Piece, delta: real): (Confetto, Piece) {
    var pos := Vec3(p.pos.x + c.vel.x, p.pos.y + c.vel.y, p.pos.z + c.vel.z);
    var vel := Vec3(c.vel.x, c.vel.y - Gravity, c.vel.z).Scale(Drag);
    (c.(vel := vel), Piece(pos, p.rotX + c.spinX * delta * 2.0, p.rotY + c.spinY * delta * 2.0))
  }

  function Step(s: State, e: Event): (r: State)
    requires Inv(s)
    ensures Inv(r) && |r.confetti| == |s.confetti|
    // opening is one-way and only a click does it
    ensures s.isOpen ==> r.isOpen
    ensures !s.isOpen && r.isOpen ==> e.Click?
    // nothing moves while the box is shut
    ensures !s.isOpen ==> r.lidPos == s.lidPos && r.lidTilt == s.lidTilt && r.pieces == s.pieces && r.confetti == s.confetti
    // an open frame closes 10% of the lid's remaining way to its open pose
    ensures e.Tick? && s.isOpen ==>
      && r.lidPos.Sub(LidOpen) == s.lidPos.Sub(LidOpen).Scale(0.9)
      && r.lidTilt - LidOpenTilt == 0.9 * (s.lidTilt - LidOpenTilt)
    // confetti: gravity and 1% drag per frame; each confetto keeps its own spin, hue and scale
    ensures e.Tick? && s.isOpen ==> forall i :: 0 <= i < |s.confetti| ==>
      && r.confetti[i].vel.x == 0.99 * s.confetti[i].vel.x
      && r.confetti[i].vel.y + 0.495 == 0.99 * (s.confetti[i].vel.y + 0.495)
      && r.pieces[i].pos.y == s.pieces[i].pos.y + s.confetti[i].vel.y
      && r.confetti[i].spinX == s.confetti[i].spinX && r.confetti[i].scale == s.confetti[i].scale
    ensures e.Click? ==> r == s.(isOpen := true)
  {
    match e
    case Click => s.(isOpen := true)
    case PointerOver => s.(pointerCursor := true)
    case PointerOut => s.(pointerCursor := false)
    case Tick(delta) =>
      if !s.isOpen then s
      else
        var flown := seq(|s.confetti|, i requires 0 <= i < |s.confetti| => Fly(s.confetti[i], s.pieces[i], delta));
        s.(lidPos := LerpVec(s.lidPos, LidOpen, LidEase),
           lidTilt := Lerp(s.lidTilt, LidOpenTilt, LidEase),
           confetti := seq(|flown|, i requires 0 <= i < |flown| => flown[i].0),
           pieces := seq(|flown|, i requires 0 <= i < |flown| => flown[i].1))
  }

  /** `n` frames of the given lengths (the lid's ease does not depend on them). */
  function Frames(s: State, deltas: seq<real>): State
    requires Inv(s)
    decreases |deltas|
  {
    if deltas == [] then s else Frames(Step(s, Tick(deltas[0])), deltas[1..])
  }

  /**
   * The lid's gap to its open position shrinks to exactly `0.9^n` of what it
   * was after `n` open frames, whatever the frame times: the lid approaches
   * but never passes its open pose.
   */
  lemma {:induction false} LidConverges(s: State, deltas: seq<real>)
    requires Inv(s) && s.isOpen
    ensures Frames(s, deltas).lidPos.x - LidOpen.x == Pow(0.9, |deltas|) * (s.lidPos.x - LidOpen.x)
    ensures Frames(s, deltas).lidPos.y - LidOpen.y == Pow(0.9, |deltas|) * (s.lidPos.y - LidOpen.y)
    ensures Frames(s, deltas).lidPos.z - LidOpen.z == Pow(0.9, |deltas|) * (s.lidPos.z - LidOpen.z)
    decreases |deltas|
  {
    if deltas != [] {
      var s' := Step(s, Tick(deltas[0]));
      LidConverges(s', deltas[1..]);
      var p := Pow(0.9, |deltas| - 1);
      var f := Frames(s', deltas[1..]);
      assert f == Frames(s, deltas);
      var a, a' := s.lidPos, s'.lidPos;
      assert a'.x - LidOpen.x == 0.9 * (a.x - LidOpen.x);
      assert a'.y - LidOpen.y == 0.9 * (a.y - LidOpen.y);
      assert a'.z - LidOpen.z == 0.9 * (a.z - LidOpen.z);
      Geometric(0.9, p, a.x, a'.x, f.lidPos.x, LidOpen.x);
      Geometric(0.9, p, a.y, a'.y, f.lidPos.y, LidOpen.y);
      Geometric(0.9, p, a.z, a'.z, f.lidPos.z, LidOpen.z);
    }
  }

  /** The same geometric approach for the lid's tilt toward -45 degrees. */
  lemma {:induction false} LidTiltConverges(s: State, deltas: seq<real>)
    requires Inv(s) && s.isOpen
    ensures Frames(s, deltas).lidTilt - LidOpenTilt == Pow(0.9, |deltas|) * (s.lidTilt - LidOpenTilt)
    decreases |deltas|
  {
    if deltas != [] {
      var s' := Step(s, Tick(deltas[0]));
      LidTiltConverges(s', deltas[1..]);
      var f := Frames(s', deltas[1..]);
      assert f == Frames(s, deltas);
      Geometric(0.9, Pow(0.9, |deltas| - 1), s.lidTilt, s'.lidTilt, f.lidTilt, LidOpenTilt);
    }
  }

  /**
   * Each confetto's horizontal speed decays as `0.99^n` and its vertical
   * speed approaches the terminal speed -0.495 as `0.99^n`: every piece
   * eventually falls, and none speeds up sideways.
   */
  lemma {:induction false} ConfettiDecay(s: State, deltas: seq<real>, i: nat)
    requires Inv(s) && s.isOpen && i < |s.confetti|
    ensures |Frames(s, deltas).confetti| == |s.confetti|
    ensures Frames(s, deltas).confetti[i].vel.x == Pow(0.99, |deltas|) * s.confetti[i].vel.x
    ensures Frames(s, deltas).confetti[i].vel.y + 0.495 == Pow(0.99, |deltas|) * (s.confetti[i].vel.y + 0.495)
    decreases |deltas|
  {
    if deltas != [] {
      var s' := Step(s, Tick(deltas[0]));
      ConfettiDecay(s', deltas[1..], i);
      var p := Pow(0.99, |deltas| - 1);
      var f := Frames(s', deltas[1..]);
      assert f == Frames(s, deltas);
      Geometric(0.99, p, s.confetti[i].vel.x, s'.confetti[i].vel.x, f.confetti[i].vel.x, 0.0);
      Geometric(0.99, p, s.confetti[i].vel.y, s'.confetti[i].vel.y, f.confetti[i].vel.y, -0.495);
    }
  }

  /** What is on screen: the cake, the wish and the sparkles, and the confetti group. */
  datatype View = View(surprise: bool, confetti: Option<seq<Piece>>)

  function Render(s: State): (v: View)
    ensures v.surprise <==> s.isOpen
    ensures v.confetti.Some? <==> s.isOpen
    ensures v.confetti.Some? ==> |v.confetti.value| == |s.pieces|
  {
    View(s.isOpen, if s.isOpen then Some(s.pieces) else None)
  }
}
