/**
 * The star-dust cursor overlay: a pool of 2D particles. A mouse move spawns
 * at most one particle at the pointer, a mouse press bursts ten at the last
 * recorded pointer position, and each animation frame moves every particle,
 * drains 0.02 of its life, removes the expired ones (a backward loop with
 * `splice`) and draws the rest. Hovering a button or link enlarges the cursor.
 */
module StarDust {
  import opened Anim

  datatype Particle = Particle(x: real, y: real, vx: real, vy: real, life: real, size: real)

  datatype State = State(particles: seq<Particle>, mouseX: real, mouseY: real, hovering: bool)

  /** Before any mouse event the recorded pointer sits off-screen at (-100, -100). */
  const Initial: State := State([], -100.0, -100.0, false)

  const LifeStep: real := 0.02
  const BurstCount: nat := 10

  predicate Draw(r: real) { 0.0 <= r < 1.0 }

  /** The four `Math.random()` draws of a mouse move: spawn test, vx, vy, size. */
  datatype MoveDraws = MoveDraws(spawn: real, vx: real, vy: real, size: real)

  /** The three draws for one particle of a burst: vx, vy, size. */
  datatype BurstDraws = BurstDraws(vx: real, vy: real, size: real)

  predicate ValidMoveDraws(d: MoveDraws) { Draw(d.spawn) && Draw(d.vx) && Draw(d.vy) && Draw(d.size) }
  predicate ValidBurstDraws(d: BurstDraws) { Draw(d.vx) && Draw(d.vy) && Draw(d.size) }

  /** A live particle as the pool keeps it: life in (0, 1], size at least 1. */
  predicate Healthy(p: Particle) { 0.0 < p.life <= 1.0 && p.size >= 1.0 }

  ghost predicate PoolInv(ps: seq<Particle>) {
    forall i :: 0 <= i < |ps| ==> Healthy(ps[i])
  }

  function TrailParticle(x: real, y: real, d: MoveDraws): Particle {
    Particle(x, y, (d.vx - 0.5) * 2.0, (d.vy - 0.5) * 2.0, 1.0, d.size * 4.0 + 1.0)
  }

  /** `onMouseMove`: record the pointer and, on a draw above 0.5, spawn one slow particle there. */
  function OnMouseMove(s: State, x: real, y: real, d: MoveDraws): (r: State)
    requires ValidMoveDraws(d)
    ensures r.mouseX == x && r.mouseY == y && r.hovering == s.hovering
    ensures d.spawn <= 0.5 ==> r.particles == s.particles
    ensures d.spawn > 0.5 ==>
      && |r.particles| == |s.particles| + 1
      && r.particles[..|s.particles|] == s.particles
      && var p := r.particles[|s.particles|];
         p.x == x && p.y == y && p.life == 1.0 && 1.0 <= p.size < 5.0
         && -1.0 <= p.vx <= 1.0 && -1.0 <= p.vy <= 1.0
    ensures PoolInv(s.particles) ==> PoolInv(r.particles)
  {
    var ps := if d.spawn > 0.5 then s.particles + [TrailParticle(x, y, d)] else s.particles;
    State(ps, x, y, s.hovering)
  }

  function BurstParticle(x: real, y: real, d: BurstDraws): Particle {
    Particle(x, y, (d.vx - 0.5) * 10.0, (d.vy - 0.5) * 10.0, 1.0, d.size * 6.0 + 2.0)
  }

  /** `onMouseDown`: ten particles at the last recorded pointer position. */
  function OnMouseDown(s: State, draws: seq<BurstDraws>): (r: State)
    requires |draws| == BurstCount
    requires forall i :: 0 <= i < |draws| ==> ValidBurstDraws(draws[i])
    ensures |r.particles| == |s.particles| + 10
    ensures r.particles[..|s.particles|] == s.particles
    ensures forall i :: |s.particles| <= i < |r.particles| ==>
      r.particles[i].x == s.mouseX && r.particles[i].y == s.mouseY && r.particles[i].life == 1.0
    ensures r.mouseX == s.mouseX && r.mouseY == s.mouseY
    ensures PoolInv(s.particles) ==> PoolInv(r.particles)
  {
    var burst := seq(BurstCount, i requires 0 <= i < BurstCount => BurstParticle(s.mouseX, s.mouseY, draws[i]));
    forall i | 0 <= i < |burst|
      ensures Healthy(burst[i])
    {
      assert ValidBurstDraws(draws[i]);
    }
    s.(particles := s.particles + burst)
  }

  /** One particle's update inside the frame loop: move by its velocity, lose 0.02 life. */
  function Move(p: Particle): Particle {
    p.(x := p.x + p.vx, y := p.y + p.vy, life := p.life - LifeStep)
  }

  /** Reference definition of a frame: move every particle, keep those still alive, in order. */
  function Advance(ps: seq<Particle>): (r: seq<Particle>)
    ensures |r| <= |ps|
    ensures forall i :: 0 <= i < |r| ==> r[i].life > 0.0
    decreases |ps|
  {
    if ps == [] then []
    else
      var q := Move(ps[0]);
      (if q.life <= 0.0 then [] else [q]) + Advance(ps[1..])
  }

  /** A circle drawn on the canvas: alpha is the remaining life, radius shrinks with it. */
  datatype Circle = Circle(x: real, y: real, radius: real, alpha: real)

  function CircleOf(p: Particle): Circle {
    Circle(p.x, p.y, p.size * p.life, p.life)
  }

  /**
   * The animation-frame loop: walks the pool from the back, updating each
   * particle in place and splicing out the expired ones, drawing the rest
   * as it goes (hence back to front).
   */
  method AnimationFrame(ps: seq<Particle>) returns (out: seq<Particle>, drawn: seq<Circle>)
    ensures out == Advance(ps)
    ensures |drawn| == |out|
    ensures forall k :: 0 <= k < |drawn| ==> drawn[k] == CircleOf(out[|out| - 1 - k])
  {
    out := ps;
    drawn := [];
    var i := |ps|;
    while i > 0
      invariant 0 <= i <= |ps|
      invariant out == ps[..i] + Advance(ps[i..])
      invariant |drawn| == |Advance(ps[i..])|
      invariant forall k :: 0 <= k < |drawn| ==>
        drawn[k] == CircleOf(Advance(ps[i..])[|drawn| - 1 - k])
    {
      i := i - 1;
      assert ps[i..][1..] == ps[i + 1..];
      ghost var rest := Advance(ps[i + 1..]);
      var p := Move(out[i]);
      if p.life <= 0.0 {
        out := out[..i] + out[i + 1..];
      } else {
        out := out[..i] + [p] + out[i + 1..];
        drawn := drawn + [CircleOf(p)];
      }
      assert ps[..i + 1][..i] == ps[..i];
    }
    assert ps[0..] == ps;
  }

  /** The pool after `n` frames with no spawning. */
  function AdvanceN(ps: seq<Particle>, n: nat): seq<Particle>
    decreases n
  {
    if n == 0 then ps else AdvanceN(Advance(ps), n - 1)
  }

  /** A frame keeps the pool healthy; drawn circles have positive alpha and radius. */
  lemma {:induction false} AdvanceKeepsHealthy(ps: seq<Particle>)
    requires PoolInv(ps)
    ensures PoolInv(Advance(ps))
    ensures forall i :: 0 <= i < |Advance(ps)| ==>
      CircleOf(Advance(ps)[i]).alpha > 0.0 && CircleOf(Advance(ps)[i]).radius > 0.0
    decreases |ps|
  {
    if ps != [] {
      AdvanceKeepsHealthy(ps[1..]);
      var r := Advance(ps);
      forall i | 0 <= i < |r|
        ensures CircleOf(r[i]).radius > 0.0
      {
        PositiveProduct(r[i].size, r[i].life);
      }
    }
  }

  lemma PositiveProduct(a: real, b: real)
    requires a > 0.0 && b > 0.0
    ensures a * b > 0.0
  {
  }

  /** A frame lowers any common bound on the lives by 0.02 (the exact loss is `AdvanceLosesOneStep`). */
  lemma {:induction false} AdvanceLowersLife(ps: seq<Particle>, bound: real)
    requires forall i :: 0 <= i < |ps| ==> ps[i].life <= bound
    ensures forall i :: 0 <= i < |Advance(ps)| ==> Advance(ps)[i].life <= bound - LifeStep
    decreases |ps|
  {
    if ps != [] {
      AdvanceLowersLife(ps[1..], bound);
    }
  }

  lemma {:induction false} AdvanceNLowersLife(ps: seq<Particle>, n: nat)
    requires forall i :: 0 <= i < |ps| ==> ps[i].life <= 1.0
    ensures forall i :: 0 <= i < |AdvanceN(ps, n)| ==> AdvanceN(ps, n)[i].life <= 1.0 - LifeStep * (n as real)
    decreases n
  {
    if n > 0 {
      AdvanceNLowersLife(ps, n - 1);
      AdvanceNSplit(ps, n - 1);
      AdvanceLowersLife(AdvanceN(ps, n - 1), 1.0 - LifeStep * ((n - 1) as real));
    }
  }

  lemma {:induction false} AdvanceNSplit(ps: seq<Particle>, n: nat)
    ensures AdvanceN(ps, n + 1) == Advance(AdvanceN(ps, n))
    decreases n
  {
    if n > 0 {
      AdvanceNSplit(Advance(ps), n - 1);
    }
  }

  /**
   * Without new spawns the pool never grows, and any particle spawned with
   * life at most 1 is gone after 50 = 1 / 0.02 frames.
   */
  lemma PoolDrains(ps: seq<Particle>)
    requires forall i :: 0 <= i < |ps| ==> ps[i].life <= 1.0
    ensures |Advance(ps)| <= |ps|
    ensures AdvanceN(ps, 50) == []
  {
    AdvanceNLowersLife(ps, 49);
    AdvanceNSplit(ps, 49);
    AdvanceExpires(AdvanceN(ps, 49));
  }

  /** Particles with at most one step of life left are all removed by the next frame. */
  lemma {:induction false} AdvanceExpires(ps: seq<Particle>)
    requires forall i :: 0 <= i < |ps| ==> ps[i].life <= LifeStep
    ensures Advance(ps) == []
    decreases |ps|
  {
    if ps != [] {
      AdvanceExpires(ps[1..]);
    }
  }

  /** `out[k]` is the moved particle found at original position `idx[k]`. */
  ghost predicate Picks(ps: seq<Particle>, out: seq<Particle>, idx: seq<nat>) {
    && |idx| == |out|
    && forall k :: 0 <= k < |idx| ==> idx[k] < |ps| && out[k] == Move(ps[idx[k]])
  }

  ghost predicate Increasing(idx: seq<nat>) {
    forall k, l :: 0 <= k < l < |idx| ==> idx[k] < idx[l]
  }

  /** Every particle still alive after its move, from position `from` on, is picked. */
  ghost predicate PicksAlive(ps: seq<Particle>, idx: seq<nat>, from: nat) {
    forall j :: from <= j < |ps| && Move(ps[j]).life > 0.0 ==> j in idx
  }

  function Shift(idx: seq<nat>): (r: seq<nat>)
    ensures |r| == |idx| && forall k :: 0 <= k < |r| ==> r[k] == idx[k] + 1
  {
    seq(|idx|, k requires 0 <= k < |idx| => idx[k] + 1)
  }

  /** An index map for the tail of the pool, shifted by one, is an index map for the pool from position 1. */
  lemma ShiftPicks(ps: seq<Particle>, rest: seq<Particle>, tail: seq<nat>)
    requires ps != []
    requires Picks(ps[1..], rest, tail) && Increasing(tail) && PicksAlive(ps[1..], tail, 0)
    ensures Picks(ps, rest, Shift(tail)) && Increasing(Shift(tail)) && PicksAlive(ps, Shift(tail), 1)
  {
    var sh := Shift(tail);
    forall k | 0 <= k < |sh|
      ensures sh[k] < |ps| && rest[k] == Move(ps[sh[k]])
    {
      assert ps[1..][tail[k]] == ps[sh[k]];
    }
    forall j | 1 <= j < |ps| && Move(ps[j]).life > 0.0
      ensures j in sh
    {
      assert ps[1..][j - 1] == ps[j];
      var k :| 0 <= k < |tail| && tail[k] == j - 1;
      assert sh[k] == j;
    }
  }

  /**
   * Order preservation, stated against an explicit index map: the frame's
   * result lists the moved particles at strictly increasing original
   * positions, and skips exactly the ones whose life ran out.
   */
  lemma {:induction false} AdvanceKeepsOrder(ps: seq<Particle>) returns (idx: seq<nat>)
    ensures Picks(ps, Advance(ps), idx)
    ensures Increasing(idx)
    ensures PicksAlive(ps, idx, 0)
    decreases |ps|
  {
    if ps == [] {
      idx := [];
    } else {
      var tail := AdvanceKeepsOrder(ps[1..]);
      var rest := Advance(ps[1..]);
      ShiftPicks(ps, rest, tail);
      var sh := Shift(tail);
      if Move(ps[0]).life <= 0.0 {
        assert Advance(ps) == rest;
        idx := sh;
      } else {
        assert Advance(ps) == [Move(ps[0])] + rest;
        ConsPicks(ps, rest, sh);
        idx := [0] + sh;
      }
    }
  }

  /** A surviving head particle is picked first, at position 0, ahead of the shifted tail map. */
  lemma ConsPicks(ps: seq<Particle>, rest: seq<Particle>, sh: seq<nat>)
    requires ps != [] && Move(ps[0]).life > 0.0
    requires Picks(ps, rest, sh) && Increasing(sh) && PicksAlive(ps, sh, 1)
    requires forall k :: 0 <= k < |sh| ==> sh[k] >= 1
    ensures Picks(ps, [Move(ps[0])] + rest, [0] + sh)
    ensures Increasing([0] + sh)
    ensures PicksAlive(ps, [0] + sh, 0)
  {
    var idx := [0] + sh;
    assert forall k :: 1 <= k < |idx| ==> idx[k] == sh[k - 1];
    assert idx[0] == 0;
  }

  /**
   * Every survivor of a frame is some particle of the old pool that lost
   * exactly 0.02 life and moved by its own velocity.
   */
  lemma AdvanceLosesOneStep(ps: seq<Particle>) returns (idx: seq<nat>)
    ensures |idx| == |Advance(ps)|
    ensures forall k :: 0 <= k < |idx| ==> idx[k] < |ps|
    ensures forall k :: 0 <= k < |idx| ==>
      && Advance(ps)[k].life == ps[idx[k]].life - LifeStep
      && Advance(ps)[k].x == ps[idx[k]].x + ps[idx[k]].vx
      && Advance(ps)[k].y == ps[idx[k]].y + ps[idx[k]].vy
  {
    idx := AdvanceKeepsOrder(ps);
  }

  /** One animation frame of the whole cursor state. */
  method Frame(s: State) returns (r: State, drawn: seq<Circle>)
    requires PoolInv(s.particles)
    ensures r == s.(particles := Advance(s.particles))
    ensures PoolInv(r.particles)
    ensures |r.particles| <= |s.particles|
    ensures forall k :: 0 <= k < |drawn| ==> drawn[k].alpha > 0.0 && drawn[k].radius > 0.0
  {
    var ps;
    ps, drawn := AnimationFrame(s.particles);
    AdvanceKeepsHealthy(s.particles);
    r := s.(particles := ps);
  }

  // ---- hover detection ----

  /** A DOM element: its tag name, its `role` attribute and its parent element. */
  datatype Element = Element(tagName: string, role: Option<string>, parent: Option<Element>)

  /** `e.closest('[role="button"]')` is not null: the element or an ancestor has role "button". */
  predicate WithinRoleButton(e: Element)
    decreases e
  {
    e.role == Some("button") || (e.parent.Some? && WithinRoleButton(e.parent.value))
  }

  /** `checkHover`: the cursor enlarges over buttons, links and role="button" regions. */
  function CheckHover(target: Element): bool {
    target.tagName == "BUTTON" || WithinRoleButton(target) || target.tagName == "A"
  }

  /** The element followed by its ancestors, nearest first. */
  function Ancestry(e: Element): (r: seq<Element>)
    ensures |r| >= 1 && r[0] == e
    decreases e
  {
    [e] + (if e.parent.Some? then Ancestry(e.parent.value) else [])
  }

  /** `closest` agrees with a search along the ancestor chain. */
  lemma WithinRoleButtonIsAncestorSearch(e: Element)
    ensures WithinRoleButton(e) <==> exists i :: 0 <= i < |Ancestry(e)| && Ancestry(e)[i].role == Some("button")
  {
    if WithinRoleButton(e) {
      var i := ButtonIndex(e);
    }
    if exists i :: 0 <= i < |Ancestry(e)| && Ancestry(e)[i].role == Some("button") {
      var i :| 0 <= i < |Ancestry(e)| && Ancestry(e)[i].role == Some("button");
      ButtonAtIndex(e, i);
    }
  }

  /** Where `closest` succeeds, the ancestor chain has a role="button" element at some position. */
  lemma {:induction false} ButtonIndex(e: Element) returns (i: nat)
    requires WithinRoleButton(e)
    ensures i < |Ancestry(e)| && Ancestry(e)[i].role == Some("button")
    decreases e
  {
    if e.role == Some("button") {
      i := 0;
    } else {
      var j := ButtonIndex(e.parent.value);
      assert Ancestry(e) == [e] + Ancestry(e.parent.value);
      i := j + 1;
    }
  }

  /** A role="button" element anywhere on the ancestor chain makes `closest` succeed. */
  lemma {:induction false} ButtonAtIndex(e: Element, i: nat)
    requires i < |Ancestry(e)| && Ancestry(e)[i].role == Some("button")
    ensures WithinRoleButton(e)
    decreases e
  {
    if i > 0 {
      assert e.parent.Some?;
      assert Ancestry(e) == [e] + Ancestry(e.parent.value);
      ButtonAtIndex(e.parent.value, i - 1);
    }
  }

  /** `mouseover` on the window: hovering becomes exactly the `checkHover` verdict. */
  function OnMouseOver(s: State, target: Element): (r: State)
    ensures r.hovering <==>
      target.tagName == "BUTTON" || target.tagName == "A"
      || exists i :: 0 <= i < |Ancestry(target)| && Ancestry(target)[i].role == Some("button")
    ensures r.particles == s.particles
  {
    WithinRoleButtonIsAncestorSearch(target);
    s.(hovering := CheckHover(target))
  }
}
