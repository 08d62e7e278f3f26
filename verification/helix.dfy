/**
 * The memory helix: two strands of 30 glass frames each, wound around the
 * vertical axis and joined by a bond at every other step. Scrolling lifts and
 * spins the whole helix; hovering a frame pops it forward and makes it glow.
 */
module Helix {
  import opened Anim
  import opened Text

  const CuratedImages: seq<string> := [
    "https://images.unsplash.com/photo-1451187580459-43490279c0fa?w=500&q=80",
    "https://images.unsplash.com/photo-1446776811953-b23d57bd21aa?w=500&q=80",
    "https://images.unsplash.com/photo-1534447677768-be436bb09401?w=500&q=80",
    "https://images.unsplash.com/photo-1518066000714-58c45f1a2c0a?w=500&q=80",
    "https://images.unsplash.com/photo-1464822759023-fed622ff2c3b?w=500&q=80"
  ]

  datatype Memory = Memory(year: int, title: string, desc: string, url: string)

  function MemoryAt(i: nat): Memory {
    Memory(1998 + i, "Memory Fragment " + NatToString(i + 1), "A moment frozen in time.", CuratedImages[i % |CuratedImages|])
  }

  /** The twenty memories: years 1998 to 2017, numbered from 1, cycling through the five images. */
  function Memories(): (ms: seq<Memory>)
    ensures |ms| == 20 && forall i :: 0 <= i < 20 ==> ms[i] == MemoryAt(i)
  {
    seq(20, i requires 0 <= i < 20 => MemoryAt(i))
  }

  const Steps: nat := 30
  const Radius: real := 3.5
  const YSpacing: real := 2.0

  datatype Item = Item(pos: Vec3, rotY: real, data: Memory, id: string)
  datatype Bond = Bond(p1: Vec3, p2: Vec3, id: string)

  /** The twist angle of step `i`: `i * 0.6`. */
  function Twist(i: nat): real { (i as real) * 0.6 }

  function Height(i: nat): real { -(i as real) * YSpacing }

  function PointA(i: nat, cos: real -> real, sin: real -> real): Vec3 {
    Vec3(Radius * cos(Twist(i)), Height(i), Radius * sin(Twist(i)))
  }

  /** Strand B is strand A turned by a half turn: `t + Math.PI`. */
  function PointB(i: nat, cos: real -> real, sin: real -> real): Vec3 {
    Vec3(Radius * cos(Twist(i) + Pi), Height(i), Radius * sin(Twist(i) + Pi))
  }

  function ItemA(i: nat, cos: real -> real, sin: real -> real): Item {
    Item(PointA(i, cos, sin), -Twist(i) - Pi / 2.0, Memories()[i % |Memories()|], "A" + NatToString(i))
  }

  function ItemB(i: nat, cos: real -> real, sin: real -> real): Item {
    Item(PointB(i, cos, sin), -(Twist(i) + Pi) - Pi / 2.0, Memories()[(i + 5) % |Memories()|], "B" + NatToString(i))
  }

  function BondAt(i: nat, cos: real -> real, sin: real -> real): Bond {
    Bond(PointA(i, cos, sin), PointB(i, cos, sin), "bond" + NatToString(i))
  }

  /** Item `k` of the generated list: even positions are strand A, odd ones strand B, of step `k / 2`. */
  function ItemSpec(k: nat, cos: real -> real, sin: real -> real): Item {
    if k % 2 == 0 then ItemA(k / 2, cos, sin) else ItemB(k / 2, cos, sin)
  }

  /** `a(0), b(0), a(1), b(1), ...` up to step `i`. */
  function Interleave<T>(a: nat -> T, b: nat -> T, i: nat): seq<T>
    decreases i
  {
    if i == 0 then [] else Interleave(a, b, i - 1) + [a(i - 1), b(i - 1)]
  }

  lemma {:induction false} InterleaveShape<T>(a: nat -> T, b: nat -> T, i: nat)
    ensures |Interleave(a, b, i)| == 2 * i
    ensures forall j :: 0 <= j < i ==> Interleave(a, b, i)[2 * j] == a(j) && Interleave(a, b, i)[2 * j + 1] == b(j)
    decreases i
  {
    if i > 0 {
      var prev := Interleave(a, b, i - 1);
      InterleaveShape(a, b, i - 1);
      forall j | 0 <= j < i - 1
        ensures Interleave(a, b, i)[2 * j] == a(j) && Interleave(a, b, i)[2 * j + 1] == b(j)
      {
        assert Interleave(a, b, i)[2 * j] == prev[2 * j];
        assert Interleave(a, b, i)[2 * j + 1] == prev[2 * j + 1];
      }
    }
  }

  /** The items the loop has pushed after `i` steps. */
  function ItemsUpTo(i: nat, cos: real -> real, sin: real -> real): seq<Item>
    decreases i
  {
    if i == 0 then [] else ItemsUpTo(i - 1, cos, sin) + [ItemA(i - 1, cos, sin), ItemB(i - 1, cos, sin)]
  }

  lemma {:induction false} ItemsAreInterleaved(i: nat, cos: real -> real, sin: real -> real)
    ensures ItemsUpTo(i, cos, sin) == Interleave(j => ItemA(j, cos, sin), j => ItemB(j, cos, sin), i)
    decreases i
  {
    if i > 0 {
      ItemsAreInterleaved(i - 1, cos, sin);
    }
  }

  /** The bonds the loop has pushed after `i` steps: one for every even step. */
  function BondsUpTo(i: nat, cos: real -> real, sin: real -> real): seq<Bond>
    decreases i
  {
    if i == 0 then []
    else BondsUpTo(i - 1, cos, sin) + (if (i - 1) % 2 == 0 then [BondAt(i - 1, cos, sin)] else [])
  }

  lemma {:induction false} ItemsUpToShape(i: nat, cos: real -> real, sin: real -> real)
    ensures |ItemsUpTo(i, cos, sin)| == 2 * i
    ensures forall j :: 0 <= j < i ==>
      ItemsUpTo(i, cos, sin)[2 * j] == ItemA(j, cos, sin) && ItemsUpTo(i, cos, sin)[2 * j + 1] == ItemB(j, cos, sin)
    decreases i
  {
    ItemsAreInterleaved(i, cos, sin);
    InterleaveShape(j => ItemA(j, cos, sin), j => ItemB(j, cos, sin), i);
  }

  lemma {:induction false} BondsUpToShape(i: nat, cos: real -> real, sin: real -> real)
    ensures 2 * |BondsUpTo(i, cos, sin)| == i + i % 2
    ensures forall k :: 0 <= k < |BondsUpTo(i, cos, sin)| ==> BondsUpTo(i, cos, sin)[k] == BondAt(2 * k, cos, sin)
    decreases i
  {
    BondsAreEveryOther(i, cos, sin);
    EveryOtherShape(j => BondAt(j, cos, sin), i);
  }

  /** `a(0), a(2), a(4), ...`: the values at the even steps below `i`. */
  function EveryOther<T>(a: nat -> T, i: nat): seq<T>
    decreases i
  {
    if i == 0 then [] else EveryOther(a, i - 1) + (if (i - 1) % 2 == 0 then [a(i - 1)] else [])
  }

  lemma {:induction false} EveryOtherShape<T>(a: nat -> T, i: nat)
    ensures 2 * |EveryOther(a, i)| == i + i % 2
    ensures forall k :: 0 <= k < |EveryOther(a, i)| ==> EveryOther(a, i)[k] == a(2 * k)
    decreases i
  {
    if i > 0 {
      EveryOtherShape(a, i - 1);
      NextParity(i - 1);
    }
  }

  lemma {:induction false} BondsAreEveryOther(i: nat, cos: real -> real, sin: real -> real)
    ensures BondsUpTo(i, cos, sin) == EveryOther(j => BondAt(j, cos, sin), i)
    decreases i
  {
    if i > 0 {
      BondsAreEveryOther(i - 1, cos, sin);
    }
  }

  lemma NextParity(i: nat)
    ensures (i + 1) % 2 == 1 - i % 2
  {
  }

  /** The geometry generation loop: two frames per step, a bond on every even step. */
  method Generate(cos: real -> real, sin: real -> real) returns (items: seq<Item>, bonds: seq<Bond>)
    ensures |items| == 2 * Steps && |bonds| == Steps / 2
    ensures forall k :: 0 <= k < |items| ==> items[k] == ItemSpec(k, cos, sin)
    ensures forall k :: 0 <= k < |bonds| ==> bonds[k] == BondAt(2 * k, cos, sin)
  {
    items, bonds := [], [];
    var i := 0;
    while i < Steps
      invariant 0 <= i <= Steps
      invariant items == ItemsUpTo(i, cos, sin) && bonds == BondsUpTo(i, cos, sin)
    {
      items := items + [ItemA(i, cos, sin), ItemB(i, cos, sin)];
      if i % 2 == 0 {
        bonds := bonds + [BondAt(i, cos, sin)];
      }
      i := i + 1;
    }
    ItemsMatchSpec(Steps, cos, sin);
    BondsUpToShape(Steps, cos, sin);
  }

  /** The pushed items, read by position: strand A at even positions, strand B at odd ones. */
  lemma ItemsMatchSpec(i: nat, cos: real -> real, sin: real -> real)
    ensures |ItemsUpTo(i, cos, sin)| == 2 * i
    ensures forall k :: 0 <= k < 2 * i ==> ItemsUpTo(i, cos, sin)[k] == ItemSpec(k, cos, sin)
  {
    ItemsUpToShape(i, cos, sin);
    forall k | 0 <= k < 2 * i
      ensures ItemsUpTo(i, cos, sin)[k] == ItemSpec(k, cos, sin)
    {
      var j := k / 2;
      assert k == 2 * j || k == 2 * j + 1;
    }
  }

  /** Item `k`'s key: its strand letter and its step number. */
  function ItemId(k: nat): string {
    (if k % 2 == 0 then "A" else "B") + NatToString(k / 2)
  }

  /** "A" and "B" keys never collide, nor do the keys of two steps. */
  lemma ItemIdInjective(j: nat, k: nat)
    requires j != k
    ensures ItemId(j) != ItemId(k)
  {
    var a, b := ItemId(j), ItemId(k);
    var x, y := NatToString(j / 2), NatToString(k / 2);
    if a == b {
      assert a[0] == b[0];
      assert j % 2 == k % 2;
      assert a[1..] == x && b[1..] == y;
      NatToStringInjective(j / 2, k / 2);
    }
  }

  /** Every generated frame has its own key: the key of item `k` is `ItemId(k)`, and no two items share one. */
  lemma ItemIdsDistinct(j: nat, k: nat, cos: real -> real, sin: real -> real)
    requires j != k
    ensures ItemSpec(j, cos, sin).id == ItemId(j)
    ensures ItemSpec(j, cos, sin).id != ItemSpec(k, cos, sin).id
  {
    ItemIdInjective(j, k);
  }

  /** Strand A takes the memories in order; strand B is five memories ahead. */
  lemma StrandData(i: nat, cos: real -> real, sin: real -> real)
    ensures ItemSpec(2 * i, cos, sin).data == MemoryAt(i % 20)
    ensures ItemSpec(2 * i + 1, cos, sin).data == MemoryAt((i + 5) % 20)
    ensures ItemSpec(2 * i, cos, sin).data.year == 1998 + i % 20
  {
    assert (2 * i) / 2 == i && (2 * i + 1) / 2 == i;
  }

  /**
   * The double-helix geometry: at step `i` both frames sit on the cylinder of
   * radius 3.5 at height `-2 i`, strand B diametrically opposite strand A, so
   * every bond is 7 long and crosses the axis at its midpoint.
   */
  lemma HelixGeometry(i: nat, cos: real -> real, sin: real -> real)
    requires TrigLaws(cos, sin)
    ensures var a := PointA(i, cos, sin); a.x * a.x + a.z * a.z == Radius * Radius
    ensures PointB(i, cos, sin).x == -PointA(i, cos, sin).x && PointB(i, cos, sin).z == -PointA(i, cos, sin).z
    ensures PointA(i, cos, sin).y == PointB(i, cos, sin).y == -2.0 * (i as real)
    ensures var d := PointB(i, cos, sin).Sub(PointA(i, cos, sin)); d.x * d.x + d.y * d.y + d.z * d.z == 49.0
    ensures ItemB(i, cos, sin).rotY == ItemA(i, cos, sin).rotY - Pi
  {
    var c, s := cos(Twist(i)), sin(Twist(i));
    assert c * c + s * s == 1.0;
    assert (Radius * c) * (Radius * c) + (Radius * s) * (Radius * s) == Radius * Radius * (c * c + s * s);
    var d := PointB(i, cos, sin).Sub(PointA(i, cos, sin));
    assert d.x == -2.0 * Radius * c && d.z == -2.0 * Radius * s && d.y == 0.0;
    assert d.x * d.x + d.z * d.z == 4.0 * Radius * Radius * (c * c + s * s);
  }

  // ---- interaction ----

  /** A frame's eased values: uniform scale, local z offset, glow intensity. */
  datatype Glass = Glass(scale: real, z: real, emissive: real)

  datatype State = State(hoveredId: Option<string>, pointerCursor: bool, groupY: real, groupRotY: real, frames: seq<Glass>)

  datatype Event =
    | PointerOver(id: string)
    | PointerOut(id: string)
    | Tick(delta: real, offset: real) // `offset` is the scroll offset in [0, 1]

  /** The hover callback `setHover(v)` of item `id`: set it on enter, clear any hover on leave. */
  function SetHover(hovered: Option<string>, id: string, v: bool): (r: Option<string>)
    ensures v ==> r == Some(id)
    ensures !v ==> r.None?
  {
    if v then Some(id) else None
  }

  /** One frame's easing toward its hover targets. */
  function GlassFrame(g: Glass, hovered: bool, delta: real): (r: Glass)
    ensures r.scale - (if hovered then 1.25 else 1.0) == (1.0 - 8.0 * delta) * (g.scale - (if hovered then 1.25 else 1.0))
    ensures r.z - (if hovered then 0.5 else 0.0) == (1.0 - 8.0 * delta) * (g.z - (if hovered then 0.5 else 0.0))
    ensures r.emissive - (if hovered then 2.0 else 0.0) == (1.0 - 5.0 * delta) * (g.emissive - (if hovered then 2.0 else 0.0))
    ensures 0.0 <= 8.0 * delta <= 1.0 && 0.0 <= g.emissive <= 2.0 ==> 0.0 <= r.emissive <= 2.0
  {
    Glass(
      Lerp(g.scale, if hovered then 1.25 else 1.0, delta * 8.0),
      Lerp(g.z, if hovered then 0.5 else 0.0, delta * 8.0),
      Lerp(g.emissive, if hovered then 2.0 else 0.0, delta * 5.0))
  }

  /** One frame's easing, as `GlassFrame` promises it: each eased value closes its share of the gap to its target. */
  predicate Eased(g: Glass, r: Glass, hovered: bool, delta: real) {
    && r.scale - (if hovered then 1.25 else 1.0) == (1.0 - 8.0 * delta) * (g.scale - (if hovered then 1.25 else 1.0))
    && r.z - (if hovered then 0.5 else 0.0) == (1.0 - 8.0 * delta) * (g.z - (if hovered then 0.5 else 0.0))
    && r.emissive - (if hovered then 2.0 else 0.0) == (1.0 - 5.0 * delta) * (g.emissive - (if hovered then 2.0 else 0.0))
  }

  /** Frame `k` shows the hover look: the hovered id is item `k`'s key. */
  predicate Hovers(s: State, k: nat) {
    s.hoveredId == Some(ItemId(k))
  }

  /** At most one frame is hovered: the hovered id names a single item. */
  lemma OneFrameHovered(s: State, j: nat, k: nat)
    requires Hovers(s, j) && Hovers(s, k)
    ensures j == k
  {
    if j != k {
      ItemIdInjective(j, k);
    }
  }

  /** The scroll target of the helix's height: `offset * 60 + 5`. */
  function ScrollTarget(offset: real): (y: real)
    ensures 0.0 <= offset <= 1.0 ==> 5.0 <= y <= 65.0
  {
    offset * ((Steps as real) * YSpacing) + 5.0
  }

  function Step(s: State, e: Event): (r: State)
    // entering a frame replaces any other hover, leaving any clears it
    ensures e.PointerOver? ==> r.hoveredId == Some(e.id)
    ensures e.PointerOut? ==> r.hoveredId.None?
    ensures e.Tick? ==> r.hoveredId == s.hoveredId && |r.frames| == |s.frames|
    // the helix eases toward the scroll target and spins two full turns over the scroll range
    ensures e.Tick? ==>
      && r.groupY - ScrollTarget(e.offset) == (1.0 - 3.0 * e.delta) * (s.groupY - ScrollTarget(e.offset))
      && r.groupRotY == -4.0 * Pi * e.offset
    // frame k eases toward the hover look exactly when it is the hovered item, the others toward rest
    ensures e.Tick? ==> forall k :: 0 <= k < |s.frames| ==> Eased(s.frames[k], r.frames[k], Hovers(s, k), e.delta)
  {
    match e
    case PointerOver(id) => s.(hoveredId := SetHover(s.hoveredId, id, true), pointerCursor := true)
    case PointerOut(id) => s.(hoveredId := SetHover(s.hoveredId, id, false), pointerCursor := false)
    case Tick(delta, offset) =>
      s.(groupY := Lerp(s.groupY, ScrollTarget(offset), delta * 3.0),
         groupRotY := -offset * Pi * 4.0,
         frames := seq(|s.frames|, k requires 0 <= k < |s.frames| => GlassFrame(s.frames[k], Hovers(s, k), delta)))
  }
}
