/**
 * The hub: five planets around a central projector. Hovering a planet
 * projects that module's hologram in the centre and stops the camera's
 * auto-rotation; leaving the planet group brings back the burning star.
 * Clicking a planet navigates to its route.
 */
module Hub {
  import opened Anim

  datatype Route = Home | Globe | Parchment | Stars | Gallery | Gift

  /** The URL path of each route. */
  function Path(r: Route): (p: string)
    ensures (p == "/") <==> r.Home?
  {
    match r
    case Home => "/"
    case Globe => "/globe"
    case Parchment => "/parchment"
    case Stars => "/stars"
    case Gallery => "/gallery"
    case Gift => "/gift"
  }

  /** Distinct routes have distinct paths, so a path names its route. */
  lemma PathInjective(a: Route, b: Route)
    ensures Path(a) == Path(b) <==> a == b
  {
    if a != b {
      assert Path(a)[1..] != Path(b)[1..] || |Path(a)| != |Path(b)|;
    }
  }

  /** The icon each planet draws, and the one the projector draws for it. */
  datatype Shape = WireframeGlobe | OrigamiHeart | ParticleConstellation | HolographicMemoryCube | MinimalBox

  datatype Planet = Planet(title: string, route: Route, color: string, position: Vec3, shape: Shape)

  const Planets: seq<Planet> := [
    Planet("Travel Globe", Globe, "#6b9bd1", Vec3(7.0, 0.0, 0.0), WireframeGlobe),
    Planet("Love Letter", Parchment, "#d16b9b", Vec3(2.16, 0.0, 6.66), OrigamiHeart),
    Planet("Compliments", Stars, "#d1c16b", Vec3(-5.66, 0.0, 4.12), ParticleConstellation),
    Planet("Gallery", Gallery, "#6bd19b", Vec3(-5.66, 0.0, -4.12), HolographicMemoryCube),
    Planet("Surprise!", Gift, "#9b6bd1", Vec3(2.16, 0.0, -6.66), MinimalBox)
  ]

  /** A route some planet leads to: every route except home. */
  predicate IsPlanetRoute(r: Route) { exists k :: 0 <= k < |Planets| && Planets[k].route == r }

  lemma PlanetRoutes(r: Route)
    ensures IsPlanetRoute(r) <==> !r.Home?
  {
    if !r.Home? {
      var k := match r
        case Globe => 0 case Parchment => 1 case Stars => 2 case Gallery => 3 case Gift => 4 case Home => 0;
      assert Planets[k].route == r;
    }
  }

  datatype State = State(
    hoveredModule: Option<Route>, // the route of the hovered planet, driving the projector
    planetHovered: seq<bool>,     // each planet's own `hovered` state
    pointerCursor: bool,          // document.body.style.cursor is 'pointer' (else 'auto')
    location: string,             // the router's current location path
    isMobile: bool,               // the `(max-width: 768px)` media query matches
    holoRotY: real,               // the projected hologram's turn about y
    pulse: real                   // the star's pulse-aura scale
  )

  const Initial: State := State(None, [false, false, false, false, false], false, "/", false, 0.0, 1.2)

  /**
   * Pointer over / out of planet `k` (bubbling to its `onHover` callback),
   * the pointer leaving the planet group, a click on planet `k`, a media
   * query change, and a frame with `sin 2t` sampled from the clock.
   */
  datatype Event =
    | PlanetOver(k: nat)
    | PlanetOut(k: nat)
    | GroupOut
    | PlanetClick(k: nat)
    | MediaChange(matches: bool)
    | Tick(delta: real, sin2t: real)

  predicate ValidEvent(e: Event) {
    && (e.PlanetOver? || e.PlanetOut? || e.PlanetClick? ==> e.k < |Planets|)
    && (e.Tick? ==> Unit(e.sin2t))
  }

  predicate ValidEvents(evs: seq<Event>) { forall i :: 0 <= i < |evs| ==> ValidEvent(evs[i]) }

  /**
   * What the projector is hovering over is always a planet, every planet has
   * its flag, and while the star shows there is no projector group to turn.
   */
  ghost predicate Inv(s: State) {
    && |s.planetHovered| == |Planets|
    && (s.hoveredModule.Some? ==> !s.hoveredModule.value.Home?)
    && (s.hoveredModule.None? ==> s.holoRotY == 0.0)
  }

  /** The star's breathing pulse: `1.2 + 0.1 sin 2t`. */
  function Pulse(sin2t: real): (k: real)
    requires Unit(sin2t)
    ensures 1.1 <= k <= 1.3
  {
    1.2 + sin2t * 0.1
  }

  function Step(s: State, e: Event): (r: State)
    requires ValidEvent(e)
    ensures Inv(s) ==> Inv(r)
    // hovering a planet selects its route; its own pointer-out leaves the selection alone
    ensures e.PlanetOver? ==> r.hoveredModule == Some(Planets[e.k].route)
    ensures e.PlanetOut? ==> r.hoveredModule == s.hoveredModule
    // only leaving the whole group clears it
    ensures e.GroupOut? ==> r.hoveredModule.None?
    // the projector group mounts afresh, unturned, when the first planet is hovered, and keeps
    // its turn while the hover moves between planets; leaving the group unmounts it and mounts
    // the star with its aura at scale 1.2
    ensures e.PlanetOver? && s.hoveredModule.None? ==> r.holoRotY == 0.0
    ensures e.PlanetOver? && s.hoveredModule.Some? ==> r.holoRotY == s.holoRotY
    ensures e.GroupOut? ==> r.holoRotY == 0.0
    ensures e.GroupOut? && s.hoveredModule.Some? ==> r.pulse == 1.2
    ensures r.hoveredModule.None? && s.hoveredModule.Some? ==> e.GroupOut?
    // the planet's own hover flag and the cursor follow its pointer events; other planets keep theirs
    ensures Inv(s) && (e.PlanetOver? || e.PlanetOut?) ==>
      && r.planetHovered[e.k] == e.PlanetOver? && r.pointerCursor == e.PlanetOver?
      && forall j :: 0 <= j < |Planets| && j != e.k ==> r.planetHovered[j] == s.planetHovered[j]
    // a click navigates to the planet's path and changes nothing else
    ensures e.PlanetClick? ==> r == s.(location := Path(Planets[e.k].route))
    ensures !e.PlanetClick? ==> r.location == s.location
    // a frame turns the hologram by 0.5 delta, or breathes the star within [1.1, 1.3]
    ensures e.Tick? && s.hoveredModule.Some? ==> r.holoRotY == s.holoRotY + 0.5 * e.delta && r.pulse == s.pulse
    ensures e.Tick? && s.hoveredModule.None? ==> 1.1 <= r.pulse <= 1.3 && r.holoRotY == s.holoRotY
  {
    match e
    case PlanetOver(k) =>
      s.(pointerCursor := true,
         planetHovered := if k < |s.planetHovered| then s.planetHovered[k := true] else s.planetHovered,
         hoveredModule := Some(Planets[k].route),
         holoRotY := if s.hoveredModule.None? then 0.0 else s.holoRotY)
    case PlanetOut(k) =>
      s.(pointerCursor := false,
         planetHovered := if k < |s.planetHovered| then s.planetHovered[k := false] else s.planetHovered)
    case GroupOut =>
      s.(hoveredModule := None, holoRotY := 0.0, pulse := if s.hoveredModule.Some? then 1.2 else s.pulse)
    case PlanetClick(k) => s.(location := Path(Planets[k].route))
    case MediaChange(m) => s.(isMobile := m)
    case Tick(delta, sin2t) =>
      if s.hoveredModule.Some? then s.(holoRotY := s.holoRotY + delta * 0.5)
      else s.(pulse := Pulse(sin2t))
  }

  function Run(s: State, evs: seq<Event>): State
    requires ValidEvents(evs)
    decreases |evs|
  {
    if evs == [] then s else Run(Step(s, evs[0]), evs[1..])
  }

  /** Only pointer-over and group pointer-out touch the selection. */
  predicate KeepsSelection(e: Event) { !e.PlanetOver? && !e.GroupOut? }

  /**
   * Once a planet is hovered, its hologram stays up through any run of
   * planet pointer-outs, clicks and frames: only a pointer-over of another
   * planet or leaving the group replaces it.
   */
  lemma {:induction false} SelectionSticks(s: State, evs: seq<Event>)
    requires ValidEvents(evs)
    requires forall i :: 0 <= i < |evs| ==> KeepsSelection(evs[i])
    ensures Run(s, evs).hoveredModule == s.hoveredModule
    decreases |evs|
  {
    if evs != [] {
      SelectionSticks(Step(s, evs[0]), evs[1..]);
    }
  }

  lemma {:induction false} RunKeepsInv(s: State, evs: seq<Event>)
    requires ValidEvents(evs) && Inv(s)
    ensures Inv(Run(s, evs))
    decreases |evs|
  {
    if evs != [] {
      RunKeepsInv(Step(s, evs[0]), evs[1..]);
    }
  }

  /**
   * After a click the location names exactly the clicked planet: the paths
   * of two different planets never coincide.
   */
  lemma ClickLocationNamesPlanet(s: State, k: nat, j: nat)
    requires k < |Planets| && j < |Planets|
    ensures Step(s, PlanetClick(k)).location == Path(Planets[j].route) <==> k == j
  {
    PathInjective(Planets[k].route, Planets[j].route);
  }

  /**
   * Leaving the planet group and hovering again starts the projection
   * unturned: one second of turning, a pointer-out of the group, a new
   * hover and a tenth of a second leave the hologram turned by 0.05 only.
   */
  lemma HologramRestartsAfterGroupOut()
    ensures Run(Initial, [PlanetOver(0), Tick(1.0, 0.0), GroupOut, PlanetOver(0), Tick(0.1, 0.0)]).holoRotY == 0.05
  {
    var evs := [PlanetOver(0), Tick(1.0, 0.0), GroupOut, PlanetOver(0), Tick(0.1, 0.0)];
    assert evs[1..] == [Tick(1.0, 0.0), GroupOut, PlanetOver(0), Tick(0.1, 0.0)];
    assert evs[2..] == [GroupOut, PlanetOver(0), Tick(0.1, 0.0)];
    assert evs[3..] == [PlanetOver(0), Tick(0.1, 0.0)];
    assert evs[4..] == [Tick(0.1, 0.0)];
  }

  /** One projected hologram: the icon, its colour, its caption and the group scale. */
  datatype Icon = Icon(shape: Shape, color: string, caption: string, scale: real)

  /** The projector shows the burning star, or the projector lights with the hovered module's icon. */
  datatype Hologram = BurningStar | Projector(icon: Option<Icon>)

  function CentralHologram(active: Option<Route>): (h: Hologram)
    ensures h.BurningStar? <==> active.None?
    ensures h.Projector? ==> (h.icon.Some? <==> !active.value.Home?)
  {
    match active
    case None => BurningStar
    case Some(r) =>
      Projector(match r
        case Home => None
        case Globe => Some(Icon(WireframeGlobe, "#00ffff", "PLANETARY SCAN", 1.0))
        case Parchment => Some(Icon(OrigamiHeart, "#ff00ff", "EMOTIONAL CORE", 1.5))
        case Stars => Some(Icon(ParticleConstellation, "#ffff00", "MEMORY CLOUD", 1.5))
        case Gallery => Some(Icon(HolographicMemoryCube, "#00ff00", "TIMELINE MATRIX", 1.5))
        case Gift => Some(Icon(MinimalBox, "#ff0000", "UNKNOWN ARTIFACT", 1.5)))
  }

  /**
   * Hovering planet `k` projects the same icon the planet wears, and two
   * different planets never project the same caption.
   */
  lemma HologramOfPlanet(k: nat, j: nat)
    requires k < |Planets| && j < |Planets|
    ensures CentralHologram(Some(Planets[k].route)).icon.Some?
    ensures CentralHologram(Some(Planets[k].route)).icon.value.shape == Planets[k].shape
    ensures k != j ==>
      CentralHologram(Some(Planets[k].route)).icon.value.caption != CentralHologram(Some(Planets[j].route)).icon.value.caption
  {
  }

  /** One planet as drawn: icon scale, label opacity, glow ring. */
  datatype PlanetView = PlanetView(scale: real, labelOpacity: real, ring: bool)

  function RenderPlanet(hovered: bool): (v: PlanetView)
    ensures v.scale == 1.15 <==> hovered
    ensures v.scale == 1.0 <==> !hovered
    ensures v.labelOpacity == 1.0 <==> hovered
    ensures v.labelOpacity == 0.6 <==> !hovered
    ensures v.ring <==> hovered
  {
    PlanetView(if hovered then 1.15 else 1.0, if hovered then 1.0 else 0.6, hovered)
  }

  /** The orbit controls and camera. */
  datatype View = View(hologram: Hologram, autoRotate: bool, enablePan: bool, camera: Vec3, planets: seq<PlanetView>)

  function Render(s: State): (v: View)
    requires Inv(s)
    ensures v.autoRotate <==> s.hoveredModule.None?
    ensures v.autoRotate <==> v.hologram.BurningStar?
    ensures v.hologram.Projector? ==> v.hologram.icon.Some?
    ensures v.enablePan <==> !s.isMobile
    ensures v.camera == if s.isMobile then Vec3(0.0, 5.0, 25.0) else Vec3(0.0, 5.0, 15.0)
    ensures |v.planets| == |Planets|
    ensures forall k :: 0 <= k < |Planets| ==> (v.planets[k].scale == 1.15 <==> s.planetHovered[k])
  {
    View(CentralHologram(s.hoveredModule), s.hoveredModule.None?, !s.isMobile,
         if s.isMobile then Vec3(0.0, 5.0, 25.0) else Vec3(0.0, 5.0, 15.0),
         seq(|Planets|, k requires 0 <= k < |Planets| => RenderPlanet(s.planetHovered[k])))
  }
}
