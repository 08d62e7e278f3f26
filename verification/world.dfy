/**
 * The globe: trips become markers (with a default colour by status) joined
 * by paths between consecutive trips of the same status; clicking the globe
 * reports the latitude and longitude under the pointer, and clicking a city
 * label reports that city as a new location.
 */
module World {
  import opened Anim

  /** A trip's `status` field: 'visited', 'planned' or 'new'. */
  datatype Status = Visited | Planned | New

  /**
   * One trip. `color` and `notes` may be absent; an empty colour string is as
   * good as absent, since the source tests it for truthiness.
   */
  datatype Trip = Trip(
    id: int,
    city: string,
    lat: real,
    lng: real,
    color: Option<string>,
    tag: string, // the trip's `label` field
    status: Status,
    notes: Option<string>
  )

  /**
   * A location picked on the globe or in the search: the point, plus a name
   * and a status when it came from a label or a search result.
   */
  datatype Selection = Selection(lat: real, lng: real, name: Option<string>, status: Option<Status>)

  const Radius: real := 2.5
  const VisitedColor: string := "#00ff88"
  const PlannedColor: string := "#ffaa00"

  /** `trip.color || (isVisited ? '#00ff88' : '#ffaa00')`. */
  function MarkerColor(t: Trip): (c: string)
    ensures t.color.Some? && t.color.value != "" ==> c == t.color.value
    ensures t.color.None? || t.color.value == "" ==> c == (if t.status.Visited? then VisitedColor else PlannedColor)
    ensures c != ""
  {
    if t.color.Some? && t.color.value != "" then t.color.value
    else if t.status.Visited? then VisitedColor else PlannedColor
  }

  /** Without an own colour, a marker's colour tells whether the trip was visited. */
  lemma DefaultColorTellsStatus(a: Trip, b: Trip)
    requires a.color.None? || a.color.value == ""
    requires b.color.None? || b.color.value == ""
    ensures MarkerColor(a) == MarkerColor(b) <==> (a.status.Visited? <==> b.status.Visited?)
  {
    assert VisitedColor[1] != PlannedColor[1];
  }

  /** A path drawn from the previous trip's marker to this one. */
  datatype PathView = PathView(color: string, dashed: bool)

  /** What the globe draws for one trip. */
  datatype TripView = TripView(color: string, tag: string, isNew: bool, path: Option<PathView>)

  function RenderTrip(trips: seq<Trip>, i: nat): TripView
    requires i < |trips|
  {
    var t := trips[i];
    var color := MarkerColor(t);
    TripView(color, t.tag, t.status.Planned? && i == |trips| - 1,
             if i > 0 && trips[i - 1].status == t.status then Some(PathView(color, !t.status.Visited?)) else None)
  }

  function RenderTrips(trips: seq<Trip>): (vs: seq<TripView>)
    ensures |vs| == |trips|
    // only the last trip can be new, and only while planned
    ensures forall i :: 0 <= i < |vs| ==> (vs[i].isNew <==> i == |trips| - 1 && trips[i].status.Planned?)
    // a path joins a trip to its predecessor exactly when both share a status; it is dashed unless visited
    ensures forall i :: 0 <= i < |vs| ==> (vs[i].path.Some? <==> i > 0 && trips[i - 1].status == trips[i].status)
    ensures forall i :: 0 <= i < |vs| && vs[i].path.Some? ==>
      vs[i].path.value.dashed == !trips[i].status.Visited? && vs[i].path.value.color == vs[i].color
    ensures forall i :: 0 <= i < |vs| ==> vs[i].color == MarkerColor(trips[i]) && vs[i].tag == trips[i].tag
  {
    seq(|trips|, i requires 0 <= i < |trips| => RenderTrip(trips, i))
  }

  /** How many of the first `n` views carry a path. */
  function PathsUpTo(vs: seq<TripView>, n: nat): nat
    requires n <= |vs|
  {
    if n == 0 then 0 else PathsUpTo(vs, n - 1) + (if vs[n - 1].path.Some? then 1 else 0)
  }

  /** How many of the first `n` trips change status from their predecessor. */
  function BreaksUpTo(trips: seq<Trip>, n: nat): nat
    requires n <= |trips|
  {
    if n <= 1 then 0 else BreaksUpTo(trips, n - 1) + (if trips[n - 2].status != trips[n - 1].status then 1 else 0)
  }

  /**
   * The paths cut the trip list into runs of equal status: every adjacent
   * pair is either joined by a path or is a change of status, never both.
   */
  lemma {:induction false} PathsAndBreaks(trips: seq<Trip>, n: nat)
    requires 1 <= n <= |trips|
    ensures PathsUpTo(RenderTrips(trips), n) + BreaksUpTo(trips, n) == n - 1
    decreases n
  {
    var vs := RenderTrips(trips);
    assert vs[n - 1].path.Some? <==> n > 1 && trips[n - 2].status == trips[n - 1].status;
    if n > 1 {
      PathsAndBreaks(trips, n - 1);
    }
  }

  /** A marker is scaled up by half while hovered and labelled while hovered or new. */
  datatype MarkerView = MarkerView(scale: real, labelShown: bool)

  function RenderMarker(hovered: bool, isNew: bool): (m: MarkerView)
    ensures m.labelShown <==> hovered || isNew
    ensures m.scale == 1.5 <==> hovered
    ensures m.scale == 1.0 <==> !hovered
  {
    MarkerView(if hovered then 1.5 else 1.0, hovered || isNew)
  }

  /** A marker's own state: its hover flag and whether it last set the pointer cursor to the hand. */
  datatype MarkerState = MarkerState(hovered: bool, pointerCursor: bool)

  datatype MarkerEvent = MarkerOver | MarkerOut

  /** The marker's pointer handlers: each sets the hover flag and the cursor together. */
  function MarkerStep(m: MarkerState, e: MarkerEvent): (r: MarkerState)
    ensures r.hovered <==> e.MarkerOver?
    ensures r.pointerCursor <==> e.MarkerOver?
  {
    match e
    case MarkerOver => MarkerState(true, true)
    case MarkerOut => MarkerState(false, false)
  }

  /** After any pointer event the marker is enlarged exactly while it shows the hand cursor. */
  lemma MarkerCursorMatchesScale(m: MarkerState, e: MarkerEvent, isNew: bool)
    ensures RenderMarker(MarkerStep(m, e).hovered, isNew).scale == 1.5 <==> MarkerStep(m, e).pointerCursor
    ensures MarkerStep(m, e).pointerCursor ==> RenderMarker(MarkerStep(m, e).hovered, isNew).labelShown
  {
  }

  /**
   * `handleSphereClick`: `phi = acos(y / r)` lies in [0, pi] and
   * `theta0 = atan2(z, -x)` in [-pi, pi]; both are given, as the trig
   * functions are not modelled. A drag of more than 2 pixels is not a click.
   */
  function SphereClick(pointerTravel: real, phi: real, theta0: real): (r: Option<Selection>)
    requires 0.0 <= phi <= Pi && -Pi <= theta0 <= Pi
    ensures r.None? <==> pointerTravel > 2.0
    ensures r.Some? ==> -90.0 <= r.value.lat <= 90.0 && -180.0 <= r.value.lng < 180.0
    ensures r.Some? ==> r.value.name.None? && r.value.status.None?
  {
    if pointerTravel > 2.0 then None
    else
      var theta := if theta0 < 0.0 then theta0 + Pi * 2.0 else theta0;
      Some(Selection(90.0 - phi * 180.0 / Pi, theta * 180.0 / Pi - 180.0, None, None))
  }

  /** The spherical angles `latLngToVector3` derives from a latitude and longitude. */
  function Angles(lat: real, lng: real): (real, real) {
    ((90.0 - lat) * (Pi / 180.0), (lng + 180.0) * (Pi / 180.0))
  }

  /**
   * A click and `latLngToVector3` are inverse on the angles: the reported
   * point maps back to the clicked polar angle, and to the clicked azimuth
   * moved into [0, 2 pi) (the same direction).
   */
  lemma ClickRoundTrip(pointerTravel: real, phi: real, theta0: real)
    requires 0.0 <= phi <= Pi && -Pi <= theta0 <= Pi && pointerTravel <= 2.0
    ensures var sel := SphereClick(pointerTravel, phi, theta0).value;
      Angles(sel.lat, sel.lng) == (phi, if theta0 < 0.0 then theta0 + 2.0 * Pi else theta0)
  {
  }

  /** A city the label layer knows, from the static city list. */
  datatype City = City(name: string, lat: real, lng: real)

  /** The label layer hides labels from a camera at distance 8 or more. */
  function LabelsVisible(cameraDistance: real): bool { cameraDistance < 8.0 }

  /** A label click reports the city as a selection with status 'new'. */
  function CityClick(c: City): Selection {
    Selection(c.lat, c.lng, Some(c.name), Some(New))
  }

  /** The labels of one frame: each city's clickable label, or nothing when zoomed out. */
  function RenderLabels(cities: seq<City>, cameraDistance: real): (ls: seq<Option<Selection>>)
    ensures |ls| == |cities|
    ensures forall i :: 0 <= i < |ls| ==> (ls[i].Some? <==> cameraDistance < 8.0)
    ensures forall i :: 0 <= i < |ls| && ls[i].Some? ==>
      && ls[i].value.name == Some(cities[i].name) && ls[i].value.status == Some(New)
      && ls[i].value.lat == cities[i].lat && ls[i].value.lng == cities[i].lng
  {
    var shown := LabelsVisible(cameraDistance);
    seq(|cities|, i requires 0 <= i < |cities| => if shown then Some(CityClick(cities[i])) else None)
  }

  datatype ViewMode = Day | Night

  /** The globe's night glow: emissive 0.5 from the night map at night, none by day. */
  function SurfaceEmissive(mode: ViewMode): (k: real)
    ensures k > 0.0 <==> mode.Night?
  {
    if mode.Night? then 0.5 else 0.0
  }
}
