/**
 * The trip planner around the globe: a geocoding search that selects the
 * first hit, a modal that turns the selection into a planned trip, the
 * mission-log side panel and the day/night switch.
 *
 * Each `performSearch` call is one entry of `searches`; its abort flag is
 * the flag of the AbortController it created, and `current` is the index
 * held by `abortControllerRef`. The network reply is an event.
 */
module GlobeModule {
  import opened Anim
  import opened Text
  import opened World

  const NotFoundMessage: string := "Location not found. Try a major city."
  const FailedMessage: string := "Search failed. Check internet."
  const NewTripColor: string := "#ff0055"

  /** One `performSearch` call: the query it captured, its controller's abort flag, whether it has settled. */
  datatype Search = Search(query: string, aborted: bool, settled: bool)

  datatype State = State(
    trips: seq<Trip>,            // allTrips
    selected: Option<Selection>, // selectedLoc
    query: string,               // searchQuery
    isSearching: bool,
    error: Option<string>,       // errorMsg
    viewMode: ViewMode,
    searches: seq<Search>,
    current: Option<nat>         // abortControllerRef.current
  )

  function Initial(trips: seq<Trip>): State {
    State(trips, None, "", false, None, Day, [], None)
  }

  /** A geocoding hit with its coordinates already parsed, and its name when it has one. */
  datatype Place = Place(lat: real, lng: real, name: Option<string>)

  /** How a search's fetch settles: a JSON array of hits, or a rejection (an AbortError or another failure). */
  datatype Outcome = Found(places: seq<Place>) | Failed(abortError: bool)

  datatype Event =
    | Type(text: string)
    | StartSearch                                   // GO, or Enter in the search box
    | Reply(id: nat, outcome: Outcome)              // search `id`'s request settles
    | Pick(sel: Selection)                          // the globe reports a location
    | Cancel
    | Confirm(name: string, notes: string, now: int) // `now` stands for Date.now()
    | ToggleView

  datatype Effect = Abort(id: nat) | Fetch(id: nat, query: string) | Persist(trips: seq<Trip>)

  datatype Output = Output(state: State, effects: seq<Effect>)

  /**
   * The controller bookkeeping: the ref holds the latest search, whose
   * controller alone is not aborted.
   */
  ghost predicate ControllerInv(s: State) {
    && (s.current.None? <==> s.searches == [])
    && (s.current.Some? ==> s.current.value == |s.searches| - 1)
    && (forall i :: 0 <= i < |s.searches| ==> (s.searches[i].aborted <==> i < |s.searches| - 1))
  }

  /** The spinner runs exactly while the latest search is still pending. */
  ghost predicate SpinnerInv(s: State) {
    s.isSearching <==> s.searches != [] && !s.searches[|s.searches| - 1].settled
  }

  /** What the search box is meant to keep: the bookkeeping, and a spinner that means "the latest search is pending". */
  ghost predicate Inv(s: State) {
    ControllerInv(s) && SpinnerInv(s)
  }

  /**
   * A settling reply is for a search that has not settled yet; a superseded
   * search, whose controller was aborted while pending, settles with an
   * AbortError, and only it does. Confirm is offered only with a selection.
   */
  predicate ValidEvent(s: State, e: Event) {
    && (e.Reply? ==>
          && e.id < |s.searches| && !s.searches[e.id].settled
          && (s.searches[e.id].aborted <==> e.outcome == Failed(true)))
    && (e.Confirm? ==> s.selected.Some?)
  }

  /** `result.name || searchQuery`. */
  function NameOr(name: Option<string>, fallback: string): (r: string)
    ensures r == fallback <==> name.None? || name.value == "" || name.value == fallback
  {
    if name.Some? && name.value != "" then name.value else fallback
  }

  /** The start of `performSearch`: abort the previous controller, create a new one, raise the spinner. */
  function Start(s: State): (o: Output)
    requires ControllerInv(s)
    ensures IsBlank(s.query) ==> o == Output(s, [])
    ensures !IsBlank(s.query) ==>
      && o.state.isSearching && o.state.error.None?
      && o.state.current == Some(|s.searches|)
      && |o.state.searches| == |s.searches| + 1
      && o.state.searches[|s.searches|] == Search(s.query, false, false)
      && o.effects == (if s.current.Some? then [Abort(s.current.value)] else []) + [Fetch(|s.searches|, s.query)]
    ensures ControllerInv(o.state)
    ensures !IsBlank(s.query) ==> SpinnerInv(o.state)
  {
    if IsBlank(s.query) then Output(s, [])
    else
      var id := |s.searches|;
      var prior := if s.current.Some? then s.searches[s.current.value := s.searches[s.current.value].(aborted := true)] else s.searches;
      Output(s.(searches := prior + [Search(s.query, false, false)], current := Some(id), isSearching := true, error := None),
             (if s.current.Some? then [Abort(s.current.value)] else []) + [Fetch(id, s.query)])
  }

  /** The `try` / `catch` of `performSearch`: select the first hit, or report why there is none. */
  function Handle(s: State, id: nat, outcome: Outcome): (r: State)
    requires id < |s.searches|
    ensures outcome.Found? && outcome.places != [] ==>
      && r.selected == Some(Selection(outcome.places[0].lat, outcome.places[0].lng,
                                      Some(NameOr(outcome.places[0].name, s.searches[id].query)), None))
      && r.query == "" && r.error == s.error
    ensures outcome == Found([]) ==> r.error == Some(NotFoundMessage) && r.selected == s.selected && r.query == s.query
    ensures outcome == Failed(false) ==> r.error == Some(FailedMessage) && r.selected == s.selected && r.query == s.query
    ensures outcome == Failed(true) ==> r.error == s.error && r.selected == s.selected && r.query == s.query
    ensures r.searches == s.searches && r.isSearching == s.isSearching && r.current == s.current && r.trips == s.trips
  {
    match outcome
    case Found(places) =>
      if places != [] then
        var hit := places[0];
        s.(selected := Some(Selection(hit.lat, hit.lng, Some(NameOr(hit.name, s.searches[id].query)), None)), query := "")
      else s.(error := Some(NotFoundMessage))
    case Failed(abortError) =>
      if !abortError then s.(error := Some(FailedMessage)) else s
  }

  /** Marks search `id` as settled. */
  function Done(s: State, id: nat): State
    requires id < |s.searches|
  {
    s.(searches := s.searches[id := s.searches[id].(settled := true)])
  }

  /**
   * The `finally` block as written: it tests the controller the ref holds
   * now, which is the latest one and never aborted, instead of the
   * settling search's own controller.
   */
  function SettleAsWritten(s: State, id: nat, outcome: Outcome): (r: State)
    requires id < |s.searches|
    ensures |r.searches| == |s.searches| && r.searches[id].settled
    ensures forall i :: 0 <= i < |s.searches| && i != id ==> r.searches[i] == s.searches[i]
    ensures ControllerInv(s) ==> ControllerInv(r)
  {
    var h := Done(Handle(s, id, outcome), id);
    if h.current.Some? && h.current.value < |h.searches| && !h.searches[h.current.value].aborted then h.(isSearching := false)
    else h
  }

  /** Under the bookkeeping invariant the written guard always passes: every settling search lowers the spinner. */
  lemma AsWrittenGuardAlwaysPasses(s: State, id: nat, outcome: Outcome)
    requires ControllerInv(s) && id < |s.searches|
    ensures !SettleAsWritten(s, id, outcome).isSearching
  {
  }

  /**
   * Search "Paris", then (with Enter, which the disabled button does not
   * stop) search "Tokyo": when the superseded Paris request rejects with an
   * AbortError, the program as written lowers the spinner although the Tokyo
   * search is still pending; the corrected step keeps it up.
   */
  lemma SupersededSearchStopsSpinner()
    ensures var s1 := Step(Step(Initial([]), Type("Paris")).state, StartSearch).state;
      var s2 := Step(Step(s1, Type("Tokyo")).state, StartSearch).state;
      && Inv(s2) && ValidEvent(s2, Reply(0, Failed(true)))
      && !s2.searches[1].settled
      && !Step(s2, Reply(0, Failed(true))).state.isSearching
      && !SpinnerInv(Step(s2, Reply(0, Failed(true))).state)
      && CorrectedStep(s2, Reply(0, Failed(true))).state.isSearching
  {
    var s0 := Step(Initial([]), Type("Paris")).state;
    assert !IsBlank(s0.query) by { assert !IsJsWhitespace(s0.query[0]); }
    var s1 := Step(s0, StartSearch).state;
    var t0 := Step(s1, Type("Tokyo")).state;
    assert !IsBlank(t0.query) by { assert !IsJsWhitespace(t0.query[0]); }
    var s2 := Step(t0, StartSearch).state;
    assert s2.searches[0].aborted && !s2.searches[1].settled;
  }

  /** The `finally` block as intended: only the settling search's own, unaborted controller lowers the spinner. */
  function Settle(s: State, id: nat, outcome: Outcome): (r: State)
    requires id < |s.searches|
    ensures s.searches[id].aborted ==> r.isSearching == s.isSearching
    ensures !s.searches[id].aborted ==> !r.isSearching
    ensures |r.searches| == |s.searches| && r.searches[id].settled
    ensures forall i :: 0 <= i < |s.searches| && i != id ==> r.searches[i] == s.searches[i]
    ensures forall i :: 0 <= i < |s.searches| ==> r.searches[i].aborted == s.searches[i].aborted
  {
    var h := Done(Handle(s, id, outcome), id);
    if !s.searches[id].aborted then h.(isSearching := false) else h
  }

  /** `confirmNewLocation`: a planned trip at the selected point, named as typed, appended at the end. */
  function ConfirmNewLocation(trips: seq<Trip>, sel: Selection, name: string, notes: string, now: int): (r: seq<Trip>)
    ensures |r| == |trips| + 1 && r[..|trips|] == trips
    ensures var t := r[|trips|];
      && t.status == Planned && t.color == Some(NewTripColor)
      && t.city == name && t.tag == name && t.lat == sel.lat && t.lng == sel.lng && t.id == now
  {
    trips + [Trip(now, name, sel.lat, sel.lng, Some(NewTripColor), name, Planned, Some(notes))]
  }

  /** The search box as written: every settling reply runs the `finally` block of the code. */
  function Step(s: State, e: Event): (o: Output)
    requires ValidEvent(s, e) && ControllerInv(s)
    ensures ControllerInv(o.state)
    // a blank query starts nothing; any other starts exactly one fetch of it and raises the spinner
    ensures e.StartSearch? ==> o == Start(s)
    // a reply updates selection / error as `Handle` says, and lowers the spinner even when superseded
    ensures e.Reply? ==> o.effects == [] && !o.state.isSearching
    ensures e.Reply? ==> var h := Handle(s, e.id, e.outcome);
      o.state.selected == h.selected && o.state.error == h.error && o.state.query == h.query
    // only a reply can break the spinner's meaning
    ensures !e.Reply? && SpinnerInv(s) ==> SpinnerInv(o.state)
    // confirming appends one trip, persists the new list and closes the modal
    ensures e.Confirm? ==>
      && o.state.trips == ConfirmNewLocation(s.trips, s.selected.value, e.name, e.notes, e.now)
      && o.state.selected.None? && o.effects == [Persist(o.state.trips)]
    ensures !e.Confirm? ==> o.state.trips == s.trips
    ensures e.Pick? ==> o.state.selected == Some(e.sel)
    ensures e.Cancel? ==> o.state.selected.None?
    ensures e.ToggleView? ==> o.state.viewMode != s.viewMode
    ensures !e.ToggleView? ==> o.state.viewMode == s.viewMode
  {
    match e
    case Type(text) => Output(s.(query := text), [])
    case StartSearch => Start(s)
    case Reply(id, outcome) =>
      AsWrittenGuardAlwaysPasses(s, id, outcome);
      Output(SettleAsWritten(s, id, outcome), [])
    case Pick(sel) => Output(s.(selected := Some(sel)), [])
    case Cancel => Output(s.(selected := None), [])
    case Confirm(name, notes, now) =>
      var trips := ConfirmNewLocation(s.trips, s.selected.value, name, notes, now);
      Output(s.(trips := trips, selected := None), [Persist(trips)])
    case ToggleView => Output(s.(viewMode := if s.viewMode.Day? then Night else Day), [])
  }

  /**
   * The search box with the corrected `finally` block: it differs from the
   * code only in the spinner after a reply, and keeps the spinner meaning
   * "the latest search is pending".
   */
  function CorrectedStep(s: State, e: Event): (o: Output)
    requires ValidEvent(s, e) && Inv(s)
    ensures Inv(o.state)
    // only the latest search lowers the spinner; a superseded one leaves it alone
    ensures e.Reply? ==> o.state.isSearching == (s.isSearching && e.id != |s.searches| - 1)
    ensures e.Reply? ==> o.effects == [] && o.state == Step(s, e).state.(isSearching := o.state.isSearching)
    ensures !e.Reply? ==> o == Step(s, e)
  {
    if e.Reply? then Output(Settle(s, e.id, e.outcome), []) else Step(s, e)
  }

  /** The "Conquered" panel: the visited trips, in order. */
  function Conquered(ts: seq<Trip>): (r: seq<Trip>)
    ensures forall i :: 0 <= i < |r| ==> r[i].status.Visited?
  {
    if ts == [] then []
    else (if ts[0].status.Visited? then [ts[0]] else []) + Conquered(ts[1..])
  }

  /** The "Bucket List" panel: every other trip, in order. */
  function BucketList(ts: seq<Trip>): (r: seq<Trip>)
    ensures forall i :: 0 <= i < |r| ==> !r[i].status.Visited?
  {
    if ts == [] then []
    else (if ts[0].status.Visited? then [] else [ts[0]]) + BucketList(ts[1..])
  }

  /** The two panels partition the trips: together they hold each trip exactly as often as the list does. */
  lemma {:induction false} PanelsPartition(ts: seq<Trip>)
    ensures multiset(Conquered(ts)) + multiset(BucketList(ts)) == multiset(ts)
    ensures |Conquered(ts)| + |BucketList(ts)| == |ts|
  {
    if ts != [] {
      PanelsPartition(ts[1..]);
      assert ts == [ts[0]] + ts[1..];
    }
  }

  lemma {:induction false} PanelsAppend(ts: seq<Trip>, t: Trip)
    ensures Conquered(ts + [t]) == Conquered(ts) + (if t.status.Visited? then [t] else [])
    ensures BucketList(ts + [t]) == BucketList(ts) + (if t.status.Visited? then [] else [t])
  {
    if ts != [] {
      assert (ts + [t])[1..] == ts[1..] + [t];
      PanelsAppend(ts[1..], t);
    } else {
      assert [t][1..] == [];
    }
  }

  /** A confirmed trip joins the end of the bucket list and leaves the conquered list alone. */
  lemma ConfirmJoinsBucketList(trips: seq<Trip>, sel: Selection, name: string, notes: string, now: int)
    ensures var r := ConfirmNewLocation(trips, sel, name, notes, now);
      && Conquered(r) == Conquered(trips)
      && BucketList(r) == BucketList(trips) + [r[|trips|]]
  {
    var r := ConfirmNewLocation(trips, sel, name, notes, now);
    assert r == trips + [r[|trips|]];
    PanelsAppend(trips, r[|trips|]);
  }

  /** A bucket-list entry's badge. */
  function Badge(t: Trip): (b: string)
    ensures b == "NEW" <==> t.status.New?
    ensures b == "PLAN" <==> !t.status.New?
  {
    if t.status.New? then "NEW" else "PLAN"
  }

  /** The panel's header line. */
  function TrackingLine(trips: seq<Trip>): string {
    "TRACKING " + NatToString(|trips|) + " LOCATIONS"
  }

  /** The header names the number of trips: two lists with the same header have the same length. */
  lemma TrackingLineCounts(a: seq<Trip>, b: seq<Trip>)
    ensures TrackingLine(a) == TrackingLine(b) <==> |a| == |b|
  {
    var la, lb := TrackingLine(a), TrackingLine(b);
    if la == lb {
      assert la[9..|la| - 10] == NatToString(|a|);
      assert lb[9..|lb| - 10] == NatToString(|b|);
      NatToStringInjective(|a|, |b|);
    }
  }

  /** The overlay and the lights. */
  datatype View = View(
    ambient: real,
    directional: real,
    autoRotate: bool,
    goLabel: string,
    goDisabled: bool,
    toast: Option<string>,
    modalName: Option<string>, // the modal and its trip-name default, when a location is selected
    conquered: seq<Trip>,
    bucket: seq<Trip>,
    tracking: string
  )

  function Render(s: State): (v: View)
    ensures v.ambient == 1.5 <==> s.viewMode.Day?
    ensures v.ambient == 0.2 <==> s.viewMode.Night?
    ensures v.directional == (if s.viewMode.Day? then 3.0 else 0.5)
    ensures v.autoRotate <==> s.selected.None?
    ensures v.goDisabled <==> s.isSearching
    ensures v.goLabel == "..." <==> s.isSearching
    ensures v.toast == s.error
    ensures v.modalName.Some? <==> s.selected.Some?
    ensures s.selected.Some? ==> v.modalName == Some(NameOr(s.selected.value.name, ""))
    ensures |v.conquered| + |v.bucket| == |s.trips|
  {
    PanelsPartition(s.trips);
    View(
      if s.viewMode.Day? then 1.5 else 0.2,
      if s.viewMode.Day? then 3.0 else 0.5,
      s.selected.None?,
      if s.isSearching then "..." else "GO",
      s.isSearching,
      s.error,
      if s.selected.Some? then Some(NameOr(s.selected.value.name, "")) else None,
      Conquered(s.trips),
      BucketList(s.trips),
      TrackingLine(s.trips))
  }
}
