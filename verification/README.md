# A birthday universe, as state machines

The app is a set of React / Three.js scenes. There is a hub of five planets. Each planet leads to a module:
- a travel globe with a trip planner;
- a love letter;
- compliment stars;
- a DNA-helix gallery;
- a gift.

A boot sequence and a star-dust cursor frame the whole app.

Each interactive object keeps a little state:
- React state and refs;
- pending `setTimeout`s;
- per-frame animation values.

It changes that state on pointer events, on timer firings and on each `useFrame` tick. This project writes each object as a pure `Step(state, event)` function over reals and sequences.
- Random draws (`Math.random()`) and the trigonometric samples a frame reads from the clock are event parameters, with their ranges as preconditions.
- Timers are a pending flag plus a firing event. A firing with nothing pending does nothing, which is how `clearTimeout` shows up.
- Callbacks (`onPop`, `onIgnite`, `onComplete`) and scheduled timeouts are reported as outputs of the step.
- The geocoding fetch and the `localStorage` write are effects in the step's output. The fetch's reply is an event.

Properties are stated two ways:
- as `ensures` on the steps (invariants kept, one-way flags, targets approached without overshoot);
- as lemmas over runs (`Run` folds the step over an event sequence): a callback fires at most once, an explosion or reveal is scheduled exactly once, a lid or flame converges geometrically, a particle pool drains.

Modules:
- `Anim`: shared vectors, `Lerp` (THREE's `lerp`), the trig-law predicate, `Pow` and repeated lerps.
- `Text`: number-to-string and JavaScript whitespace.
- One module per component: `Chronosphere`, `Capsule`, `BootSequence`, `StarDust`, `MemoryOrb`, `Lantern`, `GiftBox`, `Polaroid`, `Helix`, `Hub`, `World`, `GlobeModule`.

## Model

| member | source | states |
|---|---|---|
| `Anim.Lerp` | src/components/Capsule.jsx:101-104 | THREE's `lerp` with factor t moves a fraction t of the way: the new gap to the target is (1 - t) times the old one, and for t in [0, 1] the value stays between start and target |
| `Anim.LerpNDistance` | src/components/PolaroidGallery.jsx:38-40 | n successive lerps toward a fixed target with the same factor leave a gap of (1 - t)^n times the starting gap |
| `Anim.RemTurn` | src/components/Capsule.jsx:84 | JavaScript's `% (Math.PI * 2)` leaves a remainder with the dividend's sign and magnitude under a full turn, equal to the dividend when that is already under a full turn, and differing from it by whole turns |
| `Anim.FloorRemTurn` | src/components/Capsule.jsx:89-90 | the floored remainder by a full turn, which the wrap-around means to compute, always lies in [0, 2 pi) and differs from its argument by whole turns |
| `Text.NatToStringInjective` | src/components/Helix.jsx:170-171 | the decimal rendering of step numbers used in the item ids is injective, so distinct steps get distinct ids |
| `Chronosphere.Shake` | src/components/Chronosphere.jsx:134-141 | each axis of the container's shake lies within plus or minus 0.025 times the charge |
| `Chronosphere.Step` | src/components/Chronosphere.jsx:107-163 | charge stays in [0, 1.2]; holding raises it by 0.5 per second up to 1.2 and releasing decays it to 0; the explosion is one-way and starts exactly on a frame that renders a charge of at least 1, scheduling the 500 ms gift reveal exactly then; after it only the container shrinks toward 0 and the gift grows within [0, 1]; the gift shows only when the reveal fires; a charging frame spins the core at 1 to 7 radians per second; the cursor is the hand exactly after a pointer-over |
| `Chronosphere.CoreSpin` | src/components/Chronosphere.jsx:150 | for a charge in [0, 1.2] the core turns between delta and 7 delta on a frame |
| `Chronosphere.ChargeStaysInRange` | src/components/Chronosphere.jsx:121-125 | over any run of events the charge never leaves [0, 1.2] |
| `Chronosphere.RevealScheduledOnce` | src/components/Chronosphere.jsx:127-131 | over a run, the gift reveal is requested exactly once, with 500 ms, if the run explodes, and never otherwise |
| `Chronosphere.ExplodedStaysExploded` | src/components/Chronosphere.jsx:111-118 | once exploded, the artifact stays exploded whatever follows |
| `Chronosphere.NoExplosionBelowThreshold` | src/components/Chronosphere.jsx:128 | a run in which the rendered charge never reaches 1 never explodes |
| `Chronosphere.ProgressWidth` | src/components/Chronosphere.jsx:219-224 | the stabilisation bar is at most 100 percent, and full exactly when the charge reaches 1 |
| `Chronosphere.Render` | src/components/Chronosphere.jsx:165-224 | the "Hold to Stabilize" hint and the progress bar never show together; the bar shows exactly while held and unexploded; the rings and the supernova are exclusive |
| `Capsule.Shells` | src/components/Capsule.jsx:106-110 | the two shells slide apart symmetrically: the bottom shell is the mirror of the top one, and for progress in [0, 1] the top shell lies in [1, 2.5] |
| `Capsule.Step` | src/components/Capsule.jsx:47-131 | a click toggles the capsule; opening resets the text and starts typing after 500 ms, closing clears the text and the timeout; each firing shows one more character of the message plus a cursor and waits 20 to 50 ms; after the last character the whole message shows without the cursor; a cleared timeout never fires; open and beam progress move toward their target within [0, 1], and the beam is visible exactly when its progress exceeds 0.01; pointer over and out set the hover flag and the cursor together; closed, the capsule spins forward and wobbles within 0.1; open, it turns toward a front-facing yaw and straightens its wobble; the core turns backward on every frame |
| `Capsule.Yaw` | src/components/Capsule.jsx:74-96 | closed, the yaw grows; open, with 4 delta at most 1, it moves toward the front-facing yaw the yaw lock aims at without passing it |
| `Capsule.Wobble` | src/components/Capsule.jsx:78-95 | closed, the wobble is within 0.1 either way; open, it eases toward 0 without overshooting |
| `Capsule.HoverSpinsFaster` | src/components/Capsule.jsx:77 | a closed capsule spins half a radian per second, and four times as fast while hovered |
| `Capsule.YawCorrection` | src/components/Capsule.jsx:83-92 | the written yaw lock aims at a whole number of turns, that is at facing front, with a correction in (-2 pi, pi) |
| `Capsule.YawLockTakesLongWay` | src/components/Capsule.jsx:84-92 | for a yaw between half a turn and a full turn the written correction turns back through more than half a turn, where the shortest correction turns forward through less |
| `Capsule.ShortestYaw` | src/components/Capsule.jsx:88-92 | the intended correction also aims at facing front, and never turns through more than half a turn |
| `Capsule.YawLockAgreesWithinHalfTurn` | src/components/Capsule.jsx:84-92 | when the reduced yaw is within half a turn of facing front, the written and the intended correction agree |
| `Capsule.TypingShowsPrefix` | src/components/Capsule.jsx:54-60 | after j firings from an open, typing capsule, exactly the first typed + j characters and one cursor show |
| `Capsule.TypewriterCompletes` | src/components/Capsule.jsx:49-66 | opening the capsule and letting the typewriter fire once per character plus once more ends on exactly the full message with no pending timeout, whatever was shown before and whatever the random delays were |
| `Capsule.TypingSplit` | src/components/Capsule.jsx:54-63 | firing the typewriter over two batches of delays is the same as firing it over their concatenation |
| `BootSequence.Schedule` | src/components/BootSequence.jsx:15-28 | while lines remain, the effect sets a 600 ms timeout that appends the line at the current index; once all are shown, it sets an 800 ms timeout that calls onComplete |
| `BootSequence.Step` | src/components/BootSequence.jsx:11-28 | the shown lines are always exactly the first index log lines; the index grows by one only when an append timeout fires; onComplete runs only when its own timeout fires; a re-run of the effect replaces the pending timeout and unmounting clears it |
| `BootSequence.ProgressBounds` | src/components/BootSequence.jsx:45 | the progress bar stays within [0, 100] percent, never shrinks, and is full exactly when all five lines show |
| `BootSequence.RunKeepsInv` | src/components/BootSequence.jsx:15-28 | from any consistent state, every run of events keeps the shown lines equal to a prefix of the log |
| `BootSequence.FullBoot` | src/components/BootSequence.jsx:3-28 | five undisturbed firings from mount show the whole log, in order, with onComplete due 800 ms later |
| `BootSequence.RenderLine` | src/components/BootSequence.jsx:35 | each shown line renders as "> " followed by exactly the log text |
| `BootSequence.RenderLines` | src/components/BootSequence.jsx:33-37 | one rendered row per shown line, in order |
| `StarDust.OnMouseMove` | src/components/StarDustCursor.jsx:12-33 | a move records the pointer; only a spawn draw above 0.5 appends one particle there, with full life, a slow velocity and a size of at least 1; the pool stays healthy |
| `StarDust.OnMouseDown` | src/components/StarDustCursor.jsx:35-47 | a press appends exactly ten healthy particles at the last recorded pointer and keeps the existing pool as its prefix |
| `StarDust.Advance` | src/components/StarDustCursor.jsx:81-90 | a frame never grows the pool and leaves only particles with positive life |
| `StarDust.AnimationFrame` | src/components/StarDustCursor.jsx:81-98 | the backward splice loop leaves exactly the reference pool (every particle moved, the dead removed, order kept) and draws one circle per survivor, last to first |
| `StarDust.AdvanceKeepsHealthy` | src/components/StarDustCursor.jsx:85-94 | a frame keeps every particle's life in (0, 1] and size at least 1, so every drawn circle has positive alpha and radius |
| `StarDust.AdvanceLowersLife` | src/components/StarDustCursor.jsx:85 | if every life is at most a bound before a frame, every survivor's life is at most that bound minus 0.02 |
| `StarDust.AdvanceNLowersLife` | src/components/StarDustCursor.jsx:85-89 | after n frames with no spawning, every survivor's life is at most 1 - 0.02 n |
| `StarDust.AdvanceNSplit` | src/components/StarDustCursor.jsx:81-98 | n + 1 frames are n frames followed by one more |
| `StarDust.PoolDrains` | src/components/StarDustCursor.jsx:85-89 | without new spawns, the pool is empty after 50 frames |
| `StarDust.AdvanceExpires` | src/components/StarDustCursor.jsx:87-89 | particles with at most one step of life left are all removed by the next frame |
| `StarDust.AdvanceKeepsOrder` | src/components/StarDustCursor.jsx:81-90 | the survivors of a frame are the moved particles at strictly increasing original positions, and every particle still alive after its move is among them |
| `StarDust.AdvanceLosesOneStep` | src/components/StarDustCursor.jsx:83-85 | every survivor of a frame is a particle of the old pool whose life dropped by exactly 0.02 and whose position moved by its velocity |
| `StarDust.Frame` | src/components/StarDustCursor.jsx:74-101 | one frame of the cursor state replaces the pool by the reference pool, keeps it healthy, never grows it, and draws only visible circles |
| `StarDust.WithinRoleButtonIsAncestorSearch` | src/components/StarDustCursor.jsx:50 | `closest('[role="button"]')` succeeds exactly when the element or one of its ancestors has role "button" |
| `StarDust.OnMouseOver` | src/components/StarDustCursor.jsx:49-55 | the cursor enlarges exactly over a BUTTON, an A, or inside a role="button" region, and the pool is untouched |
| `MemoryOrb.Step` | src/components/MemoryOrb.jsx:19-66 | popping is one-way, happens only on the first click and calls onPop exactly then; after the pop each frame grows the shell by 5 per second and fades it by 3 per second, writing an opacity clamped to [0, 1]; the shell is hidden on the first frame that fades it out, and never comes back; hovering starts only on an unpopped orb |
| `MemoryOrb.PoppedStaysPopped` | src/components/MemoryOrb.jsx:48-51 | once popped, the orb stays popped over any run |
| `MemoryOrb.OnPopCalledOnce` | src/components/MemoryOrb.jsx:48-53 | however often the orb is clicked, onPop runs at most once: exactly once over a run that pops it, when a callback was passed |
| `MemoryOrb.Render` | src/components/MemoryOrb.jsx:58-135 | the sparkles and the text group show exactly after the pop; the text is at full size only once the shell is gone; the float stops exactly when popped; the shell glows brighter exactly while hovered |
| `Lantern.Flicker` | src/components/Lantern.jsx:34 | the ignited light's intensity stays within [1.2, 2.8] |
| `Lantern.Step` | src/components/Lantern.jsx:20-76 | ignition is one-way, happens on the first click only, calls onIgnite exactly then and schedules the release in 2000 ms; release happens only when that timeout fires and is one-way; an unreleased lantern bobs within 0.1 of its rest height, a released one rises by 0.5 times its speed per second, turns by 0.1 radians per second and drifts at most 0.2 delta in x and 0.1 delta in z; the flame grows toward full size and never shrinks |
| `Lantern.Drift` | src/components/Lantern.jsx:45-46 | a released lantern's sideways drift on a frame is at most the drift rate times delta either way |
| `Lantern.IgnitedStaysIgnited` | src/components/Lantern.jsx:53-57 | once ignited, the lantern stays ignited over any run |
| `Lantern.OnIgniteCalledOnce` | src/components/Lantern.jsx:53-63 | repeated clicks ignite the lantern once: onIgnite runs exactly once over a run that lights it, when a callback was passed |
| `Lantern.FlameApproachesFull` | src/components/Lantern.jsx:37-39 | with frames under half a second, the flame's gap to full size shrinks by the factor (1 - 2 delta) per frame and never closes: the flame grows but stays below 1 |
| `Lantern.Render` | src/components/Lantern.jsx:67-146 | the text fades in and the paper glows exactly when ignited; a released lantern floats higher and faster |
| `GiftBox.MakeConfetto` | src/components/GiftBox.jsx:10-16 | each confetto starts within half a unit of the centre, flies upward at 0.1 to 0.5 with sideways speed within 0.15, and has scale in [0.5, 1) |
| `GiftBox.MakeConfetti` | src/components/GiftBox.jsx:8-17 | the mount draws exactly 200 confetti, all initially rising |
| `GiftBox.Step` | src/components/GiftBox.jsx:20-79 | opening is one-way and only a click does it; nothing moves while the box is shut; an open frame closes 10 percent of the lid's remaining way to its open pose; each confetto moves by its velocity, spins, and feels gravity and 1 percent drag |
| `GiftBox.LidConverges` | src/components/GiftBox.jsx:69-73 | after n open frames the lid's gap to its open position is exactly 0.9^n of what it was, whatever the frame times |
| `GiftBox.LidTiltConverges` | src/components/GiftBox.jsx:73 | the lid's tilt approaches -45 degrees the same way, by 0.9^n |
| `GiftBox.ConfettiDecay` | src/components/GiftBox.jsx:29-31 | each confetto's horizontal speed decays as 0.99^n, and its vertical speed approaches the terminal -0.495 as 0.99^n, so every piece eventually falls |
| `GiftBox.Render` | src/components/GiftBox.jsx:36-148 | the cake, the wish and the confetti show exactly when the box is open, with one mesh per confetto |
| `Polaroid.LayoutGeometry` | src/components/PolaroidGallery.jsx:122-134 | every card rests at distance 5 from the axis, cards alternate half a unit above and below, and card i + 4 faces card i across the circle |
| `Polaroid.Select` | src/components/PolaroidGallery.jsx:56 | clicking a card selects it unless it was the selected one, which deselects it |
| `Polaroid.SelectTwice` | src/components/PolaroidGallery.jsx:56 | clicking a card twice restores the selection when nothing or that card was selected, and leaves it deselected when another card was |
| `Polaroid.TargetPos` | src/components/PolaroidGallery.jsx:28-30 | the selected card's target is the front spot (0, 0, 3); any other card targets its own place, bobbing at most 0.15 |
| `Polaroid.TargetScale` | src/components/PolaroidGallery.jsx:31 | the selected card targets 1.8; any other 1.15 exactly when hovered and 1 otherwise |
| `Polaroid.CardFrame` | src/components/PolaroidGallery.jsx:24-49 | a frame closes a fraction 3 delta of the card's gap to its target position and 5 delta of its gap to its target scale, without overshooting; the selected card straightens up while the others turn slowly and sway within 0.03 |
| `Polaroid.Step` | src/components/PolaroidGallery.jsx:56-58 | at most one card is selected and it is a real card; a click toggles that card's selection and replaces any other; pointer over or out changes only that card's hover; a frame updates every card as `CardFrame` says |
| `Polaroid.Frames` | src/components/PolaroidGallery.jsx:24-49 | n frames of equal length keep the number of cards, the selection and every card's hover flag |
| `Polaroid.FramesPerCard` | src/components/PolaroidGallery.jsx:24-49 | over n frames of the whole gallery each card evolves on its own: card k after the run is card k's own frames with its place, selection and sway samples |
| `Polaroid.CardScaleIsLerpN` | src/components/PolaroidGallery.jsx:38-40 | a card's scale over n of its own frames, with selection and hover fixed, is n lerps toward its target scale with factor 5 delta |
| `Polaroid.ScaleConverges` | src/components/PolaroidGallery.jsx:38-40 | n gallery frames of equal length, with selection and hover fixed, leave card k's scale (1 - 5 delta)^n of its starting gap from its target scale |
| `Polaroid.RenderCard` | src/components/PolaroidGallery.jsx:82-112 | each card shows its own photo, and is lit with the brighter emissive exactly while hovered or selected |
| `Helix.Generate` | src/components/Helix.jsx:150-179 | the loop produces 60 items and 15 bonds: item 2i is strand A and item 2i + 1 strand B of step i, and bond k joins the strands at step 2k |
| `Helix.ItemsMatchSpec` | src/components/Helix.jsx:169-171 | the items pushed after i steps are, by position, strand A at even positions and strand B at odd ones |
| `Helix.ItemIdInjective` | src/components/Helix.jsx:170-171 | two positions get the same key only if they are the same position: "A" and "B" keys never collide, nor do the keys of two steps |
| `Helix.ItemIdsDistinct` | src/components/Helix.jsx:170-171 | the generated item at position k carries the key `ItemId(k)`, so no two generated items share an id |
| `Helix.StrandData` | src/components/Helix.jsx:170-171 | strand A shows the memories in order and strand B the memory five ahead, wrapping at twenty |
| `Helix.HelixGeometry` | src/components/Helix.jsx:157-171 | both strands lie on the radius 3.5 cylinder, strand B is strand A turned half a turn at the same height -2i, the two ends of a step are 7 apart, and strand B's frame faces a half turn away |
| `Helix.SetHover` | src/components/Helix.jsx:192-206 | entering a frame makes it the one hovered; leaving any frame clears the hover |
| `Helix.GlassFrame` | src/components/Helix.jsx:24-45 | a frame eases the glass toward scale 1.25, offset 0.5 and glow 2 while hovered (1, 0, 0 otherwise) at rates 8, 8 and 5 delta, keeping the glow within [0, 2] |
| `Helix.ScrollTarget` | src/components/Helix.jsx:184-187 | for a scroll offset in [0, 1] the helix's target height lies in [5, 65] |
| `Helix.Step` | src/components/Helix.jsx:182-206 | entering a frame makes its id the hovered one and leaving any frame clears it; a frame eases the helix toward the scroll target, spins it two full turns over the scroll range, and eases frame k toward the hover look (scale 1.25, offset 0.5, glow 2) exactly when the hovered id is item k's key and toward rest otherwise |
| `Helix.OneFrameHovered` | src/components/Helix.jsx:199-201 | the comparison `hoveredId === item.id` holds for at most one item, so at most one frame shows the hover look |
| `Hub.Path` | src/utils/constants.js:15-22 | "/" is the home route's path and no other route's |
| `Hub.PathInjective` | src/utils/constants.js:15-22 | distinct routes have distinct paths |
| `Hub.PlanetRoutes` | src/components/Hub.jsx:733-772 | the five planets lead to every route except home |
| `Hub.Pulse` | src/components/Hub.jsx:619-623 | the burning star's breathing scale stays within [1.1, 1.3] |
| `Hub.Step` | src/components/Hub.jsx:535-781 | hovering a planet selects its route; the planet's own pointer-out keeps the selection, and only leaving the planet group clears it and restarts the hologram's turn; each planet's hover flag and the cursor follow its pointer events, other planets keep theirs; a click sets the location to the planet's route path and changes nothing else; a frame turns the hologram by 0.5 delta or breathes the star |
| `Hub.ClickLocationNamesPlanet` | src/components/Hub.jsx:566 | after a click on planet k the location is planet j's route path exactly when j is k |
| `Hub.HologramRestartsAfterGroupOut` | src/components/Hub.jsx:640-692 | a hologram turned while one planet was hovered starts again from 0 when the pointer leaves the group and comes back |
| `Hub.SelectionSticks` | src/components/Hub.jsx:732-772 | once a planet is hovered, its hologram stays through any run of planet pointer-outs, clicks and frames |
| `Hub.RunKeepsInv` | src/components/Hub.jsx:706-772 | over any run, the hovered module is never home and every planet keeps its hover flag |
| `Hub.CentralHologram` | src/components/Hub.jsx:627-692 | the burning star shows exactly when nothing is hovered; otherwise the projector shows the hovered module's icon |
| `Hub.HologramOfPlanet` | src/components/Hub.jsx:640-692 | hovering a planet projects the same icon the planet wears, and different planets project different captions |
| `Hub.RenderPlanet` | src/components/Hub.jsx:564-597 | a hovered planet is scaled by 1.15, its label fully opaque and its glow ring shown; otherwise scale 1, label at 0.6 and no ring |
| `Hub.Render` | src/components/Hub.jsx:718-781 | the camera auto-rotates exactly while the burning star shows, that is while nothing is hovered; panning is enabled exactly off mobile; the camera sits at (0, 5, 25) on mobile and (0, 5, 15) otherwise |
| `World.MarkerColor` | src/components/World.jsx:236-237 | a trip's own non-empty colour wins; otherwise visited trips are green and the rest amber |
| `World.DefaultColorTellsStatus` | src/components/World.jsx:236-237 | without own colours, two markers share a colour exactly when both or neither trip was visited |
| `World.RenderTrips` | src/components/World.jsx:234-256 | one view per trip; only the last trip can be new, exactly when it is planned; a path joins a trip to its predecessor exactly when both share a status, and is dashed exactly when the trip was not visited |
| `World.PathsAndBreaks` | src/components/World.jsx:247-254 | among the first n trips, the number of paths plus the number of status changes is n - 1: the paths cut the list into runs of equal status |
| `World.RenderMarker` | src/components/World.jsx:111-139 | a marker is scaled by 1.5 exactly while hovered, and labelled exactly while hovered or new |
| `World.MarkerStep` | src/components/World.jsx:112-118 | a marker is hovered, and shows the hand cursor, exactly after a pointer-over |
| `World.MarkerCursorMatchesScale` | src/components/World.jsx:112-119 | after any pointer event a marker is enlarged exactly while it shows the hand cursor, and labelled then |
| `World.SphereClick` | src/components/World.jsx:183-194 | a drag of more than 2 pixels reports nothing; a click reports a latitude in [-90, 90] and a longitude in [-180, 180), with no name and no status |
| `World.ClickRoundTrip` | src/components/World.jsx:15-17 | the point a click reports maps back, through the angles of `latLngToVector3`, to the clicked polar angle and to the clicked azimuth moved into [0, 2 pi) |
| `World.RenderLabels` | src/components/World.jsx:60-86 | every city has a label exactly while the camera is closer than 8; clicking it reports that city with status "new" |
| `World.SurfaceEmissive` | src/components/World.jsx:209-211 | the globe glows exactly at night |
| `GlobeModule.NameOr` | src/components/GlobeModule.jsx:58 | the selection is named after the query exactly when the hit has no name, an empty one, or the query itself |
| `GlobeModule.Start` | src/components/GlobeModule.jsx:31-43 | a blank query starts nothing; any other aborts the previous search, starts exactly one fetch of the query, raises the spinner and clears the error |
| `GlobeModule.Handle` | src/components/GlobeModule.jsx:45-66 | a non-empty reply selects its first hit and clears the query; an empty reply reports "Location not found"; a failure other than an abort reports "Search failed"; an abort changes nothing |
| `GlobeModule.AsWrittenGuardAlwaysPasses` | src/components/GlobeModule.jsx:67-71 | under the controller bookkeeping, the written guard always passes: every settling search lowers the spinner, superseded or not |
| `GlobeModule.SupersededSearchStopsSpinner` | src/components/GlobeModule.jsx:31-71 | a search for "Paris" superseded by one for "Tokyo" lowers the spinner when its aborted fetch rejects, while the Tokyo search is still pending |
| `GlobeModule.SettleAsWritten` | src/components/GlobeModule.jsx:45-71 | a reply marks its search settled and touches no other search, keeping the controller bookkeeping |
| `GlobeModule.Settle` | src/components/GlobeModule.jsx:67-71 | only the settling search's own, unaborted controller lowers the spinner; an aborted search leaves it alone |
| `GlobeModule.ConfirmNewLocation` | src/components/GlobeModule.jsx:74-89 | confirming appends one planned trip at the selected point, named as typed, coloured "#ff0055", after the existing trips |
| `GlobeModule.Step` | src/components/GlobeModule.jsx:17-129 | as written: a blank query starts nothing and any other starts exactly one fetch; every reply updates the selection or the error as `Handle` says and lowers the spinner, even a superseded one; only a reply can break the spinner's meaning; confirming appends one trip, persists the new list and closes the modal; cancel closes it; the view toggles between day and night |
| `GlobeModule.CorrectedStep` | src/components/GlobeModule.jsx:67-71 | with the corrected `finally` block the spinner is up exactly while the latest search is unsettled: only the latest search's reply lowers it, and otherwise the step is the written one |
| `GlobeModule.Conquered` | src/components/GlobeModule.jsx:197 | the conquered panel lists only visited trips |
| `GlobeModule.BucketList` | src/components/GlobeModule.jsx:210 | the bucket list lists only trips not visited |
| `GlobeModule.PanelsPartition` | src/components/GlobeModule.jsx:197-210 | the two panels together hold every trip exactly as often as the list does |
| `GlobeModule.PanelsAppend` | src/components/GlobeModule.jsx:197-210 | a trip added at the end joins the end of exactly one panel, chosen by its status |
| `GlobeModule.ConfirmJoinsBucketList` | src/components/GlobeModule.jsx:74-89 | a confirmed trip joins the end of the bucket list and leaves the conquered list alone |
| `GlobeModule.Badge` | src/components/GlobeModule.jsx:214 | a bucket-list entry is badged "NEW" exactly when its status is new, and "PLAN" otherwise |
| `GlobeModule.TrackingLineCounts` | src/components/GlobeModule.jsx:190 | two trip lists have the same header line exactly when they have the same length |
| `GlobeModule.Render` | src/components/GlobeModule.jsx:119-241 | the lights are 1.5 and 3 by day and 0.2 and 0.5 by night; the globe auto-rotates exactly while nothing is selected; GO reads "..." and is disabled exactly while searching; the toast is the current error; the modal shows exactly while a location is selected, prefilled with its name or empty |

## Left out

- src/components/AudioManager.jsx: Web Audio oscillators, gains and ramps are platform calls whose behaviour does not appear in the source.
- Rendering-only files are left out: Layout, Loader, ErrorBoundary, HoloButton, WaterSurface, ParchmentModule, HelixGalleryModule, GiftModule, StarFieldModule, App.jsx routing and ComplimentStars. They compose JSX and hold no logic of their own.
- Trigonometric geometry is left out:
  - `latLngToVector3`'s Cartesian vectors (src/components/World.jsx:18-21). Only its angles are modelled, in `World.Angles`.
  - The Bezier path arcs (src/components/World.jsx:148-156).
  - The DnaBond quaternions (src/components/Helix.jsx:126-143).
  - The Supernova particles (src/components/Chronosphere.jsx:49-76).
  - The Hub's crown, aperture and constellation icon placement.
  - sin and cos are function parameters constrained by the trig laws in `Anim.TrigLaws`, or real samples in [-1, 1].
- The Float wrappers' own bobbing and tilting (for example src/components/Capsule.jsx:134) are left out; they are a library animation with no state of the app.
- The Lantern's idle z and x tilt (src/components/Lantern.jsx:26-27) is left out; like the Capsule's wobble, it is a clock sample times a constant and feeds nothing else.
- StarDust's colour draw (src/components/StarDustCursor.jsx:95) is left out; it only picks a fill colour. The cursor element's CSS transform and the canvas resize handler are left out too.
- Materials and the props of Float, Sparkles, Text and Html are left out, except where the source ties them to state: opacities, emissives, visibility, scales.
- `document.body.style.cursor` is kept as a boolean `pointerCursor` in the state of each object that sets it (GiftBox, Helix, Hub, Lantern, MemoryOrb, Polaroid, Capsule, Chronosphere and the World marker). The single shared `document.body` is not modelled: each object records only what it last wrote.
- Side effects become outputs or parameters:
  - the Nominatim `fetch` and its AbortController (src/components/GlobeModule.jsx:35-50): the reply is an event carrying the parsed hits or the rejection;
  - the `localStorage` write (line 88): a `Persist` effect;
  - `Date.now()` (line 76): a parameter of the confirm event;
  - the modal's DOM inputs (lines 174-177): the typed name and notes are parameters of the confirm event.
- GlobeModule's `parseFloat` of the hit coordinates (lines 54-55) is not modelled, so a `NaN` coordinate cannot arise in the model; hits arrive with real coordinates.
- The search button's `disabled` flag (line 119) does not guard the Enter key (line 115). The model therefore allows a new search while one is running, as the source does.
- React and requestAnimationFrame scheduling are not modelled. Each frame or handler sees the state committed by the previous event, and `setState` batching inside one handler is collapsed into one step. The Chronosphere frame reads the charge rendered before its own update (line 128), as the source does.
- Hub.Step: the planet group's pointer-out (src/components/Hub.jsx:732) is its own event, `GroupOut`. The scene graph raises it after a planet's pointer-out when the pointer leaves every planet of the group. The bubbling rules of react-three-fiber that decide this are not modelled.
- World.RenderLabels: it uses the current camera distance directly. The source stores the verdict in state on each frame (src/components/World.jsx:61-68), so the labels follow one render later.
- World.SphereClick: it takes `acos(y / r)` and `atan2(z, -x)` as given angles in their ranges, rather than computing them from the clicked point.
- StarDust.PoolDrains: it uses exact real arithmetic. With floats, 1 - 50 times 0.02 need not be exactly 0, so one more frame may be needed.
- Floating-point rounding in general is not modelled: every quantity is an exact real.
- The static data in src/data/cities.js and src/data/trips.js is a parameter (`cities`, initial `trips`). The planet colours and positions from src/theme/colors.js and src/utils/constants.js are constants in `Hub.Planets`.
- The trip with status "new" badge (`GlobeModule.Badge`) cannot arise from a confirm, which always writes "planned". It is reachable only from initial data.

## Where the code differs from the app's design description

The model follows the code in each case.

- Gift box: the design describes a cycle through a catalog of surprises, with confetti spawning continuously while the box is open. The code has no catalog. It draws 200 confetti once, on mount (src/components/GiftBox.jsx:8-17), and no route mounts the scene.
- Timer cancellation: the design asks that every delayed transition be cancelled when its object is torn down. The code clears only the Capsule's and the BootSequence's timeouts. The Lantern's release timeout (src/components/Lantern.jsx:60-62) and the Chronosphere's reveal timeout (src/components/Chronosphere.jsx:130) are never cleared, so the model has no cancellation for them.
- Memory orb: the design calls the pop's particle burst short-lived. The code's sparkles stay for as long as the orb is popped (src/components/MemoryOrb.jsx:112-131).
- Chronosphere: the explosion tests the charge rendered before the frame's own update (src/components/Chronosphere.jsx:128). The charge can therefore pass 1 before the explosion and reach up to 1.2, which the model allows.
- Cursor trail: the design expects the pool size to settle at spawn rate times lifetime. The model proves only the per-frame facts and the drain without spawning (`StarDust.PoolDrains`). It states no steady-state size.

## Findings

| source | as written | input that shows it | evidently intended | confidence | as-written member | corrected member |
|---|---|---|---|---|---|---|
| src/components/GlobeModule.jsx:67-71 | the `finally` block lowers the spinner when the newest controller is not aborted, but the newest controller is never aborted while its own search runs, so every settling search lowers it | search "Paris", then search "Tokyo" before Paris replies; Paris's fetch rejects with AbortError while Tokyo is still pending | only the settling search's own, unaborted controller lowers the spinner, so it stays up until the newest search settles | not executed | `GlobeModule.SupersededSearchStopsSpinner` | `GlobeModule.CorrectedStep` |
| src/components/Capsule.jsx:88-92 | the "shortest path" wrap is `((diff + PI) % (PI * 2)) - PI`, and `%` keeps the sign of a negative `diff + PI`, so for a reduced yaw between pi and 2 pi the correction is minus the yaw: more than half a turn backward | close the capsule and let the idle spin carry the yaw to 1.5 pi (about 9.4 seconds unhovered, or 2.4 hovered), then open it | the correction wraps into [-pi, pi), here a quarter turn forward | not executed | `Capsule.YawLockTakesLongWay` | `Capsule.ShortestYaw` |

`GlobeModule.Step` and `Capsule.Step` follow the code as written. `GlobeModule.CorrectedStep` is the search box with the intended `finally` block. `Capsule.ShortestYaw` is the intended yaw correction, with its half-turn bound proved.
