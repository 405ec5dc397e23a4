/** MainUI's sprite dispatcher and map-handler queries: click and hover routing with
    overlay > detail panel > sprite priority, flight-path visibility, masking, and the
    lazily created session values. */
module Dispatch {
  import opened Options
  import opened Sprites
  import opened MapState
  import SpiesOverlay

  /** The collaborators' answers to one hover event: the active overlay's
      `hoveringOverSprite` and the detail panel's `useHoveringSprite`. */
  datatype HoverAnswers = HoverAnswers(overlayTakes: bool, panelTakes: bool)

  /** The collaborators' answers to one click: the overlay's `consumesClicks`, the panel's
      `useClickedSprite`, the answers to the hover reset the click performs, and the
      sprite's `persistOnClick` and whether it is a star system. */
  datatype ClickAnswers = ClickAnswers(
    consumes: bool,
    panelTakes: bool,
    reset: HoverAnswers,
    persistOnClick: bool,
    isStarSystem: bool)

  /** Whether the overlay or else the panel keeps a hover event from reaching the map. */
  predicate HoverIntercepted(s: UiState, a: HoverAnswers) {
    SpiesOverlay.TakesHover(s.overlay, a.overlayTakes) || a.panelTakes
  }

  function Last(evs: seq<Event>): Event
    requires |evs| > 0
  {
    evs[|evs| - 1]
  }

  /** hoveringOverSprite: idempotent on the last hovered sprite; otherwise exits the last
      hovered sprite, records the new one, and only when neither the overlay nor the panel
      takes the event, moves the hovering slot (exit old, enter new). */
  function HoveringOverSprite(s: UiState, o: Option<SpriteId>, a: HoverAnswers, performingTurn: bool): (r: Step)
    ensures o == s.lastHoveringSprite ==> r == Step(s, [])
    ensures r.st.lastHoveringSprite == o
    ensures o != s.lastHoveringSprite && !HoverIntercepted(s, a) ==> r.st.hoveringSprite == o
    ensures r.st.hoveringSprite != s.hoveringSprite ==>
              o != s.lastHoveringSprite && !HoverIntercepted(s, a)
    ensures o != s.lastHoveringSprite && s.lastHoveringSprite.Some? ==>
              |r.events| > 0 && r.events[0] == MouseExit(s.lastHoveringSprite.value)
    ensures forall i :: 0 <= i < |r.events| ==>
              || (r.events[i].MouseExit? &&
                  Some(r.events[i].sprite) in {s.lastHoveringSprite, s.hoveringSprite})
              || (o.Some? && i == |r.events| - 1 && r.events[i] == MouseEnter(o.value))
    ensures o != s.lastHoveringSprite && !HoverIntercepted(s, a) && o.Some? ==>
              |r.events| > 0 && Last(r.events) == MouseEnter(o.value)
    ensures HoverIntercepted(s, a) ==> forall e :: e in r.events ==> !e.MouseEnter?
    ensures o != s.lastHoveringSprite && HoverIntercepted(s, a) ==>
              r.events == (if s.lastHoveringSprite.Some? then [MouseExit(s.lastHoveringSprite.value)] else [])
    ensures o != s.lastHoveringSprite && !HoverIntercepted(s, a) ==>
              |r.events| == (if s.lastHoveringSprite.Some? then 1 else 0)
                          + (if s.hoveringSprite.Some? then 1 else 0)
                          + (if o.Some? then 1 else 0)
    ensures o != s.lastHoveringSprite && !HoverIntercepted(s, a) && s.hoveringSprite.Some? ==>
              MouseExit(s.hoveringSprite.value) in r.events
    ensures r.st.panelVisible ==
              (if o != s.lastHoveringSprite && !HoverIntercepted(s, a) && !performingTurn
               then true else s.panelVisible)
    ensures r.st == s.(lastHoveringSprite := r.st.lastHoveringSprite,
                       hoveringSprite := r.st.hoveringSprite,
                       panelVisible := r.st.panelVisible)
  {
    if o == s.lastHoveringSprite then Step(s, [])
    else
      var exitLast := if s.lastHoveringSprite.Some? then [MouseExit(s.lastHoveringSprite.value)] else [];
      var t := s.(lastHoveringSprite := o);
      if SpiesOverlay.TakesHover(t.overlay, a.overlayTakes) then Step(t, exitLast)
      else if a.panelTakes then Step(t, exitLast)
      else
        var exitHover := if t.hoveringSprite.Some? then [MouseExit(t.hoveringSprite.value)] else [];
        var u := SetHovering(t, o, performingTurn);
        var enter := if u.hoveringSprite.Some? then [MouseEnter(u.hoveringSprite.value)] else [];
        Step(u, exitLast + exitHover + enter)
  }

  /** The click reached the sprite and the sprite asked to become the selection. */
  predicate Promoted(a: ClickAnswers) {
    !a.consumes && !a.panelTakes && a.persistOnClick
  }

  /** clickingOnSprite: an overlay that consumes clicks lets only next-turn controls through;
      otherwise hover is reset, the panel gets first refusal, and a declined click reaches
      the sprite, which becomes the clicked sprite when it persists on click. */
  function ClickingOnSprite(s: UiState, o: SpriteId, count: int, rightClick: bool, explicit: bool,
                            a: ClickAnswers, performingTurn: bool): (r: Step)
    ensures a.consumes && o !in s.nextTurnControls ==> r == Step(s, [])
    ensures a.consumes && o in s.nextTurnControls ==>
              r == Step(s, [Click(o, count, rightClick, explicit)])
    ensures !a.consumes ==> r.st.lastHoveringSprite == None
    ensures !a.consumes ==>
              var h := HoveringOverSprite(s, None, a.reset, performingTurn);
              && |h.events| <= |r.events| && r.events[..|h.events|] == h.events
              && (!Promoted(a) ==> r.st == h.st)
              && (a.panelTakes ==> r == h)
              && (!a.panelTakes ==> r.events == h.events + [Click(o, count, rightClick, explicit)])
              && (Promoted(a) ==> r.st.panelVisible == (!performingTurn || h.st.panelVisible))
    ensures !a.consumes && !a.panelTakes ==>
              && |r.events| > 0 && Last(r.events) == Click(o, count, rightClick, explicit)
              && forall i :: 0 <= i < |r.events| - 1 ==> r.events[i].MouseExit?
    ensures !a.consumes && a.panelTakes ==> forall e :: e in r.events ==> e.MouseExit?
    ensures Promoted(a) ==> r.st.clickedSprite == Some(o) && r.st.hoveringSprite == None
    ensures r.st.clickedSprite != s.clickedSprite ==> Promoted(a) && r.st.clickedSprite == Some(o)
    ensures Promoted(a) && a.isStarSystem ==> r.st.lastSystemSelected == Some(o)
    ensures r.st.lastSystemSelected != s.lastSystemSelected ==> Promoted(a) && a.isStarSystem
    ensures r.st == s.(clickedSprite := r.st.clickedSprite,
                       hoveringSprite := r.st.hoveringSprite,
                       lastHoveringSprite := r.st.lastHoveringSprite,
                       lastSystemSelected := r.st.lastSystemSelected,
                       panelVisible := r.st.panelVisible)
  {
    if a.consumes then
      if o in s.nextTurnControls then Step(s, [Click(o, count, rightClick, explicit)])
      else Step(s, [])
    else
      var h := HoveringOverSprite(s, None, a.reset, performingTurn);
      if a.panelTakes then h
      else
        var t := if a.persistOnClick
                 then SetClicked(SetHovering(h.st, None, performingTurn), Some(o), a.isStarSystem)
                 else h.st;
        Step(t, h.events + [Click(o, count, rightClick, explicit)])
  }

  /** The reference rule for flight paths: drawn when its ship is selected or hovered, its
      destination is selected, it is being worked on, or a global toggle admits it. */
  predicate PathVisible(s: UiState, fp: FlightPath, working: set<SpriteId>, showAll: bool, showImportant: bool) {
    || s.clickedSprite == Some(fp.ship)
    || s.hoveringSprite == Some(fp.ship)
    || s.clickedSprite == Some(fp.destination)
    || fp.id in working
    || showAll
    || (showImportant && (fp.isPlayer || fp.aggressiveToPlayer))
  }

  /** shouldDrawSprite: nothing for null, everything that is not a flight path, and a
      flight path by the rule above. */
  function ShouldDrawSprite(s: UiState, d: Option<Drawable>, working: set<SpriteId>,
                            showAll: bool, showImportant: bool): (r: bool)
    ensures d.None? ==> !r
    ensures d.Some? && d.value.Plain? ==> r
    ensures d.Some? && d.value.Path? ==>
              (r <==> PathVisible(s, d.value.path, working, showAll, showImportant))
  {
    match d
    case None => false
    case Some(Plain(_)) => true
    case Some(Path(fp)) =>
      if s.clickedSprite == Some(fp.ship) || s.hoveringSprite == Some(fp.ship) then true
      else if s.clickedSprite == Some(fp.destination) then true
      else if fp.id in working then true
      else if showAll then true
      else if showImportant then fp.isPlayer || fp.aggressiveToPlayer
      else false
  }

  /** masksMouseOver: the visible detail panel masks its own bounds; the overlay masks
      whatever it says it masks. */
  function MasksMouseOver(s: UiState, panelContains: bool, overlayMasks: bool): (r: bool)
    ensures !s.panelVisible ==> (r <==> overlayMasks)
    ensures !overlayMasks ==> (r <==> s.panelVisible && panelContains)
    ensures overlayMasks ==> r
  {
    (s.panelVisible && panelContains) || overlayMasks
  }

  /** displayNextTurnNotice: only while a turn is processed, unless the overlay hides it. */
  function DisplayNextTurnNotice(performingTurn: bool, overlayHides: bool): (r: bool)
    ensures r ==> performingTurn
    ensures overlayHides ==> !r
    ensures performingTurn && !overlayHides ==> r
  {
    performingTurn && !overlayHides
  }

  /** showAlerts: the banner needs a pending alert and a visible detail panel. */
  function ShowAlerts(s: UiState, hasAlert: bool): (r: bool)
    ensures r ==> hasAlert && s.panelVisible
    ensures hasAlert && s.panelVisible ==> r
  {
    hasAlert && s.panelVisible
  }

  /** The alert banner's title: a plain title for a single alert, "k of n" otherwise. */
  datatype AlertTitle = SingleAlert | AlertCount(current: int, total: int)

  function AlertBannerTitle(numAlerts: int, viewedAlerts: int): (r: AlertTitle)
    ensures r.SingleAlert? <==> numAlerts == 1
    ensures r.AlertCount? ==> r.current == viewedAlerts + 1 && r.total == numAlerts
  {
    if numAlerts == 1 then SingleAlert else AlertCount(viewedAlerts + 1, numAlerts)
  }

  /** gridOrigin: the clicked sprite when circular grids are on and it is a mapped object. */
  function GridOrigin(s: UiState, showGridCircular: bool, clickedIsMapped: bool): (r: Option<SpriteId>)
    ensures r.Some? ==> showGridCircular && clickedIsMapped && r == s.clickedSprite
    ensures showGridCircular && clickedIsMapped ==> r == s.clickedSprite
  {
    if !showGridCircular then None
    else if s.clickedSprite.Some? && clickedIsMapped then s.clickedSprite
    else None
  }

  /** mapFocus: the stored focus, created at the origin on first use. */
  function MapFocus(s: UiState): (r: (Location, UiState))
    ensures r.1.mapFocus == Some(r.0)
    ensures s.mapFocus.Some? ==> r.0 == s.mapFocus.value && r.1 == s
    ensures s.mapFocus.None? ==> r.0 == Origin && r.1 == s.(mapFocus := Some(Origin))
  {
    match s.mapFocus
    case Some(loc) => (loc, s)
    case None => (Origin, s.(mapFocus := Some(Origin)))
  }

  /** selectPlayerHomeSystem without the camera centring: click the home system without
      sound, clear hovering and select it. */
  function SelectPlayerHomeSystem(s: UiState, home: SpriteId, performingTurn: bool): (r: Step)
    ensures r.events == [Click(home, 1, false, false)]
    ensures r.st.clickedSprite == Some(home) && r.st.lastSystemSelected == Some(home)
    ensures r.st.hoveringSprite == None
    ensures r.st.panelVisible == (!performingTurn || s.panelVisible)
    ensures r.st == s.(clickedSprite := r.st.clickedSprite, hoveringSprite := None,
                       lastSystemSelected := r.st.lastSystemSelected, panelVisible := r.st.panelVisible)
  {
    Step(SetClicked(SetHovering(s, None, performingTurn), Some(home), true), [Click(home, 1, false, false)])
  }

  /** checkMapInitialized: the first call initialises the map data and selects the home
      system; later calls do nothing. */
  function CheckMapInitialized(s: UiState, home: SpriteId, performingTurn: bool): (r: Step)
    ensures r.st.mapInitialized
    ensures s.mapInitialized ==> r == Step(s, [])
    ensures !s.mapInitialized ==>
              && r.events == [MapDataInitialized, Click(home, 1, false, false)]
              && r.st.clickedSprite == Some(home) && r.st.lastSystemSelected == Some(home)
              && r.st.hoveringSprite == None
              && r.st.panelVisible == (!performingTurn || s.panelVisible)
    ensures !s.mapInitialized ==>
              r.st == s.(clickedSprite := Some(home), hoveringSprite := None,
                         lastSystemSelected := Some(home), panelVisible := r.st.panelVisible,
                         mapInitialized := true)
  {
    if s.mapInitialized then Step(s, [])
    else
      var sel := SelectPlayerHomeSystem(s, home, performingTurn);
      Step(sel.st.(mapInitialized := true), [MapDataInitialized] + sel.events)
  }

  /** paintOverMap, control-list part: the list is cleared and then holds exactly what the
      active overlay registers while painting. */
  function PaintOverMap(s: UiState, registered: seq<SpriteId>): (r: UiState)
    ensures s.overlay == SpiesCaptured ==> r.nextTurnControls == [ContinueSprite]
    ensures s.overlay != SpiesCaptured ==> r.nextTurnControls == registered
    ensures r == s.(nextTurnControls := r.nextTurnControls)
  {
    var cleared := s.(nextTurnControls := []);
    if s.overlay == SpiesCaptured
    then cleared.(nextTurnControls := SpiesOverlay.RegisterControls(cleared.nextTurnControls))
    else cleared.(nextTurnControls := cleared.nextTurnControls + registered)
  }

  /** advanceMap: delegated to the active overlay; only SpiesCaptured's is modelled. */
  function AdvanceMap(s: UiState): (r: Step)
    ensures r.events == [AdvanceOffered(s.overlay)]
    ensures s.overlay == SpiesCaptured ==> r.st == SpiesOverlay.AdvanceMap(s)
    ensures s.overlay != SpiesCaptured ==> r.st == s
  {
    if s.overlay == SpiesCaptured then Step(SpiesOverlay.AdvanceMap(s), [AdvanceOffered(SpiesCaptured)])
    else Step(s, [AdvanceOffered(s.overlay)])
  }

  /** keyPressed: the active overlay sees the key first; if it declines, the None overlay's
      handler gets it. `activeTakes` is the answer of an overlay whose handler is not
      modelled here. */
  function KeyPressed(s: UiState, key: int, activeTakes: bool): (r: Step)
    ensures 1 <= |r.events| <= 2 && r.events[0] == KeyOffered(s.overlay, key)
    ensures |r.events| == 2 ==> r.events[1] == KeyOffered(NoOverlay, key)
    ensures s.overlay == SpiesCaptured ==> (|r.events| == 1 <==> key == VkEscape)
    ensures s.overlay == SpiesCaptured && key == VkEscape ==> r.st == SpiesOverlay.AdvanceMap(s)
    ensures s.overlay == SpiesCaptured && key != VkEscape ==> r.st == s
    ensures s.overlay != SpiesCaptured ==> r.st == s && (|r.events| == 1 <==> activeTakes)
  {
    var handled :=
      if s.overlay == SpiesCaptured then SpiesOverlay.HandleKeyPress(s, key) else (activeTakes, s);
    var fallback := if handled.0 then [] else [KeyOffered(NoOverlay, key)];
    Step(handled.1, [KeyOffered(s.overlay, key)] + fallback)
  }
}
