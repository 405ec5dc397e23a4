/** Properties relating several dispatcher calls. */
module DispatchFacts {
  import opened Options
  import opened Sprites
  import opened MapState
  import opened Dispatch
  import Overlays

  /** Hovering the same sprite twice: the second call fires nothing and changes nothing. */
  lemma HoverIdempotent(s: UiState, o: Option<SpriteId>, a: HoverAnswers, b: HoverAnswers, p: bool, q: bool)
    ensures var first := HoveringOverSprite(s, o, a, p);
            HoveringOverSprite(first.st, o, b, q) == Step(first.st, [])
  {
  }

  /** Hovering A then B, with nothing intercepting: A is entered, then exited before B
      is entered, and B's enter is the last call. */
  lemma HoverExitBeforeEnter(s: UiState, x: SpriteId, y: SpriteId, p: bool)
    requires x != y
    requires s.lastHoveringSprite != Some(x)
    ensures var free := HoverAnswers(false, false);
            var first := HoveringOverSprite(s, Some(x), free, p);
            var second := HoveringOverSprite(first.st, Some(y), free, p);
            && Last(first.events) == MouseEnter(x)
            && second.events[0] == MouseExit(x)
            && Last(second.events) == MouseEnter(y)
            && MouseEnter(y) !in second.events[..|second.events| - 1]
  {
  }

  /** When the last hovered and the hovering sprite coincide, moving the pointer to another
      sprite fires mouseExit on the old sprite twice: once as the last hovered sprite and
      once as the hovering sprite. */
  lemma HoverSwitchExitsTwice(s: UiState, x: SpriteId, y: Option<SpriteId>, a: HoverAnswers, p: bool)
    requires s.lastHoveringSprite == Some(x) && s.hoveringSprite == Some(x)
    requires y != Some(x)
    requires !HoverIntercepted(s, a)
    ensures var r := HoveringOverSprite(s, y, a, p);
            r.events[..2] == [MouseExit(x), MouseExit(x)]
  {
  }

  /** Whatever the overlay and panel answer, hovering always records the last hovered
      sprite, and an intercepted hover leaves the hovering slot alone. */
  lemma HoverInterceptedKeepsSlot(s: UiState, o: Option<SpriteId>, a: HoverAnswers, p: bool)
    requires HoverIntercepted(s, a)
    ensures var r := HoveringOverSprite(s, o, a, p);
            r.st.lastHoveringSprite == o && r.st.hoveringSprite == s.hoveringSprite
  {
  }

  /** A click swallowed by the overlay reaches no sprite and changes no state. */
  lemma SwallowedClickFiresNothing(s: UiState, o: SpriteId, n: int, right: bool, ex: bool,
                                   a: ClickAnswers, p: bool)
    requires a.consumes && o !in s.nextTurnControls
    ensures var r := ClickingOnSprite(s, o, n, right, ex, a, p);
            (forall e :: e in r.events ==> !e.Click?) && SlotsOf(r.st) == SlotsOf(s)
  {
  }

  /** After the SpiesCaptured overlay paints, its continue sprite is the only sprite a
      consuming overlay lets a click through to. */
  lemma SpiesContinueIsOnlyControl(s: UiState, o: SpriteId, n: int, right: bool, ex: bool,
                                   a: ClickAnswers, p: bool, registered: seq<SpriteId>)
    requires s.overlay == SpiesCaptured && a.consumes
    ensures var painted := PaintOverMap(s, registered);
            var r := ClickingOnSprite(painted, o, n, right, ex, a, p);
            && (o == ContinueSprite ==> r.events == [Click(ContinueSprite, n, right, ex)])
            && (o != ContinueSprite ==> r.events == [])
            && r.st == painted
  {
  }

  /** The control list after a paint never depends on the list before it. */
  lemma PaintDoesNotLeakControls(s: UiState, stale: seq<SpriteId>, registered: seq<SpriteId>)
    ensures PaintOverMap(s, registered) ==
              PaintOverMap(s.(nextTurnControls := stale), registered).(nextTurnControls :=
                PaintOverMap(s, registered).nextTurnControls)
    ensures PaintOverMap(s, registered).nextTurnControls ==
              PaintOverMap(s.(nextTurnControls := stale), registered).nextTurnControls
  {
  }

  /** A sprite that persists on click and reaches the map becomes the selection, leaves
      nothing hovering, and updates the last system exactly when it is a star system. */
  lemma ClickPromotion(s: UiState, o: SpriteId, n: int, right: bool, ex: bool, a: ClickAnswers, p: bool)
    requires Promoted(a)
    ensures var r := ClickingOnSprite(s, o, n, right, ex, a, p);
            && r.st.clickedSprite == Some(o)
            && r.st.hoveringSprite == None
            && r.st.lastHoveringSprite == None
            && (r.st.lastSystemSelected == Some(o) || !a.isStarSystem)
            && (!a.isStarSystem ==> r.st.lastSystemSelected == s.lastSystemSelected)
  {
  }

  /** Turning on "show all" makes every flight path visible, whatever else holds. */
  lemma ShowAllDrawsEveryPath(s: UiState, fp: FlightPath, working: set<SpriteId>, important: bool)
    ensures ShouldDrawSprite(s, Some(Path(fp)), working, true, important)
  {
  }

  /** A flight path nobody selected or hovers, not being worked on, with both toggles off,
      is not drawn. */
  lemma UnselectedPathHidden(s: UiState, fp: FlightPath, working: set<SpriteId>)
    requires s.clickedSprite != Some(fp.ship) && s.hoveringSprite != Some(fp.ship)
    requires s.clickedSprite != Some(fp.destination) && fp.id !in working
    ensures !ShouldDrawSprite(s, Some(Path(fp)), working, false, false)
  {
  }

  /** The map focus is created once and then returned unchanged. */
  lemma MapFocusStable(s: UiState)
    ensures var (loc, t) := MapFocus(s);
            MapFocus(t) == (loc, t)
  {
  }

  /** checkMapInitialized runs its set-up only once. */
  lemma MapInitializedOnce(s: UiState, home: SpriteId, home2: SpriteId, p: bool, q: bool)
    ensures var first := CheckMapInitialized(s, home, p);
            CheckMapInitialized(first.st, home2, q) == Step(first.st, [])
  {
  }

  /** Under the None overlay a declined key is offered to the None handler a second time. */
  lemma NoneOverlayOfferedTwice(s: UiState, key: int)
    requires s.overlay == NoOverlay
    ensures KeyPressed(s, key, false).events == [KeyOffered(NoOverlay, key), KeyOffered(NoOverlay, key)]
  {
  }

  /** Escape on the SpiesCaptured overlay and advancing that overlay have the same effect:
      both resume the turn. */
  lemma SpiesEscapeIsAdvance(s: UiState, answer: bool)
    requires s.overlay == SpiesCaptured
    ensures KeyPressed(s, VkEscape, answer).st == AdvanceMap(s).st == Overlays.ResumeTurn(s)
  {
  }

  /** A promoted click on a mapped sprite makes it the origin of the circular grid. */
  lemma ClickedSpriteBecomesGridOrigin(s: UiState, o: SpriteId, n: int, right: bool, ex: bool,
                                       a: ClickAnswers, p: bool)
    requires Promoted(a)
    ensures GridOrigin(ClickingOnSprite(s, o, n, right, ex, a, p).st, true, true) == Some(o)
  {
  }

  /** A hover that reaches the map outside turn processing shows the detail panel, so the
      panel's bounds mask the pointer whatever the overlay answers. */
  lemma HoverShowsMaskingPanel(s: UiState, o: Option<SpriteId>, a: HoverAnswers, overlayMasks: bool)
    requires o != s.lastHoveringSprite && !HoverIntercepted(s, a)
    ensures MasksMouseOver(HoveringOverSprite(s, o, a, false).st, true, overlayMasks)
  {
  }

  /** While a turn is processed, no hover can change whether the panel masks the pointer. */
  lemma HoverDuringTurnKeepsMasking(s: UiState, o: Option<SpriteId>, a: HoverAnswers,
                                    inside: bool, overlayMasks: bool)
    ensures MasksMouseOver(HoveringOverSprite(s, o, a, true).st, inside, overlayMasks) ==
              MasksMouseOver(s, inside, overlayMasks)
  {
  }

  /** A hover that reaches the map outside turn processing shows the detail panel, so a
      pending alert's banner is then shown. */
  lemma HoverShowsAlerts(s: UiState, o: Option<SpriteId>, a: HoverAnswers)
    requires o != s.lastHoveringSprite && !HoverIntercepted(s, a)
    ensures ShowAlerts(HoveringOverSprite(s, o, a, false).st, true)
  {
  }

  /** While a turn is processed, no hover changes whether the alert banner shows. */
  lemma HoverDuringTurnKeepsAlerts(s: UiState, o: Option<SpriteId>, a: HoverAnswers, hasAlert: bool)
    ensures ShowAlerts(HoveringOverSprite(s, o, a, true).st, hasAlert) == ShowAlerts(s, hasAlert)
  {
  }

  /** With several alerts, the banner's "k of n" position stays within 1..n. */
  lemma AlertTitleInRange(numAlerts: int, viewedAlerts: int)
    requires 0 <= viewedAlerts < numAlerts && numAlerts != 1
    ensures var t := AlertBannerTitle(numAlerts, viewedAlerts);
            t.AlertCount? && 1 <= t.current <= t.total
  {
  }
}
