# Strategic-map screen of Remnants of the Precursors: overlay and dispatch model

This Dafny project models the mode and dispatch logic of `MainUI`, the live strategic-map
screen of the game, with all Swing painting removed. What remains is a small
deterministic state machine:

- **State** (`MapState.UiState`). It holds the active overlay (one of thirteen kinds), the
  payload each overlay's `init` was last given, the advice flag, and the help step
  (`helpFrame`). It also holds the session's sprite slots (clicked, hovering, last
  hovering, last selected system), the lazily created map focus and the map-initialised
  flag, the detail panel's visibility, the next-turn control list, and a counter of
  requests to resume turn processing.
- **Overlay controller** (`Overlays`). It covers the `showX` family, `clearOverlay`,
  `clearAdvice`, `setOverlay` and `resumeTurn`, plus the help stepper (`showHelp`,
  `advanceHelp`, `cancelHelp`).
- **SpiesCaptured overlay** (`SpiesOverlay`). It models Escape → `advanceMap` →
  `resumeTurn`, the overlay's refusal of hover events, the registration of its
  click-to-continue sprite, and the rows of its report.
- **Dispatcher** (`Dispatch`). It models click and hover routing. The priority is the
  overlay first, then the detail panel, then the sprite. It also covers flight-path
  visibility, mouse masking, the next-turn notice, the alert banner predicate and title,
  the grid origin, the lazy map focus, the once-only map initialisation, the control-list
  reset on paint, and the key fallback to the None overlay.
- **Controller** (`Controller`). Every operation is a `Command`, and runs of commands can
  be applied to a state. Over every run, the help step stays in 0..4 and resume requests
  never decrease. The Advice overlay is active only while the advice flag is set for
  every run that contains no `setOverlay(Advice)`. That last invariant also rests on the
  key and advance handlers of overlays other than SpiesCaptured being modelled as leaving
  the state unchanged (see "Left out").

Transitions are pure functions. A transition that calls into collaborators returns a
`Step`: the new state plus the ordered trace of calls it made (`Click`, `MouseEnter`,
`MouseExit`, key and advance hand-offs to an overlay, help UI open/close). That trace is
how ordering and "no callback fired" are stated. Collaborator answers are parameters:
`HoverAnswers`, `ClickAnswers`, and flags for the session's "performing turn" state, the
overlay's notice hiding and masking, and the panel's bounds. The answers cover the
overlay's `consumesClicks`, `hoveringOverSprite`, `hideNextTurnNotice` and
`masksMouseOver`, the panel's `useClickedSprite` and `useHoveringSprite`, and the sprite's
`persistOnClick` and star-system test. "Exactly one overlay is active" holds by
construction, because `overlay` is a single enum field.

Behaviours of the code that the model keeps:
- `showBombardmentNotice` re-initialises the BombardedNotice overlay but does not make it
  active.
- `showSpiesCaptured` calls no `init`, and `showShipsConstructed` calls `init()` without
  the ship map.
- Hovering a new sprite when the last-hovered and hovering slots hold the same sprite,
  and neither the overlay nor the panel intercepts the hover, fires `mouseExit` on the
  old sprite twice (`DispatchFacts.HoverSwitchExitsTwice`).
- Under the None overlay, a key that handler declines is offered to it a second time
  (`DispatchFacts.NoneOverlayOfferedTwice`).
- That the continue click also calls `advanceMap` lives in `ClickToContinueSprite`.
  `ClickToContinueSprite` is not part of this model. Only the click's delivery is
  modelled.

## Model

| member | source | states |
|---|---|---|
| MapState.Initial | src/rotp/ui/main/MainUI.java:136-155 | the constructed screen shows the None overlay, advice off, help closed, empty slots and control list; it satisfies the invariant |
| MapState.SetHovering | src/rotp/ui/main/MainUI.java:572-576 | storing the hovering sprite also makes the detail panel visible unless a turn is being processed; nothing else changes |
| MapState.SetClicked | src/rotp/ui/main/MainUI.java:565-569 | storing the clicked sprite updates the last selected system only for a star system; nothing else changes |
| Overlays.ClearOverlay | src/rotp/ui/main/MainUI.java:124 | the resulting overlay is Advice iff the advice flag is set, otherwise None; nothing else changes |
| Overlays.ClearAdvice | src/rotp/ui/main/MainUI.java:198-203 | no effect unless Advice is active; then the flag is cleared and the None overlay installed |
| Overlays.SetOverlay | src/rotp/ui/main/MainUI.java:194-196 | installs the given overlay, keeping every payload and slot |
| Overlays.ResumeTurn | src/rotp/ui/main/MainUI.java:618-622 | falls back to the resting overlay (Advice iff flag) and issues exactly one resume request |
| Overlays.ShowMemoryLowPrompt | src/rotp/ui/main/MainUI.java:231-235 | activates MemoryLow, re-initialises its payload, changes nothing else |
| Overlays.ShowAutosaveFailedPrompt | src/rotp/ui/main/MainUI.java:236-240 | activates AutosaveFailed carrying the error text, changes nothing else |
| Overlays.ShowBombardmentPrompt | src/rotp/ui/main/MainUI.java:241-245 | activates BombardPrompt with system and fleet, changes nothing else |
| Overlays.ShowBombardmentNotice | src/rotp/ui/main/MainUI.java:246-249 | re-initialises the BombardedNotice payload but leaves the active overlay as it was |
| Overlays.ShowShipCombatPrompt | src/rotp/ui/main/MainUI.java:250-254 | activates ShipCombatPrompt with the combat manager, changes nothing else |
| Overlays.ShowColonizationPrompt | src/rotp/ui/main/MainUI.java:255-259 | activates ColonizePrompt with system, fleet and design, changes nothing else |
| Overlays.ShowSpiesCaptured | src/rotp/ui/main/MainUI.java:260-263 | activates SpiesCaptured without touching any payload |
| Overlays.ShowEspionageMission | src/rotp/ui/main/MainUI.java:264-268 | activates EspionageMission with mission and empire, changes nothing else |
| Overlays.ShowShipsConstructed | src/rotp/ui/main/MainUI.java:269-276 | an empty report resumes the turn once and leaves the resting overlay; a non-empty one shows ShipsConstructed with no resume |
| Overlays.ShowSystemsScouted | src/rotp/ui/main/MainUI.java:277-280 | activates SystemsScouted with the scouted systems, changes nothing else |
| Overlays.AllocateSystemsPrompt | src/rotp/ui/main/MainUI.java:281-284 | activates AllocateSystems with the system labels, changes nothing else |
| Overlays.ShowAdvice | src/rotp/ui/main/MainUI.java:204-209 | activates Advice with its text and also sets the advice flag |
| Overlays.LoadHelp | src/rotp/ui/main/MainUI.java:333-337 | loading help opens the help UI exactly when the step is not 0 |
| Overlays.CancelHelp | src/rotp/ui/main/MainUI.java:210-214 | help goes back to step 0 and the help UI is closed |
| Overlays.ShowHelp | src/rotp/ui/main/MainUI.java:215-220 | help starts at step 1 and opens it |
| Overlays.AdvanceHelp | src/rotp/ui/main/MainUI.java:221-230 | no-op at step 0, next step below 4, closes back to 0 after step 4; keeps the step within 0..4 |
| Overlays.AdvanceHelpWalk | src/rotp/ui/main/MainUI.java:221-230 | n advances from an open step k reach k+n, or 0 once k+n exceeds 4 |
| Overlays.AdvanceHelpStaysClosed | src/rotp/ui/main/MainUI.java:222-224 | any number of advances from step 0 change nothing and call nothing |
| Overlays.HelpWalkThrough | src/rotp/ui/main/MainUI.java:211-230 | showHelp then four advances opens steps 1, 2, 3, 4 in order and then closes help |
| Overlays.AdviceThenClear | src/rotp/ui/main/MainUI.java:198-209 | clearOverlay after showAdvice yields Advice; after clearAdvice it yields None |
| Overlays.AdviceSurvivesOtherOverlay | src/rotp/ui/main/MainUI.java:198-203 | clearAdvice under another overlay keeps the flag, so clearing that overlay brings Advice back |
| Overlays.ShipsConstructedResumesIffEmpty | src/rotp/ui/main/MainUI.java:269-276 | a resume happens iff the report is empty, ShipsConstructed stays active iff it is not, and the invariant is kept |
| SpiesOverlay.TakesHover | src/rotp/ui/main/MainUI.java:693-694 | the SpiesCaptured overlay never intercepts hovering |
| SpiesOverlay.AdvanceMap | src/rotp/ui/main/MainUI.java:695-698 | advancing SpiesCaptured resumes the turn once and leaves the resting overlay |
| SpiesOverlay.HandleKeyPress | src/rotp/ui/main/MainUI.java:760-770 | the key is consumed iff it is Escape, whose effect is exactly the overlay's advance (resumeTurn); other keys change nothing |
| SpiesOverlay.RegisterControls | src/rotp/ui/main/MainUI.java:758 | painting appends the continue sprite to the control list |
| SpiesOverlay.ReportRows | src/rotp/ui/main/MainUI.java:743-749 | one report row per contacted empire, in contact order, with its race, the player's spies lost and its spies lost |
| Dispatch.HoveringOverSprite | src/rotp/ui/main/MainUI.java:507-528 | no-op on the last hovered sprite; otherwise the last hovered sprite is always updated, exit of the previous one comes first, any enter is of the new sprite and comes last, and the hovering slot moves only when neither overlay nor panel intercepts, in which case the old hovering sprite is exited and the panel is shown unless a turn is processed; an intercepted hover fires only the exit of the last hovered sprite |
| Dispatch.ClickingOnSprite | src/rotp/ui/main/MainUI.java:485-506 | a consuming overlay swallows clicks except on next-turn controls, which alone are clicked; otherwise hover is reset by a full hover dispatch of null (a click the panel takes does exactly that and nothing more), a declined click is delivered to the sprite right after that reset's calls and nothing else fires, and only a persisting sprite becomes the clicked sprite (star systems also the last system) while the panel is shown unless a turn is processed |
| Dispatch.ShouldDrawSprite | src/rotp/ui/main/MainUI.java:529-549 | null is not drawn, non-path sprites always are, and a flight path is drawn iff the reference rule `PathVisible` holds |
| Dispatch.MasksMouseOver | src/rotp/ui/main/MainUI.java:457 | the point is masked whenever the overlay masks it, and otherwise exactly when the visible panel's bounds contain it |
| Dispatch.DisplayNextTurnNotice | src/rotp/ui/main/MainUI.java:464-469 | the notice shows only while a turn is processed and never when the overlay hides it |
| Dispatch.ShowAlerts | src/rotp/ui/main/MainUI.java:191-193 | the alert banner shows iff an alert is pending and the panel is visible |
| Dispatch.AlertBannerTitle | src/rotp/ui/main/MainUI.java:655-657 | the plain title iff there is exactly one alert, else "viewed+1 of total" |
| Dispatch.GridOrigin | src/rotp/ui/main/MainUI.java:592-600 | the grid origin is the clicked sprite when circular grids are on and it is a mapped object, otherwise none |
| Dispatch.MapFocus | src/rotp/ui/main/MainUI.java:550-558 | returns the stored focus, creating and storing the origin when none exists |
| Dispatch.SelectPlayerHomeSystem | src/rotp/ui/main/MainUI.java:318-326 | clicks the home system silently, clears hovering (showing the panel unless a turn is processed), selects it as clicked sprite and last system |
| Dispatch.CheckMapInitialized | src/rotp/ui/main/MainUI.java:472-480 | the first call initialises the map and selects the home system, changing nothing but the selection slots, panel visibility and the initialised flag; afterwards it is a no-op |
| Dispatch.PaintOverMap | src/rotp/ui/main/MainUI.java:609-613 | the control list is rebuilt: exactly the continue sprite under SpiesCaptured, else what the overlay registers |
| Dispatch.AdvanceMap | src/rotp/ui/main/MainUI.java:614-617 | advanceMap is handed to the active overlay; under SpiesCaptured the result is exactly that overlay's advance, i.e. resumeTurn |
| Dispatch.KeyPressed | src/rotp/ui/main/MainUI.java:673-677 | the active overlay sees the key first, and only if it declines does the None overlay's handler get it; under SpiesCaptured, Escape has exactly the effect of advancing that overlay and any other key is passed on to the None handler |
| DispatchFacts.HoverIdempotent | src/rotp/ui/main/MainUI.java:508-510 | hovering the same sprite twice: the second call fires nothing and changes nothing |
| DispatchFacts.HoverExitBeforeEnter | src/rotp/ui/main/MainUI.java:511-525 | hovering A then B: A's exit is the first call of the second hover and B's enter the last |
| DispatchFacts.HoverSwitchExitsTwice | src/rotp/ui/main/MainUI.java:512-522 | when last-hovered and hovering coincide, the old sprite gets mouseExit twice |
| DispatchFacts.HoverInterceptedKeepsSlot | src/rotp/ui/main/MainUI.java:514-519 | an intercepted hover still records the last hovered sprite but keeps the hovering slot |
| DispatchFacts.SwallowedClickFiresNothing | src/rotp/ui/main/MainUI.java:489-495 | a swallowed click calls no click callback and changes no sprite slot |
| DispatchFacts.SpiesContinueIsOnlyControl | src/rotp/ui/main/MainUI.java:489-493 | after SpiesCaptured paints, a consuming overlay lets only the continue sprite be clicked |
| DispatchFacts.PaintDoesNotLeakControls | src/rotp/ui/main/MainUI.java:610-613 | the control list after a paint is independent of the list before it |
| DispatchFacts.ClickPromotion | src/rotp/ui/main/MainUI.java:496-506 | a persisting sprite that reaches the map becomes the clicked sprite with nothing hovering; the last system changes only for a star system |
| DispatchFacts.ShowAllDrawsEveryPath | src/rotp/ui/main/MainUI.java:542-543 | with "show all" on every flight path is drawn |
| DispatchFacts.UnselectedPathHidden | src/rotp/ui/main/MainUI.java:533-547 | an unselected, unhovered, idle path is hidden when both toggles are off |
| DispatchFacts.MapFocusStable | src/rotp/ui/main/MainUI.java:551-558 | once created the map focus is returned unchanged |
| DispatchFacts.MapInitializedOnce | src/rotp/ui/main/MainUI.java:473-480 | a second checkMapInitialized does nothing |
| DispatchFacts.NoneOverlayOfferedTwice | src/rotp/ui/main/MainUI.java:674-677 | under the None overlay a declined key reaches the None handler twice |
| DispatchFacts.ClickedSpriteBecomesGridOrigin | src/rotp/ui/main/MainUI.java:593-600 | after a promoted click on a mapped sprite with circular grids on, that sprite is the grid origin |
| DispatchFacts.HoverShowsMaskingPanel | src/rotp/ui/main/MainUI.java:572-576 | a hover that reaches the map outside a turn shows the panel, so its bounds then mask the pointer whatever the overlay says |
| DispatchFacts.HoverDuringTurnKeepsMasking | src/rotp/ui/main/MainUI.java:572-576 | while a turn is processed no hover changes whether the pointer is masked |
| DispatchFacts.HoverShowsAlerts | src/rotp/ui/main/MainUI.java:572-576 | a hover that reaches the map outside a turn shows the panel, so a pending alert's banner is shown |
| DispatchFacts.HoverDuringTurnKeepsAlerts | src/rotp/ui/main/MainUI.java:191-193 | while a turn is processed no hover changes whether the alert banner shows |
| DispatchFacts.AlertTitleInRange | src/rotp/ui/main/MainUI.java:655-657 | with several alerts and fewer viewed than pending, the banner's position k of n has 1 <= k <= n |
| DispatchFacts.SpiesEscapeIsAdvance | src/rotp/ui/main/MainUI.java:761-766 | Escape on SpiesCaptured has the same effect as advancing it, which is resumeTurn |
| Controller.ShowFamilyActivatesOwnKind | src/rotp/ui/main/MainUI.java:231-284 | every show operation activates its own kind and leaves sprite slots, help step and control list alone, except the notice (overlay kept) and an empty ship report (resting overlay, one resume) |
| Controller.ApplyKeepsHelpInRange | src/rotp/ui/main/MainUI.java:211-230 | no operation moves the help step out of 0..4 or lowers the resume count |
| Controller.ApplyKeepsAdviceConsistent | src/rotp/ui/main/MainUI.java:198-209 | every operation except setOverlay(Advice) keeps Advice active only while the flag is set |
| Controller.RunKeepsValid | src/rotp/ui/main/MainUI.java:112-113 | every run of operations keeps the help step in 0..4 and the resume count non-decreasing, and the full invariant if no setOverlay(Advice) occurs |
| Controller.ReachableStatesValid | src/rotp/ui/main/MainUI.java:136-155 | every state reachable from construction without setOverlay(Advice) satisfies the invariant |

## Left out

- Rendering is not modelled. That covers `initModel` layout, the colour and border
  constants, the `drawAlerts` gradient and text drawing, and the SpiesCaptured box
  geometry. These are pixel arithmetic over font metrics.
- The `loadHelpUI` per-step coordinate and text tables are not modelled. Opening and
  closing the help UI are recorded as `HelpOpened(step)` and `HelpClosed` events.
- `saveMapState`/`restoreMapState` are left out. Besides the float scale and centre, they
  save the clicked-sprite slot in the session and restore it, and restoring also shows the
  detail panel. The camera centring and map bounds in `selectPlayerHomeSystem` are left
  out too, because they are float values.
- The other overlay classes (`MapOverlayNone`, `MapOverlayAdvice`, …) are not part of
  this model. Their predicates are parameters, and their `init` payloads are opaque
  handles.
- Dispatch.KeyPressed: the key handlers of overlays other than SpiesCaptured, and the None
  overlay's fallback handler in every case (SpiesCaptured included, for every key but
  Escape), are taken to leave the state unchanged. Those handlers are not part of this
  model, so any state change they make is not stated.
- Dispatch.AdvanceMap: for overlays other than SpiesCaptured, the state is left
  unchanged, for the same reason.
- The session's string-keyed store becomes typed fields. Session reset is out of scope.
- `isClicked` and `isHovering` come from `IMapHandler`, which is not part of this model.
  They are taken as equality with the clicked and hovering slots.
- Sprite identity is reference identity in Java. It is modelled as `SpriteId` equality,
  which also stands in for `List.contains`.
- The `displayPanel != null` guards are dropped. The panel is created in the constructor
  before any dispatch can happen.
- `reselectCurrentSystem` is left out. It re-dispatches a click on the last selected
  system. When none was ever selected it passes null, which the sprite click would
  dereference.
- `clickingNull`, `cancel`, `init`, `handleNextTurn`, `animate`, `canChangeMapScales`
  and the `hoverOver*` queries are left out. Each forwards to the map, the panel, the
  button bar or the active overlay; `animate` does so only while `displayNextTurnNotice()`
  is false.
- Sound (`softClick`), logging, `repaint`/`paintImmediately` and the animation calls are
  left out, because they are not observable state.
- The map focus `Location` holds floats. It is modelled only as a value, created at the
  origin.
