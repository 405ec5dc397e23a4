/** The state of the strategic-map screen (MainUI) once painting is removed: the active
    overlay, the per-overlay activation payloads, the advice flag, the help step, the
    session's sprite slots and the next-turn control list. */
module MapState {
  import opened Options
  import opened Sprites

  /** The thirteen overlays MainUI constructs once and switches between. */
  datatype Overlay =
    | NoOverlay         // MapOverlayNone; not called None, which is Option's constructor
    | Advice
    | MemoryLow
    | AutosaveFailed
    | ShipsConstructed
    | SpiesCaptured
    | AllocateSystems
    | SystemsScouted
    | EspionageMission
    | ColonizePrompt
    | BombardPrompt
    | BombardedNotice
    | ShipCombatPrompt

  /** The arguments an overlay's `init` was last called with. Fleets, designs, missions
      and combat managers are opaque handles. */
  datatype Payload =
    | Reinitialized                                          // init() with no arguments
    | SaveError(err: string)
    | SystemAndFleet(sysId: int, fleet: nat)
    | Combat(manager: nat)
    | Colonization(sysId: int, fleet: nat, design: nat)
    | Espionage(mission: nat, empireId: int)
    | Scouted(systems: map<string, seq<nat>>)
    | Allocation(labels: map<nat, seq<string>>)
    | AdviceText(key: string, var1: string, var2: string, var3: string)

  /** A map position; a freshly made Location is the origin. */
  datatype Location = Location(x: real, y: real)

  const Origin := Location(0.0, 0.0)

  /** The help annotations have four steps; step 0 means help is closed. */
  const MaxHelpFrame := 4

  /** Java's KeyEvent.VK_ESCAPE. */
  const VkEscape := 27

  /** Observable calls the screen makes into sprites, overlays and the help UI. */
  datatype Event =
    | Click(sprite: SpriteId, count: int, rightClick: bool, explicit: bool)
    | MouseEnter(sprite: SpriteId)
    | MouseExit(sprite: SpriteId)
    | KeyOffered(handler: Overlay, key: int)   // handleKeyPress called on that overlay
    | AdvanceOffered(handler: Overlay)         // advanceMap called on that overlay
    | HelpOpened(frame: int)                   // help step loaded and the help UI opened
    | HelpClosed
    | MapDataInitialized

  datatype UiState = UiState(
    overlay: Overlay,
    payloads: map<Overlay, Payload>,
    showAdvice: bool,
    helpFrame: int,
    clickedSprite: Option<SpriteId>,
    hoveringSprite: Option<SpriteId>,
    lastHoveringSprite: Option<SpriteId>,
    lastSystemSelected: Option<SpriteId>,
    mapFocus: Option<Location>,
    mapInitialized: bool,
    panelVisible: bool,
    nextTurnControls: seq<SpriteId>,
    resumes: nat)   // how many times the turn session was asked to resume processing

  /** A transition's result: the new state and the calls it made, in order. */
  datatype Step = Step(st: UiState, events: seq<Event>)

  /** The four session sprite slots. */
  datatype Slots = Slots(
    clicked: Option<SpriteId>,
    hovering: Option<SpriteId>,
    lastHovering: Option<SpriteId>,
    lastSystem: Option<SpriteId>)

  function SlotsOf(s: UiState): Slots {
    Slots(s.clickedSprite, s.hoveringSprite, s.lastHoveringSprite, s.lastSystemSelected)
  }

  predicate HelpInRange(s: UiState) {
    0 <= s.helpFrame <= MaxHelpFrame
  }

  /** The Advice overlay is only ever active while the advice flag is set. */
  predicate AdviceConsistent(s: UiState) {
    s.overlay == Advice ==> s.showAdvice
  }

  predicate Valid(s: UiState) {
    HelpInRange(s) && AdviceConsistent(s)
  }

  /** The screen as the constructor leaves it, with an empty session. */
  function Initial(panelVisible: bool): (s: UiState)
    ensures Valid(s)
    ensures s.overlay == NoOverlay && !s.showAdvice && s.helpFrame == 0
    ensures SlotsOf(s) == Slots(None, None, None, None)
    ensures s.nextTurnControls == [] && s.resumes == 0
  {
    UiState(NoOverlay, map[], false, 0, None, None, None, None, None, false, panelVisible, [], 0)
  }

  /** The `hoveringSprite(s)` setter: stores the slot and, unless a turn is being
      processed, makes the detail panel visible. */
  function SetHovering(s: UiState, sprite: Option<SpriteId>, performingTurn: bool): (r: UiState)
    ensures r.hoveringSprite == sprite
    ensures !performingTurn ==> r.panelVisible
    ensures performingTurn ==> r.panelVisible == s.panelVisible
    ensures r.(hoveringSprite := s.hoveringSprite, panelVisible := s.panelVisible) == s
  {
    s.(hoveringSprite := sprite, panelVisible := if performingTurn then s.panelVisible else true)
  }

  /** The `clickedSprite(s)` setter: stores the slot and, for a star system only, also
      records it as the last selected system. */
  function SetClicked(s: UiState, sprite: Option<SpriteId>, isStarSystem: bool): (r: UiState)
    ensures r.clickedSprite == sprite
    ensures sprite.Some? && isStarSystem ==> r.lastSystemSelected == sprite
    ensures !(sprite.Some? && isStarSystem) ==> r.lastSystemSelected == s.lastSystemSelected
    ensures r.(clickedSprite := s.clickedSprite, lastSystemSelected := s.lastSystemSelected) == s
  {
    var t := s.(clickedSprite := sprite);
    if sprite.Some? && isStarSystem then t.(lastSystemSelected := sprite) else t
  }
}
