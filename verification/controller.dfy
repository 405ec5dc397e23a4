/** The screen as one state machine: every MainUI operation as a command, runs of commands,
    and the invariants every run keeps. */
module Controller {
  import opened Options
  import opened Sprites
  import opened MapState
  import Overlays
  import Dispatch

  /** Every operation the screen offers, with the collaborator answers it needs. */
  datatype Command =
    | ShowMemoryLowPrompt
    | ShowAutosaveFailedPrompt(err: string)
    | ShowBombardmentPrompt(sysId: int, fleet: nat)
    | ShowBombardmentNotice(noticeSysId: int, noticeFleet: nat)
    | ShowShipCombatPrompt(manager: nat)
    | ShowColonizationPrompt(colonySysId: int, colonyFleet: nat, design: nat)
    | ShowSpiesCaptured
    | ShowEspionageMission(mission: nat, empireId: int)
    | ShowShipsConstructed(ships: map<nat, int>)
    | ShowSystemsScouted(scouted: map<string, seq<nat>>)
    | AllocateSystems(labels: map<nat, seq<string>>)
    | ShowAdvice(key: string, var1: string, var2: string, var3: string)
    | ClearOverlay
    | ClearAdvice
    | ResumeTurn
    | SetOverlay(kind: Overlay)
    | ShowHelp
    | AdvanceHelp
    | CancelHelp
    | ClickSprite(sprite: SpriteId, count: int, rightClick: bool, explicit: bool,
                  clickAnswers: Dispatch.ClickAnswers, clickDuringTurn: bool)
    | HoverSprite(target: Option<SpriteId>, hoverAnswers: Dispatch.HoverAnswers, hoverDuringTurn: bool)
    | KeyPress(code: int, activeTakes: bool)
    | AdvanceMap
    | PaintOverMap(registered: seq<SpriteId>)
    | FocusMap
    | CheckMapInitialized(home: SpriteId, initDuringTurn: bool)
    | HideDisplayPanel
    | ShowDisplayPanel
  {
    /** The operations of the showX family. */
    predicate IsShow() {
      || ShowMemoryLowPrompt? || ShowAutosaveFailedPrompt? || ShowBombardmentPrompt?
      || ShowBombardmentNotice? || ShowShipCombatPrompt? || ShowColonizationPrompt?
      || ShowSpiesCaptured? || ShowEspionageMission? || ShowShipsConstructed?
      || ShowSystemsScouted? || AllocateSystems? || ShowAdvice?
    }
  }

  /** The overlay kind each show operation is named after. */
  function ShownKind(c: Command): Overlay
    requires c.IsShow()
  {
    match c
    case ShowMemoryLowPrompt => MemoryLow
    case ShowAutosaveFailedPrompt(_) => AutosaveFailed
    case ShowBombardmentPrompt(_, _) => BombardPrompt
    case ShowBombardmentNotice(_, _) => BombardedNotice
    case ShowShipCombatPrompt(_) => ShipCombatPrompt
    case ShowColonizationPrompt(_, _, _) => ColonizePrompt
    case ShowSpiesCaptured => SpiesCaptured
    case ShowEspionageMission(_, _) => EspionageMission
    case ShowShipsConstructed(_) => ShipsConstructed
    case ShowSystemsScouted(_) => SystemsScouted
    case AllocateSystems(_) => Overlay.AllocateSystems
    case ShowAdvice(_, _, _, _) => Advice
  }

  function Quiet(s: UiState): Step {
    Step(s, [])
  }

  /** One command applied to the screen. */
  function Apply(s: UiState, c: Command): Step {
    match c
    case ShowMemoryLowPrompt => Quiet(Overlays.ShowMemoryLowPrompt(s))
    case ShowAutosaveFailedPrompt(err) => Quiet(Overlays.ShowAutosaveFailedPrompt(s, err))
    case ShowBombardmentPrompt(sys, fl) => Quiet(Overlays.ShowBombardmentPrompt(s, sys, fl))
    case ShowBombardmentNotice(sys, fl) => Quiet(Overlays.ShowBombardmentNotice(s, sys, fl))
    case ShowShipCombatPrompt(mgr) => Quiet(Overlays.ShowShipCombatPrompt(s, mgr))
    case ShowColonizationPrompt(sys, fl, d) => Quiet(Overlays.ShowColonizationPrompt(s, sys, fl, d))
    case ShowSpiesCaptured => Quiet(Overlays.ShowSpiesCaptured(s))
    case ShowEspionageMission(m, e) => Quiet(Overlays.ShowEspionageMission(s, m, e))
    case ShowShipsConstructed(ships) => Quiet(Overlays.ShowShipsConstructed(s, ships))
    case ShowSystemsScouted(m) => Quiet(Overlays.ShowSystemsScouted(s, m))
    case AllocateSystems(m) => Quiet(Overlays.AllocateSystemsPrompt(s, m))
    case ShowAdvice(k, v1, v2, v3) => Quiet(Overlays.ShowAdvice(s, k, v1, v2, v3))
    case ClearOverlay => Quiet(Overlays.ClearOverlay(s))
    case ClearAdvice => Quiet(Overlays.ClearAdvice(s))
    case ResumeTurn => Quiet(Overlays.ResumeTurn(s))
    case SetOverlay(kind) => Quiet(Overlays.SetOverlay(s, kind))
    case ShowHelp => Overlays.ShowHelp(s)
    case AdvanceHelp => Overlays.AdvanceHelp(s)
    case CancelHelp => Overlays.CancelHelp(s)
    case ClickSprite(o, n, right, ex, a, p) => Dispatch.ClickingOnSprite(s, o, n, right, ex, a, p)
    case HoverSprite(o, a, p) => Dispatch.HoveringOverSprite(s, o, a, p)
    case KeyPress(key, takes) => Dispatch.KeyPressed(s, key, takes)
    case AdvanceMap => Dispatch.AdvanceMap(s)
    case PaintOverMap(reg) => Quiet(Dispatch.PaintOverMap(s, reg))
    case FocusMap => Quiet(Dispatch.MapFocus(s).1)
    case CheckMapInitialized(home, p) => Dispatch.CheckMapInitialized(s, home, p)
    case HideDisplayPanel => Quiet(s.(panelVisible := false))
    case ShowDisplayPanel => Quiet(s.(panelVisible := true))
  }

  /** A sequence of commands applied in order, with their events concatenated. */
  function Run(s: UiState, cmds: seq<Command>): Step
    decreases |cmds|
  {
    if |cmds| == 0 then Step(s, [])
    else
      var first := Apply(s, cmds[0]);
      var rest := Run(first.st, cmds[1..]);
      Step(rest.st, first.events + rest.events)
  }

  /** Installing the Advice overlay directly through setOverlay, bypassing showAdvice. */
  predicate ForcesAdvice(c: Command) {
    c.SetOverlay? && c.kind == Advice
  }

  /** Every show operation activates its own overlay and leaves the sprite slots, the
      help step and the control list alone; showBombardmentNotice keeps the current
      overlay, and an empty showShipsConstructed falls back to the resting overlay. */
  lemma ShowFamilyActivatesOwnKind(s: UiState, c: Command)
    requires c.IsShow()
    ensures var r := Apply(s, c);
            && r.events == []
            && SlotsOf(r.st) == SlotsOf(s)
            && r.st.helpFrame == s.helpFrame
            && r.st.nextTurnControls == s.nextTurnControls
            && (c.ShowBombardmentNotice? ==> r.st.overlay == s.overlay)
            && (c.ShowShipsConstructed? && |c.ships| == 0 ==>
                  Overlays.IsResting(s, r.st) && r.st.resumes == s.resumes + 1)
            && (!c.ShowBombardmentNotice? && !(c.ShowShipsConstructed? && |c.ships| == 0) ==>
                  r.st.overlay == ShownKind(c) && r.st.resumes == s.resumes)
            && (r.st.showAdvice <==> s.showAdvice || c.ShowAdvice?)
  {
  }

  /** One command keeps the help step in range. */
  lemma ApplyKeepsHelpInRange(s: UiState, c: Command)
    requires HelpInRange(s)
    ensures HelpInRange(Apply(s, c).st)
    ensures Apply(s, c).st.resumes >= s.resumes
  {
  }

  /** One command other than forcing Advice through setOverlay keeps Advice tied to the flag. */
  lemma ApplyKeepsAdviceConsistent(s: UiState, c: Command)
    requires AdviceConsistent(s) && !ForcesAdvice(c)
    ensures AdviceConsistent(Apply(s, c).st)
  {
  }

  /** Every run keeps the help step within 0..4 and never takes back a resume request;
      a run that never forces Advice keeps the whole invariant. */
  lemma {:induction false} RunKeepsValid(s: UiState, cmds: seq<Command>)
    requires HelpInRange(s)
    ensures HelpInRange(Run(s, cmds).st)
    ensures Run(s, cmds).st.resumes >= s.resumes
    ensures Valid(s) && (forall i :: 0 <= i < |cmds| ==> !ForcesAdvice(cmds[i])) ==>
              Valid(Run(s, cmds).st)
    decreases |cmds|
  {
    if |cmds| > 0 {
      var first := Apply(s, cmds[0]);
      ApplyKeepsHelpInRange(s, cmds[0]);
      if AdviceConsistent(s) && !ForcesAdvice(cmds[0]) {
        ApplyKeepsAdviceConsistent(s, cmds[0]);
      }
      RunKeepsValid(first.st, cmds[1..]);
      if Valid(s) && (forall i :: 0 <= i < |cmds| ==> !ForcesAdvice(cmds[i])) {
        assert forall i :: 0 <= i < |cmds| - 1 ==> cmds[1..][i] == cmds[i + 1];
      }
    }
  }

  /** From the constructor's state, every run that never forces Advice is valid. */
  lemma ReachableStatesValid(panelVisible: bool, cmds: seq<Command>)
    requires forall i :: 0 <= i < |cmds| ==> !ForcesAdvice(cmds[i])
    ensures Valid(Run(Initial(panelVisible), cmds).st)
  {
    RunKeepsValid(Initial(panelVisible), cmds);
  }
}
