/** MainUI's overlay controller: the show family, clearing, resuming the turn, and the
    help stepper. */
module Overlays {
  import opened MapState

  /** Only the overlay and the payload store differ between s and r. */
  predicate OnlyOverlayChanged(s: UiState, r: UiState) {
    r == s.(overlay := r.overlay, payloads := r.payloads)
  }

  /** The overlay `r` falls back to when nothing modal is showing. */
  predicate IsResting(s: UiState, r: UiState) {
    && (r.overlay == Advice <==> s.showAdvice)
    && (r.overlay == NoOverlay <==> !s.showAdvice)
  }

  /** clearOverlay: back to the Advice overlay while the advice flag is set, else to None. */
  function ClearOverlay(s: UiState): (r: UiState)
    ensures IsResting(s, r)
    ensures r == s.(overlay := r.overlay)
  {
    s.(overlay := if s.showAdvice then Advice else NoOverlay)
  }

  /** clearAdvice: only acts while the Advice overlay is the active one. */
  function ClearAdvice(s: UiState): (r: UiState)
    ensures s.overlay != Advice ==> r == s
    ensures s.overlay == Advice ==> r == s.(showAdvice := false, overlay := NoOverlay)
  {
    if s.overlay == Advice then s.(showAdvice := false, overlay := NoOverlay) else s
  }

  /** setOverlay: installs any overlay without touching its payload. */
  function SetOverlay(s: UiState, kind: Overlay): (r: UiState)
    ensures r.overlay == kind
    ensures r == s.(overlay := kind)
  {
    s.(overlay := kind)
  }

  /** resumeTurn: clear the overlay, then ask the turn session to resume processing once. */
  function ResumeTurn(s: UiState): (r: UiState)
    ensures IsResting(s, r)
    ensures r.resumes == s.resumes + 1
    ensures r == s.(overlay := r.overlay, resumes := r.resumes)
  {
    var c := ClearOverlay(s);
    c.(resumes := c.resumes + 1)
  }

  /** Make `kind` the active overlay after re-initialising it with payload `p`. */
  function Activate(s: UiState, kind: Overlay, p: Payload): (r: UiState)
    ensures r.overlay == kind && r.payloads == s.payloads[kind := p]
    ensures OnlyOverlayChanged(s, r)
  {
    s.(overlay := kind, payloads := s.payloads[kind := p])
  }

  function ShowMemoryLowPrompt(s: UiState): (r: UiState)
    ensures r.overlay == MemoryLow && r.payloads == s.payloads[MemoryLow := Reinitialized]
    ensures OnlyOverlayChanged(s, r)
  {
    Activate(s, MemoryLow, Reinitialized)
  }

  function ShowAutosaveFailedPrompt(s: UiState, err: string): (r: UiState)
    ensures r.overlay == AutosaveFailed && r.payloads == s.payloads[AutosaveFailed := SaveError(err)]
    ensures OnlyOverlayChanged(s, r)
  {
    Activate(s, AutosaveFailed, SaveError(err))
  }

  function ShowBombardmentPrompt(s: UiState, sysId: int, fleet: nat): (r: UiState)
    ensures r.overlay == BombardPrompt
    ensures r.payloads == s.payloads[BombardPrompt := SystemAndFleet(sysId, fleet)]
    ensures OnlyOverlayChanged(s, r)
  {
    Activate(s, BombardPrompt, SystemAndFleet(sysId, fleet))
  }

  /** showBombardmentNotice re-initialises the BombardedNotice overlay but does not make
      it the active overlay. */
  function ShowBombardmentNotice(s: UiState, sysId: int, fleet: nat): (r: UiState)
    ensures r.overlay == s.overlay
    ensures r.payloads == s.payloads[BombardedNotice := SystemAndFleet(sysId, fleet)]
    ensures OnlyOverlayChanged(s, r)
  {
    s.(payloads := s.payloads[BombardedNotice := SystemAndFleet(sysId, fleet)])
  }

  function ShowShipCombatPrompt(s: UiState, manager: nat): (r: UiState)
    ensures r.overlay == ShipCombatPrompt
    ensures r.payloads == s.payloads[ShipCombatPrompt := Combat(manager)]
    ensures OnlyOverlayChanged(s, r)
  {
    Activate(s, ShipCombatPrompt, Combat(manager))
  }

  function ShowColonizationPrompt(s: UiState, sysId: int, fleet: nat, design: nat): (r: UiState)
    ensures r.overlay == ColonizePrompt
    ensures r.payloads == s.payloads[ColonizePrompt := Colonization(sysId, fleet, design)]
    ensures OnlyOverlayChanged(s, r)
  {
    Activate(s, ColonizePrompt, Colonization(sysId, fleet, design))
  }

  /** showSpiesCaptured switches overlays without calling any init. */
  function ShowSpiesCaptured(s: UiState): (r: UiState)
    ensures r.overlay == SpiesCaptured && r.payloads == s.payloads
    ensures OnlyOverlayChanged(s, r)
  {
    s.(overlay := SpiesCaptured)
  }

  function ShowEspionageMission(s: UiState, mission: nat, empireId: int): (r: UiState)
    ensures r.overlay == EspionageMission
    ensures r.payloads == s.payloads[EspionageMission := Espionage(mission, empireId)]
    ensures OnlyOverlayChanged(s, r)
  {
    Activate(s, EspionageMission, Espionage(mission, empireId))
  }

  /** showShipsConstructed: the overlay is re-initialised (without the ship map) and shown,
      except that an empty report resumes the turn at once. */
  function ShowShipsConstructed(s: UiState, ships: map<nat, int>): (r: UiState)
    ensures r.payloads == s.payloads[ShipsConstructed := Reinitialized]
    ensures |ships| == 0 ==> IsResting(s, r) && r.resumes == s.resumes + 1
    ensures |ships| > 0 ==> r.overlay == ShipsConstructed && r.resumes == s.resumes
    ensures r == s.(overlay := r.overlay, payloads := r.payloads, resumes := r.resumes)
  {
    var shown := Activate(s, ShipsConstructed, Reinitialized);
    if |ships| == 0 then ResumeTurn(shown) else shown
  }

  function ShowSystemsScouted(s: UiState, systems: map<string, seq<nat>>): (r: UiState)
    ensures r.overlay == SystemsScouted
    ensures r.payloads == s.payloads[SystemsScouted := Scouted(systems)]
    ensures OnlyOverlayChanged(s, r)
  {
    Activate(s, SystemsScouted, Scouted(systems))
  }

  function AllocateSystemsPrompt(s: UiState, labels: map<nat, seq<string>>): (r: UiState)
    ensures r.overlay == AllocateSystems
    ensures r.payloads == s.payloads[AllocateSystems := Allocation(labels)]
    ensures OnlyOverlayChanged(s, r)
  {
    Activate(s, AllocateSystems, Allocation(labels))
  }

  /** showAdvice: the only show operation that also sets the advice flag. */
  function ShowAdvice(s: UiState, key: string, var1: string, var2: string, var3: string): (r: UiState)
    ensures r.overlay == Advice && r.showAdvice
    ensures r.payloads == s.payloads[Advice := AdviceText(key, var1, var2, var3)]
    ensures r == s.(overlay := r.overlay, payloads := r.payloads, showAdvice := true)
  {
    Activate(s, Advice, AdviceText(key, var1, var2, var3)).(showAdvice := true)
  }

  // ----- help stepper -----

  /** loadHelpUI: loads the annotations of the current step and opens the help UI;
      does nothing at step 0. */
  function LoadHelp(frame: int): (evs: seq<Event>)
    ensures frame == 0 <==> evs == []
    ensures frame != 0 ==> evs == [HelpOpened(frame)]
  {
    if frame == 0 then [] else [HelpOpened(frame)]
  }

  /** cancelHelp: back to step 0 and close the help UI. */
  function CancelHelp(s: UiState): (r: Step)
    ensures r.st.helpFrame == 0 && r.events == [HelpClosed]
    ensures r.st == s.(helpFrame := 0)
  {
    Step(s.(helpFrame := 0), [HelpClosed])
  }

  /** showHelp: start the walk-through at step 1. */
  function ShowHelp(s: UiState): (r: Step)
    ensures r.st.helpFrame == 1 && r.events == [HelpOpened(1)]
    ensures r.st == s.(helpFrame := 1)
  {
    var t := s.(helpFrame := 1);
    Step(t, LoadHelp(t.helpFrame))
  }

  /** advanceHelp: nothing at step 0; otherwise the next step, closing after the last. */
  function AdvanceHelp(s: UiState): (r: Step)
    ensures HelpInRange(s) ==> HelpInRange(r.st)
    ensures s.helpFrame == 0 ==> r == Step(s, [])
    ensures 0 < s.helpFrame < MaxHelpFrame ==>
              r.st.helpFrame == s.helpFrame + 1 && r.events == [HelpOpened(s.helpFrame + 1)]
    ensures s.helpFrame == MaxHelpFrame ==> r.st.helpFrame == 0 && r.events == [HelpClosed]
    ensures r.st == s.(helpFrame := r.st.helpFrame)
  {
    if s.helpFrame == 0 then Step(s, [])
    else
      var bumped := s.(helpFrame := s.helpFrame + 1);
      var c := if bumped.helpFrame > MaxHelpFrame then CancelHelp(bumped) else Step(bumped, []);
      Step(c.st, c.events + LoadHelp(c.st.helpFrame))
  }

  /** `n` consecutive advanceHelp calls, with their events concatenated. */
  function AdvanceHelpTimes(s: UiState, n: nat): (r: Step)
    decreases n
  {
    if n == 0 then Step(s, [])
    else
      var first := AdvanceHelp(s);
      var rest := AdvanceHelpTimes(first.st, n - 1);
      Step(rest.st, first.events + rest.events)
  }

  /** From any open step, advancing counts up through the steps and closes help once it
      passes the last step; closed help then stays closed. */
  lemma {:induction false} AdvanceHelpWalk(s: UiState, n: nat)
    requires 1 <= s.helpFrame <= MaxHelpFrame
    ensures AdvanceHelpTimes(s, n).st.helpFrame ==
              (if s.helpFrame + n > MaxHelpFrame then 0 else s.helpFrame + n)
    ensures AdvanceHelpTimes(s, n).st == s.(helpFrame := AdvanceHelpTimes(s, n).st.helpFrame)
    decreases n
  {
    if n > 0 {
      var first := AdvanceHelp(s);
      if s.helpFrame == MaxHelpFrame {
        AdvanceHelpStaysClosed(first.st, n - 1);
      } else {
        AdvanceHelpWalk(first.st, n - 1);
      }
    }
  }

  /** Once help is closed, advancing it does nothing. */
  lemma {:induction false} AdvanceHelpStaysClosed(s: UiState, n: nat)
    requires s.helpFrame == 0
    ensures AdvanceHelpTimes(s, n) == Step(s, [])
    decreases n
  {
    if n > 0 {
      AdvanceHelpStaysClosed(s, n - 1);
    }
  }

  /** showHelp followed by four advances opens steps 1 to 4 in order, then closes. */
  lemma HelpWalkThrough(s: UiState)
    ensures var shown := ShowHelp(s);
            var walked := AdvanceHelpTimes(shown.st, MaxHelpFrame);
            && walked.st == s.(helpFrame := 0)
            && shown.events + walked.events ==
                 [HelpOpened(1), HelpOpened(2), HelpOpened(3), HelpOpened(4), HelpClosed]
  {
  }

  // ----- properties of the overlay controller -----

  /** After showAdvice, clearOverlay returns to Advice; after clearAdvice (while Advice is
      showing), clearOverlay returns to None. */
  lemma AdviceThenClear(s: UiState, key: string, v1: string, v2: string, v3: string)
    ensures ClearOverlay(ShowAdvice(s, key, v1, v2, v3)).overlay == Advice
    ensures ClearOverlay(ClearAdvice(ShowAdvice(s, key, v1, v2, v3))).overlay == NoOverlay
  {
  }

  /** clearAdvice under another overlay keeps the flag, so the advice comes back when that
      overlay is cleared. */
  lemma AdviceSurvivesOtherOverlay(s: UiState, key: string, v1: string, v2: string, v3: string)
    ensures var t := ClearAdvice(ShowMemoryLowPrompt(ShowAdvice(s, key, v1, v2, v3)));
            t.overlay == MemoryLow && ClearOverlay(t).overlay == Advice
  {
  }

  /** A resume request happens in showShipsConstructed exactly when the report is empty,
      and the ShipsConstructed overlay is then never left active. */
  lemma ShipsConstructedResumesIffEmpty(s: UiState, ships: map<nat, int>)
    requires Valid(s)
    ensures var r := ShowShipsConstructed(s, ships);
            && (r.resumes > s.resumes <==> |ships| == 0)
            && (r.overlay == ShipsConstructed <==> |ships| > 0)
            && Valid(r)
  {
  }
}
