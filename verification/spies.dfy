/** The SpiesCaptured overlay (MainUI.MapOverlaySpiesCaptured): a report of spies lost,
    dismissed by Escape or by its click-to-continue control, both of which resume the turn. */
module SpiesOverlay {
  import opened Sprites
  import opened MapState
  import Overlays

  /** This overlay never intercepts hovering; any other overlay answers for itself. */
  function TakesHover(active: Overlay, answer: bool): (r: bool)
    ensures active == SpiesCaptured ==> !r
    ensures active != SpiesCaptured ==> r == answer
  {
    if active == SpiesCaptured then false else answer
  }

  /** advanceMap of this overlay: resume the turn, with no intermediate state. */
  function AdvanceMap(s: UiState): (r: UiState)
    ensures r.resumes == s.resumes + 1
    ensures Overlays.IsResting(s, r)
    ensures r == s.(overlay := r.overlay, resumes := r.resumes)
  {
    Overlays.ResumeTurn(s)
  }

  /** handleKeyPress: Escape advances the map and is consumed; any other key is declined. */
  function HandleKeyPress(s: UiState, key: int): (r: (bool, UiState))
    ensures r.0 <==> key == VkEscape
    ensures r.0 ==> r.1 == AdvanceMap(s)
    ensures !r.0 ==> r.1 == s
  {
    if key == VkEscape then (true, AdvanceMap(s)) else (false, s)
  }

  /** The control-registration part of painting: the continue sprite is added to the
      (freshly cleared) next-turn control list. */
  function RegisterControls(controls: seq<SpriteId>): (r: seq<SpriteId>)
    ensures |r| == |controls| + 1 && r[|controls|] == ContinueSprite
    ensures r[..|controls|] == controls
  {
    controls + [ContinueSprite]
  }

  /** What one row of the report reads from the player's view of a contacted empire. */
  datatype EmpireView = EmpireView(raceName: string, spiesLost: int, otherSpiesLost: int)

  /** One report row: the race, the player's spies it caught, and its spies the player caught. */
  datatype ReportRow = ReportRow(race: string, yours: int, theirs: int)

  /** The report rows, one per contacted empire, in contact order. */
  function ReportRows(views: seq<EmpireView>): (rows: seq<ReportRow>)
    ensures |rows| == |views|
    ensures forall i :: 0 <= i < |views| ==>
              rows[i] == ReportRow(views[i].raceName, views[i].spiesLost, views[i].otherSpiesLost)
  {
    if |views| == 0 then []
    else
      var v := views[0];
      [ReportRow(v.raceName, v.spiesLost, v.otherSpiesLost)] + ReportRows(views[1..])
  }
}
