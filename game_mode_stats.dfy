/** The mode-specific column of a match card: the Arena placement, or the creep score of
    the other modes. */
module GameModeStats {
  import opened Wrappers
  import opened Strings
  import opened MatchTypes

  /** The placement text colours. */
  datatype PlacementBand = Yellow | Orange | BlueBand | Gray

  /** 1 yellow, up to 3 orange, up to 6 blue, below that gray. */
  function BandOf(placement: int): (b: PlacementBand)
    ensures b == Yellow <==> placement == 1
    ensures b == Orange <==> placement != 1 && placement <= 3
    ensures b == BlueBand <==> 3 < placement <= 6
    ensures b == Gray <==> placement > 6
  {
    if placement == 1 then Yellow
    else if placement <= 3 then Orange
    else if placement <= 6 then BlueBand
    else Gray
  }

  /** "WINNER" for first place, "TOP <placement>" otherwise. */
  function PlacementLabel(placement: int): (text: string)
    ensures text == "WINNER" <==> placement == 1
    ensures placement != 1 ==> text == "TOP " + IntToString(placement)
  {
    if placement == 1 then "WINNER"
    else
      var l := "TOP " + IntToString(placement);
      assert l[0] != "WINNER"[0];
      l
  }

  /** Different placements get different labels. */
  lemma PlacementLabelInjective(a: int, b: int)
    requires PlacementLabel(a) == PlacementLabel(b)
    ensures a == b
  {
    if a != 1 && b != 1 {
      assert PlacementLabel(a)[4..] == IntToString(a);
      assert PlacementLabel(b)[4..] == IntToString(b);
      IntToStringInjective(a, b);
    }
  }

  datatype ModeStats =
    | PlacementStats(text: string, band: PlacementBand)
    | CreepStats(totalCs: int)
    | NoStats

  /** The placement for an Arena game with a placement other than 0; the total creep score
      for the other modes; nothing for an Arena game without a placement. */
  function ModeStatsOf(p: Participant, isArenaMode: bool): (s: ModeStats)
    ensures s.PlacementStats? <==> isArenaMode && p.placement.Some? && p.placement.value != 0
    ensures s.PlacementStats? ==> s.text == PlacementLabel(p.placement.value) && s.band == BandOf(p.placement.value)
    ensures s.CreepStats? <==> !isArenaMode
    ensures s.CreepStats? ==> s.totalCs == p.totalMinionsKilled + p.neutralMinionsKilled
    ensures s.NoStats? <==> isArenaMode && (p.placement.None? || p.placement.value == 0)
  {
    if isArenaMode && p.placement.Some? && p.placement.value != 0 then
      PlacementStats(PlacementLabel(p.placement.value), BandOf(p.placement.value))
    else if !isArenaMode then
      CreepStats(p.totalMinionsKilled + p.neutralMinionsKilled)
    else NoStats
  }
}
