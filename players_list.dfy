/** The compact player list of a match card: the four best Arena placements, or the two
    5v5 teams by position. */
module PlayersList {
  import opened MatchTypes
  import opened PlacementGrouping
  import ChampionImage

  const ArenaQueue := 1700

  /** `truncateName`: names longer than 8 characters keep their first 5 and get "...". */
  function TruncateName(name: string): (shown: string)
    ensures |shown| <= 8
    ensures |name| <= 8 ==> shown == name
    ensures |name| > 8 ==> |shown| == 8 && shown[..5] == name[..5] && shown[5..] == "..."
  {
    if |name| > 8 then name[..5] + "..." else name
  }

  /** Truncating a shown name changes nothing. */
  lemma TruncateIdempotent(name: string)
    ensures TruncateName(TruncateName(name)) == TruncateName(name)
  {
  }

  /** One entry of the list: the champion icon, the (truncated) name, and whether it is
      the searched player. */
  datatype Entry = Entry(championImage: string, caption: string, highlighted: bool)

  function ListEntry(p: Participant, currentPlayerPuuid: string, gameVersion: string): (e: Entry)
    ensures e.highlighted <==> p.puuid == currentPlayerPuuid
    ensures e.caption == TruncateName(DisplayName(p))
    ensures e.championImage == ChampionImage.ChampionImageUrl(gameVersion, p.championName)
  {
    Entry(ChampionImage.ChampionImageUrl(gameVersion, p.championName),
          TruncateName(DisplayName(p)),
          p.puuid == currentPlayerPuuid)
  }

  /** `.filter(([placement]) => placement <= 4)`. */
  function PlacedTop4(gs: seq<Group>): (r: seq<Group>)
    ensures forall i | 0 <= i < |r| :: r[i] in gs && r[i].placement <= 4
    ensures forall i | 0 <= i < |gs| && gs[i].placement <= 4 :: gs[i] in r
  {
    if gs == [] then []
    else (if gs[0].placement <= 4 then [gs[0]] else []) + PlacedTop4(gs[1..])
  }

  /** Filtering keeps the placements distinct. */
  lemma {:induction false} PlacedTop4Distinct(gs: seq<Group>)
    requires DistinctPlacements(gs)
    ensures DistinctPlacements(PlacedTop4(gs))
    decreases |gs|
  {
    if gs != [] {
      var rest := PlacedTop4(gs[1..]);
      assert DistinctPlacements(gs[1..]);
      PlacedTop4Distinct(gs[1..]);
      FirstKeyFresh(gs, rest);
      forall i | 0 <= i < |rest| ensures rest[i].placement != gs[0].placement {
        assert KeySeq(rest)[i] == rest[i].placement;
      }
    }
  }

  /** The Arena list: the groups with placement at most 4, ascending, at most four. */
  method TopTeams(ps: seq<Participant>) returns (top: seq<Group>)
    ensures |top| <= 4
    ensures Ascending(top)
    ensures forall i | 0 <= i < |top| ::
              top[i].placement <= 4 && top[i].placement in PlacementSeq(ps)
              && top[i].members == Members(ps, top[i].placement)
    ensures forall k | k in PlacementSeq(ps) && k <= 4 && k !in KeySeq(top) ::
              |top| == 4 && forall i | 0 <= i < 4 :: top[i].placement < k
  {
    var byPlacement := CollectGroups(ps);
    var kept := PlacedTop4(byPlacement);
    PlacedTop4Distinct(byPlacement);
    var sorted := SortByPlacement(kept);
    top := if |sorted| <= 4 then sorted else sorted[..4];
    TopTeamsAreGroups(ps, byPlacement, kept, sorted, top);
    forall k | k in PlacementSeq(ps) && k <= 4 && k !in KeySeq(top)
      ensures |top| == 4 && forall i | 0 <= i < 4 :: top[i].placement < k
    {
      TopTeamsAreBest(ps, byPlacement, kept, sorted, top, k);
    }
  }

  /** Every kept group is a group of the grouping with placement at most 4. */
  lemma TopTeamsAreGroups(ps: seq<Participant>, gs: seq<Group>, kept: seq<Group>, sorted: seq<Group>,
                          top: seq<Group>)
    requires GroupsOf(gs, ps)
    requires kept == PlacedTop4(gs)
    requires multiset(sorted) == multiset(kept)
    requires top == if |sorted| <= 4 then sorted else sorted[..4]
    ensures forall i | 0 <= i < |top| ::
              top[i].placement <= 4 && top[i].placement in PlacementSeq(ps)
              && top[i].members == Members(ps, top[i].placement)
  {
    forall i | 0 <= i < |top|
      ensures top[i].placement <= 4 && top[i].placement in PlacementSeq(ps)
              && top[i].members == Members(ps, top[i].placement)
    {
      assert top[i] == sorted[i];
      assert sorted[i] in multiset(kept);
      var m :| 0 <= m < |gs| && gs[m] == sorted[i];
      assert KeySeq(gs)[m] == gs[m].placement;
    }
  }

  /** A placement at most 4 that is left out is beaten by four kept ones. */
  lemma TopTeamsAreBest(ps: seq<Participant>, gs: seq<Group>, kept: seq<Group>, sorted: seq<Group>,
                        top: seq<Group>, k: int)
    requires GroupsOf(gs, ps)
    requires kept == PlacedTop4(gs)
    requires Ascending(sorted) && multiset(sorted) == multiset(kept)
    requires top == if |sorted| <= 4 then sorted else sorted[..4]
    requires k in PlacementSeq(ps) && k <= 4 && k !in KeySeq(top)
    ensures |top| == 4 && forall i | 0 <= i < 4 :: top[i].placement < k
  {
    assert k in KeySeq(gs);
    var m :| 0 <= m < |gs| && KeySeq(gs)[m] == k;
    var g := gs[m];
    assert g.placement == k && g in kept;
    assert g in multiset(sorted);
    var s :| 0 <= s < |sorted| && sorted[s] == g;
    forall i | 0 <= i < |top| ensures top[i].placement != k {
      assert KeySeq(top)[i] == top[i].placement;
    }
    assert s >= |top| by {
      assert forall i | 0 <= i < |top| :: top[i] == sorted[i];
    }
    forall i | 0 <= i < 4 ensures top[i].placement < k {
      assert top[i] == sorted[i];
    }
  }

  /** The positional 5v5 split: `slice(0, 5)` and `slice(5, 10)`. */
  datatype Teams = Teams(team1: seq<Participant>, team2: seq<Participant>)

  function SplitTeams(ps: seq<Participant>): (t: Teams)
    ensures |t.team1| <= 5 && |t.team2| <= 5
    ensures t.team1 + t.team2 == if |ps| <= 10 then ps else ps[..10]
    ensures |ps| >= 5 ==> |t.team1| == 5
    ensures t.team2 != [] ==> |t.team1| == 5
  {
    var n1 := if |ps| < 5 then |ps| else 5;
    var n2 := if |ps| < 10 then |ps| else 10;
    Teams(ps[..n1], ps[n1..n2])
  }

  /** The two layouts of the list. */
  datatype ListView = ArenaList(top: seq<Group>) | TeamList(teams: Teams)

  /** The list for a queue: the four best placements in Arena games (queue 1700 only),
      the positional teams otherwise. */
  method RenderList(ps: seq<Participant>, queueId: int) returns (view: ListView)
    ensures view.ArenaList? <==> queueId == ArenaQueue
    ensures view.ArenaList? ==> |view.top| <= 4 && Ascending(view.top)
    ensures view.ArenaList? ==> forall i | 0 <= i < |view.top| ::
              view.top[i].placement <= 4 && view.top[i].placement in PlacementSeq(ps)
              && view.top[i].members == Members(ps, view.top[i].placement)
    ensures view.ArenaList? ==> forall k | k in PlacementSeq(ps) && k <= 4 && k !in KeySeq(view.top) ::
              |view.top| == 4 && forall i | 0 <= i < 4 :: view.top[i].placement < k
    ensures view.TeamList? ==> view.teams == SplitTeams(ps)
  {
    if queueId == ArenaQueue {
      var top := TopTeams(ps);
      view := ArenaList(top);
    } else {
      view := TeamList(SplitTeams(ps));
    }
  }
}
