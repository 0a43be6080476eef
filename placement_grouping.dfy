/** Arena participants grouped by final placement, as both match views do it: one pass
    over the participants that fills a map from placement to players (keys in order of
    first appearance, players in match order), then the entries sorted by placement. */
module PlacementGrouping {
  import opened MatchTypes

  /** One map entry: a placement and the players that finished there. */
  datatype Group = Group(placement: int, members: seq<Participant>)

  /** The players placed at `k`, in match order (a missing or zero placement counts as 8). */
  function Members(ps: seq<Participant>, k: int): seq<Participant> {
    if ps == [] then []
    else Members(ps[..|ps| - 1], k) + (if PlacementOrLast(ps[|ps| - 1]) == k then [ps[|ps| - 1]] else [])
  }

  /** The placement of each player. */
  function PlacementSeq(ps: seq<Participant>): (r: seq<int>)
    ensures |r| == |ps|
    ensures forall i | 0 <= i < |ps| :: r[i] == PlacementOrLast(ps[i])
  {
    seq(|ps|, i requires 0 <= i < |ps| => PlacementOrLast(ps[i]))
  }

  /** The placement of each group. */
  function KeySeq(gs: seq<Group>): (r: seq<int>)
    ensures |r| == |gs|
    ensures forall i | 0 <= i < |gs| :: r[i] == gs[i].placement
  {
    seq(|gs|, i requires 0 <= i < |gs| => gs[i].placement)
  }

  predicate DistinctPlacements(gs: seq<Group>) {
    forall i, j | 0 <= i < j < |gs| :: gs[i].placement != gs[j].placement
  }

  predicate Ascending(gs: seq<Group>) {
    forall i, j | 0 <= i < j < |gs| :: gs[i].placement < gs[j].placement
  }

  /** The groups' placements are exactly the placements that occur. */
  ghost predicate SameKeys(gs: seq<Group>, ps: seq<Participant>) {
    forall k :: k in KeySeq(gs) <==> k in PlacementSeq(ps)
  }

  /** Each group holds exactly the players with its placement, in match order. */
  predicate MembersAgree(gs: seq<Group>, ps: seq<Participant>) {
    forall i | 0 <= i < |gs| :: gs[i].members == Members(ps, gs[i].placement)
  }

  /** `gs` is a grouping of `ps`: one group per placement that occurs, each holding the
      players with that placement. */
  ghost predicate GroupsOf(gs: seq<Group>, ps: seq<Participant>) {
    DistinctPlacements(gs) && SameKeys(gs, ps) && MembersAgree(gs, ps)
  }

  /** `teamsByPlacement.has(k)`: the index of the group for `k`, or -1. */
  function IndexOfPlacement(gs: seq<Group>, k: int): (r: int)
    ensures -1 <= r < |gs|
    ensures r == -1 <==> k !in KeySeq(gs)
    ensures r >= 0 ==> gs[r].placement == k
  {
    if gs == [] then -1
    else if gs[0].placement == k then 0
    else
      var r := IndexOfPlacement(gs[1..], k);
      assert KeySeq(gs) == [gs[0].placement] + KeySeq(gs[1..]);
      if r == -1 then -1 else r + 1
  }

  /** A placement that occurs nowhere has no members. */
  lemma {:induction false} MembersOfAbsent(ps: seq<Participant>, k: int)
    requires k !in PlacementSeq(ps)
    ensures Members(ps, k) == []
    decreases |ps|
  {
    if ps != [] {
      var init := ps[..|ps| - 1];
      assert PlacementSeq(ps) == PlacementSeq(init) + [PlacementOrLast(ps[|ps| - 1])];
      MembersOfAbsent(init, k);
    }
  }

  /** The effect of one more player on the members and the placements. */
  lemma ExtendByOne(ps: seq<Participant>, i: int)
    requires 0 <= i < |ps|
    ensures forall k :: Members(ps[..i + 1], k)
                        == Members(ps[..i], k) + (if PlacementOrLast(ps[i]) == k then [ps[i]] else [])
    ensures PlacementSeq(ps[..i + 1]) == PlacementSeq(ps[..i]) + [PlacementOrLast(ps[i])]
  {
    var pre := ps[..i + 1];
    assert pre[..|pre| - 1] == ps[..i];
  }

  /** Appending a player to the existing group of its placement keeps a grouping. */
  lemma AddToGroup(gs: seq<Group>, ps: seq<Participant>, i: int, j: int)
    requires 0 <= i < |ps| && GroupsOf(gs, ps[..i])
    requires 0 <= j < |gs| && gs[j].placement == PlacementOrLast(ps[i])
    ensures GroupsOf(gs[j := gs[j].(members := gs[j].members + [ps[i]])], ps[..i + 1])
  {
    ExtendByOne(ps, i);
    var gs' := gs[j := gs[j].(members := gs[j].members + [ps[i]])];
    assert KeySeq(gs') == KeySeq(gs);
  }

  /** Opening a group for a new placement, holding the player, keeps a grouping. */
  lemma AddNewGroup(gs: seq<Group>, ps: seq<Participant>, i: int)
    requires 0 <= i < |ps| && GroupsOf(gs, ps[..i])
    requires PlacementOrLast(ps[i]) !in KeySeq(gs)
    ensures GroupsOf(gs + [Group(PlacementOrLast(ps[i]), [ps[i]])], ps[..i + 1])
  {
    var k := PlacementOrLast(ps[i]);
    ExtendByOne(ps, i);
    MembersOfAbsent(ps[..i], k);
    var gs' := gs + [Group(k, [ps[i]])];
    assert KeySeq(gs') == KeySeq(gs) + [k];
    forall a | 0 <= a < |gs| ensures gs'[a].placement != k {
      assert gs[a].placement in KeySeq(gs);
    }
  }

  /** The map-building `forEach`: each player is appended to the group of its placement,
      which is created (empty) the first time that placement is seen. */
  method CollectGroups(ps: seq<Participant>) returns (gs: seq<Group>)
    ensures GroupsOf(gs, ps)
  {
    gs := [];
    var i := 0;
    while i < |ps|
      invariant 0 <= i <= |ps|
      invariant GroupsOf(gs, ps[..i])
    {
      var player := ps[i];
      var placement := PlacementOrLast(player);
      var j := IndexOfPlacement(gs, placement);
      ghost var before := gs;
      ghost var isNew := j == -1;
      if j == -1 {
        AddNewGroup(gs, ps, i);
        gs := gs + [Group(placement, [])];
        j := |gs| - 1;
      } else {
        AddToGroup(gs, ps, i, j);
      }
      gs := gs[j := gs[j].(members := gs[j].members + [player])];
      if isNew {
        assert gs == before + [Group(placement, [player])];
      }
      i := i + 1;
    }
    assert ps[..i] == ps;
  }

  /** Inserting a group into a list ascending by placement. */
  function InsertByPlacement(sorted: seq<Group>, g: Group): (r: seq<Group>)
    requires Ascending(sorted) && g.placement !in KeySeq(sorted)
    ensures |r| == |sorted| + 1
    ensures forall i | 0 <= i < |r| :: r[i] == g || r[i] in sorted
    ensures Ascending(r)
    ensures multiset(r) == multiset(sorted) + multiset{g}
  {
    if sorted == [] then [g]
    else if g.placement < sorted[0].placement then [g] + sorted
    else
      var tail := sorted[1..];
      assert KeySeq(sorted) == [sorted[0].placement] + KeySeq(tail);
      var rest := InsertByPlacement(tail, g);
      assert sorted == [sorted[0]] + tail;
      InsertAscending(sorted, g, rest);
      [sorted[0]] + rest
  }

  lemma InsertAscending(sorted: seq<Group>, g: Group, rest: seq<Group>)
    requires Ascending(sorted) && sorted != [] && g.placement !in KeySeq(sorted)
    requires sorted[0].placement <= g.placement
    requires Ascending(rest)
    requires forall i | 0 <= i < |rest| :: rest[i] == g || rest[i] in sorted[1..]
    ensures Ascending([sorted[0]] + rest)
  {
    assert sorted[0].placement in KeySeq(sorted);
    forall i | 0 <= i < |rest| ensures sorted[0].placement < rest[i].placement {
      if rest[i] != g {
        var m :| 0 <= m < |sorted[1..]| && sorted[1..][m] == rest[i];
        assert sorted[m + 1] == rest[i];
      }
    }
  }

  /** The entries sorted by placement (the comparator `a - b`); with distinct placements
      the order is unique. */
  function SortByPlacement(gs: seq<Group>): (r: seq<Group>)
    requires DistinctPlacements(gs)
    ensures |r| == |gs|
    ensures forall i | 0 <= i < |r| :: r[i] in gs
    ensures Ascending(r)
    ensures multiset(r) == multiset(gs)
  {
    if gs == [] then []
    else
      var rest := SortByPlacement(gs[1..]);
      FirstKeyFresh(gs, rest);
      assert gs == [gs[0]] + gs[1..];
      InsertByPlacement(rest, gs[0])
  }

  lemma FirstKeyFresh(gs: seq<Group>, rest: seq<Group>)
    requires gs != [] && DistinctPlacements(gs)
    requires forall i | 0 <= i < |rest| :: rest[i] in gs[1..]
    ensures gs[0].placement !in KeySeq(rest)
  {
    forall i | 0 <= i < |rest| ensures rest[i].placement != gs[0].placement {
      var m :| 0 <= m < |gs[1..]| && gs[1..][m] == rest[i];
      assert gs[m + 1] == rest[i];
    }
  }

  /** Sorting a grouping keeps it a grouping. */
  lemma SortKeepsGrouping(gs: seq<Group>, ps: seq<Participant>)
    requires GroupsOf(gs, ps)
    ensures GroupsOf(SortByPlacement(gs), ps)
  {
    var r := SortByPlacement(gs);
    forall k ensures k in KeySeq(r) <==> k in KeySeq(gs) {
      if k in KeySeq(r) {
        var i :| 0 <= i < |r| && r[i].placement == k;
        var m :| 0 <= m < |gs| && gs[m] == r[i];
        assert KeySeq(gs)[m] == k;
      }
      if k in KeySeq(gs) {
        var m :| 0 <= m < |gs| && gs[m].placement == k;
        assert gs[m] in multiset(r);
        var i :| 0 <= i < |r| && r[i] == gs[m];
        assert KeySeq(r)[i] == k;
      }
    }
    forall i | 0 <= i < |r| ensures r[i].members == Members(ps, r[i].placement) {
      var m :| 0 <= m < |gs| && gs[m] == r[i];
    }
  }

  /** `renderTeams`' Arena grouping: the groups of the participants, ascending by
      placement. */
  method GroupByPlacement(ps: seq<Participant>) returns (groups: seq<Group>)
    ensures Ascending(groups)
    ensures GroupsOf(groups, ps)
  {
    var byPlacement := CollectGroups(ps);
    groups := SortByPlacement(byPlacement);
    SortKeepsGrouping(byPlacement, ps);
  }

  /** The groups' players, group after group. */
  function Flatten(gs: seq<Group>): seq<Participant> {
    if gs == [] then [] else gs[0].members + Flatten(gs[1..])
  }

  /** The players whose placement is not in `ks`, in match order. */
  function Without(ps: seq<Participant>, ks: set<int>): seq<Participant> {
    if ps == [] then []
    else Without(ps[..|ps| - 1], ks) + (if PlacementOrLast(ps[|ps| - 1]) !in ks then [ps[|ps| - 1]] else [])
  }

  /** Taking one more placement out moves its members from the rest to their own group. */
  lemma {:induction false} SplitOffPlacement(ps: seq<Participant>, ks: set<int>, k: int)
    requires k !in ks
    ensures multiset(Without(ps, ks)) == multiset(Members(ps, k)) + multiset(Without(ps, ks + {k}))
    decreases |ps|
  {
    if ps != [] {
      SplitOffPlacement(ps[..|ps| - 1], ks, k);
    }
  }

  /** Nothing remains once every placement that occurs is taken out. */
  lemma {:induction false} WithoutAll(ps: seq<Participant>, ks: set<int>)
    requires forall i | 0 <= i < |ps| :: PlacementOrLast(ps[i]) in ks
    ensures Without(ps, ks) == []
    decreases |ps|
  {
    if ps != [] {
      WithoutAll(ps[..|ps| - 1], ks);
    }
  }

  /** Nothing is left out when no placement is taken out. */
  lemma {:induction false} WithoutNothing(ps: seq<Participant>)
    ensures Without(ps, {}) == ps
    decreases |ps|
  {
    if ps != [] {
      WithoutNothing(ps[..|ps| - 1]);
      assert ps == ps[..|ps| - 1] + [ps[|ps| - 1]];
    }
  }

  /** The set of the groups' placements. */
  function KeySet(gs: seq<Group>): (ks: set<int>)
    ensures forall k :: k in ks <==> k in KeySeq(gs)
  {
    if gs == [] then {}
    else
      assert KeySeq(gs) == [gs[0].placement] + KeySeq(gs[1..]);
      {gs[0].placement} + KeySet(gs[1..])
  }

  /** The groups' players together with those left out make up all the players. */
  lemma {:induction false} FlattenAndRest(gs: seq<Group>, ps: seq<Participant>)
    requires DistinctPlacements(gs) && MembersAgree(gs, ps)
    ensures multiset(Flatten(gs)) + multiset(Without(ps, KeySet(gs))) == multiset(ps)
    decreases |gs|
  {
    if gs == [] {
      WithoutNothing(ps);
    } else {
      var rest := gs[1..];
      assert MembersAgree(rest, ps) by {
        forall i | 0 <= i < |rest| ensures rest[i].members == Members(ps, rest[i].placement) {
          assert rest[i] == gs[i + 1];
        }
      }
      FlattenAndRest(rest, ps);
      FirstKeyFresh(gs, rest);
      SplitOffPlacement(ps, KeySet(rest), gs[0].placement);
      assert KeySet(gs) == KeySet(rest) + {gs[0].placement};
    }
  }

  /** The groups of a grouping hold every player exactly once: their concatenation is a
      permutation of the participants. */
  lemma GroupingIsPermutation(gs: seq<Group>, ps: seq<Participant>)
    requires GroupsOf(gs, ps)
    ensures multiset(Flatten(gs)) == multiset(ps)
  {
    FlattenAndRest(gs, ps);
    forall i | 0 <= i < |ps| ensures PlacementOrLast(ps[i]) in KeySet(gs) {
      assert PlacementSeq(ps)[i] == PlacementOrLast(ps[i]);
    }
    WithoutAll(ps, KeySet(gs));
  }
}
