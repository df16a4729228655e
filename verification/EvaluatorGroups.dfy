/** groupRanks: the groups are the distinct ranks with their multiplicities,
    most frequent first and then highest first. */
module EvaluatorGroups {
  import opened Sequences
  import opened Evaluator

  function Counts(groups: seq<Group>): seq<int> {
    seq(|groups|, i requires 0 <= i < |groups| => groups[i].count)
  }

  function GroupRanksOnly(groups: seq<Group>): seq<int> {
    seq(|groups|, i requires 0 <= i < |groups| => groups[i].rank)
  }

  /** Each rank of `values` once, with its multiplicity. */
  ghost predicate Tallies(values: seq<int>, groups: seq<Group>) {
    && (forall i :: 0 <= i < |groups| ==> 0 < groups[i].count == multiset(values)[groups[i].rank])
    && (forall i, j :: 0 <= i < j < |groups| ==> groups[i].rank != groups[j].rank)
    && Sum(Counts(groups)) == |values|
  }

  lemma BumpCounts(groups: seq<Group>, v: int)
    ensures Sum(Counts(Bump(groups, v))) == Sum(Counts(groups)) + 1
  {
    var k := IndexOfRank(groups, v);
    var after := Bump(groups, v);
    if k < |groups| {
      assert Counts(after) == Counts(groups)[k := groups[k].count + 1];
      SumUpdate(Counts(groups), k, groups[k].count + 1);
    } else {
      assert Counts(after)[..k] == Counts(groups);
    }
  }

  lemma BumpTallies(values: seq<int>, groups: seq<Group>, v: int)
    requires Tallies(values, groups)
    requires v in values ==> exists k :: 0 <= k < |groups| && groups[k].rank == v
    ensures Tallies(values + [v], Bump(groups, v))
  {
    var k := IndexOfRank(groups, v);
    var after := Bump(groups, v);
    BumpCounts(groups, v);
    assert multiset(values + [v]) == multiset(values) + multiset{v};
    assert k == |groups| ==> multiset(values)[v] == 0;
    forall i | 0 <= i < |after| ensures 0 < after[i].count == multiset(values + [v])[after[i].rank] {
      if i < |groups| && i != k {
        assert after[i] == groups[i];
        assert groups[i].rank != v by {
          if k < i {
            assert groups[k].rank != groups[i].rank;
          }
        }
      }
    }
  }

  ghost predicate Covers(values: seq<int>, groups: seq<Group>) {
    forall v :: v in values ==> exists k :: 0 <= k < |groups| && groups[k].rank == v
  }

  lemma BumpCovers(values: seq<int>, groups: seq<Group>, v: int)
    requires Covers(values, groups)
    ensures Covers(values + [v], Bump(groups, v))
  {
    var i := IndexOfRank(groups, v);
    var after := Bump(groups, v);
    forall x | x in values + [v] ensures exists k :: 0 <= k < |after| && after[k].rank == x {
      if x == v {
        assert after[i].rank == v;
      } else {
        var k :| 0 <= k < |groups| && groups[k].rank == x;
        assert after[k].rank == x;
      }
    }
  }

  lemma {:induction false} TallyTallies(values: seq<int>)
    ensures Tallies(values, Tally(values)) && Covers(values, Tally(values))
  {
    if values != [] {
      var n := |values| - 1;
      TallyTallies(values[..n]);
      BumpTallies(values[..n], Tally(values[..n]), values[n]);
      BumpCovers(values[..n], Tally(values[..n]), values[n]);
      assert values == values[..n] + [values[n]];
    }
  }

  // ---------- sorting keeps the tally ----------

  lemma {:induction false} InsertCounts(groups: seq<Group>, g: Group)
    ensures Sum(Counts(Insert(groups, g, GroupLeq))) == Sum(Counts(groups)) + g.count
  {
    var r := Insert(groups, g, GroupLeq);
    assert Counts(r)[..|r| - 1] == Counts(r[..|r| - 1]);
    if groups == [] {
      assert Counts(r)[..0] == [];
    } else {
      var n := |groups| - 1;
      assert Counts(groups)[..n] == Counts(groups[..n]);
      InsertCounts(groups[..n], g);
      if GroupLeq(groups[n], g) {
        assert r[..|groups|] == groups;
      } else {
        assert r[..|groups|] == Insert(groups[..n], g, GroupLeq);
      }
    }
  }

  lemma {:induction false} SortCounts(groups: seq<Group>)
    ensures Sum(Counts(Sort(groups, GroupLeq))) == Sum(Counts(groups))
  {
    if groups != [] {
      var n := |groups| - 1;
      SortCounts(groups[..n]);
      InsertCounts(Sort(groups[..n], GroupLeq), groups[n]);
      assert Counts(groups)[..n] == Counts(groups[..n]);
    }
  }

  lemma GroupOrder()
    ensures TotalPreorder(GroupLeq) && Antisymmetric(GroupLeq)
  {
  }

  lemma SortTallies(values: seq<int>, groups: seq<Group>)
    requires Tallies(values, groups) && Covers(values, groups)
    ensures Tallies(values, Sort(groups, GroupLeq)) && Covers(values, Sort(groups, GroupLeq))
  {
    var sorted := Sort(groups, GroupLeq);
    SortCounts(groups);
    SortNoDup(groups, GroupLeq);
    forall i | 0 <= i < |sorted| ensures 0 < sorted[i].count == multiset(values)[sorted[i].rank] {
      SortMembers(groups, GroupLeq, sorted[i]);
      assert sorted[i] in groups;
    }
    forall i, j | 0 <= i < j < |sorted| ensures sorted[i].rank != sorted[j].rank {
      NoDupAt(sorted, i, j);
    }
    forall v | v in values ensures exists k :: 0 <= k < |sorted| && sorted[k].rank == v {
      var k :| 0 <= k < |groups| && groups[k].rank == v;
      SortMembers(groups, GroupLeq, groups[k]);
      var m :| 0 <= m < |sorted| && sorted[m] == groups[k];
      assert sorted[m].rank == v;
    }
  }

  lemma GroupsTally(values: seq<int>)
    ensures Tallies(values, GroupRanks(values)) && Covers(values, GroupRanks(values))
    ensures SortedBy(GroupRanks(values), GroupLeq)
  {
    TallyTallies(values);
    SortTallies(values, Tally(values));
    GroupOrder();
    SortSorted(Tally(values), GroupLeq);
  }

  /** The multiplicities of five cards, biggest first: every shape a hand can have. */
  ghost predicate CountsAre(groups: seq<Group>, counts: seq<int>) {
    |groups| == |counts| && forall i :: 0 <= i < |groups| ==> groups[i].count == counts[i]
  }

  lemma SumSmall(xs: seq<int>)
    ensures |xs| == 1 ==> Sum(xs) == xs[0]
    ensures |xs| == 2 ==> Sum(xs) == xs[0] + xs[1]
    ensures |xs| == 3 ==> Sum(xs) == xs[0] + xs[1] + xs[2]
    ensures |xs| == 4 ==> Sum(xs) == xs[0] + xs[1] + xs[2] + xs[3]
    ensures |xs| == 5 ==> Sum(xs) == xs[0] + xs[1] + xs[2] + xs[3] + xs[4]
  {
    if 0 < |xs| <= 5 {
      assert xs[..1][..0] == [];
      assert Sum(xs[..1]) == xs[0];
      if |xs| >= 2 { assert xs[..2][..1] == xs[..1]; assert Sum(xs[..2]) == xs[0] + xs[1]; }
      if |xs| >= 3 { assert xs[..3][..2] == xs[..2]; assert Sum(xs[..3]) == Sum(xs[..2]) + xs[2]; }
      if |xs| >= 4 { assert xs[..4][..3] == xs[..3]; assert Sum(xs[..4]) == Sum(xs[..3]) + xs[3]; }
      if |xs| == 5 { assert xs[..5][..4] == xs[..4]; assert Sum(xs[..5]) == Sum(xs[..4]) + xs[4]; }
      assert xs[..|xs|] == xs;
    }
  }

  /** At most one group a card: positive terms bound the length of a sum. */
  lemma {:induction false} SumOfPositives(xs: seq<int>)
    requires forall i :: 0 <= i < |xs| ==> xs[i] > 0
    ensures |xs| <= Sum(xs)
  {
    if xs != [] {
      SumOfPositives(xs[..|xs| - 1]);
    }
  }

  /** The ways to write 5 as a descending sum of positive counts. */
  lemma FiveSplits(c: seq<int>)
    requires 0 < |c| <= 5 && Sum(c) == 5
    requires forall i :: 0 <= i < |c| ==> c[i] > 0
    requires forall i :: 0 <= i < |c| - 1 ==> c[i] >= c[i + 1]
    ensures
      || c == [1, 1, 1, 1, 1] || c == [2, 1, 1, 1] || c == [2, 2, 1] || c == [3, 1, 1]
      || c == [3, 2] || c == [4, 1] || c == [5]
  {
    SumSmall(c);
  }

  lemma FiveCardShapes(values: seq<int>)
    requires |values| == 5
    ensures var g := GroupRanks(values);
      || CountsAre(g, [1, 1, 1, 1, 1]) || CountsAre(g, [2, 1, 1, 1]) || CountsAre(g, [2, 2, 1])
      || CountsAre(g, [3, 1, 1]) || CountsAre(g, [3, 2]) || CountsAre(g, [4, 1]) || CountsAre(g, [5])
  {
    var g := GroupRanks(values);
    var c := Counts(g);
    GroupsTally(values);
    SumOfPositives(c);
    assert Sum([]) == 0;
    forall i | 0 <= i < |c| - 1 ensures c[i] >= c[i + 1] {
      assert GroupLeq(g[i], g[i + 1]);
    }
    FiveSplits(c);
    assert forall i :: 0 <= i < |g| ==> g[i].count == c[i];
  }
}
