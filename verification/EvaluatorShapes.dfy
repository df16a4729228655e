/** What the finders of evaluateFiveCards return on each multiplicity shape. */
module EvaluatorShapes {
  import opened Sequences
  import opened Evaluator
  import opened EvaluatorGroups

  // ---------- find, filter and map over the groups ----------

  lemma {:induction false} FindCountAt(groups: seq<Group>, count: int, i: nat)
    requires i < |groups| && groups[i].count == count
    requires forall j :: 0 <= j < i ==> groups[j].count != count
    ensures FindCount(groups, count) == Some(groups[i])
  {
    if i > 0 {
      FindCountAt(groups[1..], count, i - 1);
    }
  }

  lemma {:induction false} FindCountNone(groups: seq<Group>, count: int)
    requires forall j :: 0 <= j < |groups| ==> groups[j].count != count
    ensures FindCount(groups, count) == None && RanksWithCount(groups, count) == []
  {
    if groups != [] {
      FindCountNone(groups[1..], count);
    }
  }

  lemma {:induction false} OtherRanksAll(groups: seq<Group>, rank: int)
    requires forall j :: 0 <= j < |groups| ==> groups[j].rank != rank
    ensures OtherRanks(groups, rank) == GroupRanksOnly(groups)
  {
    if groups != [] {
      OtherRanksAll(groups[1..], rank);
      assert GroupRanksOnly(groups) == [groups[0].rank] + GroupRanksOnly(groups[1..]);
    }
  }

  lemma OtherRanksHead(groups: seq<Group>)
    requires groups != [] && forall j :: 0 < j < |groups| ==> groups[j].rank != groups[0].rank
    ensures OtherRanks(groups, groups[0].rank) == GroupRanksOnly(groups)[1..]
  {
    OtherRanksAll(groups[1..], groups[0].rank);
    assert GroupRanksOnly(groups)[1..] == GroupRanksOnly(groups[1..]);
  }

  lemma {:induction false} RanksWithCountPrefix(groups: seq<Group>, count: int, m: nat)
    requires m <= |groups| && forall j :: 0 <= j < |groups| ==> (groups[j].count == count <==> j < m)
    ensures RanksWithCount(groups, count) == GroupRanksOnly(groups)[..m]
  {
    if m == 0 {
      FindCountNone(groups, count);
    } else {
      RanksWithCountPrefix(groups[1..], count, m - 1);
      assert GroupRanksOnly(groups)[..m] == [groups[0].rank] + GroupRanksOnly(groups[1..])[..m - 1];
    }
  }

  lemma {:induction false} RanksWithCountSuffix(groups: seq<Group>, count: int, m: nat)
    requires m <= |groups| && forall j :: 0 <= j < |groups| ==> (groups[j].count == count <==> j >= m)
    ensures RanksWithCount(groups, count) == GroupRanksOnly(groups)[m..]
    decreases |groups|
  {
    if m == 0 {
      RanksWithCountPrefix(groups, count, |groups|);
    } else {
      RanksWithCountSuffix(groups[1..], count, m - 1);
      assert GroupRanksOnly(groups)[m..] == GroupRanksOnly(groups[1..])[m - 1..];
    }
  }

  // ---------- straights ----------

  lemma {:induction false} DistinctFacts(values: seq<int>)
    ensures forall v :: v in Distinct(values) <==> v in values
    ensures NoDup(values) ==> Distinct(values) == values
    ensures !NoDup(values) ==> |Distinct(values)| < |values|
    ensures values != [] ==> Distinct(values) != [] && Distinct(values)[0] == values[0]
    ensures |Distinct(values)| <= |values|
  {
    if values != [] {
      var n := |values| - 1;
      var rest := values[..n];
      DistinctFacts(rest);
      assert values == rest + [values[n]];
      if NoDup(rest) && values[n] !in rest {
        assert NoDup(values);
      }
      if values[n] in rest {
        var i :| 0 <= i < n && rest[i] == values[n];
        assert values[i] == values[n];
        assert !NoDup(values);
      }
    }
  }

  /** The run as it looks sorted: a wheel starts with its ace. */
  function SortedRun(high: int): seq<int> {
    if high == 5 then [14, 5, 4, 3, 2] else Run(high)
  }

  lemma SortedRunContents(high: int)
    ensures multiset(SortedRun(high)) == multiset(Run(high))
  {
    if high == 5 {
      assert multiset([14, 5, 4, 3, 2]) == multiset{14, 5, 4, 3, 2} == multiset([5, 4, 3, 2, 14]);
    }
  }

  lemma IntOrders()
    ensures TotalPreorder(IntLeq) && Antisymmetric(IntLeq)
    ensures TotalPreorder(IntGeq) && Antisymmetric(IntGeq)
  {
  }

  ghost predicate FiveValues(values: seq<int>) {
    && |values| == 5 && SortedBy(values, IntGeq)
    && (forall k :: 0 <= k < 5 ==> 2 <= values[k] <= 14)
  }

  lemma SortedRunSorted(high: int)
    ensures SortedBy(SortedRun(high), IntGeq)
  {
  }

  lemma RunIsSorted(values: seq<int>, high: int)
    requires FiveValues(values) && 5 <= high <= 14
    ensures multiset(values) == multiset(Run(high)) <==> values == SortedRun(high)
  {
    SortedRunContents(high);
    if multiset(values) == multiset(Run(high)) {
      IntOrders();
      SortedRunSorted(high);
      SortedUnique(values, SortedRun(high), IntGeq);
    }
  }

  lemma WindowAt(unique: seq<int>, index: nat)
    requires index + 5 <= |unique|
    ensures Consecutive(unique[index..index + 5]) <==>
      var top := unique[index];
      && unique[index + 1] == top - 1 && unique[index + 2] == top - 2
      && unique[index + 3] == top - 3 && unique[index + 4] == top - 4
  {
    var w := unique[index..index + 5];
    assert w[0] == unique[index] && w[1] == unique[index + 1] && w[2] == unique[index + 2] && w[3] == unique[index + 3];
    assert w[4] == unique[index + 4];
  }

  lemma SearchOfFive(unique: seq<int>)
    requires 5 <= |unique| <= 6
    ensures SearchStraight(unique, 0) ==
      if Consecutive(unique[0..5]) then Some(if unique[0] == 1 then 5 else unique[0])
      else if |unique| == 6 && Consecutive(unique[1..6]) then Some(if unique[1] == 1 then 5 else unique[1])
      else None
  {
    assert SearchStraight(unique, 1) ==
      if |unique| == 6 && Consecutive(unique[1..6]) then Some(if unique[1] == 1 then 5 else unique[1])
      else SearchStraight(unique, 2);
  }

  lemma AceLeads(values: seq<int>)
    requires FiveValues(values)
    ensures 14 in values <==> values[0] == 14
  {
    if 14 in values {
      var k :| 0 <= k < 5 && values[k] == 14;
      assert k > 0 ==> IntGeq(values[0], values[k]);
    }
  }

  /** Four distinct ranks and the low ace never line up. */
  lemma NoStraightWithPair(values: seq<int>)
    requires FiveValues(values) && !NoDup(values)
    ensures StraightHigh(values) == None
  {
    DistinctFacts(values);
    AceLeads(values);
    var unique := WithLowAce(Distinct(values));
    if |unique| >= 5 {
      SearchOfFive(unique);
      WindowAt(unique, 0);
    }
  }

  lemma FoundIsRun(values: seq<int>, high: int)
    requires FiveValues(values) && StraightHigh(values) == Some(high)
    ensures 5 <= high <= 14 && values == SortedRun(high)
  {
    if !NoDup(values) {
      NoStraightWithPair(values);
    } else {
      SearchOfDistinct(values);
      SearchOfFive(WithLowAce(values));
      FoundInWindow(values, high);
    }
  }

  /** Either the five values run down, or the last four and a low ace do. */
  lemma FoundInWindow(values: seq<int>, high: int)
    requires FiveValues(values) && NoDup(values) && SearchStraight(WithLowAce(values), 0) == Some(high)
    ensures 5 <= high <= 14 && values == SortedRun(high)
  {
    var unique := WithLowAce(values);
    AceLeads(values);
    SearchOfFive(unique);
    assert unique[0..5] == values;
    if Consecutive(unique[0..5]) {
      WindowAt(unique, 0);
    } else {
      WindowAt(unique, 1);
      LowRun(values);
    }
  }

  lemma LowRun(values: seq<int>)
    requires |values| == 5 && values[0] == 14 && values[4] == 2 && values[3] == 3 && values[2] == 4 && values[1] == 5
    ensures values == SortedRun(5)
  {
  }

  lemma SearchOfDistinct(values: seq<int>)
    requires NoDup(values)
    ensures StraightHigh(values) == SearchStraight(WithLowAce(values), 0)
  {
    DistinctFacts(values);
  }

  lemma RunNoDup(high: int)
    ensures NoDup(SortedRun(high))
  {
  }

  lemma RunIsFound(high: int)
    requires 5 <= high <= 14
    ensures StraightHigh(SortedRun(high)) == Some(high)
  {
    var unique := WithLowAce(SortedRun(high));
    RunNoDup(high);
    SearchOfDistinct(SortedRun(high));
    SearchOfFive(unique);
    if high == 5 {
      assert unique == [14, 5, 4, 3, 2, 1];
      WindowAt(unique, 0);
      WindowAt(unique, 1);
    } else {
      assert unique[..5] == Run(high);
      WindowAt(unique, 0);
    }
  }

  lemma StraightSearch(values: seq<int>, high: int)
    requires FiveValues(values)
    ensures StraightHigh(values) == Some(high) <==> 5 <= high <= 14 && values == SortedRun(high)
  {
    if StraightHigh(values) == Some(high) {
      FoundIsRun(values, high);
    } else if 5 <= high <= 14 {
      RunIsFound(high);
    }
  }

  /** getStraightHigh finds the run exactly when the five ranks form it, ace high or low. */
  lemma StraightHighExact(values: seq<int>, high: int)
    requires FiveValues(values)
    ensures StraightHigh(values) == Some(high) <==> 5 <= high <= 14 && multiset(values) == multiset(Run(high))
  {
    StraightSearch(values, high);
    if 5 <= high <= 14 {
      RunIsSorted(values, high);
    }
  }
}
