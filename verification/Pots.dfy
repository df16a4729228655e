/** packages/shared/src/poker/pot.ts: layered side pots and their split.
    Everything here holds for any investments and statuses on distinct seats. */
module Pots {
  import opened Sequences

  datatype Status = Active | Folded | AllIn | Out | SittingOut

  predicate Contends(status: Status) {
    status != Folded && status != Out && status != SittingOut
  }

  datatype PotPlayer = PotPlayer(seatNo: int, invested: int, status: Status)

  datatype SidePot = SidePot(amount: int, eligible: seq<int>)

  /** payouts is keyed by seat, as the source's Record is. */
  datatype Allocation = Allocation(pot: SidePot, winners: seq<int>, payouts: map<int, int>)

  predicate DistinctSeats(players: seq<PotPlayer>) {
    forall i, j :: 0 <= i < j < |players| ==> players[i].seatNo != players[j].seatNo
  }

  predicate NonNegative(players: seq<PotPlayer>) {
    forall i :: 0 <= i < |players| ==> players[i].invested >= 0
  }

  // ---------- buildSidePots ----------

  function InsertLevel(levels: seq<int>, x: int): seq<int> {
    if levels == [] then [x]
    else
      var n := |levels| - 1;
      if levels[n] < x then levels + [x]
      else if levels[n] == x then levels
      else InsertLevel(levels[..n], x) + [levels[n]]
  }

  /** The distinct positive investments, ascending. */
  function Levels(players: seq<PotPlayer>): seq<int> {
    if players == [] then []
    else
      var n := |players| - 1;
      if players[n].invested > 0 then InsertLevel(Levels(players[..n]), players[n].invested) else Levels(players[..n])
  }

  ghost predicate SomeoneInvested(players: seq<PotPlayer>, x: int) {
    exists i :: 0 <= i < |players| && players[i].invested == x
  }

  lemma {:induction false} InsertLevelContents(levels: seq<int>, x: int)
    requires StrictlyAscending(levels)
    ensures StrictlyAscending(InsertLevel(levels, x))
    ensures forall y :: y in InsertLevel(levels, x) <==> y in levels || y == x
  {
    if levels != [] {
      var n := |levels| - 1;
      assert levels == levels[..n] + [levels[n]];
      if levels[n] > x {
        InsertLevelContents(levels[..n], x);
        var r := InsertLevel(levels[..n], x);
        forall i | 0 <= i < |r| ensures r[i] < levels[n] {
          assert r[i] in r;
        }
      }
    }
  }

  lemma {:induction false} LevelsContents(players: seq<PotPlayer>)
    ensures StrictlyAscending(Levels(players))
    ensures forall y :: y in Levels(players) <==> y > 0 && SomeoneInvested(players, y)
  {
    if players != [] {
      var n := |players| - 1;
      var rest := players[..n];
      LevelsContents(rest);
      InsertLevelContents(Levels(rest), players[n].invested);
      forall y ensures SomeoneInvested(players, y) <==> SomeoneInvested(rest, y) || players[n].invested == y {
        if SomeoneInvested(rest, y) {
          var i :| 0 <= i < |rest| && rest[i].invested == y;
          assert players[i].invested == y;
        }
        if SomeoneInvested(players, y) && players[n].invested != y {
          var i :| 0 <= i < |players| && players[i].invested == y;
          assert rest[i].invested == y;
        }
      }
    }
  }

  function Contributors(players: seq<PotPlayer>, level: int): nat {
    if players == [] then 0
    else
      Contributors(players[..|players| - 1], level) + (if players[|players| - 1].invested >= level then 1 else 0)
  }

  /** Seats that contributed to the layer and still contend, in table order. */
  function EligibleSeats(players: seq<PotPlayer>, level: int): seq<int> {
    if players == [] then []
    else
      var n := |players| - 1;
      if Qualifies(players[n], level) then EligibleSeats(players[..n], level) + [players[n].seatNo]
      else EligibleSeats(players[..n], level)
  }

  predicate Qualifies(p: PotPlayer, level: int) {
    p.invested >= level && Contends(p.status)
  }

  lemma {:induction false} EligibleSeatsContents(players: seq<PotPlayer>, level: int, s: int)
    ensures s in EligibleSeats(players, level) <==>
      exists i :: 0 <= i < |players| && players[i].seatNo == s && Qualifies(players[i], level)
  {
    if players != [] {
      var n := |players| - 1;
      var rest := players[..n];
      EligibleSeatsContents(rest, level, s);
      if i :| 0 <= i < |players| && players[i].seatNo == s && Qualifies(players[i], level) {
        assert i < n ==> rest[i].seatNo == s && Qualifies(rest[i], level);
      }
    }
  }

  function Layer(players: seq<PotPlayer>, previous: int, level: int): SidePot {
    SidePot((level - previous) * Contributors(players, level), Sort(EligibleSeats(players, level), IntLeq))
  }

  /** The pots of the first n levels; a layer nobody can win is dropped (pot.ts:23). */
  function PotsUpTo(players: seq<PotPlayer>, levels: seq<int>, n: nat): seq<SidePot>
    requires n <= |levels|
  {
    if n == 0 then []
    else
      var pot := Layer(players, if n == 1 then 0 else levels[n - 2], levels[n - 1]);
      var rest := PotsUpTo(players, levels, n - 1);
      if pot.amount > 0 && pot.eligible != [] then rest + [pot] else rest
  }

  function SidePots(players: seq<PotPlayer>): seq<SidePot> {
    PotsUpTo(players, Levels(players), |Levels(players)|)
  }

  method BuildSidePots(players: seq<PotPlayer>) returns (pots: seq<SidePot>)
    ensures pots == SidePots(players)
  {
    var levels := Levels(players);
    var previous := 0;
    pots := [];
    for n := 0 to |levels|
      invariant previous == if n == 0 then 0 else levels[n - 1]
      invariant pots == PotsUpTo(players, levels, n)
    {
      var amount := (levels[n] - previous) * Contributors(players, levels[n]);
      var eligible := Sort(EligibleSeats(players, levels[n]), IntLeq);
      if amount > 0 && |eligible| > 0 {
        pots := pots + [SidePot(amount, eligible)];
      }
      previous := levels[n];
    }
  }

  // ---------- allocateSidePots ----------

  function RankOf(ranks: map<int, int>, seat: int): int {
    if seat in ranks then ranks[seat] else -1
  }

  /** The largest rank; no pot is built for an empty list of seats. */
  function BestRank(seats: seq<int>, ranks: map<int, int>): int {
    if seats == [] then -1
    else if |seats| == 1 then RankOf(ranks, seats[0])
    else Max(BestRank(seats[..|seats| - 1], ranks), RankOf(ranks, seats[|seats| - 1]))
  }

  lemma {:induction false} BestRankIsMax(seats: seq<int>, ranks: map<int, int>)
    ensures forall s :: s in seats ==> RankOf(ranks, s) <= BestRank(seats, ranks)
    ensures seats != [] ==> exists s :: s in seats && RankOf(ranks, s) == BestRank(seats, ranks)
  {
    if |seats| == 1 {
      assert seats[0] in seats && RankOf(ranks, seats[0]) == BestRank(seats, ranks);
    } else if seats != [] {
      var n := |seats| - 1;
      var rest := seats[..n];
      assert seats == rest + [seats[n]];
      BestRankIsMax(rest, ranks);
      var s :| s in rest && RankOf(ranks, s) == BestRank(rest, ranks);
      assert s in seats && seats[n] in seats;
    }
  }

  function HoldersOf(seats: seq<int>, ranks: map<int, int>, best: int): seq<int> {
    if seats == [] then []
    else
      var n := |seats| - 1;
      if seats[n] in ranks && ranks[seats[n]] == best then HoldersOf(seats[..n], ranks, best) + [seats[n]]
      else HoldersOf(seats[..n], ranks, best)
  }

  lemma {:induction false} HoldersContents(seats: seq<int>, ranks: map<int, int>, best: int, s: int)
    ensures s in HoldersOf(seats, ranks, best) <==> s in seats && s in ranks && ranks[s] == best
  {
    if seats != [] {
      var n := |seats| - 1;
      assert seats == seats[..n] + [seats[n]];
      HoldersContents(seats[..n], ranks, best, s);
    }
  }

  function Winners(pot: SidePot, ranks: map<int, int>): seq<int> {
    Sort(HoldersOf(pot.eligible, ranks, BestRank(pot.eligible, ranks)), IntLeq)
  }

  /** Share of the k-th of n winners: odd chips go to the lowest seats. */
  function Share(amount: int, n: nat, k: nat): int
    requires n > 0
  {
    amount / n + (if k < amount % n then 1 else 0)
  }

  /** payouts after the first k winners have been written. */
  function PayoutsUpTo(amount: int, winners: seq<int>, k: nat): map<int, int>
    requires k <= |winners|
  {
    if k == 0 then map[]
    else PayoutsUpTo(amount, winners, k - 1)[winners[k - 1] := Share(amount, |winners|, k - 1)]
  }

  function Allocate(pot: SidePot, ranks: map<int, int>): Allocation {
    var winners := Winners(pot, ranks);
    Allocation(pot, winners, PayoutsUpTo(pot.amount, winners, |winners|))
  }

  function AllocateAll(pots: seq<SidePot>, ranks: map<int, int>): (r: seq<Allocation>)
    ensures |r| == |pots| && forall k :: 0 <= k < |pots| ==> r[k] == Allocate(pots[k], ranks)
  {
    seq(|pots|, k requires 0 <= k < |pots| => Allocate(pots[k], ranks))
  }

  method AllocateSidePots(pots: seq<SidePot>, ranks: map<int, int>) returns (allocations: seq<Allocation>)
    ensures allocations == AllocateAll(pots, ranks)
  {
    allocations := [];
    for k := 0 to |pots|
      invariant allocations == AllocateAll(pots, ranks)[..k]
    {
      var winners := Winners(pots[k], ranks);
      var payouts: map<int, int> := map[];
      for index := 0 to |winners|
        invariant payouts == PayoutsUpTo(pots[k].amount, winners, index)
      {
        payouts := payouts[winners[index] := Share(pots[k].amount, |winners|, index)];
      }
      allocations := allocations + [Allocation(pots[k], winners, payouts)];
    }
  }

  function Lookup(payouts: map<int, int>, seat: int): int {
    if seat in payouts then payouts[seat] else 0
  }

  function Paid(a: Allocation, seat: int): int {
    Lookup(a.payouts, seat)
  }

  /** What one seat collects over all pots. */
  function Collected(allocations: seq<Allocation>, seat: int): int {
    if allocations == [] then 0
    else Collected(allocations[..|allocations| - 1], seat) + Paid(allocations[|allocations| - 1], seat)
  }

  // ---------- the simple formula ----------

  function Capped(players: seq<PotPlayer>, cap: int): seq<int> {
    seq(|players|, i requires 0 <= i < |players| => Min(players[i].invested, cap))
  }

  /** The chips an opponent matching up to `cap` can be paid: sum of min(invested, cap). */
  function Matched(players: seq<PotPlayer>, cap: int): int {
    Sum(Capped(players, cap))
  }

  /** Largest contender investment, 0 when nobody contends. */
  function LargestContender(players: seq<PotPlayer>): int {
    if players == [] then 0
    else
      var n := |players| - 1;
      if Contends(players[n].status) then Max(LargestContender(players[..n]), players[n].invested)
      else LargestContender(players[..n])
  }

  ghost predicate ContenderInvested(players: seq<PotPlayer>, x: int) {
    exists i :: 0 <= i < |players| && Contends(players[i].status) && players[i].invested == x
  }

  lemma {:induction false} LargestContenderBounds(players: seq<PotPlayer>)
    ensures LargestContender(players) >= 0
    ensures forall i :: 0 <= i < |players| && Contends(players[i].status) ==>
      players[i].invested <= LargestContender(players)
    ensures LargestContender(players) > 0 ==> ContenderInvested(players, LargestContender(players))
  {
    if players != [] {
      var n := |players| - 1;
      var rest := players[..n];
      LargestContenderBounds(rest);
      if ContenderInvested(rest, LargestContender(rest)) {
        var i :| 0 <= i < |rest| && Contends(rest[i].status) && rest[i].invested == LargestContender(rest);
        assert Contends(players[i].status) && players[i].invested == LargestContender(rest);
      }
    }
  }

  function Amounts(pots: seq<SidePot>): seq<int> {
    seq(|pots|, k requires 0 <= k < |pots| => pots[k].amount)
  }

  lemma {:induction false} LayerAmount(players: seq<PotPlayer>, previous: int, level: int)
    requires previous <= level
    requires forall i :: 0 <= i < |players| ==> players[i].invested <= previous || players[i].invested >= level
    ensures (level - previous) * Contributors(players, level) == Matched(players, level) - Matched(players, previous)
  {
    if players != [] {
      var n := |players| - 1;
      LayerAmount(players[..n], previous, level);
      MatchedLast(players, level);
      MatchedLast(players, previous);
      OneMore(level - previous, Contributors(players[..n], level));
    }
  }

  lemma MatchedLast(players: seq<PotPlayer>, cap: int)
    requires players != []
    ensures Matched(players, cap) == Matched(players[..|players| - 1], cap) + Min(players[|players| - 1].invested, cap)
  {
    assert Capped(players, cap)[..|players| - 1] == Capped(players[..|players| - 1], cap);
  }

  lemma OneMore(x: int, c: int)
    ensures x * (c + 1) == x * c + x
  {
  }

  lemma {:induction false} ContributorsPositive(players: seq<PotPlayer>, level: int, i: nat)
    requires i < |players| && players[i].invested >= level
    ensures Contributors(players, level) > 0
  {
    if i < |players| - 1 {
      ContributorsPositive(players[..|players| - 1], level, i);
    }
  }

  lemma AmountsAppend(pots: seq<SidePot>, pot: SidePot)
    ensures Sum(Amounts(pots + [pot])) == Sum(Amounts(pots)) + pot.amount
  {
    assert Amounts(pots + [pot])[..|pots|] == Amounts(pots);
  }

  function LevelBefore(levels: seq<int>, n: nat): int
    requires n <= |levels|
  {
    if n == 0 then 0 else levels[n - 1]
  }

  /** The facts about the n-th level that every layer argument uses. */
  lemma LevelStep(players: seq<PotPlayer>, n: nat)
    requires 0 < n <= |Levels(players)|
    ensures
      var levels := Levels(players);
      var previous, level := LevelBefore(levels, n - 1), levels[n - 1];
      && 0 <= previous < level
      && SomeoneInvested(players, level)
      && (forall i :: 0 <= i < |players| ==> players[i].invested <= previous || players[i].invested >= level)
      && (LargestContender(players) <= previous || LargestContender(players) >= level)
  {
    LevelsContents(players);
    LargestContenderBounds(players);
    var levels := Levels(players);
    var previous, level := LevelBefore(levels, n - 1), levels[n - 1];
    assert level in levels;
    assert 0 <= previous < level by {
      if n > 1 { assert levels[n - 2] in levels; }
    }
    forall x | x <= 0 || SomeoneInvested(players, x) ensures x <= previous || x >= level {
      if x > 0 {
        assert x in levels;
        var k :| 0 <= k < |levels| && levels[k] == x;
      }
    }
    forall i | 0 <= i < |players| ensures players[i].invested <= previous || players[i].invested >= level {
      assert SomeoneInvested(players, players[i].invested);
    }
    if ContenderInvested(players, LargestContender(players)) {
      assert SomeoneInvested(players, LargestContender(players));
    }
  }

  lemma SortKeepsEmptiness(seats: seq<int>)
    ensures Sort(seats, IntLeq) == [] <==> seats == []
  {
  }

  lemma EligibleIffReached(players: seq<PotPlayer>, previous: int, level: int)
    requires level > 0
    ensures Layer(players, previous, level).eligible != [] <==> level <= LargestContender(players)
  {
    LargestContenderBounds(players);
    var eligible := EligibleSeats(players, level);
    SortKeepsEmptiness(eligible);
    if level <= LargestContender(players) {
      var j :| 0 <= j < |players| && Contends(players[j].status) && players[j].invested == LargestContender(players);
      assert Qualifies(players[j], level);
      EligibleSeatsContents(players, level, players[j].seatNo);
    }
    if eligible != [] {
      EligibleSeatsContents(players, level, eligible[0]);
    }
  }

  lemma LayerPositive(height: int, count: nat)
    requires height > 0 && count > 0
    ensures height * count > 0
  {
  }

  /** A layer is exactly the difference of two Matched sums, and is kept while some contender reaches it. */
  lemma LayerIsDifference(players: seq<PotPlayer>, n: nat)
    requires 0 < n <= |Levels(players)|
    ensures
      var levels := Levels(players);
      var pot := Layer(players, LevelBefore(levels, n - 1), levels[n - 1]);
      && pot.amount == Matched(players, levels[n - 1]) - Matched(players, LevelBefore(levels, n - 1))
      && pot.amount > 0
      && (pot.eligible != [] <==> levels[n - 1] <= LargestContender(players))
  {
    var levels := Levels(players);
    var previous, level := LevelBefore(levels, n - 1), levels[n - 1];
    LevelStep(players, n);
    LayerAmount(players, previous, level);
    assert Contributors(players, level) > 0 by {
      var i :| 0 <= i < |players| && players[i].invested == level;
      ContributorsPositive(players, level, i);
    }
    LayerPositive(level - previous, Contributors(players, level));
    EligibleIffReached(players, previous, level);
  }

  lemma MatchedNothing(players: seq<PotPlayer>)
    requires NonNegative(players)
    ensures Matched(players, 0) == 0
  {
    SumZero(Capped(players, 0));
  }

  /** Telescoping: the pots of the first n levels hold what matches min(level n, M). */
  lemma {:induction false} PotsHold(players: seq<PotPlayer>, n: nat)
    requires NonNegative(players) && n <= |Levels(players)|
    ensures
      var levels := Levels(players);
      Sum(Amounts(PotsUpTo(players, levels, n))) ==
        Matched(players, Min(LevelBefore(levels, n), LargestContender(players)))
  {
    if n == 0 {
      MatchedNothing(players);
      LargestContenderBounds(players);
    } else {
      PotsHold(players, n - 1);
      PotAdds(players, n);
      LevelStep(players, n);
      LayerIsDifference(players, n);
    }
  }

  lemma PotAdds(players: seq<PotPlayer>, n: nat)
    requires NonNegative(players) && 0 < n <= |Levels(players)|
    ensures var levels := Levels(players);
      var pot := Layer(players, LevelBefore(levels, n - 1), levels[n - 1]);
      Sum(Amounts(PotsUpTo(players, levels, n))) ==
        Sum(Amounts(PotsUpTo(players, levels, n - 1))) + if pot.amount > 0 && pot.eligible != [] then pot.amount else 0
  {
    var levels := Levels(players);
    LevelStep(players, n);
    AmountsAppend(PotsUpTo(players, levels, n - 1), Layer(players, LevelBefore(levels, n - 1), levels[n - 1]));
  }

  lemma LargestIsBelowLastLevel(players: seq<PotPlayer>)
    ensures LargestContender(players) <= LevelBefore(Levels(players), |Levels(players)|)
  {
    LevelsContents(players);
    LargestContenderBounds(players);
    var levels, m := Levels(players), LargestContender(players);
    if levels != [] {
      assert levels[|levels| - 1] in levels;
    }
    if m > 0 {
      assert SomeoneInvested(players, m);
      assert m in levels;
      var k :| 0 <= k < |levels| && levels[k] == m;
      assert k < |levels| - 1 ==> levels[k] < levels[|levels| - 1];
    }
  }

  /** All the money the pots carry: every investment, capped at the largest contender's. */
  lemma PotTotal(players: seq<PotPlayer>)
    requires NonNegative(players)
    ensures Sum(Amounts(SidePots(players))) == Matched(players, LargestContender(players))
  {
    PotsHold(players, |Levels(players)|);
    LargestIsBelowLastLevel(players);
  }

  // ---------- who is paid what ----------

  function Seats(players: seq<PotPlayer>): seq<int> {
    seq(|players|, i requires 0 <= i < |players| => players[i].seatNo)
  }

  lemma {:induction false} EligibleNoDup(players: seq<PotPlayer>, level: int)
    requires DistinctSeats(players)
    ensures NoDup(EligibleSeats(players, level))
  {
    if players != [] {
      var n := |players| - 1;
      var rest := players[..n];
      EligibleNoDup(rest, level);
      EligibleSeatsContents(rest, level, players[n].seatNo);
    }
  }

  lemma {:induction false} HoldersNoDup(seats: seq<int>, ranks: map<int, int>, best: int)
    requires NoDup(seats)
    ensures NoDup(HoldersOf(seats, ranks, best))
  {
    if seats != [] {
      var n := |seats| - 1;
      HoldersNoDup(seats[..n], ranks, best);
      HoldersContents(seats[..n], ranks, best, seats[n]);
    }
  }

  ghost predicate AllRanked(seats: seq<int>, ranks: map<int, int>) {
    forall s :: s in seats ==> s in ranks
  }

  /** The winners of a pot are exactly the eligible seats no eligible hand beats. */
  lemma WinnersAreBest(pot: SidePot, ranks: map<int, int>)
    requires pot.eligible != [] && AllRanked(pot.eligible, ranks)
    ensures Winners(pot, ranks) != []
    ensures forall s :: s in Winners(pot, ranks) <==>
      s in pot.eligible && forall t :: t in pot.eligible ==> ranks[t] <= ranks[s]
  {
    var best := BestRank(pot.eligible, ranks);
    BestRankIsMax(pot.eligible, ranks);
    var top :| top in pot.eligible && RankOf(ranks, top) == best;
    forall s
      ensures s in Winners(pot, ranks) <==>
        s in pot.eligible && forall t :: t in pot.eligible ==> ranks[t] <= ranks[s]
    {
      SortMembers(HoldersOf(pot.eligible, ranks, best), IntLeq, s);
      HoldersContents(pot.eligible, ranks, best, s);
      if s in pot.eligible && forall t :: t in pot.eligible ==> ranks[t] <= ranks[s] {
        assert ranks[top] <= ranks[s] && RankOf(ranks, s) <= best;
      }
      if s in Winners(pot, ranks) {
        forall t | t in pot.eligible ensures ranks[t] <= ranks[s] {
          assert RankOf(ranks, t) <= best;
        }
      }
    }
    assert top in Winners(pot, ranks) by {
      forall t | t in pot.eligible ensures ranks[t] <= ranks[top] {
        assert RankOf(ranks, t) <= best;
      }
    }
  }

  lemma {:induction false} PayoutKeys(amount: int, winners: seq<int>, k: nat)
    requires k <= |winners|
    ensures forall s :: s in PayoutsUpTo(amount, winners, k) <==> s in winners[..k]
  {
    if k > 0 {
      PayoutKeys(amount, winners, k - 1);
      assert winners[..k] == winners[..k - 1] + [winners[k - 1]];
    }
  }

  lemma ShareBounds(amount: int, n: nat, k: nat)
    requires n > 0 && amount >= 0
    ensures 0 <= Share(amount, n, k) <= amount
    ensures n == 1 && k == 0 ==> Share(amount, n, k) == amount
  {
    if n == 1 {
      assert amount / 1 == amount && amount % 1 == 0;
    } else {
      QuotientBound(amount, n, amount / n, amount % n);
    }
  }

  lemma QuotientBound(amount: int, n: int, q: int, r: int)
    requires n >= 2 && amount >= 0 && amount == n * q + r && 0 <= r < n
    ensures 0 <= q && q + (if r > 0 then 1 else 0) <= amount
  {
    assert q >= 0;
    assert n * q == 2 * q + (n - 2) * q;
    assert (n - 2) * q >= 0;
  }

  lemma {:induction false} PayoutBounds(amount: int, winners: seq<int>, k: nat)
    requires k <= |winners| && amount >= 0
    ensures forall s :: s in PayoutsUpTo(amount, winners, k) ==> 0 <= PayoutsUpTo(amount, winners, k)[s] <= amount
  {
    if k > 0 {
      PayoutBounds(amount, winners, k - 1);
      ShareBounds(amount, |winners|, k - 1);
    }
  }

  /** An ineligible seat is paid nothing, an eligible one at most the pot. */
  lemma PaidBounds(pot: SidePot, ranks: map<int, int>, seat: int)
    requires pot.amount >= 0
    ensures 0 <= Paid(Allocate(pot, ranks), seat) <= pot.amount
    ensures seat !in pot.eligible ==> Paid(Allocate(pot, ranks), seat) == 0
  {
    var winners := Winners(pot, ranks);
    PayoutKeys(pot.amount, winners, |winners|);
    PayoutBounds(pot.amount, winners, |winners|);
    var best := BestRank(pot.eligible, ranks);
    SortMembers(HoldersOf(pot.eligible, ranks, best), IntLeq, seat);
    HoldersContents(pot.eligible, ranks, best, seat);
    assert winners[..|winners|] == winners;
  }

  lemma SoleWinner(pot: SidePot, ranks: map<int, int>, seat: int)
    requires NoDup(pot.eligible) && AllRanked(pot.eligible, ranks)
    requires seat in pot.eligible
    requires forall t :: t in pot.eligible && t != seat ==> ranks[t] < ranks[seat]
    ensures Winners(pot, ranks) == [seat]
  {
    var winners := Winners(pot, ranks);
    WinnersAreBest(pot, ranks);
    WinnersNoDup(pot, ranks);
    forall k | 0 <= k < |winners| ensures winners[k] == seat {
      assert winners[k] in winners;
      assert ranks[seat] <= ranks[winners[k]];
    }
    NoDupConstant(winners, seat);
  }

  lemma SoleWinnerTakesPot(pot: SidePot, ranks: map<int, int>, seat: int)
    requires NoDup(pot.eligible) && AllRanked(pot.eligible, ranks) && pot.amount >= 0
    requires seat in pot.eligible
    requires forall t :: t in pot.eligible && t != seat ==> ranks[t] < ranks[seat]
    ensures Paid(Allocate(pot, ranks), seat) == pot.amount
  {
    SoleWinner(pot, ranks, seat);
    ShareBounds(pot.amount, 1, 0);
    assert PayoutsUpTo(pot.amount, [seat], 1) == map[seat := Share(pot.amount, 1, 0)];
  }

  lemma WinnersNoDup(pot: SidePot, ranks: map<int, int>)
    requires NoDup(pot.eligible)
    ensures NoDup(Winners(pot, ranks))
  {
    var best := BestRank(pot.eligible, ranks);
    HoldersNoDup(pot.eligible, ranks, best);
    SortNoDup(HoldersOf(pot.eligible, ranks, best), IntLeq);
  }

  /** Later winners do not touch an earlier winner's payout. */
  lemma {:induction false} PayoutOfWinner(amount: int, winners: seq<int>, w: nat, k: nat)
    requires NoDup(winners) && w < k <= |winners|
    ensures winners[w] in PayoutsUpTo(amount, winners, k)
    ensures PayoutsUpTo(amount, winners, k)[winners[w]] == Share(amount, |winners|, w)
  {
    if w < k - 1 {
      PayoutOfWinner(amount, winners, w, k - 1);
      NoDupAt(winners, w, k - 1);
    }
  }

  /** A pot is split evenly: of two winners the lower seat gets the same or one odd chip more. */
  lemma SplitIsFair(pot: SidePot, ranks: map<int, int>, w: nat, v: nat)
    requires NoDup(pot.eligible) && w < v < |Winners(pot, ranks)|
    ensures var winners, a := Winners(pot, ranks), Allocate(pot, ranks);
      winners[w] < winners[v] && Paid(a, winners[v]) <= Paid(a, winners[w]) <= Paid(a, winners[v]) + 1
  {
    var winners := Winners(pot, ranks);
    WinnersNoDup(pot, ranks);
    PayoutOfWinner(pot.amount, winners, w, |winners|);
    PayoutOfWinner(pot.amount, winners, v, |winners|);
    assert TotalPreorder(IntLeq);
    SortSorted(HoldersOf(pot.eligible, ranks, BestRank(pot.eligible, ranks)), IntLeq);
    NoDupAt(winners, w, v);
  }

  lemma CollectedAppend(pots: seq<SidePot>, pot: SidePot, ranks: map<int, int>, seat: int)
    ensures Collected(AllocateAll(pots + [pot], ranks), seat) ==
      Collected(AllocateAll(pots, ranks), seat) + Paid(Allocate(pot, ranks), seat)
  {
    assert AllocateAll(pots + [pot], ranks)[..|pots|] == AllocateAll(pots, ranks);
  }

  lemma EligibleUpToInvestment(players: seq<PotPlayer>, previous: int, level: int, p: nat)
    requires DistinctSeats(players) && p < |players| && Contends(players[p].status)
    ensures players[p].seatNo in Layer(players, previous, level).eligible <==> level <= players[p].invested
  {
    var seat := players[p].seatNo;
    SortMembers(EligibleSeats(players, level), IntLeq, seat);
    EligibleSeatsContents(players, level, seat);
    if i :| 0 <= i < |players| && players[i].seatNo == seat && Qualifies(players[i], level) {
      assert i == p;
    }
    assert level <= players[p].invested ==> Qualifies(players[p], level);
  }

  /** The eligible seats of a layer are contenders' seats, each once. */
  lemma LayerSeats(players: seq<PotPlayer>, previous: int, level: int)
    requires DistinctSeats(players)
    ensures var seats := Layer(players, previous, level).eligible;
      NoDup(seats) && forall s :: s in seats ==> ContenderSeat(players, s)
  {
    EligibleNoDup(players, level);
    SortNoDup(EligibleSeats(players, level), IntLeq);
    forall s | s in Layer(players, previous, level).eligible ensures ContenderSeat(players, s) {
      SortMembers(EligibleSeats(players, level), IntLeq, s);
      EligibleSeatsContents(players, level, s);
      var i :| 0 <= i < |players| && players[i].seatNo == s && Qualifies(players[i], level);
      assert Contends(players[i].status);
    }
  }

  ghost predicate ContenderSeat(players: seq<PotPlayer>, seat: int) {
    exists i :: 0 <= i < |players| && players[i].seatNo == seat && Contends(players[i].status)
  }

  ghost predicate ContendersRanked(players: seq<PotPlayer>, ranks: map<int, int>) {
    forall s :: ContenderSeat(players, s) ==> s in ranks
  }

  ghost predicate BeatsAll(players: seq<PotPlayer>, ranks: map<int, int>, p: nat)
    requires p < |players| && ContendersRanked(players, ranks) && Contends(players[p].status)
  {
    forall s :: ContenderSeat(players, s) && s != players[p].seatNo ==>
      ContenderSeat(players, players[p].seatNo) && ranks[s] < ranks[players[p].seatNo]
  }

  /** One layer, seen from one contender. */
  lemma LayerPays(players: seq<PotPlayer>, ranks: map<int, int>, p: nat, n: nat)
    requires DistinctSeats(players) && ContendersRanked(players, ranks)
    requires p < |players| && Contends(players[p].status) && 0 < n <= |Levels(players)|
    ensures
      var previous, level := LevelBefore(Levels(players), n - 1), Levels(players)[n - 1];
      var pot := Layer(players, previous, level);
      var paid := Paid(Allocate(pot, ranks), players[p].seatNo);
      && 0 <= paid <= pot.amount
      && (level > players[p].invested ==> paid == 0)
      && (level <= players[p].invested && BeatsAll(players, ranks, p) ==> paid == pot.amount)
  {
    var levels, seat := Levels(players), players[p].seatNo;
    var previous, level := LevelBefore(levels, n - 1), levels[n - 1];
    var pot := Layer(players, previous, level);
    LayerIsDifference(players, n);
    PaidBounds(pot, ranks, seat);
    EligibleUpToInvestment(players, previous, level, p);
    LayerSeats(players, previous, level);
    assert ContenderSeat(players, seat);
    if level <= players[p].invested && BeatsAll(players, ranks, p) {
      SoleWinnerTakesPot(pot, ranks, seat);
    }
  }

  /** What a contender with investment x can be paid from the first n levels. */
  function CapUpTo(players: seq<PotPlayer>, x: int, n: nat): int
    requires n <= |Levels(players)|
  {
    Matched(players, Min(LevelBefore(Levels(players), n), x))
  }

  lemma CapStep(players: seq<PotPlayer>, p: nat, n: nat)
    requires p < |players| && 0 < n <= |Levels(players)|
    ensures
      var previous, level := LevelBefore(Levels(players), n - 1), Levels(players)[n - 1];
      CapUpTo(players, players[p].invested, n) == CapUpTo(players, players[p].invested, n - 1)
        + if level <= players[p].invested then Layer(players, previous, level).amount else 0
  {
    LevelStep(players, n);
    LayerIsDifference(players, n);
  }

  function CollectedFrom(players: seq<PotPlayer>, ranks: map<int, int>, seat: int, n: nat): int
    requires n <= |Levels(players)|
  {
    Collected(AllocateAll(PotsUpTo(players, Levels(players), n), ranks), seat)
  }

  /** The n-th layer raises a contender's cap by `added` and pays it `paid`. */
  lemma CollectStep(players: seq<PotPlayer>, ranks: map<int, int>, p: nat, n: nat) returns (paid: int, added: int)
    requires DistinctSeats(players) && ContendersRanked(players, ranks)
    requires p < |players| && Contends(players[p].status) && 0 < n <= |Levels(players)|
    ensures CollectedFrom(players, ranks, players[p].seatNo, n) ==
      CollectedFrom(players, ranks, players[p].seatNo, n - 1) + paid
    ensures CapUpTo(players, players[p].invested, n) == CapUpTo(players, players[p].invested, n - 1) + added
    ensures 0 <= paid <= added
    ensures BeatsAll(players, ranks, p) ==> paid == added
  {
    var previous, level := LevelBefore(Levels(players), n - 1), Levels(players)[n - 1];
    var pot := Layer(players, previous, level);
    KeptLayer(players, ranks, players[p].seatNo, n);
    CapStep(players, p, n);
    LayerPays(players, ranks, p, n);
    paid := Paid(Allocate(pot, ranks), players[p].seatNo);
    added := if level <= players[p].invested then pot.amount else 0;
  }

  lemma NothingCollected(players: seq<PotPlayer>, ranks: map<int, int>, seat: int, x: int)
    requires NonNegative(players) && x >= 0
    ensures CollectedFrom(players, ranks, seat, 0) == 0 && CapUpTo(players, x, 0) == 0
  {
    MatchedNothing(players);
  }

  lemma {:induction false} CollectedUpTo(players: seq<PotPlayer>, ranks: map<int, int>, p: nat, n: nat)
      returns (collected: int, cap: int)
    requires DistinctSeats(players) && NonNegative(players) && ContendersRanked(players, ranks)
    requires p < |players| && Contends(players[p].status) && n <= |Levels(players)|
    ensures collected == CollectedFrom(players, ranks, players[p].seatNo, n)
    ensures cap == CapUpTo(players, players[p].invested, n)
    ensures 0 <= collected <= cap && (BeatsAll(players, ranks, p) ==> collected == cap)
  {
    if n == 0 {
      NothingCollected(players, ranks, players[p].seatNo, players[p].invested);
      collected, cap := 0, 0;
    } else {
      var before, limit := CollectedUpTo(players, ranks, p, n - 1);
      collected, cap := CollectMore(players, ranks, p, n, before, limit);
    }
  }

  lemma CollectMore(players: seq<PotPlayer>, ranks: map<int, int>, p: nat, n: nat, before: int, limit: int)
      returns (collected: int, cap: int)
    requires DistinctSeats(players) && ContendersRanked(players, ranks)
    requires p < |players| && Contends(players[p].status) && 0 < n <= |Levels(players)|
    requires before == CollectedFrom(players, ranks, players[p].seatNo, n - 1)
    requires limit == CapUpTo(players, players[p].invested, n - 1)
    requires 0 <= before <= limit && (BeatsAll(players, ranks, p) ==> before == limit)
    ensures collected == CollectedFrom(players, ranks, players[p].seatNo, n)
    ensures cap == CapUpTo(players, players[p].invested, n)
    ensures 0 <= collected <= cap && (BeatsAll(players, ranks, p) ==> collected == cap)
  {
    var paid, added := CollectStep(players, ranks, p, n);
    collected, cap := before + paid, limit + added;
  }

  /** A dropped layer pays nobody, so collecting can be counted layer by layer. */
  lemma KeptLayer(players: seq<PotPlayer>, ranks: map<int, int>, seat: int, n: nat)
    requires 0 < n <= |Levels(players)|
    ensures
      var levels := Levels(players);
      CollectedFrom(players, ranks, seat, n) == CollectedFrom(players, ranks, seat, n - 1)
        + Paid(Allocate(Layer(players, LevelBefore(levels, n - 1), levels[n - 1]), ranks), seat)
  {
    var levels := Levels(players);
    var pot := Layer(players, LevelBefore(levels, n - 1), levels[n - 1]);
    LayerIsDifference(players, n);
    if pot.eligible == [] {
      PaidBounds(pot, ranks, seat);
    } else {
      CollectedAppend(PotsUpTo(players, levels, n - 1), pot, ranks, seat);
    }
  }

  /** No contender collects more than what every player put in up to that contender's own investment, and a
      contender whose hand strictly beats all the others collects exactly that. */
  lemma CollectsAtMostMatched(players: seq<PotPlayer>, ranks: map<int, int>, p: nat)
    requires DistinctSeats(players) && NonNegative(players) && ContendersRanked(players, ranks)
    requires p < |players| && Contends(players[p].status)
    ensures 0 <= Collected(AllocateAll(SidePots(players), ranks), players[p].seatNo)
      <= Matched(players, players[p].invested)
    ensures BeatsAll(players, ranks, p) ==>
      Collected(AllocateAll(SidePots(players), ranks), players[p].seatNo) == Matched(players, players[p].invested)
  {
    var collected, cap := CollectedUpTo(players, ranks, p, |Levels(players)|);
    LargestIsBelowLastLevel(players);
    LargestContenderBounds(players);
  }

  /** A player who no longer contends collects nothing. */
  lemma {:induction false} FoldedCollectsNothing(players: seq<PotPlayer>, ranks: map<int, int>, seat: int, n: nat)
    requires DistinctSeats(players) && !ContenderSeat(players, seat)
    requires n <= |Levels(players)|
    ensures CollectedFrom(players, ranks, seat, n) == 0
  {
    if n > 0 {
      var levels := Levels(players);
      FoldedCollectsNothing(players, ranks, seat, n - 1);
      KeptLayer(players, ranks, seat, n);
      LayerIsDifference(players, n);
      LayerSeats(players, LevelBefore(levels, n - 1), levels[n - 1]);
      PaidBounds(Layer(players, LevelBefore(levels, n - 1), levels[n - 1]), ranks, seat);
    }
  }

  lemma LayersNested(players: seq<PotPlayer>, low: int, high: int, below: int, below': int)
    requires low <= high
    ensures forall s :: s in Layer(players, below', high).eligible ==> s in Layer(players, below, low).eligible
  {
    forall s | s in Layer(players, below', high).eligible ensures s in Layer(players, below, low).eligible {
      SortMembers(EligibleSeats(players, high), IntLeq, s);
      SortMembers(EligibleSeats(players, low), IntLeq, s);
      EligibleSeatsContents(players, high, s);
      EligibleSeatsContents(players, low, s);
      var i :| 0 <= i < |players| && players[i].seatNo == s && Qualifies(players[i], high);
      assert Qualifies(players[i], low);
    }
  }

  lemma {:induction false} PotIsLayer(players: seq<PotPlayer>, n: nat, k: nat) returns (below: int, level: int)
    requires n <= |Levels(players)| && k < |PotsUpTo(players, Levels(players), n)|
    ensures PotsUpTo(players, Levels(players), n)[k] == Layer(players, below, level)
    ensures n > 0 && level <= Levels(players)[n - 1]
  {
    if k < |PotsUpTo(players, Levels(players), n - 1)| {
      below, level := PotIsLayer(players, n - 1, k);
      LevelStep(players, n);
    } else {
      below, level := LevelBefore(Levels(players), n - 1), Levels(players)[n - 1];
    }
  }

  /** Eligible sets only shrink from one pot to the next. */
  lemma {:induction false} EligibleNested(players: seq<PotPlayer>, n: nat, j: nat, k: nat)
    requires n <= |Levels(players)| && j <= k < |PotsUpTo(players, Levels(players), n)|
    ensures var pots := PotsUpTo(players, Levels(players), n);
      forall s :: s in pots[k].eligible ==> s in pots[j].eligible
  {
    var levels := Levels(players);
    var rest := PotsUpTo(players, levels, n - 1);
    if k < |rest| {
      EligibleNested(players, n - 1, j, k);
    } else if j < k {
      var below, level := PotIsLayer(players, n - 1, j);
      LevelStep(players, n);
      LayersNested(players, level, levels[n - 1], below, LevelBefore(levels, n - 1));
    }
  }

  lemma {:induction false} PotsAreKept(players: seq<PotPlayer>, n: nat, k: nat)
    requires n <= |Levels(players)| && k < |PotsUpTo(players, Levels(players), n)|
    ensures PotsUpTo(players, Levels(players), n)[k].amount > 0
    ensures PotsUpTo(players, Levels(players), n)[k].eligible != []
  {
    if k < |PotsUpTo(players, Levels(players), n - 1)| {
      PotsAreKept(players, n - 1, k);
    }
  }

  /** A pot is open to exactly the contenders who invested up to its level, listed by seat. */
  lemma EligibleExactly(players: seq<PotPlayer>, k: nat) returns (level: int)
    requires DistinctSeats(players) && k < |SidePots(players)|
    ensures SidePots(players)[k].eligible != [] && SortedBy(SidePots(players)[k].eligible, IntLeq)
    ensures forall i :: 0 <= i < |players| ==>
      (players[i].seatNo in SidePots(players)[k].eligible <==> Qualifies(players[i], level))
  {
    var below;
    below, level := PotIsLayer(players, |Levels(players)|, k);
    PotsAreKept(players, |Levels(players)|, k);
    assert TotalPreorder(IntLeq);
    SortSorted(EligibleSeats(players, level), IntLeq);
    forall i | 0 <= i < |players|
      ensures players[i].seatNo in SidePots(players)[k].eligible <==> Qualifies(players[i], level)
    {
      SortMembers(EligibleSeats(players, level), IntLeq, players[i].seatNo);
      EligibleSeatsContents(players, level, players[i].seatNo);
    }
  }

  // ---------- paying out creates and loses nothing ----------

  function Lookups(payouts: map<int, int>, seats: seq<int>): seq<int> {
    seq(|seats|, i requires 0 <= i < |seats| => Lookup(payouts, seats[i]))
  }

  lemma LookupsInsert(payouts: map<int, int>, seats: seq<int>, seat: int, v: int)
    requires NoDup(seats) && seat in seats && seat !in payouts
    ensures Sum(Lookups(payouts[seat := v], seats)) == Sum(Lookups(payouts, seats)) + v
  {
    var i :| 0 <= i < |seats| && seats[i] == seat;
    assert Lookups(payouts[seat := v], seats) == Lookups(payouts, seats)[i := v];
    SumUpdate(Lookups(payouts, seats), i, v);
  }

  lemma NotYetPaid(amount: int, winners: seq<int>, k: nat)
    requires NoDup(winners) && k < |winners|
    ensures winners[k] !in PayoutsUpTo(amount, winners, k)
  {
    PayoutKeys(amount, winners, k);
  }

  lemma {:induction false} SharesSoFar(amount: int, winners: seq<int>, seats: seq<int>, k: nat)
    requires NoDup(winners) && NoDup(seats) && amount >= 0 && k <= |winners| && winners != []
    requires forall s :: s in winners ==> s in seats
    ensures Sum(Lookups(PayoutsUpTo(amount, winners, k), seats)) ==
      k * (amount / |winners|) + Min(k, amount % |winners|)
  {
    if k == 0 {
      SumZero(Lookups(map[], seats));
    } else {
      SharesSoFar(amount, winners, seats, k - 1);
      NotYetPaid(amount, winners, k - 1);
      LookupsInsert(PayoutsUpTo(amount, winners, k - 1), seats, winners[k - 1], Share(amount, |winners|, k - 1));
      ShareAdds(amount, |winners|, k);
    }
  }

  lemma ShareAdds(amount: int, n: nat, k: nat)
    requires amount >= 0 && 0 < k <= n
    ensures k * (amount / n) + Min(k, amount % n) ==
      (k - 1) * (amount / n) + Min(k - 1, amount % n) + Share(amount, n, k - 1)
  {
    OneMore(amount / n, k - 1);
  }

  lemma PotPaysItself(pot: SidePot, ranks: map<int, int>, seats: seq<int>)
    requires NoDup(seats) && NoDup(pot.eligible) && pot.eligible != [] && pot.amount >= 0
    requires AllRanked(pot.eligible, ranks)
    requires forall s :: s in pot.eligible ==> s in seats
    ensures Sum(Lookups(Allocate(pot, ranks).payouts, seats)) == pot.amount
  {
    WinnersAreBest(pot, ranks);
    WinnersNoDup(pot, ranks);
    AllShares(pot.amount, Winners(pot, ranks), seats);
  }

  lemma AllShares(amount: int, winners: seq<int>, seats: seq<int>)
    requires NoDup(winners) && NoDup(seats) && amount >= 0 && winners != []
    requires forall s :: s in winners ==> s in seats
    ensures Sum(Lookups(PayoutsUpTo(amount, winners, |winners|), seats)) == amount
  {
    SharesSoFar(amount, winners, seats, |winners|);
    assert amount == |winners| * (amount / |winners|) + amount % |winners|;
  }

  function CollectedBy(allocations: seq<Allocation>, seats: seq<int>): seq<int> {
    seq(|seats|, i requires 0 <= i < |seats| => Collected(allocations, seats[i]))
  }

  ghost predicate PayablePot(pot: SidePot, ranks: map<int, int>, seats: seq<int>) {
    && NoDup(pot.eligible) && pot.eligible != [] && pot.amount >= 0
    && AllRanked(pot.eligible, ranks)
    && (forall s :: s in pot.eligible ==> s in seats)
  }

  lemma {:induction false} PotsPayThemselves(pots: seq<SidePot>, ranks: map<int, int>, seats: seq<int>)
    requires NoDup(seats) && forall k :: 0 <= k < |pots| ==> PayablePot(pots[k], ranks, seats)
    ensures Sum(CollectedBy(AllocateAll(pots, ranks), seats)) == Sum(Amounts(pots))
  {
    if pots == [] {
      SumZero(CollectedBy([], seats));
    } else {
      var n := |pots| - 1;
      var rest, pot := pots[..n], pots[n];
      assert pots == rest + [pot];
      PotsPayThemselves(rest, ranks, seats);
      PotPaysItself(pot, ranks, seats);
      AmountsAppend(rest, pot);
      var before, paid, after := CollectedBy(AllocateAll(rest, ranks), seats),
        Lookups(Allocate(pot, ranks).payouts, seats), CollectedBy(AllocateAll(pots, ranks), seats);
      forall i | 0 <= i < |seats| ensures after[i] == before[i] + paid[i] {
        CollectedAppend(rest, pot, ranks, seats[i]);
      }
      SumPointwise(before, paid, after);
    }
  }

  lemma {:induction false} PotsPayable(players: seq<PotPlayer>, ranks: map<int, int>, n: nat)
    requires DistinctSeats(players) && ContendersRanked(players, ranks) && n <= |Levels(players)|
    ensures forall k :: 0 <= k < |PotsUpTo(players, Levels(players), n)| ==>
      PayablePot(PotsUpTo(players, Levels(players), n)[k], ranks, Seats(players))
  {
    if n > 0 {
      var levels := Levels(players);
      PotsPayable(players, ranks, n - 1);
      var previous, level := LevelBefore(levels, n - 1), levels[n - 1];
      var pot := Layer(players, previous, level);
      LayerIsDifference(players, n);
      LayerSeats(players, previous, level);
      forall s | s in pot.eligible ensures s in Seats(players) {
        var i :| 0 <= i < |players| && players[i].seatNo == s && Contends(players[i].status);
        assert Seats(players)[i] == s;
      }
    }
  }

  /** The table collects, over all seats, every investment capped at the largest contender's: the chips above that
      cap are paid to nobody. */
  lemma ShowdownPaysMatched(players: seq<PotPlayer>, ranks: map<int, int>)
    requires DistinctSeats(players) && NonNegative(players) && ContendersRanked(players, ranks)
    ensures Sum(CollectedBy(AllocateAll(SidePots(players), ranks), Seats(players))) ==
      Matched(players, LargestContender(players))
  {
    PotsPayable(players, ranks, |Levels(players)|);
    PotsPayThemselves(SidePots(players), ranks, Seats(players));
    PotTotal(players);
  }
}
