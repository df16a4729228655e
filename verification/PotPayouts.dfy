/** What each contender collects from all side pots together, to the chip: what everybody put in up to the contender's
    own investment, less what everybody put in up to the largest investment of a better hand. */
module PotPayouts {
  import opened Sequences
  import opened Pots

  /** The largest investment of a contender ranked above `rank`, 0 when there is none. */
  function BetterInvested(players: seq<PotPlayer>, ranks: map<int, int>, rank: int): int {
    if players == [] then 0
    else
      var p, rest := players[|players| - 1], BetterInvested(players[..|players| - 1], ranks, rank);
      if Contends(p.status) && p.seatNo in ranks && ranks[p.seatNo] > rank then Max(rest, p.invested) else rest
  }

  ghost predicate Better(p: PotPlayer, ranks: map<int, int>, rank: int) {
    Contends(p.status) && p.seatNo in ranks && ranks[p.seatNo] > rank
  }

  lemma {:induction false} BetterBounds(players: seq<PotPlayer>, ranks: map<int, int>, rank: int)
    ensures BetterInvested(players, ranks, rank) >= 0
    ensures forall i :: 0 <= i < |players| && Better(players[i], ranks, rank) ==>
      players[i].invested <= BetterInvested(players, ranks, rank)
    ensures BetterInvested(players, ranks, rank) > 0 ==>
      exists i :: 0 <= i < |players| && Better(players[i], ranks, rank)
        && players[i].invested == BetterInvested(players, ranks, rank)
  {
    if players != [] {
      var n, most := |players| - 1, BetterInvested(players, ranks, rank);
      var rest := players[..n];
      BetterBounds(rest, ranks, rank);
      if most > 0 && most == BetterInvested(rest, ranks, rank) {
        var i :| 0 <= i < |rest| && Better(rest[i], ranks, rank) && rest[i].invested == most;
        assert Better(players[i], ranks, rank) && players[i].invested == most;
      } else if most > 0 {
        assert Better(players[n], ranks, rank) && players[n].invested == most;
      }
    }
  }

  /** Nobody else contends with the same rank. */
  ghost predicate Untied(players: seq<PotPlayer>, ranks: map<int, int>, p: nat)
    requires p < |players| && ContendersRanked(players, ranks) && Contends(players[p].status)
  {
    forall s :: ContenderSeat(players, s) && s != players[p].seatNo ==>
      ContenderSeat(players, players[p].seatNo) && ranks[s] != ranks[players[p].seatNo]
  }

  /** The stake of better hands against p. */
  function StakeAbove(players: seq<PotPlayer>, ranks: map<int, int>, p: nat): int
    requires p < |players|
  {
    BetterInvested(players, ranks, if players[p].seatNo in ranks then ranks[players[p].seatNo] else 0)
  }

  lemma LosersUnpaid(pot: SidePot, ranks: map<int, int>, seat: int, better: int)
    requires NoDup(pot.eligible) && AllRanked(pot.eligible, ranks)
    requires seat in ranks && better in pot.eligible && ranks[better] > ranks[seat]
    ensures Paid(Allocate(pot, ranks), seat) == 0
  {
    var winners := Winners(pot, ranks);
    WinnersAreBest(pot, ranks);
    PayoutKeys(pot.amount, winners, |winners|);
    assert winners[..|winners|] == winners;
  }

  lemma LayerLost(players: seq<PotPlayer>, ranks: map<int, int>, p: nat, previous: int, level: int)
    requires DistinctSeats(players) && ContendersRanked(players, ranks)
    requires p < |players| && Contends(players[p].status) && 0 < level <= StakeAbove(players, ranks, p)
    ensures Paid(Allocate(Layer(players, previous, level), ranks), players[p].seatNo) == 0
  {
    assert ContenderSeat(players, players[p].seatNo);
    var rank := ranks[players[p].seatNo];
    BetterBounds(players, ranks, rank);
    var q :| 0 <= q < |players| && Better(players[q], ranks, rank)
      && players[q].invested == BetterInvested(players, ranks, rank);
    EligibleUpToInvestment(players, previous, level, q);
    LayerSeats(players, previous, level);
    LosersUnpaid(Layer(players, previous, level), ranks, players[p].seatNo, players[q].seatNo);
  }

  lemma LayerWon(players: seq<PotPlayer>, ranks: map<int, int>, p: nat, previous: int, level: int)
    requires DistinctSeats(players) && ContendersRanked(players, ranks)
    requires p < |players| && Contends(players[p].status) && Untied(players, ranks, p)
    requires StakeAbove(players, ranks, p) < level <= players[p].invested && Layer(players, previous, level).amount >= 0
    ensures Paid(Allocate(Layer(players, previous, level), ranks), players[p].seatNo) ==
      Layer(players, previous, level).amount
  {
    var seat, pot := players[p].seatNo, Layer(players, previous, level);
    assert ContenderSeat(players, seat);
    EligibleUpToInvestment(players, previous, level, p);
    LayerSeats(players, previous, level);
    forall t | t in pot.eligible && t != seat ensures ranks[t] < ranks[seat] {
      assert ContenderSeat(players, t);
      NotBetterAbove(players, ranks, p, previous, level, t);
    }
    SoleWinnerTakesPot(pot, ranks, seat);
  }

  /** Nobody eligible above the better hands' stakes has a better hand. */
  lemma NotBetterAbove(players: seq<PotPlayer>, ranks: map<int, int>, p: nat, previous: int, level: int, t: int)
    requires ContendersRanked(players, ranks) && p < |players| && Contends(players[p].status)
    requires players[p].seatNo in ranks && StakeAbove(players, ranks, p) < level
    requires t in Layer(players, previous, level).eligible && t in ranks
    ensures ranks[t] <= ranks[players[p].seatNo]
  {
    SortMembers(EligibleSeats(players, level), IntLeq, t);
    EligibleSeatsContents(players, level, t);
    var i :| 0 <= i < |players| && players[i].seatNo == t && Qualifies(players[i], level);
    BetterBounds(players, ranks, ranks[players[p].seatNo]);
    assert ranks[t] > ranks[players[p].seatNo] ==> Better(players[i], ranks, ranks[players[p].seatNo]);
  }

  /** p's own investment, or the better hands' stake where that is smaller. */
  function LostPart(players: seq<PotPlayer>, ranks: map<int, int>, p: nat): int
    requires p < |players|
  {
    Min(players[p].invested, StakeAbove(players, ranks, p))
  }

  /** The lost part is nothing, or somebody's investment. */
  lemma LostPartIsInvested(players: seq<PotPlayer>, ranks: map<int, int>, p: nat) returns (q: nat)
    requires p < |players| && NonNegative(players)
    ensures q < |players| && LostPart(players, ranks, p) >= 0
    ensures LostPart(players, ranks, p) > 0 ==> players[q].invested == LostPart(players, ranks, p)
  {
    var rank := if players[p].seatNo in ranks then ranks[players[p].seatNo] else 0;
    BetterBounds(players, ranks, rank);
    q := p;
    if 0 < StakeAbove(players, ranks, p) < players[p].invested {
      q :| 0 <= q < |players| && Better(players[q], ranks, rank)
        && players[q].invested == BetterInvested(players, ranks, rank);
    }
  }

  /** How the cap of the lost part grows with a layer. */
  lemma LostStep(players: seq<PotPlayer>, ranks: map<int, int>, p: nat, n: nat)
    requires p < |players| && NonNegative(players) && 0 < n <= |Levels(players)|
    ensures var levels, lost := Levels(players), LostPart(players, ranks, p);
      CapUpTo(players, lost, n) == CapUpTo(players, lost, n - 1)
        + if levels[n - 1] <= lost then Layer(players, LevelBefore(levels, n - 1), levels[n - 1]).amount else 0
  {
    var q := LostPartIsInvested(players, ranks, p);
    LevelStep(players, n);
    if LostPart(players, ranks, p) > 0 {
      CapStep(players, q, n);
    }
  }

  /** The n-th layer, seen from p: what it pays p and what it adds to p's cap and to the cap of p's lost part. */
  lemma LayerSplits(players: seq<PotPlayer>, ranks: map<int, int>, p: nat, n: nat)
      returns (paid: int, own: int, lost: int)
    requires DistinctSeats(players) && NonNegative(players) && ContendersRanked(players, ranks)
    requires p < |players| && Contends(players[p].status) && 0 < n <= |Levels(players)|
    ensures CollectedFrom(players, ranks, players[p].seatNo, n) ==
      CollectedFrom(players, ranks, players[p].seatNo, n - 1) + paid
    ensures CapUpTo(players, players[p].invested, n) == CapUpTo(players, players[p].invested, n - 1) + own
    ensures CapUpTo(players, LostPart(players, ranks, p), n) ==
      CapUpTo(players, LostPart(players, ranks, p), n - 1) + lost
    ensures 0 <= paid <= own - lost && (Untied(players, ranks, p) ==> paid == own - lost)
  {
    var levels := Levels(players);
    var previous, level := LevelBefore(levels, n - 1), levels[n - 1];
    var pot := Layer(players, previous, level);
    KeptLayer(players, ranks, players[p].seatNo, n);
    CapStep(players, p, n);
    LostStep(players, ranks, p, n);
    LayerPays(players, ranks, p, n);
    LayerIsDifference(players, n);
    LevelStep(players, n);
    paid := Paid(Allocate(pot, ranks), players[p].seatNo);
    own := if level <= players[p].invested then pot.amount else 0;
    lost := if level <= LostPart(players, ranks, p) then pot.amount else 0;
    if level <= StakeAbove(players, ranks, p) {
      LayerLost(players, ranks, p, previous, level);
    } else if level <= players[p].invested && Untied(players, ranks, p) {
      LayerWon(players, ranks, p, previous, level);
    }
  }

  lemma {:induction false} CollectedBetween(players: seq<PotPlayer>, ranks: map<int, int>, p: nat, n: nat)
      returns (collected: int, own: int, lost: int)
    requires DistinctSeats(players) && NonNegative(players) && ContendersRanked(players, ranks)
    requires p < |players| && Contends(players[p].status) && n <= |Levels(players)|
    ensures collected == CollectedFrom(players, ranks, players[p].seatNo, n)
    ensures own == CapUpTo(players, players[p].invested, n) && lost == CapUpTo(players, LostPart(players, ranks, p), n)
    ensures 0 <= collected <= own - lost && (Untied(players, ranks, p) ==> collected == own - lost)
  {
    if n == 0 {
      var q := LostPartIsInvested(players, ranks, p);
      NothingCollected(players, ranks, players[p].seatNo, players[p].invested);
      NothingCollected(players, ranks, players[p].seatNo, LostPart(players, ranks, p));
      collected, own, lost := 0, 0, 0;
    } else {
      var c, o, l := CollectedBetween(players, ranks, p, n - 1);
      collected, own, lost := LayerAdds(players, ranks, p, n, c, o, l);
    }
  }

  lemma LayerAdds(players: seq<PotPlayer>, ranks: map<int, int>, p: nat, n: nat, c: int, o: int, l: int)
      returns (collected: int, own: int, lost: int)
    requires DistinctSeats(players) && NonNegative(players) && ContendersRanked(players, ranks)
    requires p < |players| && Contends(players[p].status) && 0 < n <= |Levels(players)|
    requires c == CollectedFrom(players, ranks, players[p].seatNo, n - 1)
    requires o == CapUpTo(players, players[p].invested, n - 1)
    requires l == CapUpTo(players, LostPart(players, ranks, p), n - 1)
    requires 0 <= c <= o - l && (Untied(players, ranks, p) ==> c == o - l)
    ensures collected == CollectedFrom(players, ranks, players[p].seatNo, n)
    ensures own == CapUpTo(players, players[p].invested, n) && lost == CapUpTo(players, LostPart(players, ranks, p), n)
    ensures 0 <= collected <= own - lost && (Untied(players, ranks, p) ==> collected == own - lost)
  {
    var paid, more, less := LayerSplits(players, ranks, p, n);
    collected, own, lost := c + paid, o + more, l + less;
  }

  /** Whatever the investments, statuses and ranks: a contender collects at most what everybody put in between the
      better hands' stake and the own investment, and exactly that when no other contender holds an equal hand. */
  lemma CollectsExactly(players: seq<PotPlayer>, ranks: map<int, int>, p: nat)
    requires DistinctSeats(players) && NonNegative(players) && ContendersRanked(players, ranks)
    requires p < |players| && Contends(players[p].status)
    ensures var collected := Collected(AllocateAll(SidePots(players), ranks), players[p].seatNo);
      var most := Matched(players, players[p].invested) - Matched(players, LostPart(players, ranks, p));
      0 <= collected <= most && (Untied(players, ranks, p) ==> collected == most)
  {
    var collected, own, lost := CollectedBetween(players, ranks, p, |Levels(players)|);
    var q := LostPartIsInvested(players, ranks, p);
    LargestIsBelowLastLevel(players);
    LargestContenderBounds(players);
  }
}
