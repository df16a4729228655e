/** How a hand ends, told from its last state: what everybody holds, why, and
    what the winner lines say about it. */
module HandEnds {
  import opened Sequences
  import opened Deck
  import Evaluator
  import opened Pots
  import opened PotPayouts
  import opened Engine
  import opened TurnOrder
  import opened HandInvariant
  import opened HandAccounting
  import opened HandStep
  import opened HandRuns
  import opened HandStart
  import opened HandTheorems
  import opened EvaluatorBest
  import opened EvaluatorLadder

  // ---------- the last player standing ----------

  /** What player p had not put in. */
  function Unspent(p: Player): int {
    p.startHandChips - p.investedThisHand
  }

  /** Everybody else has folded: player w takes all that was put in, the others keep what they had left, and the winner
      info says so. */
  ghost predicate LastStanding(r: GameState, w: nat) {
    && w < |r.players| && r.winnerInfo.Some? && Contends(r.players[w].status)
    && r.players[w].chips == Unspent(r.players[w]) + TotalInvested(r.players)
    && (forall k :: 0 <= k < |r.players| && k != w ==>
      !Contends(r.players[k].status) && r.players[k].chips == Unspent(r.players[k]))
    && r.winnerInfo.value.totalPot == TotalInvested(r.players) && r.winnerInfo.value.board == r.board
    && r.winnerInfo.value.pots == [PotResult(TotalInvested(r.players), [r.players[w].seatNo],
      [WinnerLine(r.players[w].seatNo, TotalInvested(r.players), None)])]
  }

  lemma {:induction false} OneContender(players: seq<Player>, w: nat, k: nat)
    requires ContenderCount(players) == 1 && w < |players| && k < |players| && w != k && Contends(players[w].status)
    ensures !Contends(players[k].status)
  {
    var n := |players| - 1;
    ContenderFound(players[..n]);
    if Contends(players[n].status) {
      var other := if w == n then k else w;
      assert players[..n][other] == players[other];
    } else if w < n && k < n {
      OneContender(players[..n], w, k);
    }
  }

  lemma FoldEndPays(m: GameState, r: GameState)
    requires Underway(m) && FoldEnd(m, r)
    ensures LastStanding(r, FirstContender(m.players))
  {
    UnderwayFacts(m);
    var w := FirstContender(m.players);
    assert Invested(r.players) == Invested(m.players);
    forall k | 0 <= k < |m.players| && k != w
      ensures !Contends(r.players[k].status) && r.players[k].chips == Unspent(r.players[k])
    {
      OneContender(m.players, w, k);
      assert PlayerOk(m.players[k]);
    }
    assert PlayerOk(m.players[w]);
  }

  // ---------- a showdown ----------

  /** What the seven cards of p and the board are worth. */
  function Score(p: Player, board: seq<Card>): int {
    var hand := Evaluator.EvaluateSeven(p.holeCards + board);
    if hand.Ok? then hand.value.rankValue else -1
  }

  /** The largest investment of a contender with a better hand, 0 when there is none. */
  function BetterStake(players: seq<Player>, board: seq<Card>, score: int): int {
    if players == [] then 0
    else
      var p, rest := players[|players| - 1], BetterStake(players[..|players| - 1], board, score);
      if Contends(p.status) && Score(p, board) > score then Max(rest, p.investedThisHand) else rest
  }

  /** No other contender holds an equal hand. */
  ghost predicate Alone(r: GameState, i: nat)
    requires i < |r.players|
  {
    forall k :: 0 <= k < |r.players| && k != i && Contends(r.players[k].status) ==>
      Score(r.players[k], r.board) != Score(r.players[i], r.board)
  }

  /** The most player i can be paid: what everybody put in up to the own investment, less what everybody put in up to
      the best stake of a better hand. */
  function Due(r: GameState, i: nat): int
    requires i < |r.players|
  {
    var p, view := r.players[i], PotView(r.players);
    Matched(view, p.investedThisHand)
      - Matched(view, Min(p.investedThisHand, BetterStake(r.players, r.board, Score(p, r.board))))
  }

  ghost predicate ShowdownPaid(r: GameState, i: nat)
    requires i < |r.players|
  {
    var p := r.players[i];
    if !Contends(p.status) then p.chips == Unspent(p)
    else Unspent(p) <= p.chips <= Unspent(p) + Due(r, i) && (Alone(r, i) ==> p.chips == Unspent(p) + Due(r, i))
  }

  /** The map holds this player's own hand. */
  ghost predicate Holds(hands: map<int, Evaluator.EvaluatedHand>, p: Player, board: seq<Card>) {
    p.seatNo in hands && Evaluator.EvaluateSeven(p.holeCards + board) == Ok(hands[p.seatNo])
  }

  /** It holds every contender's own hand. */
  ghost predicate OwnHands(players: seq<Player>, board: seq<Card>, hands: map<int, Evaluator.EvaluatedHand>) {
    forall i :: 0 <= i < |players| && Contends(players[i].status) ==> Holds(hands, players[i], board)
  }

  /** Evaluating one player more adds that player's hand or nothing. */
  lemma LastEvaluated(players: seq<Player>, board: seq<Card>, hands: map<int, Evaluator.EvaluatedHand>)
      returns (rest: map<int, Evaluator.EvaluatedHand>)
    requires players != [] && EvaluateContenders(players, board) == Ok(hands)
    ensures EvaluateContenders(players[..|players| - 1], board) == Ok(rest)
    ensures Contends(players[|players| - 1].status) ==> Holds(hands, players[|players| - 1], board)
    ensures forall s :: s in rest && s != players[|players| - 1].seatNo ==> s in hands && hands[s] == rest[s]
  {
    rest := EvaluateContenders(players[..|players| - 1], board).value;
  }

  lemma StillHolds(rest: map<int, Evaluator.EvaluatedHand>, hands: map<int, Evaluator.EvaluatedHand>, p: Player,
      board: seq<Card>)
    requires Holds(rest, p, board) && p.seatNo in hands && hands[p.seatNo] == rest[p.seatNo]
    ensures Holds(hands, p, board)
  {
  }

  lemma {:induction false} HoldsOwn(players: seq<Player>, board: seq<Card>, hands: map<int, Evaluator.EvaluatedHand>,
      i: nat)
    requires SeatsAscend(players) && EvaluateContenders(players, board) == Ok(hands)
    requires i < |players| && Contends(players[i].status)
    ensures Holds(hands, players[i], board)
  {
    var n := |players| - 1;
    var rest := LastEvaluated(players, board, hands);
    if i < n {
      assert players[..n][i] == players[i] && players[i].seatNo != players[n].seatNo;
      HoldsOwn(players[..n], board, rest, i);
      StillHolds(rest, hands, players[i], board);
    }
  }

  lemma ContendersHoldOwn(players: seq<Player>, board: seq<Card>)
    requires SeatsAscend(players) && EvaluateContenders(players, board).Ok?
    ensures OwnHands(players, board, EvaluateContenders(players, board).value)
  {
    forall i | 0 <= i < |players| && Contends(players[i].status)
      ensures Holds(EvaluateContenders(players, board).value, players[i], board)
    {
      HoldsOwn(players, board, EvaluateContenders(players, board).value, i);
    }
  }

  lemma HeldScore(players: seq<Player>, board: seq<Card>, hands: map<int, Evaluator.EvaluatedHand>, i: nat)
    requires OwnHands(players, board, hands) && i < |players| && Contends(players[i].status)
    ensures players[i].seatNo in RankValues(hands)
    ensures RankValues(hands)[players[i].seatNo] == Score(players[i], board)
  {
  }

  lemma {:induction false} BetterStakeIs(players: seq<Player>, board: seq<Card>,
      hands: map<int, Evaluator.EvaluatedHand>, score: int)
    requires OwnHands(players, board, hands)
    ensures BetterStake(players, board, score) == BetterInvested(PotView(players), RankValues(hands), score)
  {
    if players != [] {
      var n := |players| - 1;
      OwnHandsBefore(players, board, hands);
      BetterStakeIs(players[..n], board, hands, score);
      if Contends(players[n].status) {
        HeldScore(players, board, hands, n);
      }
      LastInvested(players, RankValues(hands), score);
    }
  }

  lemma OwnHandsBefore(players: seq<Player>, board: seq<Card>, hands: map<int, Evaluator.EvaluatedHand>)
    requires players != [] && OwnHands(players, board, hands)
    ensures OwnHands(players[..|players| - 1], board, hands)
  {
  }

  lemma LastInvested(players: seq<Player>, ranks: map<int, int>, rank: int)
    requires players != []
    ensures var p, rest := players[|players| - 1], BetterInvested(PotView(players[..|players| - 1]), ranks, rank);
      BetterInvested(PotView(players), ranks, rank) ==
        if Contends(p.status) && p.seatNo in ranks && ranks[p.seatNo] > rank then Max(rest, p.investedThisHand)
        else rest
  {
    assert PotView(players)[..|players| - 1] == PotView(players[..|players| - 1]);
  }

  lemma AloneIsUntied(r: GameState, hands: map<int, Evaluator.EvaluatedHand>, i: nat)
    requires OwnHands(r.players, r.board, hands) && i < |r.players| && Contends(r.players[i].status)
    requires ContendersRanked(PotView(r.players), RankValues(hands)) && Alone(r, i)
    ensures Untied(PotView(r.players), RankValues(hands), i)
  {
    var view, ranks := PotView(r.players), RankValues(hands);
    assert ContenderSeat(view, view[i].seatNo);
    forall s | ContenderSeat(view, s) && s != view[i].seatNo ensures ranks[s] != ranks[view[i].seatNo] {
      var k :| 0 <= k < |view| && view[k].seatNo == s && Contends(view[k].status);
      assert Contends(r.players[k].status);
    }
  }

  lemma ShowdownPaysDue(m: GameState, r: GameState, i: nat)
    requires SeatsAscend(m.players) && AllOk(m.players) && ShowdownEnd(m, r) && i < |m.players|
    ensures |r.players| == |m.players| && ShowdownPaid(r, i)
  {
    var hands := EvaluateContenders(m.players, FullBoard(m).board).value;
    var view, ranks := PotView(m.players), RankValues(hands);
    ViewIsFine(m.players, hands);
    OnlyChipsPaid(m, r);
    HandsUnpaid(r.players, m.players, r.board);
    ContendersHoldOwn(r.players, r.board);
    assert PlayerOk(m.players[i]) && r.players[i] == m.players[i].(chips := r.players[i].chips);
    if Contends(m.players[i].status) {
      CollectsExactly(view, ranks, i);
      BetterStakeIs(r.players, r.board, hands, Score(r.players[i], r.board));
      if Alone(r, i) {
        AloneIsUntied(r, hands, i);
      }
    } else {
      ShowdownStacks(m, r, i);
    }
  }

  // ---------- the winner lines ----------

  /** What the lines pay a seat. */
  function LinesPay(lines: seq<WinnerLine>, seat: int): int {
    if lines == [] then 0
    else
      var last := lines[|lines| - 1];
      LinesPay(lines[..|lines| - 1], seat) + (if last.seatNo == seat then last.amountWon else 0)
  }

  /** What the pots' lines pay a seat. */
  function PotsPay(pots: seq<PotResult>, seat: int): int {
    if pots == [] then 0 else PotsPay(pots[..|pots| - 1], seat) + LinesPay(pots[|pots| - 1].winners, seat)
  }

  function PotAmounts(pots: seq<PotResult>): seq<int> {
    seq(|pots|, k requires 0 <= k < |pots| => pots[k].amount)
  }

  lemma {:induction false} LinesPayAllocated(a: Allocation, hands: map<int, Evaluator.EvaluatedHand>, seat: int, j: nat)
    requires NoDup(a.winners) && j <= |a.winners|
    ensures LinesPay(WinnerLines(a, hands)[..j], seat) == if seat in a.winners[..j] then Lookup(a.payouts, seat) else 0
  {
    if j > 0 {
      var lines := WinnerLines(a, hands);
      assert lines[..j][..j - 1] == lines[..j - 1] && a.winners[..j] == a.winners[..j - 1] + [a.winners[j - 1]];
      LinesPayAllocated(a, hands, seat, j - 1);
    }
  }

  lemma LinesPayShare(pot: SidePot, ranks: map<int, int>, hands: map<int, Evaluator.EvaluatedHand>, seat: int)
    requires NoDup(pot.eligible)
    ensures LinesPay(WinnerLines(Allocate(pot, ranks), hands), seat) == Paid(Allocate(pot, ranks), seat)
  {
    var a := Allocate(pot, ranks);
    WinnersNoDup(pot, ranks);
    PayoutKeys(pot.amount, a.winners, |a.winners|);
    assert a.winners[..|a.winners|] == a.winners;
    assert WinnerLines(a, hands)[..|a.winners|] == WinnerLines(a, hands);
    LinesPayAllocated(a, hands, seat, |a.winners|);
  }

  lemma {:induction false} PotsPayCollected(pots: seq<SidePot>, ranks: map<int, int>,
      hands: map<int, Evaluator.EvaluatedHand>, seat: int)
    requires forall k :: 0 <= k < |pots| ==> NoDup(pots[k].eligible)
    ensures PotsPay(PotResults(AllocateAll(pots, ranks), hands), seat) == Collected(AllocateAll(pots, ranks), seat)
  {
    if pots != [] {
      var n := |pots| - 1;
      var all := AllocateAll(pots, ranks);
      assert all[..n] == AllocateAll(pots[..n], ranks);
      assert PotResults(all, hands)[..n] == PotResults(all[..n], hands);
      PotsPayCollected(pots[..n], ranks, hands, seat);
      LinesPayShare(pots[n], ranks, hands, seat);
    }
  }

  /** The line's seat contends, and the line shows that player's own best hand. */
  ghost predicate LineShows(r: GameState, line: WinnerLine) {
    exists i :: 0 <= i < |r.players| && Shown(r, line, i)
  }

  ghost predicate Shown(r: GameState, line: WinnerLine, i: nat)
    requires i < |r.players|
  {
    var p := r.players[i];
    && line.seatNo == p.seatNo && Contends(p.status)
    && Evaluator.EvaluateSeven(p.holeCards + r.board).Ok? && line.hand ==
      Some(Evaluator.EvaluateSeven(p.holeCards + r.board).value)
  }

  /** The winner info of a showdown adds up: its pots carry all that was put in up to the largest contender's
      investment, its lines pay every seat exactly what the stacks show, and each line shows its player's own hand. */
  ghost predicate InfoRight(r: GameState) {
    && r.winnerInfo.Some? && r.winnerInfo.value.board == r.board && |r.board| == 5
    && r.winnerInfo.value.totalPot == TotalInvested(r.players)
    && var pots := r.winnerInfo.value.pots;
       && Sum(PotAmounts(pots)) == Matched(PotView(r.players), LargestContender(PotView(r.players)))
       && (forall i :: 0 <= i < |r.players| ==>
         r.players[i].chips == Unspent(r.players[i]) + PotsPay(pots, r.players[i].seatNo))
       && (forall k, l :: 0 <= k < |pots| && 0 <= l < |pots[k].winners| ==> LineShows(r, pots[k].winners[l]))
  }

  lemma PotsOfContenders(players: seq<PotPlayer>, k: nat)
    requires DistinctSeats(players) && k < |SidePots(players)|
    ensures NoDup(SidePots(players)[k].eligible)
    ensures forall s :: s in SidePots(players)[k].eligible ==> ContenderSeat(players, s)
  {
    var below, level := PotIsLayer(players, |Levels(players)|, k);
    LayerSeats(players, below, level);
  }

  lemma LinesShowHands(r: GameState, pot: SidePot, hands: map<int, Evaluator.EvaluatedHand>, l: nat)
    requires OwnHands(r.players, r.board, hands)
    requires forall s :: s in pot.eligible ==> ContenderSeat(PotView(r.players), s)
    requires l < |WinnerLines(Allocate(pot, RankValues(hands)), hands)|
    ensures LineShows(r, WinnerLines(Allocate(pot, RankValues(hands)), hands)[l])
  {
    var ranks := RankValues(hands);
    var a := Allocate(pot, ranks);
    var best := BestRank(pot.eligible, ranks);
    SortMembers(HoldersOf(pot.eligible, ranks, best), IntLeq, a.winners[l]);
    HoldersContents(pot.eligible, ranks, best, a.winners[l]);
    var view := PotView(r.players);
    var i :| 0 <= i < |view| && view[i].seatNo == a.winners[l] && Contends(view[i].status);
    assert Contends(r.players[i].status);
    assert Shown(r, WinnerLines(a, hands)[l], i);
  }

  lemma ResultAmounts(pots: seq<SidePot>, ranks: map<int, int>, hands: map<int, Evaluator.EvaluatedHand>)
    ensures PotAmounts(PotResults(AllocateAll(pots, ranks), hands)) == Amounts(pots)
  {
  }

  lemma StackIsPaid(m: GameState, r: GameState, i: nat)
    requires SeatsAscend(m.players) && AllOk(m.players) && ShowdownEnd(m, r) && i < |m.players|
    ensures |r.players| == |m.players| && r.winnerInfo.Some?
    ensures r.players[i].chips == Unspent(r.players[i]) + PotsPay(r.winnerInfo.value.pots, r.players[i].seatNo)
  {
    var hands := EvaluateContenders(m.players, FullBoard(m).board).value;
    var view, ranks := PotView(m.players), RankValues(hands);
    ViewIsFine(m.players, hands);
    OnlyChipsPaid(m, r);
    forall k | 0 <= k < |SidePots(view)| ensures NoDup(SidePots(view)[k].eligible) {
      PotsOfContenders(view, k);
    }
    PotsPayCollected(SidePots(view), ranks, hands, m.players[i].seatNo);
    assert PlayerOk(m.players[i]) && r.players[i] == m.players[i].(chips := r.players[i].chips);
  }

  lemma InfoLines(m: GameState, r: GameState, k: nat, l: nat)
    requires SeatsAscend(m.players) && AllOk(m.players) && ShowdownEnd(m, r) && r.winnerInfo.Some?
    requires k < |r.winnerInfo.value.pots| && l < |r.winnerInfo.value.pots[k].winners|
    ensures LineShows(r, r.winnerInfo.value.pots[k].winners[l])
  {
    var hands := EvaluateContenders(m.players, FullBoard(m).board).value;
    ViewIsFine(m.players, hands);
    OnlyChipsPaid(m, r);
    HandsUnpaid(r.players, m.players, r.board);
    ContendersHoldOwn(r.players, r.board);
    PotsOfContenders(PotView(m.players), k);
    LinesShowHands(r, SidePots(PotView(m.players))[k], hands, l);
  }

  lemma InfoAddsUp(m: GameState, r: GameState)
    requires SeatsAscend(m.players) && AllOk(m.players) && ShowdownEnd(m, r)
    ensures InfoRight(r)
  {
    var hands := EvaluateContenders(m.players, FullBoard(m).board).value;
    ViewIsFine(m.players, hands);
    OnlyChipsPaid(m, r);
    assert Invested(r.players) == Invested(m.players);
    PotTotal(PotView(m.players));
    ResultAmounts(SidePots(PotView(m.players)), RankValues(hands), hands);
    forall i | 0 <= i < |r.players|
      ensures r.players[i].chips == Unspent(r.players[i]) + PotsPay(r.winnerInfo.value.pots, r.players[i].seatNo)
    {
      StackIsPaid(m, r, i);
    }
    forall k, l | 0 <= k < |r.winnerInfo.value.pots| && 0 <= l < |r.winnerInfo.value.pots[k].winners|
      ensures LineShows(r, r.winnerInfo.value.pots[k].winners[l])
    {
      InfoLines(m, r, k, l);
    }
  }

  // ---------- which pots, and who wins them ----------

  /** The pot is open to exactly the contenders who put in this much. */
  ghost predicate OpenFrom(r: GameState, pot: PotResult, level: int) {
    && SortedBy(pot.eligible, IntLeq)
    && forall i :: 0 <= i < |r.players| ==> (r.players[i].seatNo in pot.eligible <==>
      Contends(r.players[i].status) && r.players[i].investedThisHand >= level)
  }

  ghost predicate HasWinner(pot: PotResult, seat: int) {
    exists l :: 0 <= l < |pot.winners| && pot.winners[l].seatNo == seat
  }

  /** The pot is open to player i, and nobody it is open to holds a better hand. */
  ghost predicate Tops(r: GameState, pot: PotResult, i: nat)
    requires i < |r.players|
  {
    && r.players[i].seatNo in pot.eligible
    && forall j :: 0 <= j < |r.players| && r.players[j].seatNo in pot.eligible ==>
      Score(r.players[j], r.board) <= Score(r.players[i], r.board)
  }

  /** The pot is open from some investment on, and its winners are exactly the best hands it is open to. */
  ghost predicate PotShows(r: GameState, pot: PotResult) {
    && (exists level :: OpenFrom(r, pot, level))
    && forall i :: 0 <= i < |r.players| ==> (HasWinner(pot, r.players[i].seatNo) <==> Tops(r, pot, i))
  }

  ghost predicate PotsRight(r: GameState) {
    r.winnerInfo.Some? && forall k :: 0 <= k < |r.winnerInfo.value.pots| ==> PotShows(r, r.winnerInfo.value.pots[k])
  }

  lemma LinesAreWinners(a: Allocation, hands: map<int, Evaluator.EvaluatedHand>, amount: int, seat: int)
    ensures HasWinner(PotResult(amount, a.pot.eligible, WinnerLines(a, hands)), seat) <==> seat in a.winners
  {
    var lines := WinnerLines(a, hands);
    assert |lines| == |a.winners|;
    if l :| 0 <= l < |a.winners| && a.winners[l] == seat {
      assert lines[l].seatNo == seat;
    }
  }

  /** Seats the pot is open to carry their players' own scores. */
  ghost predicate Scored(r: GameState, eligible: seq<int>, ranks: map<int, int>) {
    && AllRanked(eligible, ranks)
    && (forall i :: 0 <= i < |r.players| && r.players[i].seatNo in eligible ==>
      ranks[r.players[i].seatNo] == Score(r.players[i], r.board))
    && forall s :: s in eligible ==> exists i :: 0 <= i < |r.players| && r.players[i].seatNo == s
  }

  lemma WinnersTop(r: GameState, pot: SidePot, ranks: map<int, int>, result: PotResult, i: nat)
    requires Scored(r, pot.eligible, ranks) && pot.eligible != [] && i < |r.players| && result.eligible == pot.eligible
    ensures r.players[i].seatNo in Winners(pot, ranks) <==> Tops(r, result, i)
  {
    WinnersAreBest(pot, ranks);
    var seat := r.players[i].seatNo;
    if Tops(r, result, i) {
      forall t | t in pot.eligible ensures ranks[t] <= ranks[seat] {
        var j :| 0 <= j < |r.players| && r.players[j].seatNo == t;
      }
    }
  }

  lemma ContenderAt(players: seq<Player>, seat: int) returns (i: nat)
    requires ContenderSeat(PotView(players), seat)
    ensures i < |players| && players[i].seatNo == seat && Contends(players[i].status)
  {
    var view := PotView(players);
    i :| 0 <= i < |view| && view[i].seatNo == seat && Contends(view[i].status);
  }

  lemma EligibleScored(r: GameState, hands: map<int, Evaluator.EvaluatedHand>, eligible: seq<int>)
    requires OwnHands(r.players, r.board, hands) && SeatsAscend(r.players)
    requires forall s :: s in eligible ==> ContenderSeat(PotView(r.players), s)
    ensures Scored(r, eligible, RankValues(hands))
  {
    forall s | s in eligible
      ensures s in RankValues(hands) && exists i :: 0 <= i < |r.players| && r.players[i].seatNo == s
    {
      var i := ContenderAt(r.players, s);
      HeldScore(r.players, r.board, hands, i);
    }
    forall i | 0 <= i < |r.players| && r.players[i].seatNo in eligible
      ensures RankValues(hands)[r.players[i].seatNo] == Score(r.players[i], r.board)
    {
      var k := ContenderAt(r.players, r.players[i].seatNo);
      assert i == k;
      HeldScore(r.players, r.board, hands, i);
    }
  }

  lemma ResultWinners(r: GameState, hands: map<int, Evaluator.EvaluatedHand>, pot: SidePot, result: PotResult, i: nat)
    requires Scored(r, pot.eligible, RankValues(hands)) && pot.eligible != [] && i < |r.players|
    requires result == PotResult(pot.amount, pot.eligible, WinnerLines(Allocate(pot, RankValues(hands)), hands))
    ensures HasWinner(result, r.players[i].seatNo) <==> Tops(r, result, i)
  {
    LinesAreWinners(Allocate(pot, RankValues(hands)), hands, pot.amount, r.players[i].seatNo);
    WinnersTop(r, pot, RankValues(hands), result, i);
  }

  lemma ResultOpens(r: GameState, k: nat, result: PotResult) returns (level: int)
    requires DistinctSeats(PotView(r.players)) && k < |SidePots(PotView(r.players))|
    requires result.eligible == SidePots(PotView(r.players))[k].eligible
    ensures OpenFrom(r, result, level) && result.eligible != []
  {
    var view := PotView(r.players);
    level := EligibleExactly(view, k);
    forall i | 0 <= i < |r.players|
      ensures r.players[i].seatNo in result.eligible <==>
        Contends(r.players[i].status) && r.players[i].investedThisHand >= level
    {
      assert view[i].seatNo in result.eligible <==> Qualifies(view[i], level);
    }
  }

  lemma ResultShows(r: GameState, hands: map<int, Evaluator.EvaluatedHand>, k: nat, pot: SidePot, result: PotResult)
    requires OwnHands(r.players, r.board, hands) && SeatsAscend(r.players) && DistinctSeats(PotView(r.players))
    requires k < |SidePots(PotView(r.players))| && pot == SidePots(PotView(r.players))[k]
    requires result == PotResult(pot.amount, pot.eligible, WinnerLines(Allocate(pot, RankValues(hands)), hands))
    ensures PotShows(r, result)
  {
    PotsOfContenders(PotView(r.players), k);
    var level := ResultOpens(r, k, result);
    EligibleScored(r, hands, pot.eligible);
    forall i | 0 <= i < |r.players| ensures HasWinner(result, r.players[i].seatNo) <==> Tops(r, result, i) {
      ResultWinners(r, hands, pot, result, i);
    }
  }

  lemma InfoPots(m: GameState, r: GameState)
    requires SeatsAscend(m.players) && AllOk(m.players) && ShowdownEnd(m, r)
    ensures PotsRight(r)
  {
    var hands := EvaluateContenders(m.players, FullBoard(m).board).value;
    ViewIsFine(m.players, hands);
    OnlyChipsPaid(m, r);
    HandsUnpaid(r.players, m.players, r.board);
    ContendersHoldOwn(r.players, r.board);
    forall k | 0 <= k < |r.winnerInfo.value.pots| ensures PotShows(r, r.winnerInfo.value.pots[k]) {
      ResultShows(r, hands, k, SidePots(PotView(r.players))[k], r.winnerInfo.value.pots[k]);
    }
  }

  // ---------- over every run ----------

  /** Every contender shows two cards. */
  ghost predicate HoldTwo(r: GameState) {
    forall i :: 0 <= i < |r.players| && Contends(r.players[i].status) ==> |r.players[i].holeCards| == 2
  }

  /** A finished hand has paid everybody right and says so. */
  ghost predicate EndsRight(r: GameState) {
    && r.winnerInfo.Some?
    && match r.winnerInfo.value.reason
       case AllOthersFolded => exists w: nat :: LastStanding(r, w)
       case ShowdownReached =>
         && InfoRight(r) && PotsRight(r) && HoldTwo(r) && NonNegative(PotView(r.players))
         && forall i :: 0 <= i < |r.players| ==> ShowdownPaid(r, i)
  }

  lemma EndIsRight(m: GameState, a: nat, r: GameState)
    requires Mid(m, a) && (FoldEnd(m, r) || ShowdownEnd(m, r))
    ensures EndsRight(r)
  {
    UnderwayFacts(m);
    if FoldEnd(m, r) {
      FoldEndPays(m, r);
    } else {
      InfoAddsUp(m, r);
      InfoPots(m, r);
      PlayersStayFine(m, r);
      OnlyChipsPaid(m, r);
      forall i | 0 <= i < |r.players| ensures ShowdownPaid(r, i) {
        ShowdownPaysDue(m, r, i);
      }
    }
  }

  lemma PlayersStayFine(m: GameState, r: GameState)
    requires AllOk(m.players) && SeatsAscend(m.players) && ShowdownEnd(m, r)
    ensures HoldTwo(r) && NonNegative(PotView(r.players))
  {
    OnlyChipsPaid(m, r);
    forall i | 0 <= i < |r.players|
      ensures r.players[i].investedThisHand >= 0
      ensures Contends(r.players[i].status) ==> |r.players[i].holeCards| == 2
    {
      assert PlayerOk(m.players[i]) && r.players[i] == m.players[i].(chips := r.players[i].chips);
    }
  }

  lemma StepEndsRight(s: GameState, input: Input)
    requires Sound(s) && (s.status == HandFinished ==> EndsRight(s))
    ensures OnAStreet(s) && (Step(s, input).status == HandFinished ==> EndsRight(Step(s, input)))
  {
    if Inv(s) && ApplyGameAction(s, input).Ok? {
      var t: nat :| TurnAt(s, t);
      StepOutcome(s, t, input);
      if !Inv(Step(s, input)) {
        EndIsRight(Mutated(s, t, input.move, input.amount), t, Step(s, input));
      }
    }
  }

  lemma DealEndsRight(setup: Setup)
    requires ValidSetup(setup) && Deal(setup).status == HandFinished
    ensures EndsRight(Deal(setup))
  {
    var d, m, bp := OpeningState(setup);
    NormalizeOutcome(m, bp);
    EndIsRight(m, bp, Deal(setup));
  }

  /** Whatever is played, a hand that ends pays everybody right, to the chip where no hands tie, and its winner info
      agrees with the stacks. */
  lemma {:induction false} RunEndsRight(setup: Setup, inputs: seq<Input>)
    requires ValidSetup(setup) && Run(Deal(setup), inputs).status == HandFinished
    ensures EndsRight(Run(Deal(setup), inputs))
  {
    if inputs == [] {
      DealEndsRight(setup);
    } else {
      var n := |inputs| - 1;
      var before := Run(Deal(setup), inputs[..n]);
      if before.status == HandFinished {
        RunEndsRight(setup, inputs[..n]);
      }
      StepEndsRight(before, inputs[n]);
    }
  }

  // ---------- the better category takes the money ----------

  lemma {:induction false} HoleIncluded(players: seq<Player>, n: nat, k: nat)
    requires k < n <= |players|
    ensures multiset(players[k].holeCards) <= multiset(HoleCardsUpTo(players, n))
  {
    if k < n - 1 {
      HoleIncluded(players, n - 1, k);
    }
  }

  /** With a duplicate-free deck no two of a player's seven cards are the same. */
  lemma SevenAreDistinct(setup: Setup, inputs: seq<Input>, k: nat)
    requires ValidSetup(setup) && NoDup(setup.deck) && k < |Run(Deal(setup), inputs).players|
    ensures NoDup(Run(Deal(setup), inputs).players[k].holeCards + Run(Deal(setup), inputs).board)
  {
    var r := Run(Deal(setup), inputs);
    NoCardLost(setup, inputs);
    HoleIncluded(r.players, |r.players|, k);
    SubsetNoDup(r.players[k].holeCards + r.board, setup.deck);
  }

  /** Every contender's seven cards make the category of this place in the list. */
  ghost predicate Show(r: GameState, places: seq<nat>) {
    && |places| == |r.players|
    && forall k :: 0 <= k < |r.players| && Contends(r.players[k].status) ==>
      SevenMakes(r.players[k].holeCards + r.board, places[k])
  }

  lemma {:induction false} NoBetterStake(players: seq<Player>, board: seq<Card>, score: int)
    requires forall k :: 0 <= k < |players| && Contends(players[k].status) ==> Score(players[k], board) <= score
    ensures BetterStake(players, board, score) == 0
  {
    if players != [] {
      NoBetterStake(players[..|players| - 1], board, score);
    }
  }

  lemma LaterScoresMore(a: Player, b: Player, board: seq<Card>, i: nat, j: nat)
    requires |a.holeCards| == |b.holeCards| == 2 && |board| == 5
    requires NoDup(a.holeCards + board) && NoDup(b.holeCards + board) && i < j
    requires SevenMakes(a.holeCards + board, i) && SevenMakes(b.holeCards + board, j)
    ensures Score(a, board) < Score(b, board)
  {
    LaterSevenWins(a.holeCards + board, b.holeCards + board, i, j);
  }

  ghost predicate AtShowdown(r: GameState) {
    r.status == HandFinished && r.winnerInfo.Some? && r.winnerInfo.value.reason == ShowdownReached
  }

  /** Contender i's category comes later in the list than every other contender's. */
  ghost predicate Leads(r: GameState, places: seq<nat>, i: nat) {
    && Show(r, places) && i < |r.players| && Contends(r.players[i].status)
    && forall k :: 0 <= k < |r.players| && k != i && Contends(r.players[k].status) ==> places[k] < places[i]
  }

  /** Contender i's seven cards are worth more than every other contender's. */
  ghost predicate ScoresBest(r: GameState, i: nat) {
    && i < |r.players| && Contends(r.players[i].status)
    && forall k :: 0 <= k < |r.players| && k != i && Contends(r.players[k].status) ==>
      Score(r.players[k], r.board) < Score(r.players[i], r.board)
  }

  lemma LeaderScores(setup: Setup, inputs: seq<Input>, r: GameState, places: seq<nat>, i: nat)
    requires ValidSetup(setup) && NoDup(setup.deck) && r == Run(Deal(setup), inputs)
    requires HoldTwo(r) && |r.board| == 5 && Leads(r, places, i)
    ensures ScoresBest(r, i)
  {
    SevenAreDistinct(setup, inputs, i);
    forall k | 0 <= k < |r.players| && k != i && Contends(r.players[k].status)
      ensures Score(r.players[k], r.board) < Score(r.players[i], r.board)
    {
      SevenAreDistinct(setup, inputs, k);
      LaterScoresMore(r.players[k], r.players[i], r.board, places[k], places[i]);
    }
  }

  lemma BestTakes(r: GameState, i: nat)
    requires ScoresBest(r, i) && ShowdownPaid(r, i) && NonNegative(PotView(r.players))
    ensures r.players[i].chips == Unspent(r.players[i]) + Matched(PotView(r.players), r.players[i].investedThisHand)
  {
    NoBetterStake(r.players, r.board, Score(r.players[i], r.board));
    MatchedNothing(PotView(r.players));
    assert PotView(r.players)[i].invested >= 0;
    assert Alone(r, i);
  }

  /** At the showdown of any run from a duplicate-free deck, a contender whose seven cards make a later category than
      every other contender's, a full house against flushes say, takes all that was put in up to the own investment. */
  lemma LaterCategoryTakes(setup: Setup, inputs: seq<Input>, r: GameState, places: seq<nat>, i: nat)
    requires ValidSetup(setup) && NoDup(setup.deck) && r == Run(Deal(setup), inputs) && AtShowdown(r)
    requires Leads(r, places, i)
    ensures r.players[i].chips == Unspent(r.players[i]) + Matched(PotView(r.players), r.players[i].investedThisHand)
  {
    RunEndsRight(setup, inputs);
    LeaderScores(setup, inputs, r, places, i);
    BestTakes(r, i);
  }
}
