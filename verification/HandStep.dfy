/** normalizeAfterAction, branch by branch, on any state an action can leave. */
module HandStep {
  import opened Sequences
  import opened Deck
  import Evaluator
  import opened Pots
  import opened Engine
  import opened TurnOrder
  import opened HandInvariant
  import opened HandAccounting

  /** What the mutation leaves for normalizeAfterAction, with the actor at position a. */
  ghost predicate Mid(s: GameState, a: nat) {
    && Underway(s) && a < |s.players|
    && OptionBehind(s.players, s.currentBet, a)
    && ContenderCount(s.players) >= 1
    && (SomeoneActive(s.players) ==> Covered(s.players))
  }

  /** All five board cards, from the top of the deck. */
  function FullBoard(s: GameState): GameState
    requires |s.board| <= 5 <= |s.board| + |s.deck|
  {
    var k := 5 - |s.board|;
    s.(deck := s.deck[k..], board := s.board + s.deck[..k])
  }

  ghost predicate FoldEnd(s: GameState, t: GameState) {
    && ContenderCount(s.players) == 1 && FirstContender(s.players) < |s.players|
    && t == FinishByFold(WithPot(s), FirstContender(s.players))
  }

  ghost predicate ShowdownEnd(s: GameState, t: GameState) {
    && ContenderCount(s.players) >= 2
    && |s.board| <= 5 <= |s.board| + |s.deck|
    && EvaluateContenders(s.players, FullBoard(s).board).Ok?
    && var hands := EvaluateContenders(s.players, FullBoard(s).board).value;
       HandsKnown(s.players, hands) && t == SettleShowdown(FullBoard(WithPot(s)), hands)
  }

  // ---------- showdown ----------

  lemma FullDeal(u: GameState)
    requires |u.board| <= 5 <= |u.board| + |u.deck|
    ensures DealBoardToFive(u) == Ok(FullBoard(u)) && DealBoardToFive(FullBoard(u)) == Ok(FullBoard(u))
  {
    BoardDealt(u);
    BoardDealt(FullBoard(u));
    assert FullBoard(FullBoard(u)) == FullBoard(u);
  }

  lemma FinishIs(u: GameState, t: GameState, hands: map<int, Evaluator.EvaluatedHand>)
    requires DealBoardToFive(u) == Ok(t) && EvaluateContenders(t.players, t.board) == Ok(hands)
    ensures FinishByShowdown(u) == Ok(SettleShowdown(t, hands))
  {
  }

  lemma ContendersKnown(players: seq<Player>, board: seq<Card>)
    requires AllOk(players) && |board| == 5
    ensures EvaluateContenders(players, board).Ok? && HandsKnown(players, EvaluateContenders(players, board).value)
  {
    forall i | 0 <= i < |players| && Contends(players[i].status) ensures |players[i].holeCards| == 2 {
      assert PlayerOk(players[i]);
    }
    ContendersEvaluated(players, board);
  }

  lemma ShowdownHappens(s: GameState)
    requires AllOk(s.players) && ContenderCount(s.players) >= 2 && |s.board| <= 5 <= |s.board| + |s.deck|
    ensures FinishByShowdown(WithPot(s)).Ok? && ShowdownEnd(s, FinishByShowdown(WithPot(s)).value)
    ensures DealBoardToFive(WithPot(s)) == Ok(FullBoard(WithPot(s)))
    ensures FinishByShowdown(FullBoard(WithPot(s))) == FinishByShowdown(WithPot(s))
  {
    var u := WithPot(s);
    var full := FullBoard(u);
    FullDeal(u);
    ContendersKnown(full.players, full.board);
    var hands := EvaluateContenders(full.players, full.board).value;
    FinishIs(u, full, hands);
    FinishIs(full, full, hands);
  }

  lemma UnderwayFacts(s: GameState)
    requires Underway(s)
    ensures AllOk(s.players) && |s.board| <= 5 <= |s.board| + |s.deck|
  {
  }

  /** Somebody who has not put everything in is ACTIVE. */
  lemma BettorIsActive(players: seq<Player>) returns (i: nat)
    requires AllOk(players) && !NobodyCanBet(players)
    ensures i < |players| && CanAct(players[i])
  {
    i :| 0 <= i < |players| && Contends(players[i].status) && !(players[i].status == AllIn || players[i].chips == 0);
    assert PlayerOk(players[i]);
  }

  // ---------- next turn ----------

  /** An unfinished betting round has a next player, so the hand stays in the invariant. */
  lemma NextTurn(s: GameState, a: nat)
    requires Mid(s, a) && ContenderCount(s.players) >= 2
    requires !IsBettingRoundComplete(s.players, s.currentBet)
    ensures Inv(PassTurn(WithPot(s), s.players[a].seatNo))
  {
    var x :| 0 <= x < |s.players| && CanAct(s.players[x])
      && !(s.players[x].hasActed && s.players[x].investedThisStreet == s.currentBet);
    assert NeedsAction(s.players[x], s.currentBet);
    var t := NearestActs(s.players, s.currentBet, a);
    OptionMovesOn(s.players, s.currentBet, a, t);
    var next := PassTurn(WithPot(s), s.players[a].seatNo);
    assert SomeoneActive(s.players);
    assert TurnAt(next, t);
  }

  // ---------- next street ----------

  lemma {:induction false} SameContenders(before: seq<Player>, after: seq<Player>)
    requires |before| == |after| && forall i :: 0 <= i < |before| ==> before[i].status == after[i].status
    ensures ContenderCount(before) == ContenderCount(after)
  {
    if before != [] {
      SameContenders(before[..|before| - 1], after[..|after| - 1]);
    }
  }

  lemma SameCover(before: seq<Player>, after: seq<Player>)
    requires |before| == |after| && Covered(before)
    requires forall i :: 0 <= i < |before| ==>
      before[i].status == after[i].status && before[i].investedThisHand == after[i].investedThisHand
    ensures Covered(after)
  {
    forall f | 0 <= f < |after| ensures CoveredAt(after, f) {
      var c := CoveredBy(before, f);
      CoverWith(after, f, c);
    }
  }

  /** After a complete round everyone ACTIVE has the same, largest investment: the next street starts level. */
  lemma ResetKeepsTable(players: seq<Player>, bet: int)
    requires TableOk(players, bet) && IsBettingRoundComplete(players, bet)
    ensures TableOk(ResetStreet(players), 0)
  {
    var reset := ResetStreet(players);
    assert reset[0].investedThisStreet == 0;
    forall i | 0 <= i < |reset| ensures PlayerOk(reset[i]) {
      assert PlayerOk(players[i]);
    }
    forall i, j | 0 <= i < |reset| && 0 <= j < |reset| && reset[i].status == Active
      ensures Before(reset[j]) <= Before(reset[i])
    {
      assert PlayerOk(players[i]) && CanAct(players[i]);
      assert players[i].investedThisStreet == bet;
      assert Before(players[j]) <= Before(players[i]);
    }
  }

  lemma AdvanceDeals(s: GameState)
    requires BoardFits(s) && s.street != River && s.street != Showdown
    ensures AdvanceStreet(s).Ok? && BoardFits(AdvanceStreet(s).value) && AdvanceStreet(s).value.street != Showdown
  {
  }

  /** A reset table still has its turn to give: the seat after the dealer among those who can act. */
  lemma FirstTurnOfStreet(players: seq<Player>, dealerSeat: int, x: nat) returns (t: nat)
    requires SeatsAscend(players) && SeatTaken(players, dealerSeat)
    requires x < |players| && NeedsAction(players[x], 0)
    ensures t < |players| && NeedsAction(players[t], 0)
    ensures FirstActionableSeatAfter(players, 0, dealerSeat) == Some(players[t].seatNo)
  {
    var k :| 0 <= k < |players| && players[k].seatNo == dealerSeat;
    t := NearestActs(players, 0, k);
  }

  lemma ResetKeepsMoney(players: seq<Player>)
    requires Covered(players)
    ensures Covered(ResetStreet(players)) && TotalInvested(ResetStreet(players)) == TotalInvested(players)
    ensures ContenderCount(ResetStreet(players)) == ContenderCount(players)
  {
    SameContenders(players, ResetStreet(players));
    SameCover(players, ResetStreet(players));
    assert Invested(ResetStreet(players)) == Invested(players);
  }

  lemma ResetKeepsSeat(players: seq<Player>, seat: int)
    requires SeatTaken(players, seat)
    ensures SeatTaken(ResetStreet(players), seat)
  {
    var k :| 0 <= k < |players| && players[k].seatNo == seat;
    assert ResetStreet(players)[k].seatNo == seat;
  }

  lemma NextStreetUnderway(s: GameState, r: GameState)
    requires Underway(s) && s.street != River && IsBettingRoundComplete(s.players, s.currentBet)
    requires AdvanceStreet(WithPot(s)) == Ok(r)
    ensures Underway(r)
  {
    AdvanceDeals(WithPot(s));
    ResetKeepsTable(s.players, s.currentBet);
    ResetKeepsSeat(s.players, s.dealerSeat);
  }

  lemma AdvanceResult(s: GameState, r: GameState)
    requires AdvanceStreet(WithPot(s)) == Ok(r)
    ensures r.players == ResetStreet(s.players) && r.currentBet == 0
    ensures r.turn == FirstActionableSeatAfter(r.players, 0, s.dealerSeat)
  {
  }

  lemma NextStreetTurn(s: GameState, r: GameState)
    requires Underway(s) && AdvanceStreet(WithPot(s)) == Ok(r) && !NobodyCanBet(s.players)
    ensures exists t: nat :: TurnAt(r, t)
  {
    UnderwayFacts(s);
    AdvanceResult(s, r);
    var t := ResetTurn(s.players, s.dealerSeat);
    NoBetNoOption(r.players, t);
    assert TurnAt(r, t);
  }

  lemma NoBetNoOption(players: seq<Player>, t: nat)
    requires t < |players|
    ensures OptionAtTurn(players, 0, t)
  {
  }

  lemma ResetTurn(players: seq<Player>, dealerSeat: int) returns (t: nat)
    requires AllOk(players) && SeatsAscend(players) && SeatTaken(players, dealerSeat) && !NobodyCanBet(players)
    ensures var reset := ResetStreet(players);
      && t < |reset| && NeedsAction(reset[t], 0)
      && FirstActionableSeatAfter(reset, 0, dealerSeat) == Some(reset[t].seatNo)
  {
    var x := BettorIsActive(players);
    ResetKeepsSeat(players, dealerSeat);
    t := FirstTurnOfStreet(ResetStreet(players), dealerSeat, x);
  }

  lemma NextStreetStarts(s: GameState, a: nat)
    requires Mid(s, a) && ContenderCount(s.players) >= 2 && s.street != River
    requires !NobodyCanBet(s.players) && IsBettingRoundComplete(s.players, s.currentBet)
    ensures AdvanceStreet(WithPot(s)).Ok?
    ensures Inv(AdvanceStreet(WithPot(s)).value) && AdvanceStreet(WithPot(s)).value.turn.Some?
  {
    AdvanceDeals(WithPot(s));
    var r := AdvanceStreet(WithPot(s)).value;
    NextStreetUnderway(s, r);
    NextStreetTurn(s, r);
    assert Covered(s.players) by {
      UnderwayFacts(s);
      var x := BettorIsActive(s.players);
      assert SomeoneActive(s.players);
    }
    ResetKeepsMoney(s.players);
  }

  // ---------- all branches together ----------

  lemma NormalizeEndsOrPasses(s: GameState, from: int)
    requires s.street != Showdown && ContenderCount(s.players) >= 2
    requires NobodyCanBet(s.players) || !IsBettingRoundComplete(s.players, s.currentBet) || s.street == River
    requires |s.board| <= 5 <= |s.board| + |s.deck| && DealBoardToFive(WithPot(s)) == Ok(FullBoard(WithPot(s)))
    requires FinishByShowdown(FullBoard(WithPot(s))) == FinishByShowdown(WithPot(s))
    ensures NormalizeAfterAction(s, from) ==
      if NobodyCanBet(s.players) || IsBettingRoundComplete(s.players, s.currentBet) then FinishByShowdown(WithPot(s))
      else Ok(PassTurn(WithPot(s), from))
  {
  }

  lemma NormalizeAdvances(s: GameState, from: int)
    requires s.street != Showdown && s.street != River && ContenderCount(s.players) >= 2
    requires !NobodyCanBet(s.players) && IsBettingRoundComplete(s.players, s.currentBet)
    requires AdvanceStreet(WithPot(s)).Ok? && AdvanceStreet(WithPot(s)).value.turn.Some?
    ensures NormalizeAfterAction(s, from) == AdvanceStreet(WithPot(s))
  {
  }

  /** From any state an action leaves, the hand goes on in the invariant, ends with the last player standing, or ends
      in a showdown. */
  lemma NormalizeOutcome(s: GameState, a: nat)
    requires Mid(s, a)
    ensures var r := NormalizeAfterAction(s, s.players[a].seatNo);
      r.Ok? && (Inv(r.value) || FoldEnd(s, r.value) || ShowdownEnd(s, r.value))
  {
    var from := s.players[a].seatNo;
    if ContenderCount(s.players) == 1 {
      ContenderFound(s.players);
      assert FoldEnd(s, NormalizeAfterAction(s, from).value);
    } else if !NobodyCanBet(s.players) && IsBettingRoundComplete(s.players, s.currentBet) && s.street != River {
      NextStreetStarts(s, a);
      NormalizeAdvances(s, from);
    } else {
      UnderwayFacts(s);
      ShowdownHappens(s);
      NormalizeEndsOrPasses(s, from);
      if !NobodyCanBet(s.players) && !IsBettingRoundComplete(s.players, s.currentBet) {
        NextTurn(s, a);
      }
    }
  }
}
