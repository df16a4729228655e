/** Two hands side by side. Hands that agree on stacks, bets and statuses take
    every decision alike, whatever their hole cards, and whatever flags they
    carry for players who have to act anyway. */
module HandRelations {
  import opened Sequences
  import opened Deck
  import Evaluator
  import opened Pots
  import opened Engine
  import opened TurnOrder
  import opened HandInvariant
  import opened HandAccounting
  import opened HandStep
  import opened HandRuns

  // ---------- tables ----------

  /** The same player up to the acted flag and the hole cards. */
  predicate CoreAlike(p: Player, q: Player) {
    p.(hasActed := q.hasActed, holeCards := q.holeCards) == q
  }

  /** Flags may differ only where they do not matter: the player cannot act, or has to act because of the bet. */
  predicate FlagsAgree(p: Player, q: Player, bet: int) {
    p.hasActed == q.hasActed || !CanAct(p) || p.investedThisStreet < bet
  }

  ghost predicate TablesAlike(ps: seq<Player>, qs: seq<Player>, bet: int) {
    |ps| == |qs| && forall i :: 0 <= i < |ps| ==> CoreAlike(ps[i], qs[i]) && FlagsAgree(ps[i], qs[i], bet)
  }

  lemma SameMoney(ps: seq<Player>, qs: seq<Player>)
    requires |ps| == |qs| && forall i :: 0 <= i < |ps| ==> CoreAlike(ps[i], qs[i])
    ensures TotalInvested(ps) == TotalInvested(qs) && PotView(ps) == PotView(qs)
    ensures ContenderCount(ps) == ContenderCount(qs) && (NobodyCanBet(ps) <==> NobodyCanBet(qs))
    ensures SeatsOf(ps) == SeatsOf(qs)
  {
    assert Invested(ps) == Invested(qs);
    SameContenders(ps, qs);
    forall i | 0 <= i < |ps| ensures ps[i].status == qs[i].status && ps[i].chips == qs[i].chips {}
  }

  lemma SameFirstContender(ps: seq<Player>, qs: seq<Player>)
    requires |ps| == |qs| && forall i :: 0 <= i < |ps| ==> CoreAlike(ps[i], qs[i])
    ensures FirstContender(ps) == FirstContender(qs)
  {
    forall i | 0 <= i < |ps| ensures ps[i].status == qs[i].status {}
  }

  lemma SameNeeds(ps: seq<Player>, qs: seq<Player>, bet: int)
    requires TablesAlike(ps, qs, bet) && forall i :: 0 <= i < |ps| ==> ps[i].investedThisStreet <= bet
    ensures forall i :: 0 <= i < |ps| ==> (NeedsAction(ps[i], bet) <==> NeedsAction(qs[i], bet))
    ensures IsBettingRoundComplete(ps, bet) <==> IsBettingRoundComplete(qs, bet)
  {
    forall i | 0 <= i < |ps|
      ensures NeedsAction(ps[i], bet) <==> NeedsAction(qs[i], bet)
      ensures CanAct(ps[i]) <==> CanAct(qs[i])
      ensures CanAct(ps[i]) ==>
        (ps[i].hasActed && ps[i].investedThisStreet == bet <==> qs[i].hasActed && qs[i].investedThisStreet == bet)
    {
      assert CoreAlike(ps[i], qs[i]) && FlagsAgree(ps[i], qs[i], bet);
    }
  }

  lemma {:induction false} SameTurn(ps: seq<Player>, qs: seq<Player>, bet: int, cursor: int, steps: nat)
    requires |ps| == |qs| && SeatsOf(ps) == SeatsOf(qs)
    requires forall i :: 0 <= i < |ps| ==> (NeedsAction(ps[i], bet) <==> NeedsAction(qs[i], bet))
    ensures FirstActionableFrom(ps, bet, cursor, steps) == FirstActionableFrom(qs, bet, cursor, steps)
    decreases steps
  {
    if steps > 0 && ps != [] {
      var next := NextSeat(SeatsOf(ps), cursor);
      SamePosition(ps, qs, next);
      SameTurn(ps, qs, bet, next, steps - 1);
    }
  }

  lemma {:induction false} SamePosition(ps: seq<Player>, qs: seq<Player>, seat: int)
    requires |ps| == |qs| && forall i :: 0 <= i < |ps| ==> SeatsOf(ps)[i] == SeatsOf(qs)[i]
    ensures PositionOf(ps, seat) == PositionOf(qs, seat)
  {
    if ps != [] {
      assert SeatsOf(ps)[0] == ps[0].seatNo && SeatsOf(qs)[0] == qs[0].seatNo;
      forall i | 0 <= i < |ps| - 1 ensures SeatsOf(ps[1..])[i] == SeatsOf(qs[1..])[i] {
        assert SeatsOf(ps)[i + 1] == SeatsOf(qs)[i + 1];
      }
      SamePosition(ps[1..], qs[1..], seat);
    }
  }

  // ---------- one mutation ----------

  /** What else two tables share: the hole cards, or the flags. */
  datatype Mode = SharedCards | SharedFlags

  ghost predicate Shares(mode: Mode, ps: seq<Player>, qs: seq<Player>) {
    |ps| == |qs| && forall i :: 0 <= i < |ps| ==>
      if mode == SharedCards then ps[i].holeCards == qs[i].holeCards else ps[i].hasActed == qs[i].hasActed
  }

  ghost predicate Together(mode: Mode, ps: seq<Player>, qs: seq<Player>, bet: int) {
    TablesAlike(ps, qs, bet) && Shares(mode, ps, qs)
  }

  /** The actor's rows change in step. */
  lemma ReplaceAlike(mode: Mode, ps: seq<Player>, qs: seq<Player>, bet: int, bet': int, i: nat, p: Player, q: Player)
    requires Together(mode, ps, qs, bet) && bet <= bet' && i < |ps|
    requires CoreAlike(p, q) && p.hasActed == q.hasActed
    requires p.holeCards == q.holeCards <==> ps[i].holeCards == qs[i].holeCards
    ensures Together(mode, ps[i := p], qs[i := q], bet')
  {
  }

  lemma MarkAlike(mode: Mode, ps: seq<Player>, qs: seq<Player>, bet: int, i: nat)
    requires Together(mode, ps, qs, bet) && i < |ps|
    ensures Together(mode, MarkFullAggression(ps, i), MarkFullAggression(qs, i), bet)
  {
  }

  /** The same chips leave both stacks. */
  lemma InvestAlike(p: Player, q: Player, amount: int)
    requires CoreAlike(p, q)
    ensures InvestChips(p, amount).Ok? <==> InvestChips(q, amount).Ok?
    ensures InvestChips(p, amount).Err? ==> InvestChips(p, amount).error == InvestChips(q, amount).error
    ensures InvestChips(p, amount).Ok? ==> var p', q' := InvestChips(p, amount).value, InvestChips(q, amount).value;
      && CoreAlike(p', q') && p'.holeCards == p.holeCards && q'.holeCards == q.holeCards
      && p'.hasActed == p.hasActed && q'.hasActed == q.hasActed
  {
  }

  ghost predicate BettingAlike(mode: Mode, b: Betting, c: Betting) {
    && Together(mode, b.players, c.players, b.currentBet)
    && b.currentBet == c.currentBet && b.minRaise == c.minRaise
    && (mode == SharedFlags ==> b.lastAggressor == c.lastAggressor)
  }

  /** A called or short amount: the actor has acted, the bet may grow. */
  lemma PassiveAlike(mode: Mode, b: Betting, c: Betting, i: nat, amount: int, bet: int)
    requires BettingAlike(mode, b, c) && i < |b.players| && b.currentBet <= bet && InvestChips(b.players[i], amount).Ok?
    ensures InvestChips(c.players[i], amount).Ok?
    ensures BettingAlike(mode,
      b.(players := SetActed(b.players[i := InvestChips(b.players[i], amount).value], i), currentBet := bet),
      c.(players := SetActed(c.players[i := InvestChips(c.players[i], amount).value], i), currentBet := bet))
  {
    var p, q := InvestChips(b.players[i], amount).value, InvestChips(c.players[i], amount).value;
    InvestAlike(b.players[i], c.players[i], amount);
    ReplaceAlike(mode, b.players, c.players, b.currentBet, bet, i, p.(hasActed := true), q.(hasActed := true));
    assert SetActed(b.players[i := p], i) == b.players[i := p.(hasActed := true)];
    assert SetActed(c.players[i := q], i) == c.players[i := q.(hasActed := true)];
  }

  lemma FullAlike(mode: Mode, b: Betting, c: Betting, i: nat, amount: int, bet: int, minRaise: int)
    requires BettingAlike(mode, b, c) && i < |b.players| && b.currentBet <= bet && InvestChips(b.players[i], amount).Ok?
    ensures InvestChips(c.players[i], amount).Ok?
    ensures BettingAlike(mode,
      Betting(MarkFullAggression(b.players[i := InvestChips(b.players[i], amount).value], i), bet, minRaise,
        Some(b.players[i].seatNo)),
      Betting(MarkFullAggression(c.players[i := InvestChips(c.players[i], amount).value], i), bet, minRaise,
        Some(c.players[i].seatNo)))
  {
    var p, q := InvestChips(b.players[i], amount).value, InvestChips(c.players[i], amount).value;
    InvestAlike(b.players[i], c.players[i], amount);
    var ps, qs := b.players[i := p.(hasActed := true)], c.players[i := q.(hasActed := true)];
    ReplaceAlike(mode, b.players, c.players, b.currentBet, bet, i, p.(hasActed := true), q.(hasActed := true));
    MarkAlike(mode, ps, qs, bet, i);
    assert MarkFullAggression(ps, i) == MarkFullAggression(b.players[i := p], i);
    assert MarkFullAggression(qs, i) == MarkFullAggression(c.players[i := q], i);
  }

  ghost predicate OutcomesAlike(mode: Mode, m: Result<Moved, EngineError>, n: Result<Moved, EngineError>) {
    && (m.Err? <==> n.Err?) && (m.Err? ==> m.error == n.error)
    && (m.Ok? ==> m.value.amount == n.value.amount && BettingAlike(mode, m.value.betting, n.value.betting))
  }

  lemma FoldAlike(mode: Mode, b: Betting, c: Betting, i: nat, move: Move, amount: Option<int>)
    requires BettingAlike(mode, b, c) && i < |b.players| && (move == Fold || move == Check || move == Call)
    ensures OutcomesAlike(mode, ApplyMove(b, i, move, amount), ApplyMove(c, i, move, amount))
  {
    var p, q := b.players[i], c.players[i];
    assert CoreAlike(p, q);
    if move == Fold {
      ReplaceAlike(mode, b.players, c.players, b.currentBet, b.currentBet, i, p.(status := Folded, hasActed := true),
        q.(status := Folded, hasActed := true));
    } else if move == Check {
      ReplaceAlike(mode, b.players, c.players, b.currentBet, b.currentBet, i, p.(hasActed := true),
        q.(hasActed := true));
    } else if b.currentBet > p.investedThisStreet {
      var callAmount := Min(p.chips, b.currentBet - p.investedThisStreet);
      InvestAlike(p, q, callAmount);
      if InvestChips(p, callAmount).Ok? {
        PassiveAlike(mode, b, c, i, callAmount, b.currentBet);
      }
    }
  }

  lemma BetAlike(mode: Mode, b: Betting, c: Betting, i: nat, amount: Option<int>)
    requires BettingAlike(mode, b, c) && i < |b.players| && 0 <= b.players[i].investedThisStreet
    ensures OutcomesAlike(mode, ApplyMove(b, i, Bet, amount), ApplyMove(c, i, Bet, amount))
  {
    var p := b.players[i];
    assert CoreAlike(p, c.players[i]);
    if amount.Some? && 0 < amount.value <= p.chips && b.currentBet == 0 {
      FullAlike(mode, b, c, i, amount.value, p.investedThisStreet + amount.value, amount.value);
    }
  }

  /** An acceptable raise total, full or short. */
  predicate GoodRaise(b: Betting, p: Player, amount: Option<int>) {
    && amount.Some? && 0 < b.currentBet < amount.value <= p.investedThisStreet + p.chips
    && (amount.value - b.currentBet >= b.minRaise || amount.value - p.investedThisStreet == p.chips)
  }

  /** An acceptable raise, full or short, in terms of the chips it adds. */
  lemma GoodRaiseIs(b: Betting, i: nat, amount: Option<int>)
    requires i < |b.players| && b.players[i].investedThisStreet <= b.currentBet && GoodRaise(b, b.players[i], amount)
    ensures var p := b.players[i]; var added := amount.value - p.investedThisStreet;
      var invested := InvestChips(p, added);
      && invested.Ok?
      && ApplyMove(b, i, Raise, amount) == (
        if amount.value - b.currentBet >= b.minRaise then
          Ok(Moved(Betting(MarkFullAggression(b.players[i := invested.value], i), amount.value,
            amount.value - b.currentBet, Some(p.seatNo)), added))
        else Ok(Moved(b.(players := SetActed(b.players[i := invested.value], i), currentBet := amount.value), added)))
  {
  }

  lemma GoodRaiseAlike(mode: Mode, b: Betting, c: Betting, i: nat, amount: Option<int>)
    requires BettingAlike(mode, b, c) && i < |b.players| && b.players[i].investedThisStreet <= b.currentBet
    requires GoodRaise(b, b.players[i], amount)
    ensures OutcomesAlike(mode, ApplyMove(b, i, Raise, amount), ApplyMove(c, i, Raise, amount))
  {
    var p := b.players[i];
    assert CoreAlike(p, c.players[i]);
    GoodRaiseIs(b, i, amount);
    GoodRaiseIs(c, i, amount);
    var additional, raiseSize := amount.value - p.investedThisStreet, amount.value - b.currentBet;
    if raiseSize >= b.minRaise {
      FullAlike(mode, b, c, i, additional, amount.value, raiseSize);
    } else {
      PassiveAlike(mode, b, c, i, additional, amount.value);
    }
  }

  lemma RaiseAlike(mode: Mode, b: Betting, c: Betting, i: nat, amount: Option<int>)
    requires BettingAlike(mode, b, c) && i < |b.players| && b.players[i].investedThisStreet <= b.currentBet
    ensures OutcomesAlike(mode, ApplyMove(b, i, Raise, amount), ApplyMove(c, i, Raise, amount))
  {
    assert CoreAlike(b.players[i], c.players[i]);
    if GoodRaise(b, b.players[i], amount) {
      GoodRaiseAlike(mode, b, c, i, amount);
    }
  }

  lemma AllInAlike(mode: Mode, b: Betting, c: Betting, i: nat, amount: Option<int>)
    requires BettingAlike(mode, b, c) && i < |b.players|
    ensures OutcomesAlike(mode, ApplyMove(b, i, AllInMove, amount), ApplyMove(c, i, AllInMove, amount))
  {
    var p := b.players[i];
    assert CoreAlike(p, c.players[i]);
    if p.chips > 0 {
      var total := p.investedThisStreet + p.chips;
      if total > b.currentBet && (total == p.chips || total - b.currentBet >= b.minRaise) {
        FullAlike(mode, b, c, i, p.chips, total, Max(b.minRaise, total - b.currentBet));
      } else {
        PassiveAlike(mode, b, c, i, p.chips, Max(b.currentBet, total));
      }
    }
  }

  /** The same action is allowed on both tables or fails on both with the same error, and leaves them alike. */
  lemma MoveAlike(mode: Mode, b: Betting, c: Betting, i: nat, move: Move, amount: Option<int>)
    requires BettingAlike(mode, b, c) && i < |b.players| && 0 <= b.players[i].investedThisStreet <= b.currentBet
    ensures OutcomesAlike(mode, ApplyMove(b, i, move, amount), ApplyMove(c, i, move, amount))
  {
    match move
    case Bet => BetAlike(mode, b, c, i, amount);
    case Raise => RaiseAlike(mode, b, c, i, amount);
    case AllInMove => AllInAlike(mode, b, c, i, amount);
    case _ => FoldAlike(mode, b, c, i, move, amount);
  }

  // ---------- whole states ----------

  /** The same row up to what the move was called. */
  predicate EntryAlike(d: Entry, e: Entry) {
    d.(kind := e.kind) == e
  }

  /** The decks still promise the same board. */
  predicate SameBoardToCome(s: GameState, t: GameState) {
    && |s.board| == |t.board| <= 5
    && var k := 5 - |s.board|;
    |s.deck| >= k && |t.deck| >= k && s.deck[..k] == t.deck[..k]
  }

  ghost predicate SharesRest(mode: Mode, s: GameState, t: GameState) {
    match mode
    case SharedCards =>
      && s.deck == t.deck && |s.history| == |t.history|
      && forall k :: 0 <= k < |s.history| ==> EntryAlike(s.history[k], t.history[k])
    case SharedFlags =>
      s.lastAggressor == t.lastAggressor && s.history == t.history && SameBoardToCome(s, t)
  }

  /** Everything two alike states have in common. */
  ghost predicate Alike(mode: Mode, s: GameState, t: GameState) {
    && s.(deck := t.deck, lastAggressor := t.lastAggressor, players := t.players, history := t.history) == t
    && |s.players| == |t.players| && (forall i :: 0 <= i < |s.players| ==> CoreAlike(s.players[i], t.players[i]))
    && (s.status == Playing ==> TablesAlike(s.players, t.players, s.currentBet))
    && Shares(mode, s.players, t.players)
    && SharesRest(mode, s, t)
  }

  /** Two hands with different hole cards that both went to a showdown: only the payouts may differ. */
  ghost predicate BothShowdown(mode: Mode, s: GameState, t: GameState) {
    && mode == SharedFlags
    && s.status == HandFinished && t.status == HandFinished
    && s.winnerInfo.Some? && t.winnerInfo.Some?
    && s.winnerInfo.value.reason == ShowdownReached && t.winnerInfo.value.reason == ShowdownReached
    && s.board == t.board && s.pot == t.pot
  }

  lemma FoldEndAlike(mode: Mode, s: GameState, t: GameState)
    requires Alike(mode, s, t) && FirstContender(s.players) < |s.players|
    ensures FirstContender(t.players) == FirstContender(s.players)
    ensures Alike(mode, FinishByFold(s, FirstContender(s.players)), FinishByFold(t, FirstContender(t.players)))
  {
    SameFirstContender(s.players, t.players);
    var k := FirstContender(s.players);
    assert CoreAlike(s.players[k], t.players[k]);
  }

  lemma PotAlike(mode: Mode, s: GameState, t: GameState)
    requires Alike(mode, s, t)
    ensures Alike(mode, WithPot(s), WithPot(t))
  {
    SameMoney(s.players, t.players);
  }

  lemma TurnSetAlike(mode: Mode, s: GameState, t: GameState, turn: Option<int>)
    requires Alike(mode, s, t)
    ensures Alike(mode, s.(turn := turn), t.(turn := turn))
  {
  }

  lemma SameNextTurn(mode: Mode, s: GameState, t: GameState, from: int)
    requires Alike(mode, s, t) && s.status == Playing
    requires forall i :: 0 <= i < |s.players| ==> s.players[i].investedThisStreet <= s.currentBet
    ensures FirstActionableSeatAfter(s.players, s.currentBet, from) ==
      FirstActionableSeatAfter(t.players, t.currentBet, from)
  {
    SameMoney(s.players, t.players);
    SameNeeds(s.players, t.players, s.currentBet);
    SameTurn(s.players, t.players, s.currentBet, from, |s.players|);
  }

  lemma TurnAlike(mode: Mode, s: GameState, t: GameState, from: int)
    requires Alike(mode, s, t) && s.status == Playing
    requires forall i :: 0 <= i < |s.players| ==> s.players[i].investedThisStreet <= s.currentBet
    ensures Alike(mode, PassTurn(s, from), PassTurn(t, from))
  {
    SameNextTurn(mode, s, t, from);
    TurnSetAlike(mode, s, t, FirstActionableSeatAfter(s.players, s.currentBet, from));
  }

  lemma ResetAlike(mode: Mode, ps: seq<Player>, qs: seq<Player>)
    requires Shares(mode, ps, qs) && forall i :: 0 <= i < |ps| ==> CoreAlike(ps[i], qs[i])
    ensures Together(mode, ResetStreet(ps), ResetStreet(qs), 0)
  {
    forall i | 0 <= i < |ps| ensures CoreAlike(ResetStreet(ps)[i], ResetStreet(qs)[i]) {
      assert CoreAlike(ps[i], qs[i]);
    }
  }

  lemma SameBoardAfterDeal(s: GameState, t: GameState, count: nat)
    requires SameBoardToCome(s, t) && s.board == t.board && |s.board| + count <= 5
    ensures s.deck[..count] == t.deck[..count]
    ensures var k := 5 - |s.board| - count;
      |s.deck| - count >= k && |t.deck| - count >= k && s.deck[count..][..k] == t.deck[count..][..k]
  {
    var k := 5 - |s.board|;
    assert s.deck[..count] == s.deck[..k][..count] && t.deck[..count] == t.deck[..k][..count];
    assert s.deck[count..][..k - count] == s.deck[..k][count..] && t.deck[count..][..k - count] == t.deck[..k][count..];
  }

  lemma OpeningTurnAlike(ps: seq<Player>, qs: seq<Player>, seat: int)
    requires TablesAlike(ps, qs, 0) && forall i :: 0 <= i < |ps| ==> ps[i].investedThisStreet <= 0
    ensures FirstActionableSeatAfter(ps, 0, seat) == FirstActionableSeatAfter(qs, 0, seat)
  {
    SameMoney(ps, qs);
    SameNeeds(ps, qs, 0);
    SameTurn(ps, qs, 0, seat, |ps|);
  }

  lemma AdvanceSharesRest(mode: Mode, s: GameState, t: GameState)
    requires SharesRest(mode, s, t) && s.board == t.board && s.street == t.street
    requires BoardFits(s) && BoardFits(t) && s.street != River && s.street != Showdown
    ensures AdvanceStreet(s).Ok? && AdvanceStreet(t).Ok?
    ensures SharesRest(mode, AdvanceStreet(s).value, AdvanceStreet(t).value)
    ensures AdvanceStreet(s).value.board == AdvanceStreet(t).value.board
  {
    if mode == SharedFlags {
      SameBoardAfterDeal(s, t, CardsToDeal(s.street));
    }
  }

  lemma AdvanceAlike(mode: Mode, s: GameState, t: GameState)
    requires Alike(mode, s, t) && s.status == Playing && BoardFits(s) && BoardFits(t) && s.street != River
    requires s.street != Showdown
    ensures AdvanceStreet(s).Ok? && AdvanceStreet(t).Ok? && Alike(mode, AdvanceStreet(s).value, AdvanceStreet(t).value)
  {
    ResetAlike(mode, s.players, t.players);
    OpeningTurnAlike(ResetStreet(s.players), ResetStreet(t.players), s.dealerSeat);
    AdvanceSharesRest(mode, s, t);
  }

  // ---------- showdown ----------

  lemma {:induction false} SameHands(ps: seq<Player>, qs: seq<Player>, board: seq<Card>)
    requires |ps| == |qs|
    requires forall i :: 0 <= i < |ps| ==> CoreAlike(ps[i], qs[i]) && ps[i].holeCards == qs[i].holeCards
    ensures EvaluateContenders(ps, board) == EvaluateContenders(qs, board)
  {
    if ps != [] {
      var n := |ps| - 1;
      SameHands(ps[..n], qs[..n], board);
      assert CoreAlike(ps[n], qs[n]);
    }
  }

  lemma SettleAlike(s: GameState, t: GameState, hands: map<int, Evaluator.EvaluatedHand>)
    requires Alike(SharedCards, s, t)
    ensures Alike(SharedCards, SettleShowdown(s, hands), SettleShowdown(t, hands))
  {
    SameMoney(s.players, t.players);
    forall i | 0 <= i < |s.players|
      ensures CoreAlike(SettleShowdown(s, hands).players[i], SettleShowdown(t, hands).players[i])
    {
      assert CoreAlike(s.players[i], t.players[i]);
    }
  }

  lemma FullBoardAlike(s: GameState, t: GameState)
    requires Alike(SharedCards, s, t) && |s.board| <= 5 <= |s.board| + |s.deck|
    ensures Alike(SharedCards, FullBoard(s), FullBoard(t))
  {
  }

  lemma SameFullBoard(s: GameState, t: GameState)
    requires Alike(SharedFlags, s, t) && |s.board| <= 5 <= |s.board| + |s.deck| && 5 <= |t.board| + |t.deck|
    ensures FullBoard(s).board == FullBoard(t).board
  {
  }

  /** Enough to hold a showdown. */
  ghost predicate CanShowDown(s: GameState) {
    AllOk(s.players) && ContenderCount(s.players) >= 2 && |s.board| <= 5 <= |s.board| + |s.deck|
  }

  lemma ShowdownAlike(mode: Mode, s: GameState, t: GameState)
    requires Alike(mode, s, t) && CanShowDown(s) && CanShowDown(t)
    ensures FinishByShowdown(WithPot(s)).Ok? && FinishByShowdown(WithPot(t)).Ok?
    ensures var r, q := FinishByShowdown(WithPot(s)).value, FinishByShowdown(WithPot(t)).value;
      Alike(mode, r, q) || BothShowdown(mode, r, q)
  {
    match mode
    case SharedCards => SharedCardsShowdown(s, t);
    case SharedFlags => SharedFlagsShowdown(s, t);
  }

  lemma SharedCardsShowdown(s: GameState, t: GameState)
    requires Alike(SharedCards, s, t) && CanShowDown(s) && CanShowDown(t)
    ensures FinishByShowdown(WithPot(s)).Ok? && FinishByShowdown(WithPot(t)).Ok?
    ensures Alike(SharedCards, FinishByShowdown(WithPot(s)).value, FinishByShowdown(WithPot(t)).value)
  {
    ShowdownHappens(s);
    ShowdownHappens(t);
    PotAlike(SharedCards, s, t);
    var u, v := FullBoard(WithPot(s)), FullBoard(WithPot(t));
    FullBoardAlike(WithPot(s), WithPot(t));
    SameHands(u.players, v.players, u.board);
    SettleAlike(u, v, EvaluateContenders(u.players, u.board).value);
  }

  lemma SharedFlagsShowdown(s: GameState, t: GameState)
    requires Alike(SharedFlags, s, t) && CanShowDown(s) && CanShowDown(t)
    ensures FinishByShowdown(WithPot(s)).Ok? && FinishByShowdown(WithPot(t)).Ok?
    ensures BothShowdown(SharedFlags, FinishByShowdown(WithPot(s)).value, FinishByShowdown(WithPot(t)).value)
  {
    ShowdownHappens(s);
    ShowdownHappens(t);
    PotAlike(SharedFlags, s, t);
    SameFullBoard(WithPot(s), WithPot(t));
  }

  // ---------- one step ----------

  ghost predicate ResultsAlike(mode: Mode, r: Result<GameState, EngineError>, q: Result<GameState, EngineError>) {
    r.Ok? && q.Ok? && (Alike(mode, r.value, q.value) || BothShowdown(mode, r.value, q.value))
  }

  lemma UncontestedAlike(mode: Mode, m: GameState, n: GameState, a: nat)
    requires Mid(m, a) && Mid(n, a) && Alike(mode, m, n) && ContenderCount(m.players) == 1
    ensures ResultsAlike(mode, NormalizeAfterAction(m, m.players[a].seatNo),
      NormalizeAfterAction(n, m.players[a].seatNo))
  {
    PotAlike(mode, m, n);
    SameMoney(m.players, n.players);
    ContenderFound(m.players);
    FoldEndAlike(mode, WithPot(m), WithPot(n));
  }

  lemma NewStreetAlike(mode: Mode, m: GameState, n: GameState, a: nat)
    requires Mid(m, a) && Mid(n, a) && Alike(mode, m, n) && ContenderCount(m.players) >= 2
    requires ContenderCount(n.players) >= 2
    requires !NobodyCanBet(m.players) && IsBettingRoundComplete(m.players, m.currentBet) && m.street != River
    requires !NobodyCanBet(n.players) && IsBettingRoundComplete(n.players, n.currentBet) && n.street != River
    ensures ResultsAlike(mode, NormalizeAfterAction(m, m.players[a].seatNo),
      NormalizeAfterAction(n, m.players[a].seatNo))
  {
    var from := m.players[a].seatNo;
    NextStreetStarts(m, a);
    NextStreetStarts(n, a);
    NormalizeAdvances(m, from);
    NormalizeAdvances(n, from);
    PotAlike(mode, m, n);
    AdvanceAlike(mode, WithPot(m), WithPot(n));
  }

  lemma EndAlike(mode: Mode, m: GameState, n: GameState, from: int)
    requires Alike(mode, m, n) && CanShowDown(m) && CanShowDown(n) && m.street != Showdown
    requires NobodyCanBet(m.players) || (IsBettingRoundComplete(m.players, m.currentBet) && m.street == River)
    requires NobodyCanBet(n.players) || (IsBettingRoundComplete(n.players, n.currentBet) && n.street == River)
    ensures ResultsAlike(mode, NormalizeAfterAction(m, from), NormalizeAfterAction(n, from))
  {
    ShowdownHappens(m);
    ShowdownHappens(n);
    NormalizeEndsOrPasses(m, from);
    NormalizeEndsOrPasses(n, from);
    ShowdownAlike(mode, m, n);
  }

  lemma PassAlike(mode: Mode, m: GameState, n: GameState, from: int)
    requires Alike(mode, m, n) && CanShowDown(m) && CanShowDown(n) && m.street != Showdown && m.status == Playing
    requires !NobodyCanBet(m.players) && !IsBettingRoundComplete(m.players, m.currentBet)
    requires !NobodyCanBet(n.players) && !IsBettingRoundComplete(n.players, n.currentBet)
    requires forall i :: 0 <= i < |m.players| ==> m.players[i].investedThisStreet <= m.currentBet
    ensures ResultsAlike(mode, NormalizeAfterAction(m, from), NormalizeAfterAction(n, from))
  {
    PotAlike(mode, m, n);
    TurnAlike(mode, WithPot(m), WithPot(n), from);
  }

  /** The tests normalizeAfterAction makes come out the same on both tables. */
  lemma SameTests(mode: Mode, m: GameState, n: GameState)
    requires Underway(m) && Underway(n) && Alike(mode, m, n)
    ensures ContenderCount(m.players) == ContenderCount(n.players)
    ensures NobodyCanBet(m.players) == NobodyCanBet(n.players) && m.currentBet == n.currentBet && m.street == n.street
    ensures IsBettingRoundComplete(m.players, m.currentBet) == IsBettingRoundComplete(n.players, n.currentBet)
    ensures |m.players| == |n.players|
    ensures forall i :: 0 <= i < |m.players| ==> m.players[i].investedThisStreet <= m.currentBet
  {
    SameMoney(m.players, n.players);
    SameNeeds(m.players, n.players, m.currentBet);
  }

  lemma ContestedAlike(mode: Mode, m: GameState, n: GameState, a: nat)
    requires Mid(m, a) && Mid(n, a) && Alike(mode, m, n) && ContenderCount(m.players) >= 2
    ensures ResultsAlike(mode, NormalizeAfterAction(m, m.players[a].seatNo),
      NormalizeAfterAction(n, m.players[a].seatNo))
  {
    SameTests(mode, m, n);
    UnderwayFacts(m);
    UnderwayFacts(n);
    if !NobodyCanBet(m.players) && IsBettingRoundComplete(m.players, m.currentBet) && m.street != River {
      NewStreetAlike(mode, m, n, a);
    } else if NobodyCanBet(m.players) || IsBettingRoundComplete(m.players, m.currentBet) {
      EndAlike(mode, m, n, m.players[a].seatNo);
    } else {
      PassAlike(mode, m, n, m.players[a].seatNo);
    }
  }

  lemma NormalizeAlike(mode: Mode, m: GameState, n: GameState, a: nat)
    requires Mid(m, a) && Mid(n, a) && Alike(mode, m, n)
    ensures ResultsAlike(mode, NormalizeAfterAction(m, m.players[a].seatNo),
      NormalizeAfterAction(n, m.players[a].seatNo))
  {
    if ContenderCount(m.players) == 1 {
      UncontestedAlike(mode, m, n, a);
    } else {
      ContestedAlike(mode, m, n, a);
    }
  }

  lemma RecordAlike(mode: Mode, s: GameState, t: GameState, k: nat, move: Move, m: Moved, n: Moved)
    requires Alike(mode, s, t) && s.status == Playing && k < |s.players|
    requires BettingAlike(mode, m.betting, n.betting) && m.amount == n.amount
    ensures Alike(mode, Record(s, k, move, m), Record(t, k, move, n))
  {
    SameMoney(m.betting.players, n.betting.players);
    assert CoreAlike(s.players[k], t.players[k]);
  }

  /** The mutated states are alike. */
  lemma MutatedAlike(mode: Mode, s: GameState, t: GameState, k: nat, move: Move, amount: Option<int>)
    requires Inv(s) && Inv(t) && Alike(mode, s, t) && TurnAt(s, k) && TurnAt(t, k)
    ensures OutcomesAlike(mode, ApplyMove(BettingOf(s), k, move, amount), ApplyMove(BettingOf(t), k, move, amount))
    ensures ApplyMove(BettingOf(s), k, move, amount).Ok? ==>
      Alike(mode, Mutated(s, k, move, amount), Mutated(t, k, move, amount))
  {
    TurnFacts(s, k);
    MoveAlike(mode, BettingOf(s), BettingOf(t), k, move, amount);
    if ApplyMove(BettingOf(s), k, move, amount).Ok? {
      RecordAlike(mode, s, t, k, move, ApplyMove(BettingOf(s), k, move, amount).value,
        ApplyMove(BettingOf(t), k, move, amount).value);
    }
  }

  lemma SameTurnPosition(mode: Mode, s: GameState, t: GameState) returns (k: nat)
    requires Inv(s) && Inv(t) && Alike(mode, s, t)
    ensures TurnAt(s, k) && TurnAt(t, k)
  {
    k :| TurnAt(s, k);
    var l: nat :| TurnAt(t, l);
    assert CoreAlike(s.players[l], t.players[l]);
    PositionAt(s.players, k);
    PositionAt(s.players, l);
  }

  /** Why a request is refused in play. */
  function Refusal(s: GameState, k: nat, input: Input, move: Result<Moved, EngineError>): EngineError
    requires k < |s.players|
  {
    if PositionOf(s.players, input.seatNo) == |s.players| then SeatMissing
    else if input.seatNo != s.players[k].seatNo then NotYourTurn
    else if s.players[k].userId.Some? && input.userId.Some? && s.players[k].userId != input.userId then IdentityMismatch
    else if move.Err? then move.error
    else CannotAct
  }

  lemma RefusedFor(s: GameState, k: nat, input: Input)
    requires Inv(s) && TurnAt(s, k) && ApplyGameAction(s, input).Err?
    ensures ApplyGameAction(s, input).error ==
      Refusal(s, k, input, ApplyMove(BettingOf(s), k, input.move, input.amount))
  {
    TurnFacts(s, k);
    AcceptedIff(s, k, input);
  }

  lemma SameRefusal(mode: Mode, s: GameState, t: GameState, k: nat, input: Input)
    requires Inv(s) && Inv(t) && Alike(mode, s, t) && TurnAt(s, k) && TurnAt(t, k)
    requires ApplyGameAction(s, input).Err? && ApplyGameAction(t, input).Err?
    ensures ApplyGameAction(s, input).error == ApplyGameAction(t, input).error
  {
    RefusedFor(s, k, input);
    RefusedFor(t, k, input);
    MutatedAlike(mode, s, t, k, input.move, input.amount);
    SameMoney(s.players, t.players);
    RefusalAlike(s, t, k, input, ApplyMove(BettingOf(s), k, input.move, input.amount),
      ApplyMove(BettingOf(t), k, input.move, input.amount));
  }

  lemma RefusalAlike(s: GameState, t: GameState, k: nat, input: Input, m: Result<Moved, EngineError>,
      n: Result<Moved, EngineError>)
    requires |s.players| == |t.players| && k < |s.players| && CoreAlike(s.players[k], t.players[k])
    requires SeatsOf(s.players) == SeatsOf(t.players)
    requires (m.Err? <==> n.Err?) && (m.Err? ==> m.error == n.error)
    ensures Refusal(s, k, input, m) == Refusal(t, k, input, n)
  {
    SamePosition(s.players, t.players, input.seatNo);
  }

  lemma AcceptedAlike(mode: Mode, s: GameState, t: GameState, k: nat, input: Input)
    requires Inv(s) && Inv(t) && Alike(mode, s, t) && TurnAt(s, k) && TurnAt(t, k)
    ensures ApplyGameAction(s, input).Ok? <==> ApplyGameAction(t, input).Ok?
    ensures ApplyGameAction(s, input).Ok? ==> ResultsAlike(mode, ApplyGameAction(s, input), ApplyGameAction(t, input))
  {
    AcceptedIff(s, k, input);
    AcceptedIff(t, k, input);
    MutatedAlike(mode, s, t, k, input.move, input.amount);
    assert CoreAlike(s.players[k], t.players[k]);
    if ApplyGameAction(s, input).Ok? {
      MutatedIsMid(s, k, input.move, input.amount);
      MutatedIsMid(t, k, input.move, input.amount);
      NormalizeAlike(mode, Mutated(s, k, input.move, input.amount), Mutated(t, k, input.move, input.amount), k);
    }
  }

  /** Two alike hands in play answer the same request alike: both refuse it for the same reason, or both accept it and
      stay alike, or (with different cards) both go to a showdown. */
  lemma StepAlike(mode: Mode, s: GameState, t: GameState, input: Input)
    requires Inv(s) && Inv(t) && Alike(mode, s, t)
    ensures var r, q := ApplyGameAction(s, input), ApplyGameAction(t, input);
      && (r.Err? <==> q.Err?) && (r.Err? ==> r.error == q.error)
      && (r.Ok? ==> ResultsAlike(mode, r, q))
  {
    var k := SameTurnPosition(mode, s, t);
    AcceptedAlike(mode, s, t, k, input);
    if ApplyGameAction(s, input).Err? {
      SameRefusal(mode, s, t, k, input);
    }
  }

  // ---------- whole runs ----------

  /** Alike so far, or both finished with a showdown over different cards. */
  ghost predicate InStep(mode: Mode, s: GameState, t: GameState) {
    Alike(mode, s, t) || BothShowdown(mode, s, t)
  }

  lemma StepInStep(mode: Mode, s: GameState, t: GameState, input: Input)
    requires Sound(s) && Sound(t) && InStep(mode, s, t)
    ensures OnAStreet(s) && OnAStreet(t)
    ensures var r, q := ApplyGameAction(s, input), ApplyGameAction(t, input);
      && (Alike(mode, s, t) ==> (r.Err? <==> q.Err?) && (r.Err? ==> r.error == q.error))
      && InStep(mode, Step(s, input), Step(t, input))
  {
    if Inv(s) && Inv(t) && Alike(mode, s, t) {
      StepAlike(mode, s, t, input);
    } else {
      FinishedRefuses(s, input);
      FinishedRefuses(t, input);
      if Alike(mode, s, t) {
        SameMoney(s.players, t.players);
        SamePosition(s.players, t.players, input.seatNo);
      }
    }
  }

  lemma FinishedRefuses(s: GameState, input: Input)
    requires s.status == HandFinished
    ensures ApplyGameAction(s, input) ==
      Err(if PositionOf(s.players, input.seatNo) == |s.players| then SeatMissing else NotPlayable)
  {
  }

  /** Over any sequence of attempted actions the two hands stay in step. */
  lemma {:induction false} RunInStep(mode: Mode, s: GameState, t: GameState, inputs: seq<Input>)
    requires Sound(s) && Sound(t) && InStep(mode, s, t)
    ensures InStep(mode, Run(s, inputs), Run(t, inputs))
  {
    if inputs != [] {
      var n := |inputs| - 1;
      RunInStep(mode, s, t, inputs[..n]);
      StepInStep(mode, Run(s, inputs[..n]), Run(t, inputs[..n]), inputs[n]);
    }
  }
}
