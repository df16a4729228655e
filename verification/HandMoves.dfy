/** What each action costs and does, and what comes after it, told from the
    request and the state it meets. */
module HandMoves {
  import opened Sequences
  import opened Pots
  import opened Engine
  import opened TurnOrder
  import opened HandInvariant
  import opened HandAccounting
  import opened HandStep
  import opened HandRuns
  import opened HandProgress
  import opened HandTheorems
  import opened HandRules

  // ---------- the table of moves ----------

  /** Which requests a player p on turn may make when the bet and the minimum raise are these. */
  predicate Allowed(p: Player, bet: int, minRaise: int, move: Move, amount: Option<int>) {
    var stack := p.investedThisStreet + p.chips;
    match move
    case Fold => true
    case Check => p.investedThisStreet == bet
    case Call => p.investedThisStreet < bet
    case Bet => bet == 0 && amount.Some? && 1 <= amount.value <= p.chips
    case Raise => bet > 0 && amount.Some? && bet < amount.value <= stack
      && (amount.value - bet >= minRaise || amount.value == stack)
    case AllInMove => true
  }

  /** What the request costs p. */
  function Price(p: Player, bet: int, move: Move, amount: Option<int>): int {
    match move
    case Fold => 0
    case Check => 0
    case Call => Min(p.chips, bet - p.investedThisStreet)
    case Bet => amount.GetOr(0)
    case Raise => amount.GetOr(0) - p.investedThisStreet
    case AllInMove => p.chips
  }

  /** The bet after it. */
  function BetAfter(p: Player, bet: int, move: Move, amount: Option<int>): int {
    match move
    case Bet => amount.GetOr(0)
    case Raise => amount.GetOr(0)
    case AllInMove => Max(bet, p.investedThisStreet + p.chips)
    case _ => bet
  }

  /** It is a bet, a raise by at least the minimum, or an all-in above the bet that either raises as much or is the
      player's first money on the street. */
  predicate IsFull(p: Player, bet: int, minRaise: int, move: Move, amount: Option<int>) {
    match move
    case Bet => true
    case Raise => amount.GetOr(0) - bet >= minRaise
    case AllInMove =>
      p.investedThisStreet + p.chips > bet
      && (p.investedThisStreet == 0 || p.investedThisStreet + p.chips - bet >= minRaise)
    case _ => false
  }

  /** The minimum raise after it: a bet sets it, and a full raise or all-in does not lower it. */
  function MinRaiseAfter(p: Player, bet: int, minRaise: int, move: Move, amount: Option<int>): int {
    if move == Bet then amount.GetOr(0)
    else if IsFull(p, bet, minRaise, move, amount) then Max(minRaise, BetAfter(p, bet, move, amount) - bet)
    else minRaise
  }

  /** On turn exactly the allowed requests are accepted. */
  lemma AcceptedWhenAllowed(s: GameState, t: nat, move: Move, amount: Option<int>)
    requires Inv(s) && TurnAt(s, t)
    ensures ApplyGameAction(s, Input(s.players[t].seatNo, s.players[t].userId, move, amount)).Ok? <==>
      Allowed(s.players[t], s.currentBet, s.minRaise, move, amount)
  {
    TurnFacts(s, t);
    AcceptedIff(s, t, Input(s.players[t].seatNo, s.players[t].userId, move, amount));
    MoveAllowedIff(BettingOf(s), t, move, amount);
  }

  lemma MoveAllowedIff(b: Betting, t: nat, move: Move, amount: Option<int>)
    requires t < |b.players| && CanAct(b.players[t]) && 0 <= b.players[t].investedThisStreet <= b.currentBet
    ensures ApplyMove(b, t, move, amount).Ok? <==> Allowed(b.players[t], b.currentBet, b.minRaise, move, amount)
  {
  }

  predicate Positive(amount: Option<int>) {
    amount.Some? && amount.value > 0
  }

  /** Which error answers a request of player p on turn. */
  predicate Refuses(p: Player, bet: int, minRaise: int, move: Move, amount: Option<int>, error: EngineError) {
    var stack := p.investedThisStreet + p.chips;
    match error
    case FacingABet => move == Check && p.investedThisStreet < bet
    case NothingToCall => move == Call && p.investedThisStreet == bet
    case BadAmount => (move == Bet || (move == Raise && bet > 0)) && !Positive(amount)
    case BetExists => move == Bet && Positive(amount) && bet > 0
    case BetExceedsChips => move == Bet && Positive(amount) && bet == 0 && amount.value > p.chips
    case NoBetToRaise => move == Raise && bet == 0
    case RaiseTooSmall => move == Raise && bet > 0 && Positive(amount) && amount.value <= bet
    case RaiseExceedsChips => move == Raise && bet > 0 && Positive(amount) && amount.value > Max(bet, stack)
    case BelowMinimumRaise =>
      move == Raise && bet > 0 && Positive(amount) && bet < amount.value < stack && amount.value - bet < minRaise
    case _ => false
  }

  lemma MoveRefused(b: Betting, t: nat, move: Move, amount: Option<int>)
    requires t < |b.players| && CanAct(b.players[t]) && 0 <= b.players[t].investedThisStreet <= b.currentBet
    requires ApplyMove(b, t, move, amount).Err?
    ensures Refuses(b.players[t], b.currentBet, b.minRaise, move, amount, ApplyMove(b, t, move, amount).error)
  {
  }

  /** A request is refused for the one reason that applies: nobody sits in the seat, the hand is over, it is another
      player's turn, somebody else asks, or the move is not allowed. */
  lemma RefusedBecause(s: GameState, input: Input)
    requires Sound(s) && OnAStreet(s) && ApplyGameAction(s, input).Err?
    ensures var k, error := PositionOf(s.players, input.seatNo), ApplyGameAction(s, input).error;
      if k == |s.players| then error == SeatMissing
      else if s.status != Playing then error == NotPlayable
      else if s.turn != Some(input.seatNo) then error == NotYourTurn
      else if s.players[k].userId.Some? && input.userId.Some? && input.userId != s.players[k].userId then
        error == IdentityMismatch
      else Refuses(s.players[k], s.currentBet, s.minRaise, input.move, input.amount, error)
  {
    if Inv(s) && s.turn == Some(input.seatNo) {
      var t: nat :| TurnAt(s, t);
      TurnFacts(s, t);
      AcceptedIff(s, t, input);
      if ApplyMove(BettingOf(s), t, input.move, input.amount).Err? {
        MoveRefused(BettingOf(s), t, input.move, input.amount);
      }
    }
  }

  /** The move does to the betting what the table says. */
  ghost predicate Moves(b: Betting, t: nat, move: Move, amount: Option<int>, m: Moved)
    requires t < |b.players|
  {
    var p := b.players[t];
    && |m.betting.players| == |b.players| && m.amount == Price(p, b.currentBet, move, amount)
    && m.betting.players[t] == Spent(p, m.amount, move == Fold)
    && m.betting.currentBet == BetAfter(p, b.currentBet, move, amount)
    && m.betting.minRaise == MinRaiseAfter(p, b.currentBet, b.minRaise, move, amount)
    && m.betting.lastAggressor ==
      (if IsFull(p, b.currentBet, b.minRaise, move, amount) then Some(p.seatNo) else b.lastAggressor)
  }

  lemma MoveIs(b: Betting, t: nat, move: Move, amount: Option<int>)
    requires t < |b.players| && CanAct(b.players[t]) && 0 <= b.players[t].investedThisStreet <= b.currentBet
    requires b.minRaise > 0 && ApplyMove(b, t, move, amount).Ok?
    ensures Moves(b, t, move, amount, ApplyMove(b, t, move, amount).value)
  {
  }

  // ---------- what an action does ----------

  /** The lasting effect of an accepted action: the actor has put in exactly the price, a history row says so, a fold
      and the last chip show in the status, and nobody else's investment or status changes. */
  ghost predicate Records(s: GameState, t: nat, input: Input, r: GameState)
    requires t < |s.players|
  {
    var p := s.players[t];
    var price := Price(p, s.currentBet, input.move, input.amount);
    && 0 <= price <= p.chips && |r.players| == |s.players|
    && r.history == s.history + [Entry(p.seatNo, Played(input.move), price, s.street)]
    && r.players[t].investedThisHand == p.investedThisHand + price
    && r.players[t].status == (if input.move == Fold then Folded else if price == p.chips then AllIn else Active)
    && forall k :: 0 <= k < |s.players| && k != t ==>
      r.players[k].investedThisHand == s.players[k].investedThisHand && r.players[k].status == s.players[k].status
  }

  lemma MutatedRecords(s: GameState, t: nat, input: Input, m: GameState)
    requires Inv(s) && TurnAt(s, t) && ApplyMove(BettingOf(s), t, input.move, input.amount).Ok?
    requires m == Mutated(s, t, input.move, input.amount)
    ensures Records(s, t, input, m)
  {
    TurnFacts(s, t);
    MoveIs(BettingOf(s), t, input.move, input.amount);
    MoveHasEffect(BettingOf(s), t, input.move, input.amount);
  }

  lemma KeptRecords(s: GameState, t: nat, input: Input, m: GameState, r: GameState)
    requires t < |s.players| && Records(s, t, input, m) && Kept(m, r)
    ensures Records(s, t, input, r)
  {
  }

  lemma ActionRecords(s: GameState, t: nat, input: Input)
    requires Inv(s) && TurnAt(s, t) && ApplyGameAction(s, input).Ok?
    ensures Records(s, t, input, ApplyGameAction(s, input).value)
  {
    ActionKeeps(s, t, input);
    var m := Mutated(s, t, input.move, input.amount);
    MutatedRecords(s, t, input, m);
    KeptRecords(s, t, input, m, ApplyGameAction(s, input).value);
  }

  /** On the same street the actor has put in the price, and the bet, the minimum raise and the aggressor are those of
      the table. */
  ghost predicate SameStreet(s: GameState, t: nat, input: Input, r: GameState)
    requires t < |s.players|
  {
    var p, bet := s.players[t], s.currentBet;
    var price := Price(p, bet, input.move, input.amount);
    && |r.players| == |s.players|
    && (forall k :: 0 <= k < |s.players| ==>
      && r.players[k].chips == s.players[k].chips - (if k == t then price else 0)
      && r.players[k].investedThisStreet == s.players[k].investedThisStreet + (if k == t then price else 0))
    && r.currentBet == BetAfter(p, bet, input.move, input.amount)
    && r.minRaise == MinRaiseAfter(p, bet, s.minRaise, input.move, input.amount)
    && r.lastAggressor ==
      (if IsFull(p, bet, s.minRaise, input.move, input.amount) then Some(p.seatNo) else s.lastAggressor)
  }

  /** A new street starts from nothing, with the chips the action left. */
  ghost predicate NewStreet(s: GameState, t: nat, input: Input, r: GameState)
    requires t < |s.players|
  {
    var price := Price(s.players[t], s.currentBet, input.move, input.amount);
    && |r.players| == |s.players|
    && (forall k :: 0 <= k < |s.players| ==>
      && r.players[k].chips == s.players[k].chips - (if k == t then price else 0)
      && r.players[k].investedThisStreet == 0 && !r.players[k].hasActed)
    && r.street == NextStreet(s.street) && r.currentBet == 0 && r.minRaise == s.bigBlind && r.lastAggressor == None
  }

  lemma MutatedTable(s: GameState, t: nat, input: Input)
    requires Inv(s) && TurnAt(s, t) && ApplyMove(BettingOf(s), t, input.move, input.amount).Ok?
    ensures var m := Mutated(s, t, input.move, input.amount);
      SameStreet(s, t, input, m) && m.street == s.street && m.bigBlind == s.bigBlind
  {
    TurnFacts(s, t);
    MoveIs(BettingOf(s), t, input.move, input.amount);
    MoveHasEffect(BettingOf(s), t, input.move, input.amount);
  }

  lemma AdvanceClears(s: GameState, t: nat, input: Input, m: GameState, r: GameState)
    requires t < |s.players| && SameStreet(s, t, input, m) && m.street == s.street && m.bigBlind == s.bigBlind
    requires AdvanceStreet(WithPot(m)) == Ok(r)
    ensures NewStreet(s, t, input, r)
  {
  }

  lemma ActionGoesOn(s: GameState, t: nat, input: Input)
    requires Inv(s) && TurnAt(s, t) && ApplyGameAction(s, input).Ok?
    requires ApplyGameAction(s, input).value.status == Playing
    ensures var r := ApplyGameAction(s, input).value;
      if r.street == s.street then SameStreet(s, t, input, r) else NewStreet(s, t, input, r)
  {
    var r := ApplyGameAction(s, input).value;
    AcceptedIff(s, t, input);
    MutatedIsMid(s, t, input.move, input.amount);
    MutatedTable(s, t, input);
    var m := Mutated(s, t, input.move, input.amount);
    if r.street == s.street {
      SameStreetPasses(m, t, r);
    } else {
      MidStreets(m, t);
      AdvanceClears(s, t, input, m, r);
    }
  }

  /** The actor has acted; a bet, a full raise or a full all-in sends everybody else who can act back to not having
      acted. */
  ghost predicate FlagsFollow(before: seq<Player>, t: nat, full: bool, after: seq<Player>) {
    && |after| == |before|
    && forall k :: 0 <= k < |before| ==>
      (after[k].hasActed <==> k == t || (before[k].hasActed && !(full && CanAct(before[k]))))
  }

  lemma MoveFlags(b: Betting, t: nat, move: Move, amount: Option<int>)
    requires t < |b.players| && CanAct(b.players[t]) && 0 <= b.players[t].investedThisStreet <= b.currentBet
    requires b.minRaise > 0 && ApplyMove(b, t, move, amount).Ok?
    ensures FlagsFollow(b.players, t, IsFull(b.players[t], b.currentBet, b.minRaise, move, amount),
      ApplyMove(b, t, move, amount).value.betting.players)
  {
  }

  /** Who counts as having acted after an accepted action, while the street goes on. */
  lemma ActedAfter(s: GameState, t: nat, input: Input)
    requires Inv(s) && TurnAt(s, t) && ApplyGameAction(s, input).Ok?
    requires ApplyGameAction(s, input).value.status == Playing && ApplyGameAction(s, input).value.street == s.street
    ensures FlagsFollow(s.players, t, IsFull(s.players[t], s.currentBet, s.minRaise, input.move, input.amount),
      ApplyGameAction(s, input).value.players)
  {
    AcceptedIff(s, t, input);
    TurnFacts(s, t);
    MoveFlags(BettingOf(s), t, input.move, input.amount);
    MutatedIsMid(s, t, input.move, input.amount);
    SameStreetPasses(Mutated(s, t, input.move, input.amount), t, ApplyGameAction(s, input).value);
  }

  /** Everything an accepted action does, from the request and the state it meets. */
  lemma ActionDoes(s: GameState, t: nat, input: Input)
    requires Inv(s) && TurnAt(s, t) && ApplyGameAction(s, input).Ok?
    ensures var r := ApplyGameAction(s, input).value; Records(s, t, input, r)
    ensures var r := ApplyGameAction(s, input).value;
      r.status == Playing ==> if r.street == s.street then SameStreet(s, t, input, r) else NewStreet(s, t, input, r)
    ensures var r := ApplyGameAction(s, input).value; r.status == Playing && r.street == s.street ==>
      FlagsFollow(s.players, t, IsFull(s.players[t], s.currentBet, s.minRaise, input.move, input.amount), r.players)
  {
    ActionRecords(s, t, input);
    if ApplyGameAction(s, input).value.status == Playing {
      ActionGoesOn(s, t, input);
      if ApplyGameAction(s, input).value.street == s.street {
        ActedAfter(s, t, input);
      }
    }
  }

  // ---------- what comes next ----------

  /** The turn goes to the nearest player who has to act: clockwise of the actor while the street goes on, clockwise of
      the button when a new one opens. */
  lemma TurnPassesOn(s: GameState, t: nat, input: Input) returns (from: nat, next: nat)
    requires Inv(s) && TurnAt(s, t) && ApplyGameAction(s, input).Ok?
    requires ApplyGameAction(s, input).value.status == Playing
    ensures var r := ApplyGameAction(s, input).value;
      && from < |r.players| && ActsNext(r.players, r.currentBet, from, next) && r.turn == Some(r.players[next].seatNo)
      && (if r.street == s.street then from == t else r.players[from].seatNo == s.dealerSeat)
  {
    var r := ApplyGameAction(s, input).value;
    AcceptedIff(s, t, input);
    MutatedIsMid(s, t, input.move, input.amount);
    var m := Mutated(s, t, input.move, input.amount);
    StepOutcome(s, t, input);
    if r.street == s.street {
      from := t;
      SameStreetPasses(m, t, r);
    } else {
      from := ButtonPosition(m);
      MidStreets(m, t);
      StreetTurn(m, r);
    }
    next := NearestActs(r.players, r.currentBet, from);
  }

  lemma ButtonPosition(m: GameState) returns (k: nat)
    requires Underway(m)
    ensures k < |m.players| && m.players[k].seatNo == m.dealerSeat
  {
    k :| 0 <= k < |m.players| && m.players[k].seatNo == m.dealerSeat;
  }

  lemma StreetTurn(m: GameState, r: GameState)
    requires AdvanceStreet(WithPot(m)) == Ok(r)
    ensures |r.players| == |m.players|
    ensures forall k :: 0 <= k < |m.players| ==> r.players[k].seatNo == m.players[k].seatNo
    ensures r.turn == FirstActionableSeatAfter(r.players, r.currentBet, m.dealerSeat)
  {
  }

  /** The hand is over, for this reason. */
  ghost predicate EndsAs(r: GameState, reason: Reason) {
    r.status == HandFinished && r.winnerInfo.Some? && r.winnerInfo.value.reason == reason
  }

  /** The last player standing takes the pot; nobody left to bet is a showdown; otherwise the street goes on while
      somebody has to answer, and then the next street opens, or the showdown after the river. */
  ghost predicate Follows(r: GameState, contenders: nat, someoneActive: bool, answers: bool, street: Street) {
    if contenders == 1 then EndsAs(r, AllOthersFolded)
    else if !someoneActive then EndsAs(r, ShowdownReached)
    else if answers then r.status == Playing && r.street == street
    else if street == River then EndsAs(r, ShowdownReached)
    else r.status == Playing && r.street == NextStreet(street)
  }

  lemma MidFollows(m: GameState, a: nat)
    requires Mid(m, a)
    ensures NormalizeAfterAction(m, m.players[a].seatNo).Ok?
    ensures Follows(NormalizeAfterAction(m, m.players[a].seatNo).value, ContenderCount(m.players),
      SomeoneActive(m.players), !IsBettingRoundComplete(m.players, m.currentBet), m.street)
  {
    var from := m.players[a].seatNo;
    NormalizeOutcome(m, a);
    UnderwayFacts(m);
    if ContenderCount(m.players) == 1 {
      ContenderFound(m.players);
    } else if !SomeoneActive(m.players) {
      MidShowdown(m, a);
    } else if IsBettingRoundComplete(m.players, m.currentBet) && m.street != River {
      ActiveCanBet(m.players);
      NextStreetStarts(m, a);
      NormalizeAdvances(m, from);
    } else {
      ActiveCanBet(m.players);
      ShowdownHappens(m);
      NormalizeEndsOrPasses(m, from);
    }
  }

  lemma MidShowdown(m: GameState, a: nat)
    requires Mid(m, a) && ContenderCount(m.players) >= 2 && !SomeoneActive(m.players)
    ensures NormalizeAfterAction(m, m.players[a].seatNo).Ok?
    ensures EndsAs(NormalizeAfterAction(m, m.players[a].seatNo).value, ShowdownReached)
  {
    UnderwayFacts(m);
    ShowdownHappens(m);
    NobodyActiveBets(m.players);
    NormalizeEndsOrPasses(m, m.players[a].seatNo);
  }

  lemma ActiveCanBet(players: seq<Player>)
    requires AllOk(players) && SomeoneActive(players)
    ensures !NobodyCanBet(players)
  {
    var i :| 0 <= i < |players| && players[i].status == Active;
    assert PlayerOk(players[i]);
  }

  /** Somebody other than the actor still has to act: everybody who can when the bet rises, those who had to before
      otherwise. */
  ghost predicate SomebodyAnswers(s: GameState, t: nat, input: Input)
    requires t < |s.players|
  {
    exists k :: 0 <= k < |s.players| && k != t && CanAct(s.players[k])
      && (BetAfter(s.players[t], s.currentBet, input.move, input.amount) > s.currentBet
        || NeedsAction(s.players[k], s.currentBet))
  }

  lemma CompleteWhenNobodyAnswers(s: GameState, t: nat, input: Input)
    requires Inv(s) && TurnAt(s, t) && ApplyMove(BettingOf(s), t, input.move, input.amount).Ok?
    ensures var m := Mutated(s, t, input.move, input.amount);
      IsBettingRoundComplete(m.players, m.currentBet) <==> !SomebodyAnswers(s, t, input)
  {
    var m := Mutated(s, t, input.move, input.amount);
    WhoMustAnswer(s, t, input.move, input.amount);
    MutatedTable(s, t, input);
    MutatedIsMid(s, t, input.move, input.amount);
    CompleteIffNobodyNeeds(m.players, m.currentBet);
  }

  lemma CompleteIffNobodyNeeds(players: seq<Player>, bet: int)
    requires BetIsMax(players, bet)
    ensures IsBettingRoundComplete(players, bet) <==> forall k :: 0 <= k < |players| ==> !NeedsAction(players[k], bet)
  {
  }

  /** What follows an accepted action, by who still contends, whether anybody is ACTIVE and whether anybody answers. */
  lemma WhatFollows(s: GameState, t: nat, input: Input)
    requires Inv(s) && TurnAt(s, t) && ApplyGameAction(s, input).Ok?
    ensures var r := ApplyGameAction(s, input).value;
      Follows(r, ContenderCount(r.players), SomeoneActive(r.players), SomebodyAnswers(s, t, input), s.street)
  {
    var r := ApplyGameAction(s, input).value;
    AcceptedIff(s, t, input);
    MutatedIsMid(s, t, input.move, input.amount);
    MidFollows(Mutated(s, t, input.move, input.amount), t);
    SameLeft(s, t, input, r);
    CompleteWhenNobodyAnswers(s, t, input);
  }

  lemma SameLeft(s: GameState, t: nat, input: Input, r: GameState)
    requires Inv(s) && TurnAt(s, t) && ApplyGameAction(s, input) == Ok(r)
    ensures ApplyMove(BettingOf(s), t, input.move, input.amount).Ok?
    ensures var m := Mutated(s, t, input.move, input.amount);
      && ContenderCount(m.players) == ContenderCount(r.players)
      && (SomeoneActive(m.players) <==> SomeoneActive(r.players)) && m.street == s.street
  {
    ActionKeeps(s, t, input);
    SameStatuses(Mutated(s, t, input.move, input.amount), r);
  }

  lemma SameStatuses(m: GameState, r: GameState)
    requires Kept(m, r)
    ensures ContenderCount(m.players) == ContenderCount(r.players)
    ensures SomeoneActive(m.players) <==> SomeoneActive(r.players)
  {
    SameContenders(m.players, r.players);
    SameActive(m.players, r.players);
  }

  lemma SameActive(before: seq<Player>, after: seq<Player>)
    requires |before| == |after| && forall i :: 0 <= i < |before| ==> before[i].status == after[i].status
    ensures SomeoneActive(before) <==> SomeoneActive(after)
  {
    if i :| 0 <= i < |before| && before[i].status == Active {
      assert after[i].status == Active;
    }
    if i :| 0 <= i < |after| && after[i].status == Active {
      assert before[i].status == Active;
    }
  }
}
