/** packages/shared/src/poker/actions.ts: the actions advertised to a seat, and
    how they compare with what the engine accepts. */
module LegalActions {
  import opened Sequences
  import opened Pots
  import opened Engine
  import opened HandInvariant
  import opened HandRuns
  import opened HandMoves

  datatype LegalAction = LegalAction(move: Move, minAmount: Option<int>, maxAmount: Option<int>,
      callAmount: Option<int>)

  function Plain(move: Move): LegalAction {
    LegalAction(move, None, None, None)
  }

  function CheckOrCall(p: Player, currentBet: int): LegalAction {
    if p.investedThisStreet == currentBet then Plain(Check)
    else LegalAction(Call, None, None, Some(Min(p.chips, currentBet - p.investedThisStreet)))
  }

  function BetOrRaise(s: GameState, p: Player): seq<LegalAction> {
    if s.currentBet == 0 then [LegalAction(Bet, Some(Min(s.bigBlind, p.chips)), Some(p.chips), None)]
    else if p.investedThisStreet + p.chips > s.currentBet then
      var maxRaiseTo := p.investedThisStreet + p.chips;
      [LegalAction(Raise, Some(Min(s.currentBet + s.minRaise, maxRaiseTo)), Some(maxRaiseTo), None)]
    else []
  }

  function Legal(s: GameState, seat: int): seq<LegalAction> {
    var k := PositionOf(s.players, seat);
    if k == |s.players| || s.status != Playing || s.turn != Some(seat) then []
    else if s.players[k].status != Active || s.players[k].chips <= 0 then []
    else [Plain(Fold), Plain(AllInMove), CheckOrCall(s.players[k], s.currentBet)] + BetOrRaise(s, s.players[k])
  }

  method GetLegalActions(s: GameState, seat: int) returns (actions: seq<LegalAction>)
    ensures actions == Legal(s, seat)
  {
    var k := PositionOf(s.players, seat);
    if k == |s.players| || s.status != Playing || s.turn != Some(seat) {
      return [];
    }
    var player := s.players[k];
    if player.status != Active || player.chips <= 0 {
      return [];
    }
    actions := [Plain(Fold), Plain(AllInMove)];
    if player.investedThisStreet == s.currentBet {
      actions := actions + [Plain(Check)];
    } else {
      actions :=
        actions + [LegalAction(Call, None, None, Some(Min(player.chips, s.currentBet - player.investedThisStreet)))];
    }
    if s.currentBet == 0 {
      actions := actions + [LegalAction(Bet, Some(Min(s.bigBlind, player.chips)), Some(player.chips), None)];
    } else if player.investedThisStreet + player.chips > s.currentBet {
      var minRaiseTo := s.currentBet + s.minRaise;
      var maxRaiseTo := player.investedThisStreet + player.chips;
      actions := actions + [LegalAction(Raise, Some(Min(minRaiseTo, maxRaiseTo)), Some(maxRaiseTo), None)];
    }
  }

  predicate InRange(a: LegalAction, amount: Option<int>) {
    a.minAmount.Some? ==> amount.Some? && a.maxAmount.Some? && a.minAmount.value <= amount.value <= a.maxAmount.value
  }

  /** The list offers the move, and the amount lies in the offered range when there is one. */
  predicate Advertises(actions: seq<LegalAction>, move: Move, amount: Option<int>) {
    exists k :: 0 <= k < |actions| && actions[k].move == move && InRange(actions[k], amount)
  }

  /** A request from the player in the seat. */
  function Request(s: GameState, t: nat, move: Move, amount: Option<int>): Input
    requires t < |s.players|
  {
    Input(s.players[t].seatNo, s.players[t].userId, move, amount)
  }

  ghost predicate Shaped(actions: seq<LegalAction>, s: GameState, p: Player) {
    && 3 <= |actions| <= 4
    && actions[0] == Plain(Fold) && actions[1] == Plain(AllInMove) && actions[2] == CheckOrCall(p, s.currentBet)
    && actions[3..] == BetOrRaise(s, p)
  }

  lemma LegalShape(s: GameState, t: nat)
    requires Inv(s) && TurnAt(s, t)
    ensures Shaped(Legal(s, s.players[t].seatNo), s, s.players[t])
    ensures CanAct(s.players[t]) && 0 <= s.players[t].investedThisStreet <= s.currentBet
  {
    TurnFacts(s, t);
  }

  lemma ShapedMoves(actions: seq<LegalAction>, s: GameState, p: Player, move: Move, amount: Option<int>)
    requires Shaped(actions, s, p) && CanAct(p) && 0 <= p.investedThisStreet <= s.currentBet
    ensures Advertises(actions, move, amount) <==> Offered(s, p, move, amount)
  {
    assert |actions| == 4 ==> actions[3] == BetOrRaise(s, p)[0];
    assert InRange(actions[0], amount) && InRange(actions[1], amount) && InRange(actions[2], amount);
  }

  lemma AdvertisedMoves(s: GameState, t: nat, move: Move, amount: Option<int>)
    requires Inv(s) && TurnAt(s, t)
    ensures Advertises(Legal(s, s.players[t].seatNo), move, amount) <==> Offered(s, s.players[t], move, amount)
  {
    LegalShape(s, t);
    ShapedMoves(Legal(s, s.players[t].seatNo), s, s.players[t], move, amount);
  }

  /** The advertised moves and ranges in one formula. */
  predicate Offered(s: GameState, p: Player, move: Move, amount: Option<int>) {
    match move
    case Fold => true
    case AllInMove => true
    case Check => p.investedThisStreet == s.currentBet
    case Call => p.investedThisStreet < s.currentBet
    case Bet => s.currentBet == 0 && Between(Min(s.bigBlind, p.chips), amount, p.chips)
    case Raise =>
      var maxRaiseTo := p.investedThisStreet + p.chips;
      && s.currentBet > 0 && maxRaiseTo > s.currentBet
      && Between(Min(s.currentBet + s.minRaise, maxRaiseTo), amount, maxRaiseTo)
  }

  predicate Between(low: int, amount: Option<int>, high: int) {
    amount.Some? && low <= amount.value <= high
  }

  /** The mutation allows exactly what is offered. */
  lemma AllowedIffOffered(s: GameState, t: nat, move: Move, amount: Option<int>)
    requires t < |s.players| && CanAct(s.players[t]) && 0 <= s.players[t].investedThisStreet <= s.currentBet
    requires s.minRaise > 0 && move != Bet
    ensures ApplyMove(BettingOf(s), t, move, amount).Ok? <==> Offered(s, s.players[t], move, amount)
  {
  }

  /** The advertised actions are exact for FOLD, CHECK, CALL, ALL_IN and RAISE: the engine accepts precisely those from
      the seat on turn. */
  lemma LegalIsExact(s: GameState, t: nat, move: Move, amount: Option<int>)
    requires Inv(s) && TurnAt(s, t) && move != Bet
    ensures ApplyGameAction(s, Request(s, t, move, amount)).Ok? <==>
      Advertises(Legal(s, s.players[t].seatNo), move, amount)
  {
    TurnFacts(s, t);
    AllowedIffOffered(s, t, move, amount);
    AcceptedIff(s, t, Request(s, t, move, amount));
    AdvertisedMoves(s, t, move, amount);
  }

  /** A bet is accepted for any positive amount up to the stack when no bet stands. So every advertised bet is accepted,
      and the advertised minimum is not enforced: a smaller positive bet is accepted although it is not offered. */
  lemma BetIsLooser(s: GameState, t: nat, amount: Option<int>)
    requires Inv(s) && TurnAt(s, t)
    ensures var p := s.players[t];
      && (ApplyGameAction(s, Request(s, t, Bet, amount)).Ok? <==>
        s.currentBet == 0 && amount.Some? && 1 <= amount.value <= p.chips)
      && (Advertises(Legal(s, p.seatNo), Bet, amount) ==> ApplyGameAction(s, Request(s, t, Bet, amount)).Ok?)
      && (ApplyGameAction(s, Request(s, t, Bet, amount)).Ok? && !Advertises(Legal(s, p.seatNo), Bet, amount) <==>
          s.currentBet == 0 && amount.Some? && 1 <= amount.value < Min(s.bigBlind, p.chips))
  {
    AcceptedWhenAllowed(s, t, Bet, amount);
    AdvertisedMoves(s, t, Bet, amount);
    TurnFacts(s, t);
  }

  /** A call, and nothing else, is advertised with a price, the one it then costs. */
  lemma CallsAtPrice(s: GameState, t: nat, k: nat)
    requires Inv(s) && TurnAt(s, t) && k < |Legal(s, s.players[t].seatNo)|
    ensures var a := Legal(s, s.players[t].seatNo)[k];
      a.callAmount == if a.move == Call then Some(Price(s.players[t], s.currentBet, Call, None)) else None
  {
    LegalShape(s, t);
    PricedOnce(s, s.players[t]);
    if k == 3 {
      assert Legal(s, s.players[t].seatNo)[3] == BetOrRaise(s, s.players[t])[0];
    }
  }

  lemma PricedOnce(s: GameState, p: Player)
    ensures var a := CheckOrCall(p, s.currentBet);
      a.callAmount == if a.move == Call then Some(Price(p, s.currentBet, Call, None)) else None
    ensures forall k :: 0 <= k < |BetOrRaise(s, p)| ==>
      BetOrRaise(s, p)[k].move != Call && BetOrRaise(s, p)[k].callAmount == None
  {
  }

  /** Off turn nothing is advertised and nothing is accepted. */
  lemma OffTurnNothing(s: GameState, seat: int, userId: Option<int>, move: Move, amount: Option<int>)
    requires Inv(s) && s.turn != Some(seat)
    ensures Legal(s, seat) == [] && ApplyGameAction(s, Input(seat, userId, move, amount)).Err?
  {
  }
}
