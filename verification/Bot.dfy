/** packages/shared/src/poker/bot/bot-strategy.ts: whatever the bot decides, for
    any hand strength and any random draws, the engine accepts. */
module Bot {
  import opened Sequences
  import opened Pots
  import opened Engine
  import opened HandInvariant
  import opened HandRuns
  import opened HandProgress
  import opened LegalActions

  datatype BotLevel = Beginner | Normal | Advanced

  datatype Position = Early | Middle | Late | Blind

  datatype Profile = Profile(
    raiseStrong: real, betStrong: real, callThreshold: real, curiosity: real, raiseFrequency: real,
    betFrequency: real, bluffFrequency: real, positionBonus: real, multiwayPenalty: real)

  function ProfileFor(level: BotLevel): Profile {
    match level
    case Beginner => Profile(0.78, 0.6, 0.25, 0.16, 0.5, 0.45, 0.03, 0.02, 0.02)
    case Normal => Profile(0.68, 0.52, 0.2, 0.06, 0.72, 0.62, 0.07, 0.06, 0.035)
    case Advanced => Profile(0.6, 0.46, 0.16, 0.02, 0.82, 0.7, 0.1, 0.09, 0.045)
  }

  /** What the strategy reads. `strength` stands for the heuristic of preflop.ts and postflop.ts; each call site of
      `random` has its own draw. */
  datatype BotInput = BotInput(
    level: BotLevel, strength: real, pot: int, currentBet: int, investedThisStreet: int, chips: int, minRaise: int,
    position: Position, activePlayerCount: int, legalActions: seq<LegalAction>,
    raiseDraw: real, betDraw: real, bluffDraw: real)

  datatype Decision = Decision(move: Move, amount: Option<int>)

  function FindAction(actions: seq<LegalAction>, move: Move): Option<LegalAction> {
    if actions == [] then None
    else if actions[0].move == move then Some(actions[0])
    else FindAction(actions[1..], move)
  }

  function RMin(a: real, b: real): real {
    if a <= b then a else b
  }

  function RMax(a: real, b: real): real {
    if a <= b then b else a
  }

  /** Math.round: halves go up. */
  function Round(x: real): int {
    (x + 0.5).Floor
  }

  /** a || b on a number that may be missing or zero. */
  function Or(a: Option<int>, b: int): int {
    if a.Some? && a.value != 0 then a.value else b
  }

  function Clamp(low: int, high: int, target: int): int {
    Max(low, Min(high, target))
  }

  function ChooseBetAmount(a: LegalAction, i: BotInput, strength: real): int {
    Clamp(Or(a.minAmount, 1), Or(a.maxAmount, i.chips),
      Round(RMax(i.minRaise as real, (i.pot as real) * (if strength > 0.7 then 0.65 else 0.45))))
  }

  function ChooseRaiseAmount(a: LegalAction, i: BotInput, strength: real): int {
    Clamp(Or(a.minAmount, i.currentBet + i.minRaise), Or(a.maxAmount, i.investedThisStreet + i.chips),
      Round(i.currentBet as real + RMax(i.minRaise as real, (i.pot as real) * (if strength > 0.8 then 0.8 else 0.55))))
  }

  function Fallback(actions: seq<LegalAction>): Decision {
    if FindAction(actions, Check).Some? then Decision(Check, None)
    else if FindAction(actions, Fold).Some? then Decision(Fold, None)
    else if FindAction(actions, Call).Some? then Decision(Call, None)
    else if FindAction(actions, AllInMove).Some? then Decision(AllInMove, None)
    else Decision(Fold, None)
  }

  function Pressure(call: Option<LegalAction>, pot: int): real {
    if call.Some? && Or(call.value.callAmount, 0) != 0 then
      (Or(call.value.callAmount, 0) as real) / (Max(1, pot + Or(call.value.callAmount, 0)) as real)
    else 0.0
  }

  function AdjustedStrength(i: BotInput, profile: Profile): real {
    RMax(0.0, RMin(1.0, i.strength + (if i.position == Late then profile.positionBonus else 0.0)
      - (Max(0, i.activePlayerCount - 2) as real) * profile.multiwayPenalty))
  }

  function DecideBotAction(i: BotInput): Decision {
    var facingBet := i.currentBet > i.investedThisStreet;
    var callAction := FindAction(i.legalActions, Call);
    var betAction := FindAction(i.legalActions, Bet);
    var raiseAction := FindAction(i.legalActions, Raise);
    var profile := ProfileFor(i.level);
    var adjusted := AdjustedStrength(i, profile);
    if raiseAction.Some? && adjusted >= profile.raiseStrong && i.raiseDraw < profile.raiseFrequency then
      Decision(Raise, Some(ChooseRaiseAmount(raiseAction.value, i, adjusted)))
    else if betAction.Some? && adjusted >= profile.betStrong && i.betDraw < profile.betFrequency then
      Decision(Bet, Some(ChooseBetAmount(betAction.value, i, adjusted)))
    else if (betAction.Some? || raiseAction.Some?) && adjusted < 0.35 && i.bluffDraw < profile.bluffFrequency then
      var action := if betAction.Some? then betAction.value else raiseAction.value;
      Decision(action.move, Some(ChooseBetAmount(action, i, 0.4)))
    else if facingBet && callAction.Some? then
      if adjusted + profile.curiosity >= Pressure(callAction, i.pot) + profile.callThreshold then Decision(Call, None)
      else if FindAction(i.legalActions, AllInMove).Some? && adjusted > 0.86 && i.chips <= i.pot then
        Decision(AllInMove, None)
      else if FindAction(i.legalActions, Fold).Some? then Decision(Fold, None)
      else Fallback(i.legalActions)
    else if FindAction(i.legalActions, Check).Some? then Decision(Check, None)
    else if callAction.Some? then Decision(Call, None)
    else Fallback(i.legalActions)
  }

  // ---------- the bot only ever picks from the list ----------

  lemma {:induction false} FoundIsListed(actions: seq<LegalAction>, move: Move)
    ensures FindAction(actions, move).Some? ==>
      FindAction(actions, move).value in actions && FindAction(actions, move).value.move == move
    ensures FindAction(actions, move) == None ==> forall k :: 0 <= k < |actions| ==> actions[k].move != move
  {
    if actions != [] && actions[0].move != move {
      FoundIsListed(actions[1..], move);
    }
  }

  /** A range the engine advertises: positive and in order. */
  ghost predicate ProperRange(a: LegalAction) {
    a.minAmount.Some? && a.maxAmount.Some? && 0 < a.minAmount.value <= a.maxAmount.value
  }

  lemma AmountsStayInRange(a: LegalAction, i: BotInput, strength: real)
    requires ProperRange(a)
    ensures a.minAmount.value <= ChooseBetAmount(a, i, strength) <= a.maxAmount.value
    ensures a.minAmount.value <= ChooseRaiseAmount(a, i, strength) <= a.maxAmount.value
  {
  }

  /** What playBotTurn passes on the turn of position t. */
  ghost predicate AsksFor(i: BotInput, s: GameState, t: nat)
    requires t < |s.players|
  {
    && i.currentBet == s.currentBet && i.investedThisStreet == s.players[t].investedThisStreet
    && i.legalActions == Legal(s, s.players[t].seatNo)
  }

  lemma RangesAreProper(s: GameState, t: nat, k: nat)
    requires Inv(s) && TurnAt(s, t) && k < |Legal(s, s.players[t].seatNo)|
    requires Legal(s, s.players[t].seatNo)[k].move == Bet || Legal(s, s.players[t].seatNo)[k].move == Raise
    ensures ProperRange(Legal(s, s.players[t].seatNo)[k])
  {
    LegalShape(s, t);
    TurnFacts(s, t);
    var actions := Legal(s, s.players[t].seatNo);
    if k == 3 {
      assert actions[3] == BetOrRaise(s, s.players[t])[0];
    }
  }

  predicate SizedFrom(i: BotInput, d: Decision, a: LegalAction) {
    var strong := AdjustedStrength(i, ProfileFor(i.level));
    || d.amount == Some(ChooseRaiseAmount(a, i, strong))
    || d.amount == Some(ChooseBetAmount(a, i, strong))
    || d.amount == Some(ChooseBetAmount(a, i, 0.4))
  }

  /** Bets and raises come from an offered action of that kind, with one of the two clamped amounts. */
  lemma SizedDecision(i: BotInput)
    ensures var d := DecideBotAction(i); d.move == Bet || d.move == Raise ==>
      FindAction(i.legalActions, d.move).Some? && SizedFrom(i, d, FindAction(i.legalActions, d.move).value)
  {
    FoundIsListed(i.legalActions, Bet);
    FoundIsListed(i.legalActions, Raise);
  }

  /** Checks and calls are only decided when they are offered. */
  lemma UnsizedDecision(i: BotInput)
    ensures var d := DecideBotAction(i); d.move == Check || d.move == Call ==> FindAction(i.legalActions, d.move).Some?
  {
    FoundIsListed(i.legalActions, Bet);
    FoundIsListed(i.legalActions, Raise);
  }

  lemma SizedIsAdvertised(i: BotInput, s: GameState, t: nat)
    requires Inv(s) && TurnAt(s, t) && AsksFor(i, s, t)
    requires DecideBotAction(i).move == Bet || DecideBotAction(i).move == Raise
    ensures var d := DecideBotAction(i); Advertises(i.legalActions, d.move, d.amount)
  {
    var actions, d := i.legalActions, DecideBotAction(i);
    SizedDecision(i);
    FoundIsListed(actions, d.move);
    var a := FindAction(actions, d.move).value;
    var k :| 0 <= k < |actions| && actions[k] == a;
    RangesAreProper(s, t, k);
    AmountsStayInRange(a, i, AdjustedStrength(i, ProfileFor(i.level)));
    AmountsStayInRange(a, i, 0.4);
    assert InRange(actions[k], d.amount);
  }

  /** The decision is one of the advertised actions, with an amount in its range. */
  lemma DecisionIsAdvertised(i: BotInput, s: GameState, t: nat)
    requires Inv(s) && TurnAt(s, t) && AsksFor(i, s, t)
    ensures var d := DecideBotAction(i); Advertises(i.legalActions, d.move, d.amount)
  {
    var actions, d := i.legalActions, DecideBotAction(i);
    if d.move == Bet || d.move == Raise {
      SizedIsAdvertised(i, s, t);
    } else {
      AdvertisedMoves(s, t, d.move, d.amount);
      UnsizedDecision(i);
      FoundIsListed(actions, d.move);
      LegalShape(s, t);
      TurnFacts(s, t);
    }
  }

  lemma NeverFoldsACheck(i: BotInput, s: GameState, t: nat)
    requires Inv(s) && TurnAt(s, t) && AsksFor(i, s, t) && s.players[t].investedThisStreet == s.currentBet
    ensures DecideBotAction(i).move != Fold
  {
    LegalShape(s, t);
    FoundIsListed(i.legalActions, Check);
    FoundIsListed(i.legalActions, Bet);
    FoundIsListed(i.legalActions, Raise);
    assert i.legalActions[2].move == Check;
  }

  /** The engine accepts whatever the bot decides on its turn, and the bot never folds when it could check. */
  lemma BotIsSound(i: BotInput, s: GameState, t: nat)
    requires Inv(s) && TurnAt(s, t) && AsksFor(i, s, t)
    ensures var d := DecideBotAction(i);
      && ApplyGameAction(s, Request(s, t, d.move, d.amount)).Ok?
      && (s.players[t].investedThisStreet == s.currentBet ==> d.move != Fold)
  {
    var d := DecideBotAction(i);
    DecisionIsAdvertised(i, s, t);
    if s.players[t].investedThisStreet == s.currentBet {
      NeverFoldsACheck(i, s, t);
    }
    if d.move == Bet {
      BetIsLooser(s, t, d.amount);
    } else {
      LegalIsExact(s, t, d.move, d.amount);
    }
  }

  // ---------- a table of bots ----------

  /** Everything the strategy reads that the state does not fix: levels, strengths, positions and draws may depend on
      the move number and the state in any way. */
  datatype Oracle = Oracle(level: BotLevel, strength: real, position: Position, activePlayerCount: int,
    raiseDraw: real, betDraw: real, bluffDraw: real)

  function BotInputAt(s: GameState, o: Oracle): BotInput {
    var seat := s.turn.GetOr(0);
    var k := PositionOf(s.players, seat);
    var p := if k < |s.players| then s.players[k] else Player(seat, None, [], 0, 0, 0, 0, Out, false);
    BotInput(o.level, o.strength, s.pot, s.currentBet, p.investedThisStreet, p.chips, s.minRaise,
      o.position, o.activePlayerCount, Legal(s, seat), o.raiseDraw, o.betDraw, o.bluffDraw)
  }

  function BotMove(s: GameState, o: Oracle): Input {
    var seat := s.turn.GetOr(0);
    var k := PositionOf(s.players, seat);
    var d := DecideBotAction(BotInputAt(s, o));
    Input(seat, if k < |s.players| then s.players[k].userId else None, d.move, d.amount)
  }

  lemma BotMoveAccepted(s: GameState, o: Oracle)
    requires Inv(s)
    ensures ApplyGameAction(s, BotMove(s, o)).Ok?
  {
    var t: nat :| TurnAt(s, t);
    TurnFacts(s, t);
    BotIsSound(BotInputAt(s, o), s, t);
  }

  /** Every move decided by a bot. */
  function BotsPlay(oracle: (nat, GameState) -> Oracle): (nat, GameState) -> Input {
    (n: nat, g: GameState) => BotMove(g, oracle(n, g))
  }

  /** A hand played by bots alone always ends, without a single rejected action. */
  lemma BotsFinishTheHand(s: GameState, oracle: (nat, GameState) -> Oracle)
    requires Sound(s)
    ensures AlwaysAccepted(s, BotsPlay(oracle))
    ensures exists n: nat :: OverAfter(s, BotsPlay(oracle), n)
  {
    forall n: nat ensures AcceptedAt(s, BotsPlay(oracle), n) {
      var here := Run(s, MovesOf(s, BotsPlay(oracle), n));
      if Inv(here) {
        BotMoveAccepted(here, oracle(n, here));
      }
    }
    EveryHandFinishes(s, BotsPlay(oracle));
  }
}
