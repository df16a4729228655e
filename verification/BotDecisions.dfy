/** When the bot does what: its decision on its turn, by the strength of its hand, what it has to call and the pot. */
module BotDecisions {
  import opened Sequences
  import opened Engine
  import opened HandInvariant
  import opened HandRuns
  import opened LegalActions
  import opened Bot

  /** What playBotTurn passes on the turn of position t, the stack, the pot and the minimum raise included. */
  ghost predicate Sees(i: BotInput, s: GameState, t: nat)
    requires t < |s.players|
  {
    AsksFor(i, s, t) && i.chips == s.players[t].chips && i.pot == s.pot && i.minRaise == s.minRaise
  }

  /** At a table of bots the one on turn sees the table as it is and moves as it decides. */
  lemma TheBotSees(s: GameState, o: Oracle, t: nat)
    requires Inv(s) && TurnAt(s, t)
    ensures var i := BotInputAt(s, o);
      && Sees(i, s, t) && i.level == o.level && i.strength == o.strength && i.position == o.position
      && i.activePlayerCount == o.activePlayerCount
      && BotMove(s, o) == Input(s.players[t].seatNo, s.players[t].userId, DecideBotAction(i).move,
        DecideBotAction(i).amount)
  {
    TurnFacts(s, t);
  }

  // ---------- what is on offer ----------

  /** The offers on the turn of player p, as findAction finds them. */
  ghost predicate OffersTo(actions: seq<LegalAction>, s: GameState, p: Player) {
    var stack := p.investedThisStreet + p.chips;
    && FindAction(actions, Fold) == Some(LegalAction(Fold, None, None, None))
    && FindAction(actions, AllInMove) == Some(LegalAction(AllInMove, None, None, None))
    && (FindAction(actions, Check).Some? <==> p.investedThisStreet == s.currentBet)
    && FindAction(actions, Call) == (if p.investedThisStreet == s.currentBet then None
      else Some(LegalAction(Call, None, None, Some(Min(p.chips, s.currentBet - p.investedThisStreet)))))
    && FindAction(actions, Bet) == (if s.currentBet != 0 then None
      else Some(LegalAction(Bet, Some(Min(s.bigBlind, p.chips)), Some(p.chips), None)))
    && FindAction(actions, Raise) == (if s.currentBet == 0 || stack <= s.currentBet then None
      else Some(LegalAction(Raise, Some(Min(s.currentBet + s.minRaise, stack)), Some(stack), None)))
  }

  lemma FindInFour(actions: seq<LegalAction>, move: Move)
    requires 3 <= |actions| <= 4
    ensures FindAction(actions, move) ==
      if actions[0].move == move then Some(actions[0])
      else if actions[1].move == move then Some(actions[1])
      else if actions[2].move == move then Some(actions[2])
      else if |actions| == 4 && actions[3].move == move then Some(actions[3])
      else None
  {
    assert actions[1..][1..] == actions[2..] && actions[2..][1..] == actions[3..];
    assert FindAction(actions[1..], move) == if actions[1].move == move then Some(actions[1])
      else FindAction(actions[2..], move);
    assert FindAction(actions[2..], move) == if actions[2].move == move then Some(actions[2])
      else FindAction(actions[3..], move);
    if |actions| == 4 {
      assert actions[3..] == [actions[3]];
    } else {
      assert actions[3..] == [];
    }
  }

  lemma Offers(s: GameState, t: nat)
    requires Inv(s) && TurnAt(s, t)
    ensures OffersTo(Legal(s, s.players[t].seatNo), s, s.players[t])
  {
    var actions := Legal(s, s.players[t].seatNo);
    TurnFacts(s, t);
    LegalShape(s, t);
    FindInFour(actions, Fold);
    FindInFour(actions, AllInMove);
    FindInFour(actions, Check);
    FindInFour(actions, Call);
    FindInFour(actions, Bet);
    FindInFour(actions, Raise);
  }

  // ---------- the decision in terms of the table ----------

  /** The strength the bot goes by: shifted for a late position and for every opponent beyond the first, within 0 and
      1. */
  function Adjusted(i: BotInput): real {
    var profile := ProfileFor(i.level);
    var extra := if i.activePlayerCount > 2 then i.activePlayerCount - 2 else 0;
    var shifted := i.strength + (if i.position == Late then profile.positionBonus else 0.0)
      - (extra as real) * profile.multiwayPenalty;
    if shifted < 0.0 then 0.0 else if shifted > 1.0 then 1.0 else shifted
  }

  /** Strong enough to raise the standing bet, and the draw says so. */
  ghost predicate RaisesForValue(i: BotInput, s: GameState, p: Player) {
    && s.currentBet > 0 && p.investedThisStreet + p.chips > s.currentBet
    && Adjusted(i) >= ProfileFor(i.level).raiseStrong && i.raiseDraw < ProfileFor(i.level).raiseFrequency
  }

  /** Strong enough to bet into an unbet street, and the draw says so. */
  ghost predicate BetsForValue(i: BotInput, s: GameState, p: Player) {
    s.currentBet == 0 && Adjusted(i) >= ProfileFor(i.level).betStrong && i.betDraw < ProfileFor(i.level).betFrequency
  }

  /** Weak, but able to bet or raise, and the draw calls for a bluff. */
  ghost predicate Bluffs(i: BotInput, s: GameState, p: Player) {
    && (s.currentBet == 0 || p.investedThisStreet + p.chips > s.currentBet)
    && Adjusted(i) < 0.35 && i.bluffDraw < ProfileFor(i.level).bluffFrequency
  }

  ghost predicate Aggressive(i: BotInput, s: GameState, p: Player) {
    RaisesForValue(i, s, p) || BetsForValue(i, s, p) || Bluffs(i, s, p)
  }

  /** What p has to put in to stay. */
  function ToCall(s: GameState, p: Player): int {
    Min(p.chips, s.currentBet - p.investedThisStreet)
  }

  /** What strength has to exceed the call's part of the pot by. */
  function Margin(level: BotLevel): real {
    if level == Beginner then 0.09 else 0.14
  }

  /** The hand is worth the call: its strength reaches the call's part of the pot and the margin of the level. */
  predicate WorthACall(i: BotInput, s: GameState, p: Player)
    requires s.pot + ToCall(s, p) > 0
  {
    Adjusted(i) >= (ToCall(s, p) as real) / ((s.pot + ToCall(s, p)) as real) + Margin(i.level)
  }

  /** x to the nearest whole number, within low and high. */
  ghost predicate IsSize(amount: Option<int>, low: int, high: int, x: real) {
    exists n: int :: Nearest(n, x) && amount == Some(if n > high then high else if n < low then low else n)
  }

  ghost predicate Nearest(n: int, x: real) {
    -0.5 < n as real - x <= 0.5
  }

  lemma ClampIs(low: int, high: int, x: real)
    requires low <= high
    ensures IsSize(Some(Clamp(low, high, Round(x))), low, high, x)
  {
    assert Nearest(Round(x), x);
  }

  lemma AdjustedIs(i: BotInput)
    ensures AdjustedStrength(i, ProfileFor(i.level)) == Adjusted(i)
  {
  }

  lemma FacesIffCalls(s: GameState, t: nat)
    requires Inv(s) && TurnAt(s, t)
    ensures CanAct(s.players[t]) && 0 <= s.players[t].investedThisStreet <= s.currentBet && s.pot >= 0
    ensures s.currentBet > s.players[t].investedThisStreet ==> ToCall(s, s.players[t]) > 0
  {
    TurnFacts(s, t);
    var invested := Invested(s.players);
    forall k | 0 <= k < |invested| ensures invested[k] >= 0 {
      assert PlayerOk(s.players[k]);
    }
    SumAtLeast(invested, 0);
  }

  /** Curiosity offsets part of the threshold; what is left is the margin. */
  lemma MarginIs(level: BotLevel)
    ensures ProfileFor(level).callThreshold - ProfileFor(level).curiosity == Margin(level)
  {
  }

  /** What the bot decides, from the table and its strength. */
  ghost predicate Decides(i: BotInput, s: GameState, p: Player, d: Decision)
    requires s.currentBet > p.investedThisStreet ==> s.pot + ToCall(s, p) > 0
  {
    var stack, strong := p.investedThisStreet + p.chips, Adjusted(i);
    if RaisesForValue(i, s, p) then
      d.move == Raise && IsSize(d.amount, Min(s.currentBet + s.minRaise, stack), stack,
        s.currentBet as real + RMax(s.minRaise as real, (s.pot as real) * (if strong > 0.8 then 0.8 else 0.55)))
    else if BetsForValue(i, s, p) then
      d.move == Bet && IsSize(d.amount, Min(s.bigBlind, p.chips), p.chips,
        RMax(s.minRaise as real, (s.pot as real) * (if strong > 0.7 then 0.65 else 0.45)))
    else if Bluffs(i, s, p) && s.currentBet == 0 then
      d.move == Bet && IsSize(d.amount, Min(s.bigBlind, p.chips), p.chips,
        RMax(s.minRaise as real, (s.pot as real) * 0.45))
    else if Bluffs(i, s, p) then
      d.move == Raise && IsSize(d.amount, Min(s.currentBet + s.minRaise, stack), stack,
        RMax(s.minRaise as real, (s.pot as real) * 0.45))
    else if s.currentBet <= p.investedThisStreet then d == Decision(Check, None)
    else if WorthACall(i, s, p) then d == Decision(Call, None)
    else if strong > 0.86 && p.chips <= s.pot then d == Decision(AllInMove, None)
    else d == Decision(Fold, None)
  }

  /** The bot on turn: what it is offered, and that the bet is not below what it has invested. */
  ghost predicate OnTurn(i: BotInput, s: GameState, p: Player) {
    && OffersTo(i.legalActions, s, p) && CanAct(p) && 0 <= p.investedThisStreet <= s.currentBet
    && s.pot >= 0 && s.minRaise > 0 && s.bigBlind > 0
    && i.currentBet == s.currentBet && i.investedThisStreet == p.investedThisStreet && i.chips == p.chips
    && i.pot == s.pot && i.minRaise == s.minRaise
  }

  lemma TurnIsOffered(i: BotInput, s: GameState, t: nat)
    requires Inv(s) && TurnAt(s, t) && Sees(i, s, t)
    ensures OnTurn(i, s, s.players[t])
  {
    FacesIffCalls(s, t);
    Offers(s, t);
  }

  lemma RaisesIt(i: BotInput, s: GameState, p: Player)
    requires OnTurn(i, s, p) && RaisesForValue(i, s, p)
    ensures Decides(i, s, p, DecideBotAction(i))
  {
    AdjustedIs(i);
    var stack := p.investedThisStreet + p.chips;
    ClampIs(Min(s.currentBet + s.minRaise, stack), stack,
      s.currentBet as real + RMax(s.minRaise as real, (s.pot as real) * (if Adjusted(i) > 0.8 then 0.8 else 0.55)));
  }

  lemma BetsIt(i: BotInput, s: GameState, p: Player)
    requires OnTurn(i, s, p) && !RaisesForValue(i, s, p) && BetsForValue(i, s, p)
    ensures Decides(i, s, p, DecideBotAction(i))
  {
    AdjustedIs(i);
    ClampIs(Min(s.bigBlind, p.chips), p.chips,
      RMax(s.minRaise as real, (s.pot as real) * (if Adjusted(i) > 0.7 then 0.65 else 0.45)));
  }

  lemma BluffsIt(i: BotInput, s: GameState, p: Player)
    requires OnTurn(i, s, p) && !RaisesForValue(i, s, p) && !BetsForValue(i, s, p) && Bluffs(i, s, p)
    ensures Decides(i, s, p, DecideBotAction(i))
  {
    AdjustedIs(i);
    var stack := p.investedThisStreet + p.chips;
    if s.currentBet == 0 {
      ClampIs(Min(s.bigBlind, p.chips), p.chips, RMax(s.minRaise as real, (s.pot as real) * 0.45));
    } else {
      ClampIs(Min(s.currentBet + s.minRaise, stack), stack, RMax(s.minRaise as real, (s.pot as real) * 0.45));
    }
  }

  lemma PressureIs(i: BotInput, s: GameState, p: Player)
    requires OnTurn(i, s, p) && s.currentBet > p.investedThisStreet
    ensures Pressure(FindAction(i.legalActions, Call), i.pot) ==
      (ToCall(s, p) as real) / ((s.pot + ToCall(s, p)) as real)
  {
  }

  lemma StaysPassive(i: BotInput, s: GameState, p: Player)
    requires OnTurn(i, s, p) && !Aggressive(i, s, p)
    ensures Decides(i, s, p, DecideBotAction(i))
  {
    AdjustedIs(i);
    MarginIs(i.level);
    if s.currentBet > p.investedThisStreet {
      PressureIs(i, s, p);
    }
  }

  /** The bot's decision on its turn, case by case: value raises and bets, bluffs, checks, calls, short all-ins,
      folds. */
  lemma BotDecides(i: BotInput, s: GameState, t: nat)
    requires Inv(s) && TurnAt(s, t) && Sees(i, s, t)
    ensures s.currentBet > s.players[t].investedThisStreet ==> s.pot + ToCall(s, s.players[t]) > 0
    ensures Decides(i, s, s.players[t], DecideBotAction(i))
  {
    var p := s.players[t];
    TurnIsOffered(i, s, t);
    if RaisesForValue(i, s, p) {
      RaisesIt(i, s, p);
    } else if BetsForValue(i, s, p) {
      BetsIt(i, s, p);
    } else if Bluffs(i, s, p) {
      BluffsIt(i, s, p);
    } else {
      StaysPassive(i, s, p);
    }
  }

  // ---------- what follows for the player ----------

  /** A call, and a fold, exactly. */
  lemma CallsAndFoldsIff(i: BotInput, s: GameState, t: nat)
    requires Inv(s) && TurnAt(s, t) && Sees(i, s, t)
    ensures var p, d := s.players[t], DecideBotAction(i); s.currentBet > p.investedThisStreet ==>
      && s.pot + ToCall(s, p) > 0
      && (d.move == Call <==> !Aggressive(i, s, p) && WorthACall(i, s, p))
      && (d.move == Fold <==>
        !Aggressive(i, s, p) && !WorthACall(i, s, p) && !(Adjusted(i) > 0.86 && p.chips <= s.pot))
    ensures s.currentBet == s.players[t].investedThisStreet ==>
      DecideBotAction(i).move != Call && DecideBotAction(i).move != Fold
  {
    BotDecides(i, s, t);
  }

  /** A bet or a raise is either strong enough for the bot's level or a bluff with a weak hand. */
  lemma AggressionIff(i: BotInput, s: GameState, t: nat)
    requires Inv(s) && TurnAt(s, t) && Sees(i, s, t)
    ensures var p, d := s.players[t], DecideBotAction(i);
      && (d.move == Raise || d.move == Bet <==> Aggressive(i, s, p))
      && (d.move == Raise ==> Adjusted(i) >= ProfileFor(i.level).raiseStrong || Adjusted(i) < 0.35)
      && (d.move == Bet ==> Adjusted(i) >= ProfileFor(i.level).betStrong || Adjusted(i) < 0.35)
  {
    BotDecides(i, s, t);
  }

  lemma StrongerAdjusts(i: BotInput, strength: real)
    requires i.strength <= strength
    ensures Adjusted(i) <= Adjusted(i.(strength := strength))
  {
  }

  /** Everything else the same, a stronger hand never folds where a weaker one calls, goes all in or raises for
      value. */
  lemma StrongerNeverFolds(i: BotInput, s: GameState, t: nat, strength: real)
    requires Inv(s) && TurnAt(s, t) && Sees(i, s, t) && i.strength <= strength
    requires DecideBotAction(i).move == Call || DecideBotAction(i).move == AllInMove
      || RaisesForValue(i, s, s.players[t])
    ensures DecideBotAction(i.(strength := strength)).move != Fold
  {
    var j := i.(strength := strength);
    StrongerAdjusts(i, strength);
    BotDecides(i, s, t);
    BotDecides(j, s, t);
  }

  /** A higher level raises and bets for value with weaker hands, raises, bets and bluffs more often, counts position
      and opponents for more, and asks less of a call but is less curious. */
  lemma LevelsAscend()
    ensures var a, b, c := ProfileFor(Beginner), ProfileFor(Normal), ProfileFor(Advanced);
      && a.raiseStrong > b.raiseStrong > c.raiseStrong && a.betStrong > b.betStrong > c.betStrong
      && a.raiseFrequency < b.raiseFrequency < c.raiseFrequency
      && a.betFrequency < b.betFrequency < c.betFrequency && a.bluffFrequency < b.bluffFrequency < c.bluffFrequency
      && a.positionBonus < b.positionBonus < c.positionBonus
      && a.multiwayPenalty < b.multiwayPenalty < c.multiwayPenalty
      && a.callThreshold > b.callThreshold > c.callThreshold && a.curiosity > b.curiosity > c.curiosity
  {
  }
}
