/** Progress: somebody can always act, and every hand ends. */
module HandProgress {
  import opened Sequences
  import opened Pots
  import opened Engine
  import opened HandInvariant
  import opened HandAccounting
  import opened HandStep
  import opened HandRuns

  // ---------- the termination measure ----------

  function ActiveFlags(players: seq<Player>): seq<int> {
    seq(|players|, i requires 0 <= i < |players| => if players[i].status == Active then 1 else 0)
  }

  function UnactedFlags(players: seq<Player>): seq<int> {
    seq(|players|, i requires 0 <= i < |players| =>
      if players[i].status == Active && !players[i].hasActed then 1 else 0)
  }

  datatype Measure = Measure(streets: nat, chips: nat, active: nat, unacted: nat)

  lemma MeasureParts(players: seq<Player>)
    requires AllOk(players)
    ensures TotalChips(players) >= 0 && Sum(ActiveFlags(players)) >= 0 && Sum(UnactedFlags(players)) >= 0
  {
    var zeros := seq(|players|, i => 0);
    SumZero(zeros);
    forall i | 0 <= i < |players| ensures Stacks(players)[i] >= 0 {
      assert PlayerOk(players[i]);
    }
    SumMonotone(zeros, Stacks(players));
    SumMonotone(zeros, ActiveFlags(players));
    SumMonotone(zeros, UnactedFlags(players));
  }

  /** Streets to come, chips not yet invested, players who can still act, and those of them yet to act. */
  ghost function MeasureOf(s: GameState): Measure
    requires Inv(s)
  {
    MeasureParts(s.players);
    Measure(StreetsLeft(s.street), TotalChips(s.players), Sum(ActiveFlags(s.players)), Sum(UnactedFlags(s.players)))
  }

  predicate Below(a: Measure, b: Measure) {
    || a.streets < b.streets
    || (a.streets == b.streets && a.chips < b.chips)
    || (a.streets == b.streets && a.chips == b.chips && a.active < b.active)
    || (a.streets == b.streets && a.chips == b.chips && a.active == b.active && a.unacted < b.unacted)
  }

  lemma MutationSpends(b: Betting, i: nat, m: Betting, amount: int, fold: bool)
    requires i < |b.players| && Effect(b, i, m, amount, fold)
    ensures TotalChips(m.players) == TotalChips(b.players) - amount
  {
    assert Stacks(m.players) == Stacks(b.players)[i := b.players[i].chips - amount];
    SumUpdate(Stacks(b.players), i, b.players[i].chips - amount);
  }

  /** One player changed changes one flag of each kind. */
  lemma FlagsUpdated(before: seq<Player>, after: seq<Player>, t: nat)
    requires |after| == |before| && t < |before| && forall k :: 0 <= k < |before| && k != t ==> after[k] == before[k]
    ensures Sum(ActiveFlags(after)) == Sum(ActiveFlags(before)) - ActiveFlags(before)[t] + ActiveFlags(after)[t]
    ensures Sum(UnactedFlags(after)) == Sum(UnactedFlags(before)) - UnactedFlags(before)[t] + UnactedFlags(after)[t]
  {
    assert ActiveFlags(after) == ActiveFlags(before)[t := ActiveFlags(after)[t]];
    assert UnactedFlags(after) == UnactedFlags(before)[t := UnactedFlags(after)[t]];
    SumUpdate(ActiveFlags(before), t, ActiveFlags(after)[t]);
    SumUpdate(UnactedFlags(before), t, UnactedFlags(after)[t]);
  }

  lemma FoldOrCheckEffect(b: Betting, t: nat, move: Move, amount: Option<int>)
    requires t < |b.players| && CanAct(b.players[t]) && (move == Fold || move == Check)
    requires ApplyMove(b, t, move, amount).Ok?
    ensures var m := ApplyMove(b, t, move, amount).value;
      && m.betting.players ==
        b.players[t := b.players[t].(hasActed := true, status := if move == Fold then Folded else Active)]
      && (move == Check ==> b.players[t].investedThisStreet == b.currentBet)
  {
  }

  /** A fold takes the actor out of the ACTIVE players; a check makes one more of them acted. */
  lemma FoldOrCheckLowers(s: GameState, t: nat, move: Move, amount: Option<int>)
    requires Inv(s) && TurnAt(s, t) && ApplyMove(BettingOf(s), t, move, amount).Ok? && (move == Fold || move == Check)
    ensures var after := Mutated(s, t, move, amount).players;
      && TotalChips(after) == TotalChips(s.players)
      && (move == Fold ==> Sum(ActiveFlags(after)) < Sum(ActiveFlags(s.players)))
      && (move != Fold ==> Sum(ActiveFlags(after)) == Sum(ActiveFlags(s.players)))
      && (move != Fold ==> Sum(UnactedFlags(after)) < Sum(UnactedFlags(s.players)))
  {
    TurnFacts(s, t);
    FoldOrCheckEffect(BettingOf(s), t, move, amount);
    FoldOrCheckFlags(s.players, Mutated(s, t, move, amount).players, t, s.currentBet, move == Fold);
  }

  lemma FoldOrCheckFlags(before: seq<Player>, after: seq<Player>, t: nat, bet: int, fold: bool)
    requires t < |before| && NeedsAction(before[t], bet) && (!fold ==> before[t].investedThisStreet == bet)
    requires after == before[t := before[t].(hasActed := true, status := if fold then Folded else Active)]
    ensures TotalChips(after) == TotalChips(before)
    ensures if fold then Sum(ActiveFlags(after)) < Sum(ActiveFlags(before))
      else Sum(ActiveFlags(after)) == Sum(ActiveFlags(before)) && Sum(UnactedFlags(after)) < Sum(UnactedFlags(before))
  {
    assert Stacks(after) == Stacks(before);
    FlagsUpdated(before, after, t);
  }

  /** A hand that goes on is either at the next turn of the same street or at a later street. */
  lemma GoesOn(m: GameState, a: nat)
    requires Mid(m, a) && NormalizeAfterAction(m, m.players[a].seatNo).Ok?
    requires Inv(NormalizeAfterAction(m, m.players[a].seatNo).value)
    ensures var r := NormalizeAfterAction(m, m.players[a].seatNo).value;
      StreetsLeft(r.street) < StreetsLeft(m.street) || (r.street == m.street && r.players == m.players)
  {
    var from := m.players[a].seatNo;
    var r := NormalizeAfterAction(m, from).value;
    if ContenderCount(m.players) == 1 {
      OneContenderEnds(m, from);
    } else if !NobodyCanBet(m.players) && IsBettingRoundComplete(m.players, m.currentBet) && m.street != River {
      NextStreetStarts(m, a);
      NormalizeAdvances(m, from);
      AdvanceIsLater(m, r);
    } else {
      StaysOrEnds(m, a, r);
    }
  }

  lemma OneContenderEnds(m: GameState, from: int)
    requires m.street != Showdown && ContenderCount(m.players) == 1
    ensures NormalizeAfterAction(m, from).Ok? && NormalizeAfterAction(m, from).value.status == HandFinished
  {
    ContenderFound(m.players);
  }

  lemma AdvanceIsLater(m: GameState, r: GameState)
    requires m.street != Showdown && AdvanceStreet(WithPot(m)) == Ok(r)
    ensures StreetsLeft(r.street) < StreetsLeft(m.street)
  {
  }

  lemma StaysOrEnds(m: GameState, a: nat, r: GameState)
    requires Mid(m, a) && NormalizeAfterAction(m, m.players[a].seatNo) == Ok(r) && ContenderCount(m.players) >= 2
    requires NobodyCanBet(m.players) || !IsBettingRoundComplete(m.players, m.currentBet) || m.street == River
    ensures r.status == HandFinished || r == PassTurn(WithPot(m), m.players[a].seatNo)
  {
    UnderwayFacts(m);
    ShowdownHappens(m);
    NormalizeEndsOrPasses(m, m.players[a].seatNo);
  }

  /** Every accepted action that leaves the hand in play lowers the measure. */
  lemma StepLowers(s: GameState, input: Input)
    requires Inv(s) && ApplyGameAction(s, input).Ok? && Inv(ApplyGameAction(s, input).value)
    ensures Below(MeasureOf(ApplyGameAction(s, input).value), MeasureOf(s))
  {
    var t: nat :| TurnAt(s, t);
    StepOutcome(s, t, input);
    AcceptedIff(s, t, input);
    MutatedIsMid(s, t, input.move, input.amount);
    var b := BettingOf(s);
    var moved := ApplyMove(b, t, input.move, input.amount).value;
    TurnFacts(s, t);
    MoveHasEffect(b, t, input.move, input.amount);
    MutationSpends(b, t, moved.betting, moved.amount, input.move == Fold);
    GoesOn(Mutated(s, t, input.move, input.amount), t);
    if input.move == Fold || input.move == Check {
      FoldOrCheckLowers(s, t, input.move, input.amount);
    }
  }

  // ---------- forfeiting an excess ends the hand ----------

  lemma NoBettorsEnd(m: GameState, a: nat)
    requires Mid(m, a) && ContenderCount(m.players) >= 2 && !SomeoneActive(m.players)
    ensures NormalizeAfterAction(m, m.players[a].seatNo).Ok?
    ensures NormalizeAfterAction(m, m.players[a].seatNo).value.status == HandFinished
  {
    UnderwayFacts(m);
    ShowdownHappens(m);
    NobodyActiveBets(m.players);
    NormalizeEndsOrPasses(m, m.players[a].seatNo);
  }

  lemma NobodyActiveBets(players: seq<Player>)
    requires AllOk(players) && !SomeoneActive(players)
    ensures NobodyCanBet(players)
  {
    forall i | 0 <= i < |players| && Contends(players[i].status) ensures players[i].status == AllIn {
      assert players[i].status != Active;
    }
  }

  /** Giving up an excess always ends the hand. */
  lemma ForfeitFinishes(g: GameState, t: nat, input: Input)
    requires Inv(g) && TurnAt(g, t) && ApplyGameAction(g, input).Ok? && ForfeitsExcess(g, t, input.move)
    ensures ApplyGameAction(g, input).value.status == HandFinished
  {
    AcceptedIff(g, t, input);
    MutatedIsMid(g, t, input.move, input.amount);
    UncoveredIffForfeits(g, t, input);
    NoBettorsEnd(Mutated(g, t, input.move, input.amount), t);
  }

  // ---------- every reachable state can go on ----------

  /** While the hand is played at least two players contend and the turn is with an ACTIVE player who has chips and is
      either yet to act or behind the bet; folding is always open to that player. */
  lemma SomebodyCanAct(s: GameState) returns (t: nat)
    requires Inv(s)
    ensures TurnAt(s, t) && s.players[t].status == Active && s.players[t].chips > 0
    ensures !s.players[t].hasActed || s.players[t].investedThisStreet < s.currentBet
    ensures exists x, y :: 0 <= x < y < |s.players| && Contends(s.players[x].status) && Contends(s.players[y].status)
    ensures ApplyGameAction(s, Input(s.players[t].seatNo, s.players[t].userId, Fold, None)).Ok?
  {
    t :| TurnAt(s, t);
    var x, y := PairOfContenders(s.players);
    AcceptedIff(s, t, Input(s.players[t].seatNo, s.players[t].userId, Fold, None));
  }

  /** The recursive call of normalizeAfterAction is never taken: a street that opens has a player to open it. */
  lemma RecursionNeverTaken(m: GameState, a: nat)
    requires Mid(m, a) && ContenderCount(m.players) >= 2 && !NobodyCanBet(m.players)
    requires IsBettingRoundComplete(m.players, m.currentBet) && m.street != River
    ensures AdvanceStreet(WithPot(m)).Ok? && AdvanceStreet(WithPot(m)).value.turn.Some?
  {
    NextStreetStarts(m, a);
  }

  // ---------- every hand finishes ----------

  /** The inputs a strategy plays in its first n moves. */
  ghost function MovesOf(s: GameState, strategy: (nat, GameState) -> Input, n: nat): (inputs: seq<Input>)
    requires Sound(s)
    ensures |inputs| == n
  {
    if n == 0 then []
    else
      var before := MovesOf(s, strategy, n - 1);
      before + [strategy(n - 1, Run(s, before))]
  }

  /** The engine accepts the strategy's move after n moves, if the hand is still played then. */
  ghost predicate AcceptedAt(s: GameState, strategy: (nat, GameState) -> Input, n: nat)
    requires Sound(s)
  {
    var here := Run(s, MovesOf(s, strategy, n));
    Inv(here) ==> ApplyGameAction(here, strategy(n, here)).Ok?
  }

  /** Played from s, the strategy never meets a rejection. */
  ghost predicate AlwaysAccepted(s: GameState, strategy: (nat, GameState) -> Input)
    requires Sound(s)
  {
    forall n: nat :: AcceptedAt(s, strategy, n)
  }

  lemma MovesOfStep(s: GameState, strategy: (nat, GameState) -> Input, n: nat)
    requires Sound(s)
    ensures var here := Run(s, MovesOf(s, strategy, n));
      OnAStreet(here) && Run(s, MovesOf(s, strategy, n + 1)) == Step(here, strategy(n, here))
  {
    var inputs := MovesOf(s, strategy, n + 1);
    assert inputs[..n] == MovesOf(s, strategy, n);
    SoundOnAStreet(Run(s, MovesOf(s, strategy, n)));
  }

  lemma {:induction false} FinishesFrom(s: GameState, strategy: (nat, GameState) -> Input, n: nat) returns (end: nat)
    requires Sound(s) && AlwaysAccepted(s, strategy)
    ensures Closed(Run(s, MovesOf(s, strategy, end)))
    decreases if Inv(Run(s, MovesOf(s, strategy, n))) then MeasureOf(Run(s, MovesOf(s, strategy, n))).streets + 1
      else 0,
      if Inv(Run(s, MovesOf(s, strategy, n))) then MeasureOf(Run(s, MovesOf(s, strategy, n))).chips else 0,
      if Inv(Run(s, MovesOf(s, strategy, n))) then MeasureOf(Run(s, MovesOf(s, strategy, n))).active else 0,
      if Inv(Run(s, MovesOf(s, strategy, n))) then MeasureOf(Run(s, MovesOf(s, strategy, n))).unacted else 0
  {
    var here := Run(s, MovesOf(s, strategy, n));
    if Closed(here) {
      end := n;
    } else {
      var input := strategy(n, here);
      MovesOfStep(s, strategy, n);
      assert AcceptedAt(s, strategy, n);
      if Inv(ApplyGameAction(here, input).value) {
        StepLowers(here, input);
      }
      end := FinishesFrom(s, strategy, n + 1);
    }
  }

  /** After n moves of the strategy the hand is over. */
  ghost predicate OverAfter(s: GameState, strategy: (nat, GameState) -> Input, n: nat)
    requires Sound(s)
  {
    Closed(Run(s, MovesOf(s, strategy, n)))
  }

  /** Whatever the players do, as long as the actions they make along the hand are accepted, it comes to an end. */
  lemma EveryHandFinishes(s: GameState, strategy: (nat, GameState) -> Input)
    requires Sound(s) && AlwaysAccepted(s, strategy)
    ensures exists n: nat :: OverAfter(s, strategy, n)
  {
    var end := FinishesFrom(s, strategy, 0);
    assert OverAfter(s, strategy, end);
  }
}
