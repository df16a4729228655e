/** Whole hands: every state reachable by accepted actions, what every step
    keeps, and how a hand ends. */
module HandRuns {
  import opened Sequences
  import opened Deck
  import opened Pots
  import opened Engine
  import opened TurnOrder
  import opened HandInvariant
  import opened HandAccounting
  import opened HandStep

  // ---------- one action ----------

  /** The state between the mutation and normalizeAfterAction. */
  function Mutated(s: GameState, t: nat, move: Move, amount: Option<int>): GameState
    requires t < |s.players| && ApplyMove(BettingOf(s), t, move, amount).Ok?
  {
    Record(s, t, move, ApplyMove(BettingOf(s), t, move, amount).value)
  }

  lemma TurnFacts(s: GameState, t: nat)
    requires Inv(s) && TurnAt(s, t)
    ensures CanAct(s.players[t]) && PositionOf(s.players, s.players[t].seatNo) == t
    ensures 0 <= s.players[t].investedThisStreet <= s.currentBet
  {
    PositionAt(s.players, t);
    assert PlayerOk(s.players[t]);
  }

  lemma MutatedCovered(s: GameState, t: nat, move: Move, amount: Option<int>)
    requires Inv(s) && TurnAt(s, t) && ApplyMove(BettingOf(s), t, move, amount).Ok?
    ensures var m := Mutated(s, t, move, amount);
      SomeoneActive(m.players) || move != Fold ==> Covered(m.players)
  {
    TurnFacts(s, t);
    var b := BettingOf(s);
    var m := ApplyMove(b, t, move, amount).value;
    MoveHasEffect(b, t, move, amount);
    if move != Fold {
      StayingCovers(b, t, m.betting, m.amount);
    } else if SomeoneActive(m.betting.players) {
      FoldingCovers(b, t, m.betting);
    }
  }

  lemma MutatedUnderway(s: GameState, t: nat, move: Move, amount: Option<int>)
    requires Inv(s) && TurnAt(s, t) && ApplyMove(BettingOf(s), t, move, amount).Ok?
    ensures Underway(Mutated(s, t, move, amount))
  {
    TurnFacts(s, t);
    var b := BettingOf(s);
    var m := ApplyMove(b, t, move, amount).value;
    MoveHasEffect(b, t, move, amount);
    EffectKeepsTable(b, t, m.betting, m.amount, move == Fold);
    SeatsStay(s.players, m.betting.players, s.dealerSeat);
  }

  lemma SeatsStay(before: seq<Player>, after: seq<Player>, seat: int)
    requires SeatTaken(before, seat) && |after| == |before|
    requires forall k :: 0 <= k < |before| ==> after[k].seatNo == before[k].seatNo
    ensures SeatTaken(after, seat)
  {
    var k :| 0 <= k < |before| && before[k].seatNo == seat;
    assert after[k].seatNo == seat;
  }

  lemma MutatedIsMid(s: GameState, t: nat, move: Move, amount: Option<int>)
    requires Inv(s) && TurnAt(s, t) && ApplyMove(BettingOf(s), t, move, amount).Ok?
    ensures Mid(Mutated(s, t, move, amount), t)
    ensures Mutated(s, t, move, amount).players[t].seatNo == s.players[t].seatNo
    ensures move != Fold ==> ContenderCount(Mutated(s, t, move, amount).players) >= 2
  {
    TurnFacts(s, t);
    var b := BettingOf(s);
    var m := ApplyMove(b, t, move, amount).value;
    MoveHasEffect(b, t, move, amount);
    MutatedUnderway(s, t, move, amount);
    MutatedCovered(s, t, move, amount);
    EffectKeepsOption(b, t, m.betting, m.amount, move == Fold);
    SomeoneStays(b, t, m.betting, m.amount, move == Fold);
  }

  /** applyGameAction for the player on turn, once the seat is found and able to act. */
  lemma ActionIs(s: GameState, t: nat, input: Input)
    requires s.status == Playing && s.street != Showdown && t < |s.players| && s.turn == Some(s.players[t].seatNo)
    requires CanAct(s.players[t]) && PositionOf(s.players, s.players[t].seatNo) == t
    ensures input.seatNo != s.players[t].seatNo ==> ApplyGameAction(s, input).Err?
    ensures s.players[t].userId.Some? && input.userId.Some? && s.players[t].userId != input.userId ==>
      ApplyGameAction(s, input).Err?
    ensures ApplyMove(BettingOf(s), t, input.move, input.amount).Err? ==> ApplyGameAction(s, input).Err?
    ensures (input.seatNo == s.players[t].seatNo
      && !(s.players[t].userId.Some? && input.userId.Some? && s.players[t].userId != input.userId)
      && ApplyMove(BettingOf(s), t, input.move, input.amount).Ok?) ==>
        ApplyGameAction(s, input) == NormalizeAfterAction(Mutated(s, t, input.move, input.amount), s.players[t].seatNo)
  {
  }

  lemma NormalizeSucceeds(s: GameState, t: nat, move: Move, amount: Option<int>)
    requires Inv(s) && TurnAt(s, t) && ApplyMove(BettingOf(s), t, move, amount).Ok?
    ensures NormalizeAfterAction(Mutated(s, t, move, amount), s.players[t].seatNo).Ok?
  {
    MutatedIsMid(s, t, move, amount);
    NormalizeOutcome(Mutated(s, t, move, amount), t);
  }

  /** In play, an action is accepted exactly when it comes from the seat on turn, under no other identity, and its
      mutation is allowed: nothing that follows the mutation can fail. */
  lemma AcceptedIff(s: GameState, t: nat, input: Input)
    requires Inv(s) && TurnAt(s, t)
    ensures ApplyGameAction(s, input).Ok? <==>
      && input.seatNo == s.players[t].seatNo
      && !(s.players[t].userId.Some? && input.userId.Some? && s.players[t].userId != input.userId)
      && ApplyMove(BettingOf(s), t, input.move, input.amount).Ok?
    ensures ApplyGameAction(s, input).Ok? ==>
      ApplyGameAction(s, input) == NormalizeAfterAction(Mutated(s, t, input.move, input.amount), s.players[t].seatNo)
  {
    TurnFacts(s, t);
    ActionIs(s, t, input);
    if ApplyMove(BettingOf(s), t, input.move, input.amount).Ok? {
      NormalizeSucceeds(s, t, input.move, input.amount);
    }
  }

  /** What an accepted action leads to. */
  lemma StepOutcome(s: GameState, t: nat, input: Input)
    requires Inv(s) && TurnAt(s, t) && ApplyGameAction(s, input).Ok?
    ensures ApplyMove(BettingOf(s), t, input.move, input.amount).Ok?
    ensures var m, r := Mutated(s, t, input.move, input.amount), ApplyGameAction(s, input).value;
      Mid(m, t) && (Inv(r) || FoldEnd(m, r) || ShowdownEnd(m, r))
  {
    AcceptedIff(s, t, input);
    MutatedIsMid(s, t, input.move, input.amount);
    NormalizeOutcome(Mutated(s, t, input.move, input.amount), t);
  }

  // ---------- what no action touches ----------

  /** Who sits where, with which cards and which starting stack. */
  function Identity(p: Player): (int, Option<int>, seq<Card>, int) {
    (p.seatNo, p.userId, p.holeCards, p.startHandChips)
  }

  ghost predicate SameIdentities(a: seq<Player>, b: seq<Player>) {
    |a| == |b| && forall i :: 0 <= i < |a| ==> Identity(a[i]) == Identity(b[i])
  }

  /** Seats, hole cards, starting stacks, button and blinds stay, and cards only move from the top of the deck to the
      end of the board. */
  ghost predicate CardsKept(s: GameState, r: GameState) {
    && SameIdentities(s.players, r.players)
    && r.dealerSeat == s.dealerSeat && r.smallBlindSeat == s.smallBlindSeat && r.bigBlindSeat == s.bigBlindSeat
    && r.smallBlind == s.smallBlind && r.bigBlind == s.bigBlind
    && r.board + r.deck == s.board + s.deck && s.board <= r.board
  }

  /** normalizeAfterAction also leaves the history, the investments and who has folded. */
  ghost predicate Kept(s: GameState, r: GameState) {
    && CardsKept(s, r) && r.history == s.history
    && forall i :: 0 <= i < |s.players| ==>
      r.players[i].investedThisHand == s.players[i].investedThisHand && r.players[i].status == s.players[i].status
  }

  lemma {:induction false} DealingKeeps(s: GameState)
    requires DealBoardToFive(s).Ok?
    ensures var r := DealBoardToFive(s).value;
      r == s.(deck := r.deck, board := r.board) && r.board + r.deck == s.board + s.deck && s.board <= r.board
    decreases 5 - |s.board|
  {
    if |s.board| < 5 {
      var t := s.(deck := s.deck[1..], board := s.board + s.deck[..1]);
      assert t.board + t.deck == s.board + s.deck;
      DealingKeeps(t);
    }
  }

  lemma ShowdownKeeps(s: GameState)
    requires FinishByShowdown(s).Ok?
    ensures Kept(s, FinishByShowdown(s).value)
  {
    DealingKeeps(s);
  }

  lemma AdvanceKeeps(s: GameState)
    requires AdvanceStreet(s).Ok?
    ensures Kept(s, AdvanceStreet(s).value)
  {
    var dealt := DealCards(s.deck, CardsToDeal(s.street)).value;
    assert s.board + s.deck == (s.board + dealt.cards) + dealt.deck;
  }

  lemma KeptTransitive(s: GameState, t: GameState, r: GameState)
    requires Kept(s, t) && Kept(t, r)
    ensures Kept(s, r)
  {
  }

  /** The branches of normalizeAfterAction. */
  ghost predicate NormalizeBranch(u: GameState, from: int, r: GameState)
    requires u.street != Showdown
  {
    || (FirstContender(u.players) < |u.players| && r == FinishByFold(u, FirstContender(u.players)))
    || (DealBoardToFive(u).Ok? && FinishByShowdown(DealBoardToFive(u).value) == Ok(r))
    || FinishByShowdown(u) == Ok(r)
    || AdvanceStreet(u) == Ok(r)
    || (u.street != River && AdvanceStreet(u).Ok? && NormalizeAfterAction(AdvanceStreet(u).value, from) == Ok(r))
    || r == PassTurn(u, from)
  }

  lemma NormalizeCases(s: GameState, from: int, r: GameState)
    requires s.street != Showdown && NormalizeAfterAction(s, from) == Ok(r)
    ensures NormalizeBranch(WithPot(s), from, r)
  {
    if ContenderCount(s.players) == 1 {
      ContenderFound(s.players);
    }
  }

  lemma {:induction false} NormalizeKeeps(s: GameState, from: int)
    requires s.street != Showdown && NormalizeAfterAction(s, from).Ok?
    ensures Kept(s, NormalizeAfterAction(s, from).value)
    decreases StreetsLeft(s.street), 2
  {
    NormalizeCases(s, from, NormalizeAfterAction(s, from).value);
    BranchKeeps(WithPot(s), from, NormalizeAfterAction(s, from).value);
  }

  lemma DealtShowdownKeeps(u: GameState, r: GameState)
    requires DealBoardToFive(u).Ok? && FinishByShowdown(DealBoardToFive(u).value) == Ok(r)
    ensures Kept(u, r)
  {
    var v := DealBoardToFive(u).value;
    DealingKeeps(u);
    ShowdownKeeps(v);
    KeptTransitive(u, v, r);
  }

  lemma FoldKeeps(u: GameState, winner: nat)
    requires winner < |u.players|
    ensures Kept(u, FinishByFold(u, winner))
  {
  }

  lemma {:induction false} BranchKeeps(u: GameState, from: int, r: GameState)
    requires u.street != Showdown && NormalizeBranch(u, from, r)
    ensures Kept(u, r)
    decreases StreetsLeft(u.street), 1
  {
    if FirstContender(u.players) < |u.players| && r == FinishByFold(u, FirstContender(u.players)) {
      FoldKeeps(u, FirstContender(u.players));
    } else if DealBoardToFive(u).Ok? && FinishByShowdown(DealBoardToFive(u).value) == Ok(r) {
      DealtShowdownKeeps(u, r);
    } else if FinishByShowdown(u) == Ok(r) {
      ShowdownKeeps(u);
    } else if AdvanceStreet(u) == Ok(r) {
      AdvanceKeeps(u);
    } else if u.street != River && AdvanceStreet(u).Ok? && NormalizeAfterAction(AdvanceStreet(u).value, from) == Ok(r) {
      LaterStreetKeeps(u, from, r);
    }
  }

  lemma {:induction false} LaterStreetKeeps(u: GameState, from: int, r: GameState)
    requires u.street != River && u.street != Showdown && AdvanceStreet(u).Ok?
    requires NormalizeAfterAction(AdvanceStreet(u).value, from) == Ok(r)
    ensures Kept(u, r)
    decreases StreetsLeft(u.street), 0
  {
    var v := AdvanceStreet(u).value;
    AdvanceKeeps(u);
    NormalizeKeeps(v, from);
    KeptTransitive(u, v, r);
  }

  lemma MutatedKeeps(s: GameState, t: nat, move: Move, amount: Option<int>)
    requires t < |s.players| && CanAct(s.players[t]) && s.minRaise > 0
    requires 0 <= s.players[t].investedThisStreet <= s.currentBet
    requires ApplyMove(BettingOf(s), t, move, amount).Ok?
    ensures CardsKept(s, Mutated(s, t, move, amount))
  {
    MoveHasEffect(BettingOf(s), t, move, amount);
  }

  /** An accepted action adds one history row and otherwise keeps what Kept lists. */
  lemma ActionKeeps(s: GameState, t: nat, input: Input)
    requires Inv(s) && TurnAt(s, t) && ApplyGameAction(s, input).Ok?
    ensures ApplyMove(BettingOf(s), t, input.move, input.amount).Ok?
    ensures var r := ApplyGameAction(s, input).value;
      && CardsKept(s, r)
      && Kept(Mutated(s, t, input.move, input.amount), r)
      && r.history == s.history + [Entry(s.players[t].seatNo, Played(input.move),
        ApplyMove(BettingOf(s), t, input.move, input.amount).value.amount, s.street)]
  {
    TurnFacts(s, t);
    AcceptedIff(s, t, input);
    MutatedKeeps(s, t, input.move, input.amount);
    NormalizeKeeps(Mutated(s, t, input.move, input.amount), s.players[t].seatNo);
  }

  // ---------- the money at the end ----------

  /** A finished hand: an uncontested pot returns every chip; a showdown returns all but what was invested above the
      largest contender's investment. */
  ghost predicate Closed(s: GameState) {
    && s.status == HandFinished && s.turn == None && s.currentBet == 0
    && s.winnerInfo.Some?
    && TotalChips(s.players) == TotalStart(s.players) -
      (if s.winnerInfo.value.reason == AllOthersFolded then 0 else Shortfall(s.players))
  }

  lemma FoldCloses(m: GameState, r: GameState)
    requires AllOk(m.players) && FoldEnd(m, r)
    ensures Closed(r) && r.winnerInfo.value.reason == AllOthersFolded
    ensures TotalChips(r.players) == TotalStart(m.players)
  {
    FoldFinishPaysPot(WithPot(m), FirstContender(m.players));
    StacksPlusPot(m.players);
    assert Starts(r.players) == Starts(m.players);
  }

  lemma SameShortfall(a: seq<Player>, b: seq<Player>)
    requires |a| == |b|
    requires forall i :: 0 <= i < |a| ==> a[i].(chips := b[i].chips) == b[i]
    ensures Shortfall(a) == Shortfall(b)
  {
    assert PotView(a) == PotView(b);
    var m := LargestContender(PotView(a));
    assert Excesses(a, m) == Excesses(b, m);
  }

  lemma ShowdownCloses(m: GameState, r: GameState)
    requires SeatsAscend(m.players) && AllOk(m.players) && ShowdownEnd(m, r)
    ensures Closed(r) && r.winnerInfo.value.reason == ShowdownReached
    ensures Shortfall(r.players) == Shortfall(m.players)
    ensures TotalChips(r.players) == TotalStart(m.players) - Shortfall(m.players)
  {
    var hands := EvaluateContenders(m.players, FullBoard(m).board).value;
    ShowdownPays(FullBoard(WithPot(m)), hands);
    assert Starts(r.players) == Starts(m.players);
    SameShortfall(r.players, m.players);
  }

  ghost predicate Sound(s: GameState) {
    Inv(s) || Closed(s)
  }

  lemma StepKeepsSound(s: GameState, input: Input)
    requires Inv(s) && ApplyGameAction(s, input).Ok?
    ensures Sound(ApplyGameAction(s, input).value)
    ensures TotalStart(ApplyGameAction(s, input).value.players) == TotalStart(s.players)
  {
    var t: nat :| TurnAt(s, t);
    StepOutcome(s, t, input);
    var m, r := Mutated(s, t, input.move, input.amount), ApplyGameAction(s, input).value;
    UnderwayFacts(m);
    if FoldEnd(m, r) {
      FoldCloses(m, r);
    } else if ShowdownEnd(m, r) {
      ShowdownCloses(m, r);
    }
    StepKeepsStart(s, t, input);
  }

  lemma SameStart(a: seq<Player>, b: seq<Player>)
    requires SameIdentities(a, b)
    ensures TotalStart(a) == TotalStart(b)
  {
    forall i | 0 <= i < |a| ensures a[i].startHandChips == b[i].startHandChips {
      assert Identity(a[i]) == Identity(b[i]);
    }
    assert Starts(a) == Starts(b);
  }

  lemma StepKeepsStart(s: GameState, t: nat, input: Input)
    requires Inv(s) && TurnAt(s, t) && ApplyGameAction(s, input).Ok?
    ensures TotalStart(ApplyGameAction(s, input).value.players) == TotalStart(s.players)
  {
    ActionKeeps(s, t, input);
    SameStart(s.players, ApplyGameAction(s, input).value.players);
  }

  // ---------- exactly when chips are lost ----------

  /** The player on turn is the last one who could still bet. */
  ghost predicate LastBettor(players: seq<Player>, t: nat) {
    forall k :: 0 <= k < |players| && k != t ==> players[k].status != Active
  }

  ghost predicate AboveOthers(players: seq<Player>, t: nat)
    requires t < |players|
  {
    forall k :: 0 <= k < |players| && k != t && Contends(players[k].status) ==>
      players[k].investedThisHand < players[t].investedThisHand
  }

  /** The only way to lose chips: the last bettor folds against two or more all-in players after investing more than
      any of them. All three conditions can be read off the state before the action. */
  ghost predicate ForfeitsExcess(s: GameState, t: nat, move: Move)
    requires t < |s.players|
  {
    move == Fold && ContenderCount(s.players) >= 3 && LastBettor(s.players, t) && AboveOthers(s.players, t)
  }

  lemma {:induction false} FoldDropsOne(players: seq<Player>, i: nat, p: Player)
    requires i < |players| && Contends(players[i].status) && !Contends(p.status)
    ensures ContenderCount(players[i := p]) == ContenderCount(players) - 1
  {
    var n := |players| - 1;
    if i == n {
      assert players[i := p][..n] == players[..n];
    } else {
      assert players[i := p][..n] == players[..n][i := p];
      FoldDropsOne(players[..n], i, p);
    }
  }

  /** After the last bettor folds, everyone is covered exactly when the folder invested no more than some contender. */
  lemma LastFoldCovered(s: GameState, t: nat)
    requires Inv(s) && TurnAt(s, t)
    ensures var m := Mutated(s, t, Fold, None).players;
      ContenderCount(m) >= 2 ==> (Covered(m) <==> !AboveOthers(s.players, t))
  {
    FoldedCover(s.players, Mutated(s, t, Fold, None).players, t);
  }

  lemma FoldedCover(before: seq<Player>, after: seq<Player>, t: nat)
    requires Covered(before) && t < |before|
    requires after == before[t := before[t].(status := Folded, hasActed := true)]
    ensures Covered(after) <==> !AboveOthers(before, t)
  {
    if AboveOthers(before, t) {
      assert !CoveredAt(after, t);
    } else {
      var d :| 0 <= d < |before| && d != t && Contends(before[d].status)
        && before[d].investedThisHand >= before[t].investedThisHand;
      forall f | 0 <= f < |after| ensures CoveredAt(after, f) {
        var c := CoveredBy(before, f);
        CoverWith(after, f, if c == t then d else c);
      }
    }
  }

  lemma MutatedFoldIgnoresAmount(s: GameState, t: nat, amount: Option<int>)
    requires t < |s.players|
    ensures ApplyMove(BettingOf(s), t, Fold, amount) == ApplyMove(BettingOf(s), t, Fold, None)
  {
  }

  /** The mutation leaves somebody uncovered exactly when the action forfeits an excess. */
  lemma UncoveredIffForfeits(s: GameState, t: nat, input: Input)
    requires Inv(s) && TurnAt(s, t) && ApplyMove(BettingOf(s), t, input.move, input.amount).Ok?
    ensures var m := Mutated(s, t, input.move, input.amount).players;
      ContenderCount(m) >= 2 && !Covered(m) <==> ForfeitsExcess(s, t, input.move)
  {
    var m := Mutated(s, t, input.move, input.amount).players;
    TurnFacts(s, t);
    MutatedCovered(s, t, input.move, input.amount);
    if input.move == Fold {
      MoveHasEffect(BettingOf(s), t, Fold, input.amount);
      FoldDropsOne(s.players, t, m[t]);
      MutatedFoldIgnoresAmount(s, t, input.amount);
      LastFoldCovered(s, t);
      assert LastBettor(s.players, t) <==> !SomeoneActive(m);
    }
  }

  /** In every reachable hand, a finishing action loses chips exactly when it forfeits an excess; otherwise the stacks
      add up to what the players started with. */
  lemma ChipsLostExactly(s: GameState, input: Input, t: nat)
    requires Inv(s) && TurnAt(s, t) && ApplyGameAction(s, input).Ok?
    requires ApplyGameAction(s, input).value.status == HandFinished
    ensures var r := ApplyGameAction(s, input).value;
      && TotalChips(r.players) <= TotalStart(s.players)
      && (TotalChips(r.players) < TotalStart(s.players) <==> ForfeitsExcess(s, t, input.move))
      && (ForfeitsExcess(s, t, input.move) ==> TotalChips(r.players) == TotalStart(s.players) - Shortfall(r.players))
  {
    StepOutcome(s, t, input);
    UncoveredIffForfeits(s, t, input);
    StepKeepsSound(s, input);
    var m, r := Mutated(s, t, input.move, input.amount), ApplyGameAction(s, input).value;
    UnderwayFacts(m);
    if FoldEnd(m, r) {
      FoldCloses(m, r);
    } else {
      ShowdownCloses(m, r);
      NoShortfallIffCovered(m.players);
    }
  }

  // ---------- runs ----------

  /** A rejected action leaves the stored hand as it was. */
  function Step(s: GameState, input: Input): GameState
    requires OnAStreet(s)
  {
    var r := ApplyGameAction(s, input);
    if r.Ok? then r.value else s
  }

  lemma SoundOnAStreet(s: GameState)
    requires Sound(s)
    ensures OnAStreet(s)
  {
  }

  /** The hand after a sequence of attempted actions. */
  ghost function Run(s: GameState, inputs: seq<Input>): (r: GameState)
    requires Sound(s)
    ensures Sound(r) && TotalStart(r.players) == TotalStart(s.players)
  {
    if inputs == [] then s
    else
      var n := |inputs| - 1;
      var before := Run(s, inputs[..n]);
      StepSound(before, inputs[n]);
      Step(before, inputs[n])
  }

  lemma StepSound(s: GameState, input: Input)
    requires Sound(s)
    ensures OnAStreet(s) && Sound(Step(s, input)) && TotalStart(Step(s, input).players) == TotalStart(s.players)
  {
    if Inv(s) && ApplyGameAction(s, input).Ok? {
      StepKeepsSound(s, input);
    }
  }
}
