/** state-machine.ts in the form the source has it: a cloned GameState whose
    fields the helper functions update in place. Every method is proved to do
    exactly what the functions of Engine.dfy say. */
module HandTable {
  import opened Sequences
  import opened Deck
  import Evaluator
  import opened Pots
  import opened Engine
  import opened HandAccounting
  import HandRuns
  import opened HandStart

  ghost predicate SeatsDistinct(players: seq<Player>) {
    forall i, j :: 0 <= i < j < |players| ==> players[i].seatNo != players[j].seatNo
  }

  class GameTable {
    var status: GameStatus
    var street: Street
    var deck: seq<Card>
    var board: seq<Card>
    var pot: int
    var currentBet: int
    var minRaise: int
    var dealerSeat: int
    var smallBlindSeat: int
    var bigBlindSeat: int
    var smallBlind: int
    var bigBlind: int
    var turn: Option<int>
    var lastAggressor: Option<int>
    var players: seq<Player>
    var history: seq<Entry>
    var winnerInfo: Option<WinnerInfo>

    function Snapshot(): GameState
      reads this
    {
      GameState(status, street, deck, board, pot, currentBet, minRaise, dealerSeat, smallBlindSeat, bigBlindSeat,
        smallBlind, bigBlind, turn, lastAggressor, players, history, winnerInfo)
    }

    /** cloneState. */
    constructor Clone(s: GameState)
      ensures Snapshot() == s
    {
      status, street, deck, board := s.status, s.street, s.deck, s.board;
      pot, currentBet, minRaise := s.pot, s.currentBet, s.minRaise;
      dealerSeat, smallBlindSeat, bigBlindSeat := s.dealerSeat, s.smallBlindSeat, s.bigBlindSeat;
      smallBlind, bigBlind := s.smallBlind, s.bigBlind;
      turn, lastAggressor := s.turn, s.lastAggressor;
      players, history, winnerInfo := s.players, s.history, s.winnerInfo;
    }

    method FirstActionable(seat: int) returns (next: Option<int>)
      ensures next == FirstActionableSeatAfter(players, currentBet, seat)
    {
      if players == [] {
        return None;
      }
      var seats := SeatsOf(players);
      var cursor := seat;
      for index := 0 to |seats|
        invariant FirstActionableFrom(players, currentBet, cursor, |seats| - index) ==
          FirstActionableSeatAfter(players, currentBet, seat)
      {
        cursor := NextSeat(seats, cursor);
        var k := PositionOf(players, cursor);
        if k < |players| && NeedsAction(players[k], currentBet) {
          return Some(cursor);
        }
      }
      next := None;
    }

    /** investChips; false stands for its exception, InvalidChipAmount. */
    method Invest(i: nat, amount: int) returns (invested: bool)
      requires i < |players|
      modifies this`players
      ensures invested <==> InvestChips(old(players[i]), amount).Ok?
      ensures !invested ==> players == old(players) && InvestChips(old(players[i]), amount) == Err(InvalidChipAmount)
      ensures invested ==> players == old(players)[i := InvestChips(old(players[i]), amount).value]
    {
      var p := players[i];
      if amount < 0 || amount > p.chips {
        return false;
      }
      p := p.(chips := p.chips - amount);
      p := p.(investedThisStreet := p.investedThisStreet + amount);
      p := p.(investedThisHand := p.investedThisHand + amount);
      if p.chips == 0 && p.status == Active {
        p := p.(status := AllIn);
      }
      players := players[i := p];
      invested := true;
    }

    method MarkAggression(actor: nat)
      requires actor < |players|
      modifies this`players, this`lastAggressor
      ensures players == MarkFullAggression(old(players), actor)
      ensures lastAggressor == Some(old(players[actor].seatNo))
    {
      for i := 0 to |players|
        invariant |players| == |old(players)|
        invariant forall k :: i <= k < |players| ==> players[k] == old(players)[k]
        invariant forall k :: 0 <= k < i ==>
          players[k] == if CanAct(old(players)[k]) then old(players)[k].(hasActed := false) else old(players)[k]
      {
        if players[i].status == Active && players[i].chips > 0 {
          players := players[i := players[i].(hasActed := false)];
        }
      }
      players := players[actor := players[actor].(hasActed := true)];
      lastAggressor := Some(players[actor].seatNo);
    }

    method MarkActed(i: nat)
      requires i < |players|
      modifies this`players
      ensures players == SetActed(old(players), i)
    {
      players := players[i := players[i].(hasActed := true)];
    }

    /** applyActionMutation: what is recorded as the amount, or why the action is refused. After a refusal the clone is
        thrown away, so nothing is promised about it. */
    method Mutate(i: nat, move: Move, amount: Option<int>) returns (r: Result<int, EngineError>)
      requires i < |players|
      modifies this`players, this`currentBet, this`minRaise, this`lastAggressor
      ensures var spec := ApplyMove(BettingOf(old(Snapshot())), i, move, amount);
        if r.Err? then spec == Err(r.error)
        else spec == Ok(Moved(BettingOf(Snapshot()), r.value))
    {
      var p := players[i];
      match move
      case Fold =>
        players := players[i := p.(status := Folded)];
        MarkActed(i);
        assert players == old(players)[i := p.(status := Folded, hasActed := true)];
        r := Ok(0);
      case Check =>
        if p.investedThisStreet != currentBet {
          return Err(FacingABet);
        }
        MarkActed(i);
        r := Ok(0);
      case Call =>
        if currentBet <= p.investedThisStreet {
          return Err(NothingToCall);
        }
        var callAmount := Min(p.chips, currentBet - p.investedThisStreet);
        var invested := Invest(i, callAmount);
        if !invested {
          return Err(InvalidChipAmount);
        }
        MarkActed(i);
        r := Ok(callAmount);
      case Bet =>
        if amount == None || amount.value <= 0 {
          return Err(BadAmount);
        }
        var betAmount := amount.value;
        if currentBet != 0 {
          return Err(BetExists);
        }
        if betAmount > p.chips {
          return Err(BetExceedsChips);
        }
        var invested := Invest(i, betAmount);
        if !invested {
          return Err(InvalidChipAmount);
        }
        currentBet := players[i].investedThisStreet;
        minRaise := betAmount;
        MarkAggression(i);
        r := Ok(betAmount);
      case Raise =>
        r := MutateRaise(i, amount);
      case AllInMove =>
        r := MutateAllIn(i);
    }

    method MutateRaise(i: nat, amount: Option<int>) returns (r: Result<int, EngineError>)
      requires i < |players|
      modifies this`players, this`currentBet, this`minRaise, this`lastAggressor
      ensures var spec := ApplyMove(BettingOf(old(Snapshot())), i, Raise, amount);
        if r.Err? then spec == Err(r.error)
        else spec == Ok(Moved(BettingOf(Snapshot()), r.value))
    {
      var p := players[i];
      if currentBet <= 0 {
        return Err(NoBetToRaise);
      }
      if amount == None || amount.value <= 0 {
        return Err(BadAmount);
      }
      var raiseTo := amount.value;
      if raiseTo <= currentBet {
        return Err(RaiseTooSmall);
      }
      if raiseTo > p.investedThisStreet + p.chips {
        return Err(RaiseExceedsChips);
      }
      var raiseSize := raiseTo - currentBet;
      var additional := raiseTo - p.investedThisStreet;
      if raiseSize < minRaise && additional != p.chips {
        return Err(BelowMinimumRaise);
      }
      var invested := Invest(i, additional);
      if !invested {
        return Err(InvalidChipAmount);
      }
      currentBet := raiseTo;
      if raiseSize >= minRaise {
        minRaise := raiseSize;
        MarkAggression(i);
      } else {
        MarkActed(i);
      }
      r := Ok(additional);
    }

    method MutateAllIn(i: nat) returns (r: Result<int, EngineError>)
      requires i < |players|
      modifies this`players, this`currentBet, this`minRaise, this`lastAggressor
      ensures var spec := ApplyMove(BettingOf(old(Snapshot())), i, AllInMove, None);
        if r.Err? then spec == Err(r.error)
        else spec == Ok(Moved(BettingOf(Snapshot()), r.value))
    {
      var amount := players[i].chips;
      if amount <= 0 {
        return Err(NoChipsForAllIn);
      }
      var totalAfterAllIn := players[i].investedThisStreet + amount;
      var invested := Invest(i, amount);
      if !invested {
        return Err(InvalidChipAmount);
      }
      if totalAfterAllIn > currentBet {
        var raiseSize := totalAfterAllIn - currentBet;
        currentBet := totalAfterAllIn;
        if currentBet == amount || raiseSize >= minRaise {
          minRaise := Max(minRaise, raiseSize);
          MarkAggression(i);
        } else {
          MarkActed(i);
        }
      } else {
        MarkActed(i);
      }
      r := Ok(amount);
    }

    // ---------- finishing ----------

    method FinishFold(winner: nat)
      requires winner < |players|
      modifies this
      ensures Snapshot() == FinishByFold(old(Snapshot()), winner)
    {
      var w := players[winner];
      players := players[winner := w.(chips := w.chips + pot)];
      status := HandFinished;
      street := Showdown;
      currentBet := 0;
      turn := None;
      winnerInfo :=
        Some(WinnerInfo(AllOthersFolded, board, pot, [PotResult(pot, [w.seatNo], [WinnerLine(w.seatNo, pot, None)])]));
    }

    /** dealBoardToFive; false when the deck runs out. */
    method DealToFive() returns (ok: bool)
      modifies this`deck, this`board
      ensures ok ==> DealBoardToFive(old(Snapshot())) == Ok(Snapshot())
      ensures !ok ==> DealBoardToFive(old(Snapshot())) == Err(DeckExhausted)
    {
      while |board| < 5
        invariant DealBoardToFive(Snapshot()) == DealBoardToFive(old(Snapshot()))
        decreases 5 - |board|
      {
        var dealt := DealCards(deck, 1);
        if dealt.Err? {
          return false;
        }
        deck := dealt.value.deck;
        board := board + dealt.value.cards;
      }
      ok := true;
    }

    /** Credits every payout of one allocation to its seat. */
    method PayOne(a: Allocation)
      requires SeatsDistinct(players) && NoDup(a.winners)
      requires a.payouts == PayoutsUpTo(a.pot.amount, a.winners, |a.winners|)
      requires forall seat :: seat in a.winners ==> PositionOf(players, seat) < |players|
      modifies this`players
      ensures |players| == |old(players)|
      ensures forall i :: 0 <= i < |players| ==>
        players[i] == old(players)[i].(chips := old(players)[i].chips + Paid(a, old(players)[i].seatNo))
    {
      for w := 0 to |a.winners|
        invariant |players| == |old(players)|
        invariant forall i :: 0 <= i < |players| ==>
          players[i] == Credited(old(players)[i], PayoutsUpTo(a.pot.amount, a.winners, w))
      {
        var k := PositionOf(players, a.winners[w]);
        SameSeatPosition(players, old(players), a.winners[w]);
        PayoutOfWinner(a.pot.amount, a.winners, w, |a.winners|);
        NotYetPaid(a.pot.amount, a.winners, w);
        players := players[k := players[k].(chips := players[k].chips + a.payouts[a.winners[w]])];
      }
    }

    method PayAllocations(allocations: seq<Allocation>)
      requires SeatsDistinct(players)
      requires forall k :: 0 <= k < |allocations| ==> Payable(allocations[k], players)
      modifies this`players
      ensures players == PayAll(old(players), allocations)
    {
      for k := 0 to |allocations|
        invariant |players| == |old(players)|
        invariant forall i :: 0 <= i < |players| ==>
          players[i] ==
            old(players)[i].(chips := old(players)[i].chips + Collected(allocations[..k], old(players)[i].seatNo))
      {
        assert Payable(allocations[k], old(players));
        forall seat | seat in allocations[k].winners ensures PositionOf(players, seat) < |players| {
          SameSeatPosition(players, old(players), seat);
        }
        PayOne(allocations[k]);
        assert allocations[..k + 1][..k] == allocations[..k];
      }
      assert allocations[..|allocations|] == allocations;
    }

    /** The second half of finishByShowdown, once the contenders' hands are known. */
    method Settle(hands: map<int, Evaluator.EvaluatedHand>)
      requires SeatsDistinct(players) && HandsKnown(players, hands)
      modifies this
      ensures Snapshot() == SettleShowdown(old(Snapshot()), hands)
    {
      AllocationsPayable(players, hands);
      var sidePots := BuildSidePots(PotView(players));
      var allocations := AllocateSidePots(sidePots, RankValues(hands));
      PayAllocations(allocations);
      status := HandFinished;
      street := Showdown;
      currentBet := 0;
      turn := None;
      winnerInfo := Some(WinnerInfo(ShowdownReached, board, pot, PotResults(allocations, hands)));
    }

    method FinishShowdown() returns (error: Option<EngineError>)
      requires SeatsDistinct(players)
      modifies this
      ensures error == None ==> FinishByShowdown(old(Snapshot())) == Ok(Snapshot())
      ensures error.Some? ==> FinishByShowdown(old(Snapshot())) == Err(error.value)
    {
      var dealt := DealToFive();
      if !dealt {
        return Some(DeckExhausted);
      }
      var evaluated := EvaluateContenders(players, board);
      if evaluated.Err? {
        return Some(evaluated.error);
      }
      KnownWhenEvaluated(players, board);
      Settle(evaluated.value);
      error := None;
    }

    // ---------- streets ----------

    method ResetPlayers()
      modifies this`players
      ensures players == ResetStreet(old(players))
    {
      for i := 0 to |players|
        invariant |players| == |old(players)|
        invariant forall k :: 0 <= k < i ==> players[k] == ResetStreet(old(players))[k]
        invariant forall k :: i <= k < |players| ==> players[k] == old(players)[k]
      {
        players := players[i := players[i].(investedThisStreet := 0)];
        players := players[i := players[i].(hasActed := false)];
      }
    }

    /** advanceStreet; false when the deck runs out. */
    method Advance() returns (ok: bool)
      modifies this
      ensures ok ==> AdvanceStreet(old(Snapshot())) == Ok(Snapshot())
      ensures !ok ==> AdvanceStreet(old(Snapshot())) == Err(DeckExhausted)
    {
      var dealt := DealCards(deck, CardsToDeal(street));
      if dealt.Err? {
        AdvanceFails(Snapshot());
        return false;
      }
      OpenStreet(dealt.value);
      turn := FirstActionable(dealerSeat);
      ghost var before, now := old(Snapshot()), Snapshot();
      assert now == before.(deck := dealt.value.deck, board := before.board + dealt.value.cards,
        street := NextStreet(before.street), currentBet := 0, minRaise := before.bigBlind, lastAggressor := None,
        players := ResetStreet(before.players), turn := now.turn);
      AdvanceIs(before, now, dealt.value);
      ok := true;
    }

    /** Everything advanceStreet writes but the turn. */
    method OpenStreet(dealt: Dealt)
      modifies this`deck, this`board, this`street, this`currentBet, this`minRaise, this`lastAggressor, this`players
      ensures deck == dealt.deck && board == old(board) + dealt.cards && street == NextStreet(old(street))
      ensures currentBet == 0 && minRaise == bigBlind && lastAggressor == None && players == ResetStreet(old(players))
    {
      deck, board := dealt.deck, board + dealt.cards;
      street, currentBet, minRaise, lastAggressor := NextStreet(street), 0, bigBlind, None;
      ResetPlayers();
    }

    /** The showdown branch for all-in players: the board is dealt out first. */
    method RunOut() returns (error: Option<EngineError>)
      requires SeatsDistinct(players)
      modifies this
      ensures var dealt := DealBoardToFive(old(Snapshot()));
        var spec := if dealt.Err? then Err(dealt.error) else FinishByShowdown(dealt.value);
        if error == None then spec == Ok(Snapshot()) else spec == Err(error.value)
    {
      var dealt := DealToFive();
      if !dealt {
        return Some(DeckExhausted);
      }
      error := FinishShowdown();
    }

    /** normalizeAfterAction. */
    method Normalize(from: int) returns (error: Option<EngineError>)
      requires SeatsDistinct(players) && street != Showdown
      modifies this
      ensures error == None ==> NormalizeAfterAction(old(Snapshot()), from) == Ok(Snapshot())
      ensures error.Some? ==> NormalizeAfterAction(old(Snapshot()), from) == Err(error.value)
      decreases StreetsLeft(street)
    {
      pot := TotalInvested(players);
      ghost var potted := Snapshot();
      assert potted == WithPot(old(Snapshot()));
      var contenders := ContenderCount(players);
      if contenders == 1 {
        ContenderFound(players);
        FinishFold(FirstContender(players));
        return None;
      }
      if contenders > 1 && NobodyCanBet(players) {
        error := RunOut();
        return;
      }
      if IsBettingRoundComplete(players, currentBet) {
        if street == River {
          error := FinishShowdown();
        } else {
          error := AdvanceAndGoOn(from);
        }
        return;
      }
      turn := FirstActionable(from);
      error := None;
    }

    /** The branch that opens the next street and, with nobody to open it, normalizes again. */
    method AdvanceAndGoOn(from: int) returns (error: Option<EngineError>)
      requires SeatsDistinct(players) && street != Showdown && street != River
      modifies this
      ensures var advanced := AdvanceStreet(old(Snapshot()));
        var spec := if advanced.Err? then Err(advanced.error)
          else if advanced.value.turn == None then NormalizeAfterAction(advanced.value, from) else advanced;
        if error == None then spec == Ok(Snapshot()) else spec == Err(error.value)
      decreases StreetsLeft(street), 0
    {
      var advanced := Advance();
      if !advanced {
        return Some(DeckExhausted);
      }
      if turn == None {
        error := Normalize(from);
      } else {
        error := None;
      }
    }

    /** applyGameAction: works on a clone, so the state it is given never changes, accepted or not. */
    static method Apply(s: GameState, input: Input) returns (r: Result<GameState, EngineError>)
      requires OnAStreet(s) && SeatsDistinct(s.players)
      ensures r == ApplyGameAction(s, input)
      ensures r.Ok? ==> SeatsDistinct(r.value.players)
    {
      var table := new GameTable.Clone(s);
      var i := PositionOf(table.players, input.seatNo);
      if i == |table.players| {
        return Err(SeatMissing);
      }
      if table.status != Playing {
        return Err(NotPlayable);
      }
      if table.turn != Some(input.seatNo) {
        return Err(NotYourTurn);
      }
      var player := table.players[i];
      if player.userId.Some? && input.userId.Some? && player.userId != input.userId {
        return Err(IdentityMismatch);
      }
      if player.status != Active || player.chips <= 0 {
        return Err(CannotAct);
      }
      MutationKeepsSeats(BettingOf(s), i, input.move, input.amount);
      var error := table.Enact(i, input.move, input.amount);
      if error.Some? {
        return Err(error.value);
      }
      r := Ok(table.Snapshot());
      ActionKeepsSeats(s, input);
    }

    /** The mutation, its history row and what follows from it. */
    method Enact(i: nat, move: Move, amount: Option<int>) returns (error: Option<EngineError>)
      requires i < |players| && SeatsDistinct(players) && street != Showdown
      requires var moved := ApplyMove(BettingOf(Snapshot()), i, move, amount);
        moved.Ok? ==> SeatsDistinct(moved.value.betting.players)
      modifies this
      ensures var moved := ApplyMove(BettingOf(old(Snapshot())), i, move, amount);
        var spec := if moved.Err? then Err(moved.error)
          else NormalizeAfterAction(Record(old(Snapshot()), i, move, moved.value), old(players[i].seatNo));
        if error == None then spec == Ok(Snapshot()) else spec == Err(error.value)
    {
      var seat := players[i].seatNo;
      var mutated := Mutate(i, move, amount);
      if mutated.Err? {
        return Some(mutated.error);
      }
      pot := TotalInvested(players);
      history := history + [Entry(seat, Played(move), mutated.value, street)];
      assert Snapshot() ==
        Record(old(Snapshot()), i, move, ApplyMove(BettingOf(old(Snapshot())), i, move, amount).value);
      error := Normalize(seat);
    }

    // ---------- createInitialGameState ----------

    /** One pass of the dealing loop; false when the deck runs out. */
    method DealOneRound() returns (ok: bool)
      modifies this`players, this`deck
      ensures var spec := DealRound(Dealing(old(players), old(deck)), 0);
        if ok then spec == Ok(Dealing(players, deck)) else spec == Err(DeckExhausted)
      ensures |players| == |old(players)|
      ensures forall k :: 0 <= k < |players| ==> players[k].seatNo == old(players)[k].seatNo
    {
      for i := 0 to |players|
        invariant |players| == |old(players)|
        invariant forall k :: 0 <= k < |players| ==> players[k].seatNo == old(players)[k].seatNo
        invariant DealRound(Dealing(players, deck), i) == DealRound(Dealing(old(players), old(deck)), 0)
      {
        if players[i].status != Out {
          var dealt := DealCards(deck, 1);
          if dealt.Err? {
            return false;
          }
          players := players[i := players[i].(holeCards := players[i].holeCards + dealt.value.cards)];
          deck := dealt.value.deck;
        }
      }
      ok := true;
    }

    /** The two cards of every player who is not OUT; false when the deck runs out. */
    method DealTwoRounds() returns (ok: bool)
      modifies this`players, this`deck
      ensures var first := DealRound(Dealing(old(players), old(deck)), 0);
        var spec := if first.Err? then first else DealRound(first.value, 0);
        if ok then spec == Ok(Dealing(players, deck)) else spec == Err(DeckExhausted)
      ensures |players| == |old(players)|
      ensures forall k :: 0 <= k < |players| ==> players[k].seatNo == old(players)[k].seatNo
    {
      ok := DealOneRound();
      if ok {
        ok := DealOneRound();
      }
    }

    /** postBlind; false when nobody sits in the seat. */
    method Post(seat: int, blind: int, kind: EntryKind) returns (error: Option<EngineError>)
      modifies this`players, this`history
      ensures error == None ==> PostBlind(old(Snapshot()), seat, blind, kind) == Ok(Snapshot())
      ensures error.Some? ==> PostBlind(old(Snapshot()), seat, blind, kind) == Err(error.value)
      ensures |players| == |old(players)|
      ensures forall k :: 0 <= k < |players| ==> players[k].seatNo == old(players)[k].seatNo
    {
      var k := PositionOf(players, seat);
      if k == |players| {
        return Some(SeatMissing);
      }
      var posted := Min(players[k].chips, blind);
      var invested := Invest(k, posted);
      if !invested {
        return Some(InvalidChipAmount);
      }
      history := history + [Entry(seat, kind, posted, Preflop)];
      error := None;
    }

    /** createInitialGameState. */
    static method Create(setup: Setup) returns (r: Result<GameState, EngineError>)
      requires DistinctInputs(setup.players)
      ensures r == CreateInitialGameState(setup)
      ensures r.Ok? ==> SeatsDistinct(r.value.players)
    {
      var resolved := ResolveSetup(setup);
      if resolved.Err? {
        return Err(resolved.error);
      }
      var blinds := resolved.value;
      SortedSeatsDistinct(setup.players);
      var table :=
        new GameTable.Clone(Opening(setup, blinds, Dealing(SeatAll(Sort(setup.players, SeatLeq)), setup.deck)));
      var dealt := table.DealTwoRounds();
      if !dealt {
        return Err(DeckExhausted);
      }
      assert table.Snapshot() == Opening(setup, blinds, Dealing(table.players, table.deck));
      StartKeepsSeats(table.Snapshot());
      var error := table.Start();
      if error.Some? {
        return Err(error.value);
      }
      r := Ok(table.Snapshot());
    }

    /** The blinds, the first bet and the first turn. */
    method Start() returns (error: Option<EngineError>)
      requires SeatsDistinct(players) && street != Showdown
      modifies this
      ensures if error == None then StartBetting(old(Snapshot())) == Ok(Snapshot())
        else StartBetting(old(Snapshot())) == Err(error.value)
    {
      error := Post(smallBlindSeat, smallBlind, SmallBlindPost);
      if error.Some? {
        return;
      }
      error := Post(bigBlindSeat, bigBlind, BigBlindPost);
      if error.Some? {
        return;
      }
      error := Open();
    }

    method Open() returns (error: Option<EngineError>)
      requires SeatsDistinct(players) && street != Showdown
      modifies this
      ensures var spec := NormalizeAfterAction(OpenBetting(old(Snapshot())), old(bigBlindSeat));
        if error == None then spec == Ok(Snapshot()) else spec == Err(error.value)
    {
      currentBet := if players == [] then 0 else MaxStreet(players);
      pot := TotalInvested(players);
      turn := FirstActionable(bigBlindSeat);
      assert Snapshot() == OpenBetting(old(Snapshot()));
      error := Normalize(bigBlindSeat);
    }
  }

  lemma AdvanceFails(s: GameState)
    requires DealCards(s.deck, CardsToDeal(s.street)).Err?
    ensures AdvanceStreet(s) == Err(DeckExhausted)
  {
  }

  lemma AdvanceIs(s: GameState, r: GameState, dealt: Dealt)
    requires DealCards(s.deck, CardsToDeal(s.street)) == Ok(dealt)
    requires r ==
      s.(deck := dealt.deck, board := s.board + dealt.cards, street := NextStreet(s.street), currentBet := 0,
      minRaise := s.bigBlind, lastAggressor := None, players := ResetStreet(s.players), turn := r.turn)
    requires r.turn == FirstActionableSeatAfter(r.players, 0, s.dealerSeat)
    ensures AdvanceStreet(s) == Ok(r)
  {
  }

  lemma SortedSeatsDistinct(inputs: seq<SeatInput>)
    requires DistinctInputs(inputs)
    ensures SeatsDistinct(SeatAll(Sort(inputs, SeatLeq)))
  {
    SortedSeatsAscend(inputs);
    var sorted := Sort(inputs, SeatLeq);
    forall i, j | 0 <= i < j < |sorted| ensures sorted[i].seatNo != sorted[j].seatNo {
      assert SeatNumbers(sorted)[i] < SeatNumbers(sorted)[j];
    }
  }

  lemma MutationKeepsSeats(b: Betting, i: nat, move: Move, amount: Option<int>)
    requires i < |b.players| && SeatsDistinct(b.players)
    ensures ApplyMove(b, i, move, amount).Ok? ==> SeatsDistinct(ApplyMove(b, i, move, amount).value.betting.players)
  {
    if ApplyMove(b, i, move, amount).Ok? {
      var after := ApplyMove(b, i, move, amount).value.betting.players;
      assert |after| == |b.players| && forall k :: 0 <= k < |after| ==> after[k].seatNo == b.players[k].seatNo;
    }
  }

  lemma NormalizeKeepsSeats(s: GameState, from: int)
    requires s.street != Showdown && SeatsDistinct(s.players) && NormalizeAfterAction(s, from).Ok?
    ensures SeatsDistinct(NormalizeAfterAction(s, from).value.players)
  {
    var r := NormalizeAfterAction(s, from).value;
    HandRuns.NormalizeKeeps(s, from);
    forall i | 0 <= i < |r.players| ensures r.players[i].seatNo == s.players[i].seatNo {
      assert HandRuns.Identity(r.players[i]) == HandRuns.Identity(s.players[i]);
    }
  }

  lemma ActionKeepsSeats(s: GameState, input: Input)
    requires OnAStreet(s) && SeatsDistinct(s.players) && ApplyGameAction(s, input).Ok?
    ensures SeatsDistinct(ApplyGameAction(s, input).value.players)
  {
    var i := PositionOf(s.players, input.seatNo);
    var moved := ApplyMove(BettingOf(s), i, input.move, input.amount).value;
    MutationKeepsSeats(BettingOf(s), i, input.move, input.amount);
    NormalizeKeepsSeats(Record(s, i, input.move, moved), input.seatNo);
  }

  lemma StartKeepsSeats(s: GameState)
    requires s.street != Showdown && SeatsDistinct(s.players)
    ensures StartBetting(s).Ok? ==> SeatsDistinct(StartBetting(s).value.players)
  {
    var r1 := PostBlind(s, s.smallBlindSeat, s.smallBlind, SmallBlindPost);
    PostKeepsSeats(s, s.smallBlindSeat, s.smallBlind, SmallBlindPost);
    if r1.Ok? {
      var r2 := PostBlind(r1.value, s.bigBlindSeat, s.bigBlind, BigBlindPost);
      PostKeepsSeats(r1.value, s.bigBlindSeat, s.bigBlind, BigBlindPost);
      if r2.Ok? && NormalizeAfterAction(OpenBetting(r2.value), s.bigBlindSeat).Ok? {
        NormalizeKeepsSeats(OpenBetting(r2.value), s.bigBlindSeat);
      }
    }
  }

  lemma PostKeepsSeats(s: GameState, seat: int, blind: int, kind: EntryKind)
    requires SeatsDistinct(s.players)
    ensures var r := PostBlind(s, seat, blind, kind);
      r.Ok? ==> SeatsDistinct(r.value.players) && r.value.street == s.street
  {
  }

  /** What PayOne asks of an allocation. */
  ghost predicate Payable(a: Allocation, players: seq<Player>) {
    && NoDup(a.winners) && a.payouts == PayoutsUpTo(a.pot.amount, a.winners, |a.winners|)
    && forall seat :: seat in a.winners ==> PositionOf(players, seat) < |players|
  }

  lemma {:induction false} KnownWhenEvaluated(players: seq<Player>, board: seq<Card>)
    requires EvaluateContenders(players, board).Ok?
    ensures HandsKnown(players, EvaluateContenders(players, board).value)
  {
    if players != [] {
      var n := |players| - 1;
      KnownWhenEvaluated(players[..n], board);
      forall i | 0 <= i < |players| && Contends(players[i].status)
        ensures players[i].seatNo in EvaluateContenders(players, board).value
      {
        if i < n {
          assert players[..n][i].seatNo in EvaluateContenders(players[..n], board).value;
        }
      }
    }
  }

  lemma SeatHasPosition(players: seq<Player>, seat: int)
    requires seat in Seats(PotView(players))
    ensures PositionOf(players, seat) < |players|
  {
    var i :| 0 <= i < |players| && Seats(PotView(players))[i] == seat;
    assert players[i].seatNo == seat;
  }

  lemma AllocationPayable(pot: SidePot, ranks: map<int, int>, players: seq<Player>)
    requires PayablePot(pot, ranks, Seats(PotView(players)))
    ensures Payable(Allocate(pot, ranks), players)
  {
    WinnersNoDup(pot, ranks);
    forall seat | seat in Winners(pot, ranks) ensures PositionOf(players, seat) < |players| {
      SortMembers(HoldersOf(pot.eligible, ranks, BestRank(pot.eligible, ranks)), IntLeq, seat);
      HoldersContents(pot.eligible, ranks, BestRank(pot.eligible, ranks), seat);
      SeatHasPosition(players, seat);
    }
  }

  lemma AllocationsPayable(players: seq<Player>, hands: map<int, Evaluator.EvaluatedHand>)
    requires SeatsDistinct(players) && HandsKnown(players, hands)
    ensures var allocations := AllocateAll(SidePots(PotView(players)), RankValues(hands));
      forall k :: 0 <= k < |allocations| ==> Payable(allocations[k], players)
  {
    var view, ranks := PotView(players), RankValues(hands);
    forall s | ContenderSeat(view, s) ensures s in ranks {
      var i :| 0 <= i < |view| && view[i].seatNo == s && Contends(view[i].status);
      assert players[i].seatNo in hands;
    }
    PotsPayable(view, ranks, |Levels(view)|);
    var pots := SidePots(view);
    forall k | 0 <= k < |pots| ensures Payable(Allocate(pots[k], ranks), players) {
      AllocationPayable(pots[k], ranks, players);
    }
  }

  function Credited(p: Player, payouts: map<int, int>): Player {
    p.(chips := p.chips + Lookup(payouts, p.seatNo))
  }

  lemma {:induction false} SameSeatPosition(ps: seq<Player>, qs: seq<Player>, seat: int)
    requires |ps| == |qs| && forall i :: 0 <= i < |ps| ==> ps[i].seatNo == qs[i].seatNo
    ensures PositionOf(ps, seat) == PositionOf(qs, seat)
  {
    if ps != [] {
      SameSeatPosition(ps[1..], qs[1..], seat);
    }
  }
}
