/** A dealt hand after which the button passes over a seat: the dealer loses every chip, and the button moves on from
    the seat that follows. */
module ButtonWitness {
  import opened Sequences
  import opened Deck
  import Evaluator
  import opened Pots
  import opened Engine
  import opened TurnOrder
  import opened HandInvariant
  import opened HandAccounting
  import opened HandStep
  import opened HandRuns
  import opened HandStart
  import opened HandTheorems
  import opened HandProgress
  import opened ThreeHanded
  import opened HandWitness
  import opened RoyalFlush
  import opened Session
  import opened SessionTheorems

  // ---------- the hand ----------

  function EqualStacks(): seq<int> {
    [100, 100, 100]
  }

  /** Seats 1 and 2 go all in and the big blind folds. */
  function TwoShoves(users: seq<Option<int>>): seq<Input>
    requires |users| == 3
  {
    [Input(1, users[0], AllInMove, None), Input(2, users[1], AllInMove, None), Input(3, users[2], Fold, None)]
  }

  function Shoved(): Spot {
    Spot(Preflop, 100, 98, 1,
      [Row(0, 100, 100, AllIn, true), Row(99, 1, 1, Active, false), Row(98, 2, 2, Active, false)])
  }

  function ShoveCalled(): Spot {
    Spot(Preflop, 100, 98, 2,
      [Row(0, 100, 100, AllIn, true), Row(0, 100, 100, AllIn, true), Row(98, 2, 2, Active, false)])
  }

  function BlindOut(): seq<Row> {
    [Row(0, 100, 100, AllIn, true), Row(0, 100, 100, AllIn, true), Row(98, 2, 2, Folded, true)]
  }

  lemma SeatOneShoves(s: GameState, users: seq<Option<int>>)
    requires TableIs(s, users, FirstSpot(EqualStacks()))
    ensures MovesTo(s, users, FirstSpot(EqualStacks()), AllInMove, None, 100, 98, Shoved().rows)
  {
    assert forall k :: 0 <= k < 3 ==> RowOf(s.players[k]) == FirstSpot(EqualStacks()).rows[k];
  }

  lemma SeatTwoCallsShove(s: GameState, users: seq<Option<int>>)
    requires TableIs(s, users, Shoved())
    ensures MovesTo(s, users, Shoved(), AllInMove, None, 100, 98, ShoveCalled().rows)
  {
    assert forall k :: 0 <= k < 3 ==> RowOf(s.players[k]) == Shoved().rows[k];
  }

  lemma BigBlindFolds(s: GameState, users: seq<Option<int>>)
    requires TableIs(s, users, ShoveCalled())
    ensures MovesTo(s, users, ShoveCalled(), Fold, None, 100, 98, BlindOut())
  {
    assert forall k :: 0 <= k < 3 ==> RowOf(s.players[k]) == ShoveCalled().rows[k];
  }

  lemma FirstAllIn(s0: GameState, users: seq<Option<int>>, s: GameState) returns (r: GameState)
    requires |users| == 3 && Reaches(s0, TwoShoves(users), 0, s) && TableIs(s, users, FirstSpot(EqualStacks()))
    ensures Reaches(s0, TwoShoves(users), 1, r) && TableIs(r, users, Shoved())
  {
    SeatOneShoves(s, users);
    r := NextGoes(s0, TwoShoves(users), 0, s, users, FirstSpot(EqualStacks()), Shoved());
  }

  lemma SecondAllIn(s0: GameState, users: seq<Option<int>>, s: GameState) returns (r: GameState)
    requires |users| == 3 && Reaches(s0, TwoShoves(users), 1, s) && TableIs(s, users, Shoved())
    ensures Reaches(s0, TwoShoves(users), 2, r) && TableIs(r, users, ShoveCalled())
  {
    SeatTwoCallsShove(s, users);
    r := NextGoes(s0, TwoShoves(users), 1, s, users, Shoved(), ShoveCalled());
  }

  lemma TwoContend(players: seq<Player>, users: seq<Option<int>>)
    requires RowsAre(players, users, BlindOut())
    ensures ContenderCount(players) == 2 && !SomeoneActive(players)
  {
    assert forall k :: 0 <= k < 3 ==> RowOf(players[k]) == BlindOut()[k];
    assert players[..2][..1] == players[..1] && players[..1][..0] == [];
    assert ContenderCount(players[..1]) == 1;
    assert ContenderCount(players[..2]) == 2;
  }

  lemma AllInShowdown(m: GameState, a: nat) returns (r: GameState)
    requires Mid(m, a) && ContenderCount(m.players) >= 2 && !SomeoneActive(m.players)
    ensures NormalizeAfterAction(m, m.players[a].seatNo) == Ok(r) && ShowdownEnd(m, r) && r.status == HandFinished
  {
    UnderwayFacts(m);
    ShowdownHappens(m);
    NobodyActiveBets(m.players);
    NormalizeEndsOrPasses(m, m.players[a].seatNo);
    r := FinishByShowdown(WithPot(m)).value;
  }

  /** The fold takes the two all-in players to a showdown. */
  lemma FoldToShowdown(s: GameState, users: seq<Option<int>>) returns (m: GameState, r: GameState)
    requires |users| == 3 && TableIs(s, users, ShoveCalled())
    ensures OnAStreet(s) && ApplyGameAction(s, TwoShoves(users)[2]) == Ok(r)
    ensures Mid(m, 2) && m == Mutated(s, 2, Fold, None) && RowsAre(m.players, users, BlindOut()) && m.dealerSeat == 1
    ensures ShowdownEnd(m, r) && r.status == HandFinished
  {
    BigBlindFolds(s, users);
    m := ActingIs(s, users, ShoveCalled(), Fold, None, 100, 98, BlindOut());
    TwoContend(m.players, users);
    r := AllInShowdown(m, 2);
  }

  lemma ReachesShoveCalled(users: seq<Option<int>>, deck: seq<Card>) returns (s0: GameState, s: GameState)
    requires Seating(users, deck)
    ensures ValidSetup(Three(users, EqualStacks(), deck)) && s0 == Deal(Three(users, EqualStacks(), deck))
    ensures Reaches(s0, TwoShoves(users), 2, s) && TableIs(s, users, ShoveCalled())
  {
    s0 := StartsPlay(users, EqualStacks(), deck, TwoShoves(users));
    s := FirstAllIn(s0, users, s0);
    s := SecondAllIn(s0, users, s);
  }

  lemma ReachesShowdown(s0: GameState, users: seq<Option<int>>, s: GameState) returns (m: GameState, r: GameState)
    requires |users| == 3 && Reaches(s0, TwoShoves(users), 2, s) && TableIs(s, users, ShoveCalled())
    ensures Reaches(s0, TwoShoves(users), 3, r) && OnAStreet(s) && ApplyGameAction(s, TwoShoves(users)[2]) == Ok(r)
    ensures Mid(m, 2) && m == Mutated(s, 2, Fold, None) && RowsAre(m.players, users, BlindOut())
    ensures ShowdownEnd(m, r) && r.status == HandFinished
  {
    m, r := FoldToShowdown(s, users);
    StepIs(s, TwoShoves(users)[2], r);
    ReachesNext(s0, TwoShoves(users), 2, s, r);
  }

  // ---------- who wins it ----------

  /** Two cards each in the order of the deal, and the board after them. */
  ghost predicate CardsOf(s: GameState, deck: seq<Card>) {
    && |s.players| == 3 && |deck| >= 11
    && (forall k :: 0 <= k < 3 ==> s.players[k].holeCards == [deck[k], deck[3 + k]])
    && s.board + s.deck == deck[6..]
  }

  lemma HolesAsDealt(setup: Setup, s: GameState, k: nat)
    requires |setup.players| == 3 && Sort(setup.players, SeatLeq) == setup.players
    requires WithChips(setup.players) == setup.players
    requires (forall i :: 0 <= i < 3 ==> setup.players[i].chips > 0) && |s.players| == 3 && k < 3
    requires HoldsDealt(setup, s, k)
    ensures 3 + k < |setup.deck| && s.players[k].holeCards == [setup.deck[k], setup.deck[3 + k]]
  {
    EveryoneDealtIn(setup.players, k);
  }

  lemma EveryoneDealtIn(inputs: seq<SeatInput>, k: nat)
    requires forall i :: 0 <= i < |inputs| ==> inputs[i].chips > 0
    requires k <= |inputs|
    ensures DealtIn(SeatAll(inputs), 0, k) == k
  {
    if k > 0 {
      EveryoneDealtIn(inputs, k - 1);
    }
  }

  lemma CardsOfThree(setup: Setup, s: GameState)
    requires |setup.players| == 3 && Sort(setup.players, SeatLeq) == setup.players
    requires WithChips(setup.players) == setup.players
    requires |setup.deck| >= 11 && (forall i :: 0 <= i < 3 ==> setup.players[i].chips > 0) && CardsAsDealt(setup, s)
    ensures CardsOf(s, setup.deck)
  {
    forall k | 0 <= k < 3 ensures s.players[k].holeCards == [setup.deck[k], setup.deck[3 + k]] {
      HolesAsDealt(setup, s, k);
    }
  }

  lemma CardsReached(users: seq<Option<int>>, stacks: seq<int>, setup: Setup, inputs: seq<Input>, s: GameState)
    requires |users| == |stacks| == 3 && (forall k :: 0 <= k < 3 ==> stacks[k] > 2) && |setup.deck| >= 11
    requires setup == Three(users, stacks, setup.deck) && ValidSetup(setup) && s == Run(Deal(setup), inputs)
    ensures CardsOf(s, setup.deck)
  {
    ThreeInOrder(users, stacks, setup);
    CardsFixedByDeck(setup, inputs);
    CardsOfThree(setup, s);
  }

  lemma TotalReached(users: seq<Option<int>>, stacks: seq<int>, setup: Setup, inputs: seq<Input>, s: GameState)
    requires |users| == |stacks| == 3 && setup == Three(users, stacks, setup.deck) && ValidSetup(setup)
    requires s == Run(Deal(setup), inputs)
    ensures TotalStart(s.players) == stacks[0] + stacks[1] + stacks[2]
  {
    DealStart(setup);
    ThreeSum(ChipsOf(setup.players));
    StartIsKept(Deal(setup), inputs);
  }

  lemma MutatedCards(s: GameState, deck: seq<Card>)
    requires CardsOf(s, deck) && Inv(s) && TurnAt(s, 2) && ApplyMove(BettingOf(s), 2, Fold, None).Ok?
    ensures CardsOf(Mutated(s, 2, Fold, None), deck)
  {
    var m := Mutated(s, 2, Fold, None);
    TurnFacts(s, 2);
    MutatedKeeps(s, 2, Fold, None);
    forall k | 0 <= k < 3 ensures m.players[k].holeCards == s.players[k].holeCards {
      assert Identity(m.players[k]) == Identity(s.players[k]);
    }
  }

  lemma TwoHands(players: seq<Player>, users: seq<Option<int>>, board: seq<Card>, a: Evaluator.EvaluatedHand,
      b: Evaluator.EvaluatedHand)
    requires RowsAre(players, users, BlindOut())
    requires Evaluator.EvaluateSeven(players[0].holeCards + board) == Ok(a)
    requires Evaluator.EvaluateSeven(players[1].holeCards + board) == Ok(b)
    ensures EvaluateContenders(players, board) == Ok(map[1 := a, 2 := b])
  {
    assert forall k :: 0 <= k < 3 ==> RowOf(players[k]) == BlindOut()[k];
    assert players[..2][..1] == players[..1] && players[..1][..0] == [];
    assert EvaluateContenders(players[..1], board) == Ok(map[1 := a]);
    assert EvaluateContenders(players[..2], board) == Ok(map[1 := a, 2 := b]);
  }

  /** With the rigged cards seat 2 beats seat 1. */
  lemma SeatTwoBeats(m: GameState, users: seq<Option<int>>, deck: seq<Card>)
    requires CardsOf(m, deck) && deck[..11] == RiggedCards() && RowsAre(m.players, users, BlindOut()) && |m.board| <= 5
    ensures |m.board| + |m.deck| >= 5 && BeatsTheOthers(m, 1)
  {
    var board := FullBoard(m).board;
    assert board == (m.board + m.deck)[..5];
    BoardIsRigged(deck);
    var a, b := SeatTwoWins(m.players[0].holeCards + board, m.players[1].holeCards + board);
    TwoHands(m.players, users, board, a, b);
    assert forall k :: 0 <= k < 3 ==> RowOf(m.players[k]) == BlindOut()[k];
  }

  lemma BoardIsRigged(deck: seq<Card>)
    requires |deck| >= 11 && deck[..11] == RiggedCards()
    ensures deck[6..][..5] == RiggedBoard()
    ensures [deck[0], deck[3]] + RiggedBoard() == LosingSeven() && [deck[1], deck[4]] + RiggedBoard() == RoyalSeven()
  {
    var rigged := RiggedCards();
    assert forall k :: 0 <= k < 11 ==> deck[k] == rigged[k];
    assert deck[6..][..5] == deck[..11][6..];
  }

  // ---------- the stacks, and the button ----------

  lemma SeatTwoCollects(players: seq<Player>, users: seq<Option<int>>)
    requires RowsAre(players, users, BlindOut())
    ensures Matched(PotView(players), 100) == 202
  {
    assert forall k :: 0 <= k < 3 ==> RowOf(players[k]) == BlindOut()[k];
    assert Capped(PotView(players), 100) == [100, 100, 2];
    ThreeSum([100, 100, 2]);
  }

  /** Seat 2 wins everything, so seat 1 is broke: the three stacks are 0, 202 and 98. */
  lemma StacksAfter(m: GameState, users: seq<Option<int>>, r: GameState)
    requires Mid(m, 2) && RowsAre(m.players, users, BlindOut()) && ShowdownEnd(m, r) && BeatsTheOthers(m, 1)
    requires TotalChips(r.players) <= 300
    ensures |r.players| == 3 && r.players[0].chips == 0 && r.players[1].chips == 202 && r.players[2].chips == 98
  {
    UnderwayFacts(m);
    assert forall k :: 0 <= k < 3 ==> RowOf(m.players[k]) == BlindOut()[k];
    SeatTwoCollects(m.players, users);
    ShowdownStacks(m, r, 0);
    ShowdownStacks(m, r, 1);
    ShowdownStacks(m, r, 2);
    ThreeSum(Stacks(r.players));
  }

  lemma BrokeDealer(players: seq<Player>)
    requires SeatsAscend(players) && |players| == 3 && (forall k :: 0 <= k < 3 ==> players[k].seatNo == k + 1)
    requires players[0].chips == 0 && players[1].chips > 0 && players[2].chips > 0
    ensures SeatsWithChips(players) == [2, 3] && FirstLiveAfter([2, 3], 1) == 2 && NextDealerSeat(players, 1) == Some(3)
  {
    assert players[..2][..1] == players[..1] && players[..1][..0] == [];
    assert SeatsWithChips(players[..1]) == [];
    assert SeatsWithChips(players[..2]) == [2];
    assert [2, 3][1..] == [3];
    assert FirstLiveAfter([2, 3], 2) == 3;
    ButtonMovesOneSeat(players, 1);
  }

  lemma SeatsAtEnd(s: GameState, users: seq<Option<int>>, r: GameState)
    requires |users| == 3 && TableIs(s, users, ShoveCalled()) && ApplyGameAction(s, TwoShoves(users)[2]) == Ok(r)
    requires r.status == HandFinished
    ensures |r.players| == 3 && r.dealerSeat == 1 && (forall k :: 0 <= k < 3 ==> r.players[k].seatNo == k + 1)
    ensures TotalChips(r.players) <= TotalStart(s.players)
  {
    OnTurn(s, users, ShoveCalled());
    ActionKeeps(s, 2, TwoShoves(users)[2]);
    ChipsLostExactly(s, TwoShoves(users)[2], 2);
    forall k | 0 <= k < 3 ensures r.players[k].seatNo == k + 1 {
      assert Identity(r.players[k]) == Identity(s.players[k]);
    }
  }

  /** What the hand leaves: seat 1 is broke, seats 2 and 3 are not. */
  lemma HandLeaves(s: GameState, users: seq<Option<int>>, deck: seq<Card>, m: GameState, r: GameState)
    requires |users| == 3 && TableIs(s, users, ShoveCalled()) && ApplyGameAction(s, TwoShoves(users)[2]) == Ok(r)
    requires Mid(m, 2) && m == Mutated(s, 2, Fold, None) && RowsAre(m.players, users, BlindOut())
    requires ShowdownEnd(m, r) && r.status == HandFinished && CardsOf(s, deck) && deck[..11] == RiggedCards()
    requires TotalStart(s.players) == 300
    ensures SeatsWithChips(r.players) == [2, 3] && r.dealerSeat == 1
    ensures NextDealerSeat(r.players, r.dealerSeat) == Some(3)
  {
    OnTurn(s, users, ShoveCalled());
    MutatedCards(s, deck);
    SeatTwoBeats(m, users, deck);
    SeatsAtEnd(s, users, r);
    StacksAfter(m, users, r);
    BrokeDealer(r.players);
  }

  lemma CardsAt(users: seq<Option<int>>, stacks: seq<int>, deck: seq<Card>, inputs: seq<Input>, k: nat, s: GameState)
    requires |users| == |stacks| == 3 && (forall i :: 0 <= i < 3 ==> stacks[i] == 100) && |deck| >= 11
    ensures ValidSetup(Three(users, stacks, deck))
    ensures Reaches(Deal(Three(users, stacks, deck)), inputs, k, s) ==> CardsOf(s, deck)
  {
    ThreeIsValid(users, stacks, deck);
    if Reaches(Deal(Three(users, stacks, deck)), inputs, k, s) {
      CardsReached(users, stacks, Three(users, stacks, deck), inputs[..k], s);
    }
  }

  lemma TotalAt(users: seq<Option<int>>, stacks: seq<int>, deck: seq<Card>, inputs: seq<Input>, k: nat, s: GameState)
    requires |users| == |stacks| == 3 && (forall i :: 0 <= i < 3 ==> stacks[i] == 100) && |deck| >= 11
    ensures ValidSetup(Three(users, stacks, deck))
    ensures Reaches(Deal(Three(users, stacks, deck)), inputs, k, s) ==> TotalStart(s.players) == 300
  {
    ThreeIsValid(users, stacks, deck);
    if Reaches(Deal(Three(users, stacks, deck)), inputs, k, s) {
      TotalReached(users, stacks, Three(users, stacks, deck), inputs[..k], s);
    }
  }

  lemma ShovesReached(users: seq<Option<int>>, deck: seq<Card>, s: GameState)
    requires Seating(users, deck)
    ensures ValidSetup(Three(users, EqualStacks(), deck))
    ensures Reaches(Deal(Three(users, EqualStacks(), deck)), TwoShoves(users), 2, s) ==>
      CardsOf(s, deck) && TotalStart(s.players) == 300
  {
    CardsAt(users, EqualStacks(), deck, TwoShoves(users), 2, s);
    TotalAt(users, EqualStacks(), deck, TwoShoves(users), 2, s);
  }

  lemma ThreeInputs(users: seq<Option<int>>)
    requires |users| == 3
    ensures TwoShoves(users)[..3] == TwoShoves(users)
  {
  }

  lemma SkippingEnd(s0: GameState, users: seq<Option<int>>, s: GameState, deck: seq<Card>) returns (r: GameState)
    requires |users| == 3 && Reaches(s0, TwoShoves(users), 2, s) && TableIs(s, users, ShoveCalled())
    ensures Sound(s0) && r == Run(s0, TwoShoves(users)) && r.status == HandFinished
    ensures CardsOf(s, deck) && deck[..11] == RiggedCards() && TotalStart(s.players) == 300 ==>
      r.dealerSeat == 1 && SeatsWithChips(r.players) == [2, 3] && NextDealerSeat(r.players, 1) == Some(3)
  {
    var m;
    m, r := ReachesShowdown(s0, users, s);
    ThreeInputs(users);
    if CardsOf(s, deck) && deck[..11] == RiggedCards() && TotalStart(s.players) == 300 {
      HandLeaves(s, users, deck, m, r);
    }
  }

  /** Dealt from any deck that starts with these cards, the hand leaves seats 2 and 3 with chips and the button on seat
      1. Seat 2 is the next seat with chips, and the next button goes to seat 3. */
  lemma ButtonSkipsSeat(users: seq<Option<int>>, deck: seq<Card>) returns (r: GameState)
    requires Seating(users, deck) && deck[..11] == RiggedCards()
    ensures ValidSetup(Three(users, EqualStacks(), deck))
    ensures r == Run(Deal(Three(users, EqualStacks(), deck)), TwoShoves(users)) && r.status == HandFinished
    ensures r.dealerSeat == 1 && SeatsWithChips(r.players) == [2, 3]
    ensures FirstLiveAfter([2, 3], 1) == 2 && NextDealerSeat(r.players, 1) == Some(3)
  {
    var s0, s := ReachesShoveCalled(users, deck);
    ShovesReached(users, deck, s);
    r := SkippingEnd(s0, users, s, deck);
  }
}
