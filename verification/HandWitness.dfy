/** Concrete hands, dealt and played from the start, in which the engine does what one might not expect. */
module HandWitness {
  import opened Sequences
  import opened Deck
  import opened Pots
  import opened Engine
  import opened HandAccounting
  import opened HandRuns
  import opened HandProgress
  import opened HandStart
  import opened HandTheorems
  import opened LegalActions
  import opened ThreeHanded

  /** Any three users, bots included, and any deck for three. */
  ghost predicate Seating(users: seq<Option<int>>, deck: seq<Card>) {
    |users| == 3 && |deck| >= 11
  }

  // ---------- a fold that loses chips ----------

  function ShortStacks(): seq<int> {
    [300, 100, 100]
  }

  /** Seat 1 raises to 200, seats 2 and 3 call all in for 100, and seat 1 folds on the flop. */
  function RaiseAndFold(users: seq<Option<int>>): seq<Input>
    requires |users| == 3
  {
    [Input(1, users[0], Raise, Some(200)), Input(2, users[1], AllInMove, None), Input(3, users[2], AllInMove, None),
     Input(1, users[0], Fold, None)]
  }

  lemma SeatOneRaises(s: GameState, users: seq<Option<int>>)
    requires TableIs(s, users, FirstSpot(ShortStacks()))
    ensures MovesTo(s, users, FirstSpot(ShortStacks()), Raise, Some(200), 200, 198,
      [Row(100, 200, 200, Active, true), Row(99, 1, 1, Active, false), Row(98, 2, 2, Active, false)])
  {
    assert forall k :: 0 <= k < 3 ==> RowOf(s.players[k]) == FirstSpot(ShortStacks()).rows[k];
  }

  function Raised200(): Spot {
    Spot(Preflop, 200, 198, 1,
      [Row(100, 200, 200, Active, true), Row(99, 1, 1, Active, false), Row(98, 2, 2, Active, false)])
  }

  lemma SeatTwoCalls(s: GameState, users: seq<Option<int>>)
    requires TableIs(s, users, Raised200())
    ensures MovesTo(s, users, Raised200(), AllInMove, None, 200, 198,
      [Row(100, 200, 200, Active, true), Row(0, 100, 100, AllIn, true), Row(98, 2, 2, Active, false)])
  {
    assert forall k :: 0 <= k < 3 ==> RowOf(s.players[k]) == Raised200().rows[k];
  }

  function CalledOnce(): Spot {
    Spot(Preflop, 200, 198, 2,
      [Row(100, 200, 200, Active, true), Row(0, 100, 100, AllIn, true), Row(98, 2, 2, Active, false)])
  }

  lemma SeatThreeCalls(s: GameState, users: seq<Option<int>>)
    requires TableIs(s, users, CalledOnce())
    ensures MovesTo(s, users, CalledOnce(), AllInMove, None, 200, 198, CalledTwice())
  {
    assert forall k :: 0 <= k < 3 ==> RowOf(s.players[k]) == CalledOnce().rows[k];
  }

  function CalledTwice(): seq<Row> {
    [Row(100, 200, 200, Active, true), Row(0, 100, 100, AllIn, true), Row(0, 100, 100, AllIn, true)]
  }

  function LoneBettor(): Spot {
    Spot(Flop, 0, 2, 0, NewStreet(CalledTwice()))
  }

  lemma StartsPlay(users: seq<Option<int>>, stacks: seq<int>, deck: seq<Card>, inputs: seq<Input>)
      returns (s: GameState)
    requires Seating(users, deck) && |stacks| == 3 && forall i :: 0 <= i < 3 ==> stacks[i] > 2
    ensures ValidSetup(Three(users, stacks, deck)) && s == Deal(Three(users, stacks, deck))
    ensures TableIs(s, users, FirstSpot(stacks)) && Reaches(s, inputs, 0, s)
  {
    Opens(users, stacks, deck);
    s := Deal(Three(users, stacks, deck));
    ReachesStart(s, inputs);
  }

  lemma RaiseTo200(s0: GameState, users: seq<Option<int>>, s: GameState) returns (r: GameState)
    requires |users| == 3 && Reaches(s0, RaiseAndFold(users), 0, s) && TableIs(s, users, FirstSpot(ShortStacks()))
    ensures Reaches(s0, RaiseAndFold(users), 1, r) && TableIs(r, users, Raised200())
  {
    SeatOneRaises(s, users);
    r := NextGoes(s0, RaiseAndFold(users), 0, s, users, FirstSpot(ShortStacks()), Raised200());
  }

  lemma FirstShove(s0: GameState, users: seq<Option<int>>, s: GameState) returns (r: GameState)
    requires |users| == 3 && Reaches(s0, RaiseAndFold(users), 1, s) && TableIs(s, users, Raised200())
    ensures Reaches(s0, RaiseAndFold(users), 2, r) && TableIs(r, users, CalledOnce())
  {
    SeatTwoCalls(s, users);
    r := NextGoes(s0, RaiseAndFold(users), 1, s, users, Raised200(), CalledOnce());
  }

  lemma BothCalled(rows: seq<Row>)
    requires rows == CalledTwice()
    ensures RoundDone(rows, 200) && FirstToAct(NewStreet(rows), 0, 0, 0)
  {
  }

  lemma SecondShove(s0: GameState, users: seq<Option<int>>, s: GameState) returns (r: GameState)
    requires |users| == 3 && Reaches(s0, RaiseAndFold(users), 2, s) && TableIs(s, users, CalledOnce())
    ensures Reaches(s0, RaiseAndFold(users), 3, r) && TableIs(r, users, LoneBettor())
  {
    SeatThreeCalls(s, users);
    BothCalled(CalledTwice());
    r := NextCloses(s0, RaiseAndFold(users), 2, s, users, CalledOnce(), 200, 198, CalledTwice(), LoneBettor());
  }

  /** The three actions before the fold leave seat 1 to act alone against two all-in players. */
  lemma ReachesLoneBettor(users: seq<Option<int>>, deck: seq<Card>) returns (s: GameState)
    requires Seating(users, deck)
    ensures ValidSetup(Three(users, ShortStacks(), deck)) && TableIs(s, users, LoneBettor())
    ensures Reaches(Deal(Three(users, ShortStacks(), deck)), RaiseAndFold(users), 3, s)
  {
    var s0 := StartsPlay(users, ShortStacks(), deck, RaiseAndFold(users));
    s := RaiseTo200(s0, users, s0);
    s := FirstShove(s0, users, s);
    s := SecondShove(s0, users, s);
  }

  lemma LoneBettorForfeits(s: GameState, users: seq<Option<int>>)
    requires TableIs(s, users, LoneBettor())
    ensures ForfeitsExcess(s, 0, Fold)
  {
    assert forall k :: 0 <= k < 3 ==> RowOf(s.players[k]) == LoneBettor().rows[k];
    ThreeContend(s.players);
  }

  lemma ThreeContend(players: seq<Player>)
    requires |players| == 3 && forall k :: 0 <= k < 3 ==> Contends(players[k].status)
    ensures ContenderCount(players) == 3
  {
    assert players[..2][..1] == players[..1] && players[..1][..0] == [];
    assert ContenderCount(players[..1]) == 1;
    assert ContenderCount(players[..2]) == 2;
  }

  lemma LoneBettorLoses(s: GameState, users: seq<Option<int>>)
    requires TableIs(s, users, LoneBettor())
    ensures OnAStreet(s) && ApplyGameAction(s, Input(1, users[0], Fold, None)).Ok?
    ensures var r := ApplyGameAction(s, Input(1, users[0], Fold, None)).value;
      r.status == HandFinished && TotalChips(r.players) < TotalStart(s.players)
  {
    var fold := Input(1, users[0], Fold, None);
    OnTurn(s, users, LoneBettor());
    AcceptedIff(s, 0, fold);
    LoneBettorForfeits(s, users);
    ForfeitFinishes(s, 0, fold);
    ChipsLostExactly(s, fold, 0);
  }

  /** Dealt from any deck, this hand of 500 chips ends with fewer: seat 1's fold is accepted, ends the hand, and what
      seat 1 put in above the two all-in players' 100 is paid to nobody. */
  lemma FoldLosesChips(users: seq<Option<int>>, deck: seq<Card>)
    requires Seating(users, deck)
    ensures ValidSetup(Three(users, ShortStacks(), deck))
    ensures Sum(ChipsOf(Three(users, ShortStacks(), deck).players)) == 500
    ensures var r := Run(Deal(Three(users, ShortStacks(), deck)), RaiseAndFold(users));
      r.status == HandFinished && TotalChips(r.players) < 500
  {
    var s := ReachesLoneBettor(users, deck);
    var s0, inputs := Deal(Three(users, ShortStacks(), deck)), RaiseAndFold(users);
    LoneBettorLoses(s, users);
    ReachesNext(s0, inputs, 3, s, ApplyGameAction(s, inputs[3]).value);
    assert inputs[..4] == inputs;
    DealStart(Three(users, ShortStacks(), deck));
    StartIsKept(s0, inputs[..3]);
    ThreeSum(ChipsOf(Three(users, ShortStacks(), deck).players));
  }

  lemma StartIsKept(s0: GameState, inputs: seq<Input>)
    requires Sound(s0)
    ensures TotalStart(Run(s0, inputs).players) == TotalStart(s0.players)
  {
  }

  lemma ThreeSum(xs: seq<int>)
    requires |xs| == 3
    ensures Sum(xs) == xs[0] + xs[1] + xs[2]
  {
    assert xs[..2][..1] == xs[..1] && xs[..1][..0] == [];
    assert Sum(xs[..1]) == xs[0];
    assert Sum(xs[..2]) == xs[0] + xs[1];
  }

  // ---------- a short all-in that reopens the betting ----------

  function BigBlindShort(): seq<int> {
    [300, 300, 30]
  }

  /** Seat 1 raises to 20, seat 2 calls, the big blind goes all in for 30, and seat 1 raises again. */
  function ShortAllIn(users: seq<Option<int>>): seq<Input>
    requires |users| == 3
  {
    [Input(1, users[0], Raise, Some(20)), Input(2, users[1], Call, None), Input(3, users[2], AllInMove, None),
     Input(1, users[0], Raise, Some(48))]
  }

  function Raised20(): Spot {
    Spot(Preflop, 20, 18, 1,
      [Row(280, 20, 20, Active, true), Row(299, 1, 1, Active, false), Row(28, 2, 2, Active, false)])
  }

  function Called20(): Spot {
    Spot(Preflop, 20, 18, 2,
      [Row(280, 20, 20, Active, true), Row(280, 20, 20, Active, true), Row(28, 2, 2, Active, false)])
  }

  function ShortOf30(): Spot {
    Spot(Preflop, 30, 18, 0,
      [Row(280, 20, 20, Active, true), Row(280, 20, 20, Active, true), Row(0, 30, 30, AllIn, true)])
  }

  function Reraised(): Spot {
    Spot(Preflop, 48, 18, 1,
      [Row(252, 48, 48, Active, true), Row(280, 20, 20, Active, false), Row(0, 30, 30, AllIn, true)])
  }

  lemma SeatOneRaises20(s: GameState, users: seq<Option<int>>)
    requires TableIs(s, users, FirstSpot(BigBlindShort()))
    ensures MovesTo(s, users, FirstSpot(BigBlindShort()), Raise, Some(20), 20, 18, Raised20().rows)
  {
    assert forall k :: 0 <= k < 3 ==> RowOf(s.players[k]) == FirstSpot(BigBlindShort()).rows[k];
  }

  lemma SeatTwoCalls20(s: GameState, users: seq<Option<int>>)
    requires TableIs(s, users, Raised20())
    ensures MovesTo(s, users, Raised20(), Call, None, 20, 18, Called20().rows)
  {
    assert forall k :: 0 <= k < 3 ==> RowOf(s.players[k]) == Raised20().rows[k];
  }

  lemma BigBlindShoves(s: GameState, users: seq<Option<int>>)
    requires TableIs(s, users, Called20())
    ensures MovesTo(s, users, Called20(), AllInMove, None, 30, 18, ShortOf30().rows)
  {
    assert forall k :: 0 <= k < 3 ==> RowOf(s.players[k]) == Called20().rows[k];
  }

  lemma SeatOneReraises(s: GameState, users: seq<Option<int>>)
    requires TableIs(s, users, ShortOf30())
    ensures MovesTo(s, users, ShortOf30(), Raise, Some(48), 48, 18, Reraised().rows)
  {
    assert forall k :: 0 <= k < 3 ==> RowOf(s.players[k]) == ShortOf30().rows[k];
  }

  lemma RaiseTo20(s0: GameState, users: seq<Option<int>>, s: GameState) returns (r: GameState)
    requires |users| == 3 && Reaches(s0, ShortAllIn(users), 0, s) && TableIs(s, users, FirstSpot(BigBlindShort()))
    ensures Reaches(s0, ShortAllIn(users), 1, r) && TableIs(r, users, Raised20())
  {
    SeatOneRaises20(s, users);
    r := NextGoes(s0, ShortAllIn(users), 0, s, users, FirstSpot(BigBlindShort()), Raised20());
  }

  lemma CallOf20(s0: GameState, users: seq<Option<int>>, s: GameState) returns (r: GameState)
    requires |users| == 3 && Reaches(s0, ShortAllIn(users), 1, s) && TableIs(s, users, Raised20())
    ensures Reaches(s0, ShortAllIn(users), 2, r) && TableIs(r, users, Called20())
  {
    SeatTwoCalls20(s, users);
    r := NextGoes(s0, ShortAllIn(users), 1, s, users, Raised20(), Called20());
  }

  lemma ShoveFor30(s0: GameState, users: seq<Option<int>>, s: GameState) returns (r: GameState)
    requires |users| == 3 && Reaches(s0, ShortAllIn(users), 2, s) && TableIs(s, users, Called20())
    ensures Reaches(s0, ShortAllIn(users), 3, r) && TableIs(r, users, ShortOf30())
  {
    BigBlindShoves(s, users);
    r := NextGoes(s0, ShortAllIn(users), 2, s, users, Called20(), ShortOf30());
  }

  lemma ReraiseTo48(s: GameState, users: seq<Option<int>>) returns (r: GameState)
    requires |users| == 3 && TableIs(s, users, ShortOf30())
    ensures OnAStreet(s) && ApplyGameAction(s, Input(1, users[0], Raise, Some(48))) == Ok(r) && r.currentBet == 48
    ensures |s.players| == 3 && s.players[0].hasActed
  {
    SeatOneReraises(s, users);
    r := GoesTo(s, users, ShortOf30(), Raise, Some(48), 48, 18, Reraised().rows, 1);
    assert RowOf(s.players[0]) == ShortOf30().rows[0];
  }

  /** The big blind's all-in raises the bet by 10, less than the minimum of 18; seat 1, who has already acted, raises
      again and is accepted. */
  lemma ShortAllInReopened(users: seq<Option<int>>, deck: seq<Card>) returns (s: GameState, r: GameState)
    requires Seating(users, deck)
    ensures ValidSetup(Three(users, BigBlindShort(), deck))
    ensures s == Run(Deal(Three(users, BigBlindShort(), deck)), ShortAllIn(users)[..3])
    ensures s.currentBet == 30 && s.minRaise == 18 && |s.players| == 3 && s.players[0].hasActed && s.turn == Some(1)
    ensures OnAStreet(s) && ApplyGameAction(s, ShortAllIn(users)[3]) == Ok(r) && r.currentBet == 48
  {
    var s0 := StartsPlay(users, BigBlindShort(), deck, ShortAllIn(users));
    s := RaiseTo20(s0, users, s0);
    s := CallOf20(s0, users, s);
    s := ShoveFor30(s0, users, s);
    r := ReraiseTo48(s, users);
  }

  // ---------- a bet below the advertised minimum ----------

  function DeepStacks(): seq<int> {
    [300, 300, 300]
  }

  /** Two calls and a check, and seat 2 bets 1 on the flop. */
  function CallsAndBet(users: seq<Option<int>>): seq<Input>
    requires |users| == 3
  {
    [Input(1, users[0], Call, None), Input(2, users[1], Call, None), Input(3, users[2], Check, None),
     Input(2, users[1], Bet, Some(1))]
  }

  function LimpedOnce(): Spot {
    Spot(Preflop, 2, 2, 1, [Row(298, 2, 2, Active, true), Row(299, 1, 1, Active, false), Row(298, 2, 2, Active, false)])
  }

  function LimpedTwice(): Spot {
    Spot(Preflop, 2, 2, 2, [Row(298, 2, 2, Active, true), Row(298, 2, 2, Active, true), Row(298, 2, 2, Active, false)])
  }

  function Checked(): seq<Row> {
    [Row(298, 2, 2, Active, true), Row(298, 2, 2, Active, true), Row(298, 2, 2, Active, true)]
  }

  function OnFlop(): Spot {
    Spot(Flop, 0, 2, 1, NewStreet(Checked()))
  }

  lemma SeatOneLimps(s: GameState, users: seq<Option<int>>)
    requires TableIs(s, users, FirstSpot(DeepStacks()))
    ensures MovesTo(s, users, FirstSpot(DeepStacks()), Call, None, 2, 2, LimpedOnce().rows)
  {
    assert forall k :: 0 <= k < 3 ==> RowOf(s.players[k]) == FirstSpot(DeepStacks()).rows[k];
  }

  lemma SeatTwoLimps(s: GameState, users: seq<Option<int>>)
    requires TableIs(s, users, LimpedOnce())
    ensures MovesTo(s, users, LimpedOnce(), Call, None, 2, 2, LimpedTwice().rows)
  {
    assert forall k :: 0 <= k < 3 ==> RowOf(s.players[k]) == LimpedOnce().rows[k];
  }

  lemma BigBlindChecks(s: GameState, users: seq<Option<int>>)
    requires TableIs(s, users, LimpedTwice())
    ensures MovesTo(s, users, LimpedTwice(), Check, None, 2, 2, Checked())
  {
    assert forall k :: 0 <= k < 3 ==> RowOf(s.players[k]) == LimpedTwice().rows[k];
  }

  lemma FirstLimp(s0: GameState, users: seq<Option<int>>, s: GameState) returns (r: GameState)
    requires |users| == 3 && Reaches(s0, CallsAndBet(users), 0, s) && TableIs(s, users, FirstSpot(DeepStacks()))
    ensures Reaches(s0, CallsAndBet(users), 1, r) && TableIs(r, users, LimpedOnce())
  {
    SeatOneLimps(s, users);
    r := NextGoes(s0, CallsAndBet(users), 0, s, users, FirstSpot(DeepStacks()), LimpedOnce());
  }

  lemma SecondLimp(s0: GameState, users: seq<Option<int>>, s: GameState) returns (r: GameState)
    requires |users| == 3 && Reaches(s0, CallsAndBet(users), 1, s) && TableIs(s, users, LimpedOnce())
    ensures Reaches(s0, CallsAndBet(users), 2, r) && TableIs(r, users, LimpedTwice())
  {
    SeatTwoLimps(s, users);
    r := NextGoes(s0, CallsAndBet(users), 1, s, users, LimpedOnce(), LimpedTwice());
  }

  lemma AllChecked(rows: seq<Row>)
    requires rows == Checked()
    ensures RoundDone(rows, 2) && FirstToAct(NewStreet(rows), 0, 0, 1)
  {
  }

  lemma CheckedThrough(s0: GameState, users: seq<Option<int>>, s: GameState) returns (r: GameState)
    requires |users| == 3 && Reaches(s0, CallsAndBet(users), 2, s) && TableIs(s, users, LimpedTwice())
    ensures Reaches(s0, CallsAndBet(users), 3, r) && TableIs(r, users, OnFlop())
  {
    BigBlindChecks(s, users);
    AllChecked(Checked());
    r := NextCloses(s0, CallsAndBet(users), 2, s, users, LimpedTwice(), 2, 2, Checked(), OnFlop());
  }

  /** On the flop seat 2 is offered bets from 2 up, and a bet of 1 is accepted all the same. */
  lemma TinyBetAccepted(users: seq<Option<int>>, deck: seq<Card>) returns (s: GameState)
    requires Seating(users, deck)
    ensures ValidSetup(Three(users, DeepStacks(), deck))
    ensures s == Run(Deal(Three(users, DeepStacks(), deck)), CallsAndBet(users)[..3]) && OnAStreet(s)
    ensures !Advertises(Legal(s, 2), Bet, Some(1)) && Advertises(Legal(s, 2), Bet, Some(2))
    ensures ApplyGameAction(s, CallsAndBet(users)[3]).Ok?
  {
    var s0 := StartsPlay(users, DeepStacks(), deck, CallsAndBet(users));
    s := FirstLimp(s0, users, s0);
    s := SecondLimp(s0, users, s);
    s := CheckedThrough(s0, users, s);
    BetsOnFlop(s, users);
  }

  lemma BetsOnFlop(s: GameState, users: seq<Option<int>>)
    requires TableIs(s, users, OnFlop())
    ensures OnAStreet(s) && !Advertises(Legal(s, 2), Bet, Some(1)) && Advertises(Legal(s, 2), Bet, Some(2))
    ensures ApplyGameAction(s, Input(2, users[1], Bet, Some(1))).Ok?
  {
    OnTurn(s, users, OnFlop());
    assert RowOf(s.players[1]) == NewStreet(Checked())[1];
    BetIsLooser(s, 1, Some(1));
    AdvertisedMoves(s, 1, Bet, Some(2));
  }
}
