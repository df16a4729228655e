/** Three-handed tables with blinds 1 and 2 and the button on seat 1, followed
    action by action through their chips: the ground of the concrete hands. */
module ThreeHanded {
  import opened Sequences
  import opened Deck
  import opened Pots
  import opened Engine
  import opened TurnOrder
  import opened HandInvariant
  import opened HandStep
  import opened HandRuns
  import opened HandStart
  import opened HandRules
  import opened HandTheorems

  /** Seats 1, 2 and 3 with these users and stacks. */
  function Three(users: seq<Option<int>>, stacks: seq<int>, deck: seq<Card>): Setup
    requires |users| == |stacks| == 3
  {
    Setup(1, 2,
      [SeatInput(1, users[0], stacks[0]), SeatInput(2, users[1], stacks[1]), SeatInput(3, users[2], stacks[2])],
      Some(1), deck)
  }

  /** A player without the cards. */
  datatype Row = Row(chips: int, street: int, hand: int, status: Status, acted: bool)

  function RowOf(p: Player): Row {
    Row(p.chips, p.investedThisStreet, p.investedThisHand, p.status, p.hasActed)
  }

  predicate Needs(row: Row, bet: int) {
    row.status == Active && row.chips > 0 && (!row.acted || row.street < bet)
  }

  /** The players are these rows in seats 1, 2 and 3. */
  ghost predicate RowsAre(players: seq<Player>, users: seq<Option<int>>, rows: seq<Row>) {
    && |players| == |users| == |rows| == 3
    && forall k :: 0 <= k < 3 ==>
      players[k].seatNo == k + 1 && players[k].userId == users[k] && RowOf(players[k]) == rows[k]
  }

  /** A hand in play: its street, bet, minimum raise, the position on turn and the rows. */
  datatype Spot = Spot(street: Street, bet: int, minRaise: int, turn: nat, rows: seq<Row>)

  ghost predicate TableIs(s: GameState, users: seq<Option<int>>, spot: Spot) {
    Inv(s) && Looks(s, users, spot)
  }

  ghost predicate Looks(s: GameState, users: seq<Option<int>>, spot: Spot) {
    && s.street == spot.street && s.currentBet == spot.bet && s.minRaise == spot.minRaise
    && s.turn == Some(spot.turn + 1) && s.dealerSeat == 1 && s.bigBlind == 2 && RowsAre(s.players, users, spot.rows)
  }

  /** Clockwise of position a, u is the first who has to act. */
  ghost predicate FirstToAct(rows: seq<Row>, bet: int, a: nat, u: nat) {
    && |rows| == 3 && a < 3 && u < 3 && Needs(rows[u], bet)
    && forall x :: 0 <= x < 3 && Needs(rows[x], bet) ==> Distance(a, u, 3) <= Distance(a, x, 3)
  }

  lemma FirstIsNearest(players: seq<Player>, users: seq<Option<int>>, rows: seq<Row>, bet: int, a: nat, u: nat)
    requires RowsAre(players, users, rows) && FirstToAct(rows, bet, a, u)
    ensures FirstActionableSeatAfter(players, bet, a + 1) == Some(u + 1) && NeedsAction(players[u], bet)
  {
    var t := NearestActs(players, bet, a);
    assert forall k :: 0 <= k < 3 ==> (NeedsAction(players[k], bet) <==> Needs(RowOf(players[k]), bet));
  }

  lemma OnTurn(s: GameState, users: seq<Option<int>>, spot: Spot)
    requires TableIs(s, users, spot)
    ensures TurnAt(s, spot.turn)
  {
    var t: nat :| TurnAt(s, t);
    assert s.players[t].seatNo == t + 1;
  }

  lemma StillOpen(players: seq<Player>, bet: int, u: nat)
    requires u < |players| && NeedsAction(players[u], bet)
    ensures !NobodyCanBet(players) && !IsBettingRoundComplete(players, bet)
  {
    assert Contends(players[u].status);
  }

  /** The turn passes to u. */
  lemma PassesTo(m: GameState, users: seq<Option<int>>, rows: seq<Row>, a: nat, u: nat) returns (r: GameState)
    requires Mid(m, a) && ContenderCount(m.players) >= 2 && RowsAre(m.players, users, rows)
    requires FirstToAct(rows, m.currentBet, a, u)
    ensures NormalizeAfterAction(m, a + 1) == Ok(r) && r == PassTurn(WithPot(m), a + 1)
    ensures Inv(r) && r.turn == Some(u + 1)
  {
    FirstIsNearest(m.players, users, rows, m.currentBet, a, u);
    StillOpen(m.players, m.currentBet, u);
    r := OpenTurn(m, a, a + 1);
  }

  /** The street stays open, and this is how the table looks then. */
  lemma TurnGoesTo(m: GameState, users: seq<Option<int>>, spot: Spot, a: nat) returns (r: GameState)
    requires Mid(m, a) && ContenderCount(m.players) >= 2 && RowsAre(m.players, users, spot.rows)
    requires m.street == spot.street && m.currentBet == spot.bet && m.minRaise == spot.minRaise
    requires m.dealerSeat == 1 && m.bigBlind == 2 && FirstToAct(spot.rows, spot.bet, a, spot.turn)
    ensures NormalizeAfterAction(m, a + 1) == Ok(r) && TableIs(r, users, spot)
  {
    r := PassesTo(m, users, spot.rows, a, spot.turn);
  }

  lemma OpenTurn(m: GameState, a: nat, from: int) returns (r: GameState)
    requires Mid(m, a) && ContenderCount(m.players) >= 2 && m.players[a].seatNo == from
    requires !NobodyCanBet(m.players) && !IsBettingRoundComplete(m.players, m.currentBet)
    ensures NormalizeAfterAction(m, from) == Ok(r) && r == PassTurn(WithPot(m), from) && Inv(r)
  {
    UnderwayFacts(m);
    ShowdownHappens(m);
    NormalizeEndsOrPasses(m, from);
    NextTurn(m, a);
    r := PassTurn(WithPot(m), from);
  }

  lemma ResetRows(players: seq<Player>, users: seq<Option<int>>, rows: seq<Row>)
    requires RowsAre(players, users, rows)
    ensures RowsAre(ResetStreet(players), users, NewStreet(rows))
  {
  }

  lemma AdvancedLooks(m: GameState, r: GameState, users: seq<Option<int>>, rows: seq<Row>, u: nat)
    requires m.dealerSeat == 1 && m.bigBlind == 2 && RowsAre(m.players, users, rows)
    requires AdvanceStreet(WithPot(m)) == Ok(r) && FirstToAct(NewStreet(rows), 0, 0, u)
    ensures Looks(r, users, Spot(NextStreet(m.street), 0, 2, u, NewStreet(rows)))
  {
    AdvancedIs(m, r);
    ResetRows(m.players, users, rows);
    AdvancedTurn(r, users, NewStreet(rows), u, r.currentBet, 0, m.dealerSeat);
  }

  lemma AdvancedTurn(r: GameState, users: seq<Option<int>>, rows: seq<Row>, u: nat, bet: int, a: nat,
      from: int)
    requires from == a + 1 && RowsAre(r.players, users, rows) && FirstToAct(rows, bet, a, u)
    requires r.turn == FirstActionableSeatAfter(r.players, bet, from)
    ensures r.turn == Some(u + 1)
  {
    FirstIsNearest(r.players, users, rows, bet, a, u);
  }

  lemma AdvancedIs(m: GameState, r: GameState)
    requires AdvanceStreet(WithPot(m)) == Ok(r)
    ensures r.street == NextStreet(m.street) && r.currentBet == 0 && r.minRaise == m.bigBlind
    ensures r.players == ResetStreet(m.players) && r.dealerSeat == m.dealerSeat && r.bigBlind == m.bigBlind
    ensures r.turn == FirstActionableSeatAfter(r.players, r.currentBet, m.dealerSeat)
  {
  }

  /** A street opens with u on turn. */
  lemma OpensTo(m: GameState, users: seq<Option<int>>, rows: seq<Row>, a: nat, u: nat)
    requires Mid(m, a) && ContenderCount(m.players) >= 2 && m.street != River && m.dealerSeat == 1 && m.bigBlind == 2
    requires RowsAre(m.players, users, rows) && IsBettingRoundComplete(m.players, m.currentBet)
    requires !NobodyCanBet(m.players)
    requires FirstToAct(NewStreet(rows), 0, 0, u)
    ensures NormalizeAfterAction(m, a + 1).Ok?
    ensures TableIs(NormalizeAfterAction(m, a + 1).value, users, Spot(NextStreet(m.street), 0, 2, u, NewStreet(rows)))
  {
    assert m.players[a].seatNo == a + 1;
    NextStreetStarts(m, a);
    NormalizeAdvances(m, a + 1);
    AdvancedLooks(m, AdvanceStreet(WithPot(m)).value, users, rows, u);
  }

  function NewStreet(rows: seq<Row>): seq<Row> {
    seq(|rows|, i requires 0 <= i < |rows| => rows[i].(street := 0, acted := false))
  }

  // ---------- the first turn ----------

  lemma ThreeIsValid(users: seq<Option<int>>, stacks: seq<int>, deck: seq<Card>)
    requires |users| == |stacks| == 3 && |deck| >= 11 && forall k :: 0 <= k < 3 ==> stacks[k] > 2
    ensures ValidSetup(Three(users, stacks, deck))
    ensures WithChips(Three(users, stacks, deck).players) == Three(users, stacks, deck).players
    ensures Sort(Three(users, stacks, deck).players, SeatLeq) == Three(users, stacks, deck).players
    ensures LiveSeats(Three(users, stacks, deck).players) == [1, 2, 3]
  {
    var inputs := Three(users, stacks, deck).players;
    EveryoneLive(inputs);
    SortIdentity(inputs, SeatLeq);
    assert SeatNumbers(inputs) == [1, 2, 3];
  }

  lemma ThreeInOrder(users: seq<Option<int>>, stacks: seq<int>, setup: Setup)
    requires |users| == |stacks| == 3 && (forall k :: 0 <= k < 3 ==> stacks[k] > 2) && |setup.deck| >= 11
    requires setup == Three(users, stacks, setup.deck)
    ensures |setup.players| == 3 && forall k :: 0 <= k < 3 ==> setup.players[k].chips > 0
    ensures Sort(setup.players, SeatLeq) == setup.players && WithChips(setup.players) == setup.players
  {
    ThreeIsValid(users, stacks, setup.deck);
  }

  lemma ThreeBlinds(setup: Setup)
    requires LiveSeats(setup.players) == [1, 2, 3] && setup.dealerSeat == Some(1)
    ensures ResolveSetup(setup) == Ok(Blinds(1, 2, 3))
  {
    var live := LiveSeats(setup.players);
    BlindsFollowButton(live, 1);
    assert IndexOf(live, 1) == 0;
  }

  /** Where a three-handed hand begins: the blinds are in and seat 1 is on turn. */
  function FirstSpot(stacks: seq<int>): Spot
    requires |stacks| == 3
  {
    Spot(Preflop, 2, 2, 0,
      [Row(stacks[0], 0, 0, Active, false), Row(stacks[1] - 1, 1, 1, Active, false),
       Row(stacks[2] - 2, 2, 2, Active, false)])
  }

  lemma Opens(users: seq<Option<int>>, stacks: seq<int>, deck: seq<Card>)
    requires |users| == |stacks| == 3 && |deck| >= 11 && forall k :: 0 <= k < 3 ==> stacks[k] > 2
    ensures ValidSetup(Three(users, stacks, deck))
    ensures TableIs(Deal(Three(users, stacks, deck)), users, FirstSpot(stacks))
  {
    ThreeIsValid(users, stacks, deck);
    var m := BlindsAreIn(Three(users, stacks, deck), users, stacks);
    FirstActs(FirstSpot(stacks).rows, stacks);
    var r := TurnGoesTo(m, users, FirstSpot(stacks), 2);
    DealIs(Three(users, stacks, deck), r);
  }

  lemma FirstActs(rows: seq<Row>, stacks: seq<int>)
    requires |stacks| == 3 && rows == FirstSpot(stacks).rows && stacks[0] > 0
    ensures FirstToAct(rows, 2, 2, 0)
  {
  }

  lemma DealIs(setup: Setup, r: GameState)
    requires ValidSetup(setup) && CreateInitialGameState(setup) == Ok(r)
    ensures Deal(setup) == r
  {
  }

  /** The state with the blinds in, before the first turn is given. */
  lemma BlindsAreIn(setup: Setup, users: seq<Option<int>>, stacks: seq<int>) returns (m: GameState)
    requires |users| == |stacks| == 3 && forall k :: 0 <= k < 3 ==> stacks[k] > 2
    requires setup == Three(users, stacks, setup.deck) && ValidSetup(setup) && LiveSeats(setup.players) == [1, 2, 3]
    requires WithChips(setup.players) == setup.players && Sort(setup.players, SeatLeq) == setup.players
    ensures Mid(m, 2) && ContenderCount(m.players) >= 2 && RowsAre(m.players, users, FirstSpot(stacks).rows)
    ensures m.street == Preflop && m.currentBet == 2 && m.minRaise == 2 && m.dealerSeat == 1 && m.bigBlind == 2
    ensures CreateInitialGameState(setup) == NormalizeAfterAction(m, 3)
  {
    ThreeBlinds(setup);
    var d := DealtRounds(setup);
    var sp, bp := OpeningPositions(setup, d);
    DealtThree(setup, d, users, stacks);
    DealtTableIsFresh(setup, d);
    OpeningPath(setup, Blinds(1, 2, 3), d, sp, bp);
    OpeningIsMid(setup, Blinds(1, 2, 3), d, sp, bp);
    m := BlindState(setup, Blinds(1, 2, 3), d, sp, bp);
    PostedThree(d.players, users, stacks);
    PostedBlinds(d.players, sp, bp, 1, 2);
  }

  lemma DealtThree(setup: Setup, d: Dealing, users: seq<Option<int>>, stacks: seq<int>)
    requires |users| == |stacks| == 3 && forall k :: 0 <= k < 3 ==> stacks[k] > 2
    requires setup.players == Three(users, stacks, setup.deck).players
    requires HandsDealt(setup.players, setup.deck, 3, d)
    ensures RowsAre(d.players, users, seq(3, k requires 0 <= k < 3 => Row(stacks[k], 0, 0, Active, false)))
  {
    forall k | 0 <= k < 3
      ensures d.players[k].seatNo == k + 1 && d.players[k].userId == users[k]
      ensures RowOf(d.players[k]) == Row(stacks[k], 0, 0, Active, false)
    {
      assert HandDealt(setup.players, setup.deck, 3, d, k);
    }
  }

  lemma PostedThree(players: seq<Player>, users: seq<Option<int>>, stacks: seq<int>)
    requires |users| == |stacks| == 3 && forall k :: 0 <= k < 3 ==> stacks[k] > 2
    requires RowsAre(players, users, seq(3, k requires 0 <= k < 3 => Row(stacks[k], 0, 0, Active, false)))
    ensures RowsAre(AfterBlinds(players, 1, 2, 1, 2), users, FirstSpot(stacks).rows)
  {
  }

  // ---------- one action ----------

  /** The rows after an action, without asking who is next. */
  ghost predicate MovesTo(s: GameState, users: seq<Option<int>>, spot: Spot, move: Move, amount: Option<int>,
    bet: int, minRaise: int, rows: seq<Row>)
  {
    && TableIs(s, users, spot) && spot.turn < 3 && ApplyMove(BettingOf(s), spot.turn, move, amount).Ok?
    && var m := ApplyMove(BettingOf(s), spot.turn, move, amount).value.betting;
       m.currentBet == bet && m.minRaise == minRaise && RowsAre(m.players, users, rows)
  }

  lemma MutatedLooks(s: GameState, t: nat, move: Move, amount: Option<int>)
    requires t < |s.players| && ApplyMove(BettingOf(s), t, move, amount).Ok?
    ensures var m, b := Mutated(s, t, move, amount), ApplyMove(BettingOf(s), t, move, amount).value.betting;
      && m.players == b.players && m.currentBet == b.currentBet && m.minRaise == b.minRaise
      && m.street == s.street && m.dealerSeat == s.dealerSeat && m.bigBlind == s.bigBlind
  {
  }

  /** The state the action leaves for normalizeAfterAction. */
  lemma ActingIs(s: GameState, users: seq<Option<int>>, spot: Spot, move: Move, amount: Option<int>,
      bet: int, minRaise: int, rows: seq<Row>) returns (m: GameState)
    requires MovesTo(s, users, spot, move, amount, bet, minRaise, rows)
    ensures TurnAt(s, spot.turn) && Mid(m, spot.turn) && m == Mutated(s, spot.turn, move, amount)
    ensures ApplyGameAction(s, Input(spot.turn + 1, users[spot.turn], move, amount)) ==
      NormalizeAfterAction(m, spot.turn + 1)
    ensures OnAStreet(s) && (move != Fold ==> ContenderCount(m.players) >= 2)
    ensures m.street == spot.street && m.currentBet == bet && m.minRaise == minRaise && m.dealerSeat == 1
    ensures m.bigBlind == 2
    ensures RowsAre(m.players, users, rows)
  {
    OnTurn(s, users, spot);
    assert s.players[spot.turn].seatNo == spot.turn + 1 && s.players[spot.turn].userId == users[spot.turn];
    AcceptedIff(s, spot.turn, Input(spot.turn + 1, users[spot.turn], move, amount));
    MutatedIsMid(s, spot.turn, move, amount);
    MutatedLooks(s, spot.turn, move, amount);
    m := Mutated(s, spot.turn, move, amount);
    NormalizeOutcome(m, spot.turn);
  }

  lemma StepIs(s: GameState, input: Input, r: GameState)
    requires OnAStreet(s) && ApplyGameAction(s, input) == Ok(r)
    ensures Step(s, input) == r
  {
  }

  /** An action that leaves the street open and passes the turn to u. */
  lemma GoesTo(s: GameState, users: seq<Option<int>>, spot: Spot, move: Move, amount: Option<int>,
      bet: int, minRaise: int, rows: seq<Row>, u: nat) returns (r: GameState)
    requires MovesTo(s, users, spot, move, amount, bet, minRaise, rows) && move != Fold
    requires FirstToAct(rows, bet, spot.turn, u)
    ensures OnAStreet(s) && ApplyGameAction(s, Input(spot.turn + 1, users[spot.turn], move, amount)) == Ok(r)
    ensures Step(s, Input(spot.turn + 1, users[spot.turn], move, amount)) == r
    ensures TableIs(r, users, Spot(spot.street, bet, minRaise, u, rows))
  {
    var m := ActingIs(s, users, spot, move, amount, bet, minRaise, rows);
    r := TurnGoesTo(m, users, Spot(spot.street, bet, minRaise, u, rows), spot.turn);
    StepIs(s, Input(spot.turn + 1, users[spot.turn], move, amount), r);
  }

  /** Everybody who can still bet has acted and matched. */
  ghost predicate RoundDone(rows: seq<Row>, bet: int) {
    && |rows| == 3
    && forall k :: 0 <= k < 3 && rows[k].status == Active && rows[k].chips > 0 ==>
      rows[k].acted && rows[k].street == bet
  }

  lemma RoundIsOver(players: seq<Player>, users: seq<Option<int>>, rows: seq<Row>, bet: int, u: nat)
    requires RowsAre(players, users, rows) && FirstToAct(NewStreet(rows), 0, 0, u)
    requires RoundDone(rows, bet)
    ensures IsBettingRoundComplete(players, bet) && !NobodyCanBet(players)
  {
    assert forall k :: 0 <= k < 3 ==> RowOf(players[k]) == rows[k];
    assert NewStreet(rows)[u].status == rows[u].status && Contends(players[u].status);
  }

  /** An action that closes the street and opens the next with u on turn. */
  lemma ClosesTo(s: GameState, users: seq<Option<int>>, spot: Spot, move: Move, amount: Option<int>,
      bet: int, minRaise: int, rows: seq<Row>, u: nat) returns (r: GameState)
    requires MovesTo(s, users, spot, move, amount, bet, minRaise, rows) && move != Fold && spot.street != River
    requires RoundDone(rows, bet)
    requires FirstToAct(NewStreet(rows), 0, 0, u)
    ensures OnAStreet(s) && ApplyGameAction(s, Input(spot.turn + 1, users[spot.turn], move, amount)) == Ok(r)
    ensures Step(s, Input(spot.turn + 1, users[spot.turn], move, amount)) == r
    ensures TableIs(r, users, Spot(NextStreet(spot.street), 0, 2, u, NewStreet(rows)))
  {
    var m := ActingIs(s, users, spot, move, amount, bet, minRaise, rows);
    RoundIsOver(m.players, users, rows, bet, u);
    OpensTo(m, users, rows, spot.turn, u);
    r := NormalizeAfterAction(m, spot.turn + 1).value;
    StepIs(s, Input(spot.turn + 1, users[spot.turn], move, amount), r);
  }

  /** After the first k of these inputs the hand is in state s. */
  ghost predicate Reaches(s0: GameState, inputs: seq<Input>, k: nat, s: GameState) {
    Sound(s0) && k <= |inputs| && Run(s0, inputs[..k]) == s
  }

  lemma ReachesStart(s0: GameState, inputs: seq<Input>)
    requires Sound(s0)
    ensures Reaches(s0, inputs, 0, s0)
  {
  }

  lemma ReachesNext(s0: GameState, inputs: seq<Input>, k: nat, s: GameState, r: GameState)
    requires Reaches(s0, inputs, k, s) && k < |inputs| && OnAStreet(s) && Step(s, inputs[k]) == r
    ensures Reaches(s0, inputs, k + 1, r)
  {
    assert inputs[..k + 1][..k] == inputs[..k];
  }

  /** The k-th input leaves the street open and passes the turn to u. */
  lemma NextGoes(s0: GameState, inputs: seq<Input>, k: nat, s: GameState, users: seq<Option<int>>, spot: Spot,
      next: Spot) returns (r: GameState)
    requires Reaches(s0, inputs, k, s) && k < |inputs| && spot.turn < |users| && next.street == spot.street
    requires inputs[k].seatNo == spot.turn + 1 && inputs[k].userId == users[spot.turn] && inputs[k].move != Fold
    requires MovesTo(s, users, spot, inputs[k].move, inputs[k].amount, next.bet, next.minRaise, next.rows)
    requires FirstToAct(next.rows, next.bet, spot.turn, next.turn)
    ensures Reaches(s0, inputs, k + 1, r) && TableIs(r, users, next)
  {
    r := GoesTo(s, users, spot, inputs[k].move, inputs[k].amount, next.bet, next.minRaise, next.rows, next.turn);
    ReachesNext(s0, inputs, k, s, r);
  }

  /** The k-th input closes the street, with these rows, and opens the next one. */
  lemma NextCloses(s0: GameState, inputs: seq<Input>, k: nat, s: GameState, users: seq<Option<int>>, spot: Spot,
      bet: int, minRaise: int, rows: seq<Row>, next: Spot) returns (r: GameState)
    requires Reaches(s0, inputs, k, s) && k < |inputs| && spot.turn < |users| && spot.street != River
    requires inputs[k].seatNo == spot.turn + 1 && inputs[k].userId == users[spot.turn] && inputs[k].move != Fold
    requires MovesTo(s, users, spot, inputs[k].move, inputs[k].amount, bet, minRaise, rows)
    requires RoundDone(rows, bet) && FirstToAct(NewStreet(rows), 0, 0, next.turn)
    requires next == Spot(NextStreet(spot.street), 0, 2, next.turn, NewStreet(rows))
    ensures Reaches(s0, inputs, k + 1, r) && TableIs(r, users, next)
  {
    r := ClosesTo(s, users, spot, inputs[k].move, inputs[k].amount, bet, minRaise, rows, next.turn);
    ReachesNext(s0, inputs, k, s, r);
  }
}
