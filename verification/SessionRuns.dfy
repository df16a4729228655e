/** Runs of a whole session: every hand starts from exactly the stacks the last
    one ended with, the button moves, and the table never gains chips. */
module SessionRuns {
  import opened Sequences
  import opened Deck
  import opened Engine
  import opened TurnOrder
  import opened HandInvariant
  import opened HandAccounting
  import opened HandStep
  import opened HandRuns
  import opened HandProgress
  import opened HandStart
  import opened HandTheorems
  import opened Rooms
  import opened RoomTheorems
  import opened Session
  import opened SessionTheorems

  // ---------- stacks carry over ----------

  /** Seat by seat, the new hand starts from the stacks of the old players. */
  ghost predicate CarriesOver(last: seq<Player>, next: seq<Player>) {
    |last| == |next| && forall k :: 0 <= k < |last| ==>
      next[k].seatNo == last[k].seatNo && next[k].startHandChips == last[k].chips
  }

  lemma SortedSeatTaken(s: Stored, j: nat)
    requires SessionOk(s) && j < |Sort(Refreshed(s.players, s.game.players), SeatLeq)|
    ensures SeatNumbers(Sort(Refreshed(s.players, s.game.players), SeatLeq))[j] in SeatsOf(s.game.players)
  {
    var inputs := Refreshed(s.players, s.game.players);
    var sorted := Sort(inputs, SeatLeq);
    SortMembers(inputs, SeatLeq, sorted[j]);
    var i :| 0 <= i < |inputs| && inputs[i] == sorted[j];
    var k := RefreshedChips(s, i);
    assert SeatsOf(s.game.players)[k] == sorted[j].seatNo;
  }

  lemma SeatSorted(inputs: seq<SeatInput>, i: nat)
    requires i < |inputs|
    ensures inputs[i].seatNo in SeatNumbers(Sort(inputs, SeatLeq))
  {
    var sorted := Sort(inputs, SeatLeq);
    SortMembers(inputs, SeatLeq, inputs[i]);
    var j :| 0 <= j < |sorted| && sorted[j] == inputs[i];
    assert SeatNumbers(sorted)[j] == inputs[i].seatNo;
  }

  lemma TakenSeatSorted(s: Stored, k: nat)
    requires SessionOk(s) && k < |s.game.players|
    ensures s.game.players[k].seatNo in SeatNumbers(Sort(Refreshed(s.players, s.game.players), SeatLeq))
  {
    assert HasRow(s.players, s.game.players[k].seatNo);
    var i :| 0 <= i < |s.players| && s.players[i].seatNo == s.game.players[k].seatNo;
    SeatSorted(Refreshed(s.players, s.game.players), i);
  }

  lemma SortedSeatsTaken(s: Stored, seat: int)
    requires SessionOk(s)
    ensures seat in SeatNumbers(Sort(Refreshed(s.players, s.game.players), SeatLeq)) <==>
      seat in SeatsOf(s.game.players)
  {
    var xs, ys := SeatNumbers(Sort(Refreshed(s.players, s.game.players), SeatLeq)), SeatsOf(s.game.players);
    if j :| 0 <= j < |xs| && xs[j] == seat {
      SortedSeatTaken(s, j);
    }
    if k :| 0 <= k < |ys| && ys[k] == seat {
      TakenSeatSorted(s, k);
    }
  }

  lemma SortedSeats(s: Stored)
    requires SessionOk(s)
    ensures SeatNumbers(Sort(Refreshed(s.players, s.game.players), SeatLeq)) == SeatsOf(s.game.players)
  {
    SameLive(s);
    SortedSeatsAscend(Refreshed(s.players, s.game.players));
    forall seat
      ensures seat in SeatNumbers(Sort(Refreshed(s.players, s.game.players), SeatLeq)) <==>
        seat in SeatsOf(s.game.players)
    {
      SortedSeatsTaken(s, seat);
    }
    AscendingUnique(SeatNumbers(Sort(Refreshed(s.players, s.game.players), SeatLeq)), SeatsOf(s.game.players));
  }

  lemma SortedStacks(s: Stored, k: nat)
    requires SessionOk(s) && k < |s.game.players|
    ensures var sorted := Sort(Refreshed(s.players, s.game.players), SeatLeq);
      && k < |sorted| && sorted[k].seatNo == s.game.players[k].seatNo
      && sorted[k].chips == s.game.players[k].chips && sorted[k].userId == s.game.players[k].userId
  {
    var inputs, players := Refreshed(s.players, s.game.players), s.game.players;
    var sorted := Sort(inputs, SeatLeq);
    SortedSeats(s);
    assert |SeatNumbers(sorted)| == |SeatsOf(players)|;
    assert SeatNumbers(sorted)[k] == SeatsOf(players)[k];
    SortMembers(inputs, SeatLeq, sorted[k]);
    var i :| 0 <= i < |inputs| && inputs[i] == sorted[k];
    var p := RefreshedChips(s, i);
    PositionAt(players, k);
    PositionAt(players, p);
  }

  lemma DealtFromOldStacks(s: Stored, setup: Setup)
    requires SessionOk(s) && ValidSetup(setup) && setup.players == Refreshed(s.players, s.game.players)
    ensures CarriesOver(s.game.players, Deal(setup).players) && SameSitters(s.game.players, Deal(setup).players)
  {
    var d := DealFacts(setup);
    var sorted := Sort(setup.players, SeatLeq);
    SortedSeats(s);
    assert |SeatNumbers(sorted)| == |SeatsOf(s.game.players)|;
    forall k | 0 <= k < |s.game.players|
      ensures Deal(setup).players[k].seatNo == s.game.players[k].seatNo
      ensures Deal(setup).players[k].startHandChips == s.game.players[k].chips
      ensures Deal(setup).players[k].userId == s.game.players[k].userId
    {
      SortedStacks(s, k);
      assert HandDealt(sorted, setup.deck, |WithChips(setup.players)|, d, k);
      assert Identity(d.players[k]) == Identity(Deal(setup).players[k]);
    }
  }

  // ---------- no hand leaves a debt ----------

  lemma EndOwesNothing(m: GameState, a: nat, r: GameState)
    requires Mid(m, a) && (Inv(r) || FoldEnd(m, r) || ShowdownEnd(m, r))
    ensures NoDebts(r.players) && SeatsAscend(r.players)
  {
    UnderwayFacts(m);
    if Inv(r) {
      forall k | 0 <= k < |r.players| ensures r.players[k].chips >= 0 {
        assert PlayerOk(r.players[k]);
      }
    } else if FoldEnd(m, r) {
      FoldOwesNothing(m, r);
    } else {
      forall k | 0 <= k < |r.players| ensures r.players[k].chips >= 0 {
        assert PlayerOk(m.players[k]);
        ShowdownStacks(m, r, k);
      }
    }
  }

  lemma FoldOwesNothing(m: GameState, r: GameState)
    requires Underway(m) && FoldEnd(m, r)
    ensures NoDebts(r.players) && SeatsAscend(r.players)
  {
    var invested := Invested(m.players);
    forall i | 0 <= i < |invested| ensures invested[i] >= 0 {
      assert PlayerOk(m.players[i]);
    }
    SumAtLeast(invested, 0);
    forall k | 0 <= k < |r.players| ensures r.players[k].chips >= 0 {
      assert PlayerOk(m.players[k]);
    }
  }

  lemma OpeningLosesNothing(m: GameState, r: GameState)
    requires AllOk(m.players) && SeatsAscend(m.players) && Covered(m.players) && ShowdownEnd(m, r)
    ensures TotalChips(r.players) == TotalStart(r.players)
  {
    ShowdownCloses(m, r);
    NoShortfallIffCovered(m.players);
    assert Starts(m.players) == Starts(r.players);
  }

  /** The hand a valid setup deals owes nothing, keeps its button and loses no chips even when the blinds end it. */
  lemma DealtHand(setup: Setup)
    requires ValidSetup(setup)
    ensures var r := Deal(setup);
      && NoDebts(r.players) && SeatsAscend(r.players)
      && r.smallBlind == setup.smallBlind && r.bigBlind == setup.bigBlind
      && ResolveSetup(setup).Ok? && r.dealerSeat == ResolveSetup(setup).value.dealerSeat
      && (r.status == HandFinished ==> TotalChips(r.players) == TotalStart(r.players))
  {
    var d, m, bp := OpeningState(setup);
    OpeningLeadsOn(setup, d, m, bp);
  }

  lemma OpeningLeadsOn(setup: Setup, d: Dealing, m: GameState, bp: nat)
    requires ValidSetup(setup) && OpensAs(setup, d, m, bp)
    ensures var r := Deal(setup);
      && NoDebts(r.players) && SeatsAscend(r.players)
      && r.smallBlind == m.smallBlind && r.bigBlind == m.bigBlind && r.dealerSeat == m.dealerSeat
      && (r.status == HandFinished ==> TotalChips(r.players) == TotalStart(r.players))
  {
    var r := Deal(setup);
    NormalizeOutcome(m, bp);
    NormalizeKeeps(m, m.players[bp].seatNo);
    EndOwesNothing(m, bp, r);
    UnderwayFacts(m);
    if ShowdownEnd(m, r) {
      OpeningLosesNothing(m, r);
    }
  }

  // ---------- nextHand ----------

  /** The same users in the same seats. */
  ghost predicate SameSitters(a: seq<Player>, b: seq<Player>) {
    |a| == |b| && forall k :: 0 <= k < |a| ==> a[k].seatNo == b[k].seatNo && a[k].userId == b[k].userId
  }

  lemma PersistedSeats(room: seq<RoomPlayer>, g: GameState, players: seq<Player>)
    requires SameSeats(room, players) && SeatsAscend(g.players) && SameSitters(players, g.players)
    ensures SameSeats(Persisted(room, g), g.players)
  {
    var after := Persisted(room, g);
    forall i | 0 <= i < |after| ensures SitsAs(g.players, after[i]) {
      assert SitsAs(players, room[i]);
      SitsOn(room[i], g.players, players);
    }
    forall k | 0 <= k < |g.players| ensures HasRow(after, g.players[k].seatNo) {
      assert HasRow(room, players[k].seatNo);
      RowsStay(room, g, players[k].seatNo);
    }
  }

  lemma SitsOn(row: RoomPlayer, now: seq<Player>, before: seq<Player>)
    requires SitsAs(before, row) && SeatsAscend(now) && SameSitters(before, now)
    ensures SitsAs(now, row)
  {
    PositionAt(now, PositionOf(before, row.seatNo));
  }

  lemma RowsStay(room: seq<RoomPlayer>, g: GameState, seat: int)
    requires HasRow(room, seat)
    ensures HasRow(Persisted(room, g), seat)
  {
    var i :| 0 <= i < |room| && room[i].seatNo == seat;
    assert Persisted(room, g)[i].seatNo == seat;
  }

  ghost predicate EnoughCards(s: Stored, deck: seq<Card>) {
    |deck| >= 2 * |s.game.players| + 5
  }

  /** After a finished hand, nextHand never fails. It ends the session exactly when fewer than two seats hold chips;
      otherwise it deals a hand that starts from exactly the stacks the last one ended with, under the next button. */
  lemma NextHandOutcome(s: Stored, deck: seq<Card>)
    requires SessionOk(s) && s.game.status == HandFinished && EnoughCards(s, deck)
    ensures NextHand(s, deck).Ok?
    ensures var r := NextHand(s, deck).value;
      && SessionOk(r)
      && (r.game.status == RoomFinished <==> |SeatsWithChips(s.game.players)| < 2)
    ensures var r := NextHand(s, deck).value;
      |SeatsWithChips(s.game.players)| < 2 ==>
        r.status == Ended && r.game.players == s.game.players && r.players == s.players
    ensures var r := NextHand(s, deck).value;
      |SeatsWithChips(s.game.players)| >= 2 ==>
        && r.status == InPlay && CarriesOver(s.game.players, r.game.players)
        && Some(r.game.dealerSeat) == NextDealerSeat(s.game.players, s.game.dealerSeat)
        && (r.game.status == HandFinished ==> TotalChips(r.game.players) == TotalStart(r.game.players))
  {
    DealerOrEnd(s);
    if |SeatsWithChips(s.game.players)| >= 2 {
      var setup := NextSetupIsValid(s, deck);
      NextIsDealt(s, setup);
    }
  }

  /** The next hand is the one dealt from this deck to the refreshed room, under the next button and the room's
      blinds, so that everything proved about dealt hands holds of it. */
  lemma NextHandIsDealt(s: Stored, deck: seq<Card>) returns (setup: Setup)
    requires SessionOk(s) && s.game.status == HandFinished && EnoughCards(s, deck)
    requires |SeatsWithChips(s.game.players)| >= 2
    ensures ValidSetup(setup) && setup == Setup(s.smallBlind, s.bigBlind, Refreshed(s.players, s.game.players),
      NextDealerSeat(s.game.players, s.game.dealerSeat), deck)
    ensures NextHand(s, deck).Ok? && NextHand(s, deck).value.game == Deal(setup)
    ensures Deal(setup).smallBlind == s.smallBlind && Deal(setup).bigBlind == s.bigBlind
  {
    setup := NextSetupIsValid(s, deck);
    DealerOrEnd(s);
    DealtHand(setup);
  }

  lemma DealerOrEnd(s: Stored)
    requires SessionOk(s)
    ensures NextDealerSeat(s.game.players, s.game.dealerSeat) == None <==> |SeatsWithChips(s.game.players)| < 2
  {
    LiveAscends(s.game.players);
    SortSeats(SeatsWithChips(s.game.players));
  }

  lemma NextButton(s: Stored, setup: Setup)
    requires SessionOk(s) && setup.players == Refreshed(s.players, s.game.players)
    requires setup.dealerSeat.Some? && setup.dealerSeat.value in SeatsWithChips(s.game.players)
    requires ResolveSetup(setup).Ok?
    ensures Some(ResolveSetup(setup).value.dealerSeat) == setup.dealerSeat
  {
    SameLive(s);
    LiveAscends(s.game.players);
    SortSeats(SeatsWithChips(s.game.players));
  }

  lemma SessionKept(s: Stored, r: GameState)
    requires SessionOk(s) && Sound(r) && NoDebts(r.players) && SeatsAscend(r.players)
    requires SameSitters(s.game.players, r.players)
    ensures SessionOk(s.(game := r, players := Persisted(s.players, r)))
  {
    PersistedSeats(s.players, r, s.game.players);
  }

  lemma NextIsDealt(s: Stored, setup: Setup)
    requires SessionOk(s) && ValidSetup(setup) && setup.players == Refreshed(s.players, s.game.players)
    requires setup.dealerSeat.Some? && setup.dealerSeat.value in SeatsWithChips(s.game.players)
    ensures var r := Deal(setup);
      && SessionOk(s.(status := InPlay, game := r, players := Persisted(s.players, r)))
      && CarriesOver(s.game.players, r.players) && Some(r.dealerSeat) == setup.dealerSeat
      && (r.status == HandFinished ==> TotalChips(r.players) == TotalStart(r.players))
  {
    var r := Deal(setup);
    DealtHand(setup);
    DealtFromOldStacks(s, setup);
    NextButton(s, setup);
    SessionKept(s, r);
    assert SessionOk(s.(game := r, players := Persisted(s.players, r)));
  }

  // ---------- who may act ----------

  lemma SameSeatOrder(g: GameState, r: GameState)
    requires SameIdentities(g.players, r.players)
    ensures SameSitters(g.players, r.players)
  {
    forall k | 0 <= k < |r.players|
      ensures r.players[k].seatNo == g.players[k].seatNo && r.players[k].userId == g.players[k].userId
    {
      assert Identity(g.players[k]) == Identity(r.players[k]);
    }
  }

  lemma ActionAftermath(g: GameState, input: Input, r: GameState)
    requires Inv(g) && ApplyGameAction(g, input) == Ok(r)
    ensures Sound(r) && NoDebts(r.players) && SeatsAscend(r.players) && SameSitters(g.players, r.players)
    ensures r.dealerSeat == g.dealerSeat
  {
    var t: nat :| TurnAt(g, t);
    StepKeepsSound(g, input);
    StepOutcome(g, t, input);
    EndOwesNothing(Mutated(g, t, input.move, input.amount), t, r);
    ActionKeeps(g, t, input);
    SameSeatOrder(g, r);
  }

  lemma StoreOutcome(s: Stored, input: Input)
    requires SessionOk(s)
    ensures OnAStreet(s.game)
    ensures Store(s, input).Ok? ==>
      Inv(s.game) && ApplyGameAction(s.game, input).Ok? && SessionOk(Store(s, input).value)
  {
    if Store(s, input).Ok? {
      var r := ApplyGameAction(s.game, input).value;
      ActionAftermath(s.game, input, r);
      SessionKept(s, r);
    }
  }

  lemma CurrentIs(g: GameState, t: nat)
    requires SeatsAscend(g.players) && TurnAt(g, t)
    ensures CurrentPlayer(g) == t
  {
    PositionAt(g.players, t);
  }

  lemma MemberIs(room: seq<RoomPlayer>, players: seq<Player>, i: nat, user: int)
    requires SameSeats(room, players) && i < |room| && room[i].userId == Some(user)
    ensures MemberAt(room, user) == i
  {
    var m := MemberAt(room, user);
    assert m < |room|;
  }

  /** The player in position t is on turn, is this user (or a bot), and the engine accepts the action. */
  ghost predicate MayPlay(g: GameState, t: nat, user: Option<int>, move: Move, amount: Option<int>) {
    && Inv(g) && TurnAt(g, t) && g.players[t].userId == user
    && ApplyGameAction(g, Input(g.players[t].seatNo, user, move, amount)).Ok?
  }

  lemma Stores(s: Stored, input: Input)
    requires SessionOk(s)
    ensures OnAStreet(s.game) && (Store(s, input).Ok? <==> Inv(s.game) && ApplyGameAction(s.game, input).Ok?)
  {
    StoreOutcome(s, input);
  }

  /** Where the room seats the user. */
  function SeatOf(s: Stored, user: int): int {
    var m := MemberAt(s.players, user);
    if m < |s.players| then s.players[m].seatNo else 0
  }

  /** The user is a member and the checks of applyAction and applySeatAction let the action through. */
  ghost predicate Passes(s: Stored, user: int) {
    && MemberAt(s.players, user) < |s.players| && UserRefusal(s, user) == None
    && SeatRefusal(s.game, SeatOf(s, user), Some(user)) == None
  }

  lemma UserStores(s: Stored, user: int, move: Move, amount: Option<int>)
    requires OnAStreet(s.game)
    ensures UserAction(s, user, move, amount).Ok? <==>
      (Passes(s, user) && Store(s, Input(SeatOf(s, user), Some(user), move, amount)).Ok?)
  {
  }

  lemma SeatStores(s: Stored, seat: int, actor: Option<int>, move: Move, amount: Option<int>)
    requires OnAStreet(s.game)
    ensures SeatAction(s, seat, actor, move, amount).Ok? <==>
      (SeatRefusal(s.game, seat, actor) == None && Store(s, Input(seat, actor, move, amount)).Ok?)
  {
  }

  /** Who passes the checks: the user of the seat on turn. */
  lemma UserPasses(s: Stored, t: nat, user: int)
    requires SessionOk(s) && TurnAt(s.game, t)
    ensures Passes(s, user) <==> s.game.players[t].userId == Some(user)
    ensures Passes(s, user) ==> SeatOf(s, user) == s.game.players[t].seatNo
  {
    var p := s.game.players[t];
    CurrentIs(s.game, t);
    if p.userId == Some(user) {
      var i := RowOfSeat(s, t);
      MemberIs(s.players, s.game.players, i, user);
      assert SeatOf(s, user) == p.seatNo;
    }
  }

  /** Exactly the user who sits in the seat on turn can act: the lookup in the room and the checks after it stop
      everybody else and never the right user. Everything further is up to the engine. */
  lemma UserActsIff(s: Stored, user: int, move: Move, amount: Option<int>)
    requires SessionOk(s)
    ensures OnAStreet(s.game)
    ensures UserAction(s, user, move, amount).Ok? <==> exists t: nat :: MayPlay(s.game, t, Some(user), move, amount)
  {
    Stores(s, Input(SeatOf(s, user), Some(user), move, amount));
    UserStores(s, user, move, amount);
    forall t: nat | TurnAt(s.game, t)
      ensures MaySit(s.game, t, SeatOf(s, user), Some(user), Passes(s, user))
    {
      UserPasses(s, t, user);
    }
    EngineDecides(s.game, SeatOf(s, user), Some(user), Passes(s, user), move, amount);
  }

  /** The checks pass exactly for the user of position t, who then acts from that seat. */
  ghost predicate MaySit(g: GameState, t: nat, seat: int, user: Option<int>, passes: bool) {
    t < |g.players| && (passes <==> g.players[t].userId == user) && (passes ==> seat == g.players[t].seatNo)
  }

  lemma EngineDecides(g: GameState, seat: int, user: Option<int>, passes: bool, move: Move, amount: Option<int>)
    requires SeatsAscend(g.players) && OnAStreet(g)
    requires forall t: nat :: TurnAt(g, t) ==> MaySit(g, t, seat, user, passes)
    ensures (passes && Inv(g) && ApplyGameAction(g, Input(seat, user, move, amount)).Ok?) <==>
      exists t: nat :: MayPlay(g, t, user, move, amount)
  {
    if t: nat :| TurnAt(g, t) {
      OnlyTurnPlays(g, t, user, move, amount);
      assert MaySit(g, t, seat, user, passes);
      assert MayPlay(g, t, user, move, amount) <==>
        (passes && Inv(g) && ApplyGameAction(g, Input(seat, user, move, amount)).Ok?);
    }
  }

  lemma OnlyTurnPlays(g: GameState, t: nat, user: Option<int>, move: Move, amount: Option<int>)
    requires SeatsAscend(g.players) && TurnAt(g, t)
    ensures forall u: nat :: MayPlay(g, u, user, move, amount) ==> u == t
  {
    forall u: nat | MayPlay(g, u, user, move, amount) ensures u == t {
      CurrentIs(g, t);
      CurrentIs(g, u);
    }
  }

  lemma SeatPasses(g: GameState, t: nat, seat: int, actor: Option<int>)
    requires SeatsAscend(g.players) && TurnAt(g, t)
    ensures SeatRefusal(g, seat, actor) == None <==> g.players[t].seatNo == seat && g.players[t].userId == actor
  {
    CurrentIs(g, t);
  }

  /** For a seat exactly its own user acts, or nobody's user when it is a bot's, and only on its turn. */
  lemma SeatActsIff(s: Stored, seat: int, actor: Option<int>, move: Move, amount: Option<int>)
    requires SessionOk(s)
    ensures OnAStreet(s.game)
    ensures SeatAction(s, seat, actor, move, amount).Ok? <==>
      exists t: nat :: MayPlay(s.game, t, actor, move, amount) && s.game.players[t].seatNo == seat
  {
    Stores(s, Input(seat, actor, move, amount));
    SeatStores(s, seat, actor, move, amount);
    if t: nat :| TurnAt(s.game, t) {
      SeatPasses(s.game, t, seat, actor);
      OnlyTurnPlays(s.game, t, actor, move, amount);
    }
  }

  lemma RowOfSeat(s: Stored, t: nat) returns (i: nat)
    requires SessionOk(s) && t < |s.game.players|
    ensures i < |s.players| && s.players[i].seatNo == s.game.players[t].seatNo
    ensures s.players[i].userId == s.game.players[t].userId
  {
    assert HasRow(s.players, s.game.players[t].seatNo);
    i :| 0 <= i < |s.players| && s.players[i].seatNo == s.game.players[t].seatNo;
    assert SitsAs(s.game.players, s.players[i]);
    PositionAt(s.game.players, t);
  }

  lemma TurnIsCurrent(s: Stored, input: Input)
    requires SessionOk(s) && OnAStreet(s.game) && Store(s, input).Ok?
    ensures CurrentPlayer(s.game) < |s.game.players| && TurnAt(s.game, CurrentPlayer(s.game))
  {
    StoreOutcome(s, input);
    var t: nat :| TurnAt(s.game, t);
    CurrentIs(s.game, t);
  }

  // ---------- every step of a session ----------

  datatype Request =
    | UserActs(user: int, move: Move, amount: Option<int>)
    | BotActs(seat: int, move: Move, amount: Option<int>)
    | DealNext(deck: seq<Card>)

  /** The chips at the table: what the players brought into a hand in play, what they hold after it. */
  function TableTotal(s: Stored): int {
    if s.game.status == Playing then TotalStart(s.game.players) else TotalChips(s.game.players)
  }

  ghost predicate WellSupplied(s: Stored, request: Request) {
    request.DealNext? ==> EnoughCards(s, request.deck)
  }

  function Answer(s: Stored, request: Request): Result<Stored, SessionError>
    requires OnAStreet(s.game)
  {
    match request
    case UserActs(user, move, amount) => UserAction(s, user, move, amount)
    case BotActs(seat, move, amount) => SeatAction(s, seat, None, move, amount)
    case DealNext(deck) => NextHand(s, deck)
  }

  function SessionStep(s: Stored, request: Request): Stored
    requires OnAStreet(s.game)
  {
    var r := Answer(s, request);
    if r.Ok? then r.value else s
  }

  /** An accepted action is the engine's answer to the player on turn. */
  lemma ActionIsStored(s: Stored, request: Request) returns (input: Input)
    requires OnAStreet(s.game) && !request.DealNext? && Answer(s, request).Ok?
    ensures Answer(s, request) == Store(s, input) && input.move == request.move
  {
    match request
    case UserActs(user, move, amount) =>
      input := Input(s.players[MemberAt(s.players, user)].seatNo, Some(user), move, amount);
    case BotActs(seat, move, amount) =>
      input := Input(seat, None, move, amount);
  }

  /** The fold that gives up an excess, as a session request. */
  ghost predicate ForfeitingFold(s: Stored, request: Request) {
    && !request.DealNext? && OnAStreet(s.game) && Answer(s, request).Ok?
    && CurrentPlayer(s.game) < |s.game.players| && ForfeitsExcess(s.game, CurrentPlayer(s.game), request.move)
  }

  lemma ActTotal(s: Stored, request: Request)
    requires SessionOk(s) && OnAStreet(s.game) && !request.DealNext? && Answer(s, request).Ok?
    ensures var r := Answer(s, request).value;
      && SessionOk(r) && SameSitters(s.game.players, r.game.players) && r.game.dealerSeat == s.game.dealerSeat
      && TableTotal(r) <= TableTotal(s) && (TableTotal(r) < TableTotal(s) <==> ForfeitingFold(s, request))
  {
    var input := ActionIsStored(s, request);
    TurnIsCurrent(s, input);
    StoreOutcome(s, input);
    ActionAftermath(s.game, input, ApplyGameAction(s.game, input).value);
    ActionTotal(s.game, CurrentPlayer(s.game), input);
  }

  lemma ActionTotal(g: GameState, t: nat, input: Input)
    requires Inv(g) && TurnAt(g, t) && ApplyGameAction(g, input).Ok?
    ensures var r := ApplyGameAction(g, input).value;
      var total := if r.status == Playing then TotalStart(r.players) else TotalChips(r.players);
      total <= TotalStart(g.players) && (total < TotalStart(g.players) <==> ForfeitsExcess(g, t, input.move))
  {
    StepKeepsSound(g, input);
    if ApplyGameAction(g, input).value.status == HandFinished {
      ChipsLostExactly(g, input, t);
    } else if ForfeitsExcess(g, t, input.move) {
      ForfeitFinishes(g, t, input);
    }
  }

  lemma CarriedTotal(last: seq<Player>, next: seq<Player>)
    requires CarriesOver(last, next)
    ensures TotalStart(next) == TotalChips(last) && |next| == |last|
  {
    assert Starts(next) == Stacks(last);
  }

  lemma DealtTotal(s: Stored, deck: seq<Card>)
    requires SessionOk(s) && s.game.status == HandFinished && EnoughCards(s, deck)
    ensures NextHand(s, deck).Ok? && TableTotal(NextHand(s, deck).value) == TableTotal(s)
    ensures |NextHand(s, deck).value.game.players| == |s.game.players|
  {
    NextHandOutcome(s, deck);
    if |SeatsWithChips(s.game.players)| >= 2 {
      CarriedTotal(s.game.players, NextHand(s, deck).value.game.players);
    }
  }

  /** One request keeps the session in order; the table loses chips exactly when the request is a forfeiting fold, and
      never gains any. */
  lemma StepTotal(s: Stored, request: Request)
    requires SessionOk(s) && WellSupplied(s, request)
    ensures OnAStreet(s.game) && SessionOk(SessionStep(s, request))
    ensures |SessionStep(s, request).game.players| == |s.game.players|
    ensures TableTotal(SessionStep(s, request)) <= TableTotal(s)
    ensures TableTotal(SessionStep(s, request)) < TableTotal(s) <==> ForfeitingFold(s, request)
  {
    if request.DealNext? {
      DealStepTotal(s, request.deck);
    } else {
      ActStepTotal(s, request);
    }
  }

  lemma DealStepTotal(s: Stored, deck: seq<Card>)
    requires SessionOk(s) && EnoughCards(s, deck)
    ensures OnAStreet(s.game) && SessionOk(SessionStep(s, DealNext(deck)))
    ensures |SessionStep(s, DealNext(deck)).game.players| == |s.game.players|
    ensures TableTotal(SessionStep(s, DealNext(deck))) == TableTotal(s)
  {
    DealStepIs(s, deck);
    if s.game.status == HandFinished {
      NextHandOutcome(s, deck);
      DealtTotal(s, deck);
    }
  }

  lemma DealStepIs(s: Stored, deck: seq<Card>)
    requires SessionOk(s)
    ensures OnAStreet(s.game)
    ensures SessionStep(s, DealNext(deck)) == if NextHand(s, deck).Ok? then NextHand(s, deck).value else s
    ensures s.game.status != HandFinished ==> NextHand(s, deck).Err?
  {
    SessionOnAStreet(s);
    if s.game.status != HandFinished {
      NextNeedsEnd(s, deck);
    }
  }

  lemma SessionOnAStreet(s: Stored)
    requires SessionOk(s)
    ensures OnAStreet(s.game)
  {
  }

  lemma NextNeedsEnd(s: Stored, deck: seq<Card>)
    requires s.game.status != HandFinished
    ensures NextHand(s, deck).Err?
  {
  }

  lemma ActStepTotal(s: Stored, request: Request)
    requires SessionOk(s) && !request.DealNext?
    ensures OnAStreet(s.game) && SessionOk(SessionStep(s, request))
    ensures |SessionStep(s, request).game.players| == |s.game.players|
    ensures TableTotal(SessionStep(s, request)) <= TableTotal(s)
    ensures TableTotal(SessionStep(s, request)) < TableTotal(s) <==> ForfeitingFold(s, request)
  {
    if Answer(s, request).Ok? {
      ActTotal(s, request);
    }
  }

  /** The stored session after a sequence of requests, each dealing from a large enough deck. */
  ghost function SessionRun(s: Stored, requests: seq<Request>): (r: Stored)
    requires SessionOk(s) && Supplied(s, requests)
    ensures SessionOk(r) && |r.game.players| == |s.game.players|
  {
    if requests == [] then s
    else
      var n := |requests| - 1;
      var before := SessionRun(s, requests[..n]);
      assert WellSupplied(s, requests[n]);
      StepTotal(before, requests[n]);
      SessionStep(before, requests[n])
  }

  ghost predicate Supplied(s: Stored, requests: seq<Request>) {
    forall i :: 0 <= i < |requests| ==> WellSupplied(s, requests[i])
  }

  /** Some request of the run was a forfeiting fold when it arrived. */
  ghost predicate SomeForfeit(s: Stored, requests: seq<Request>)
    requires SessionOk(s) && Supplied(s, requests)
  {
    requests != [] &&
    var n := |requests| - 1;
    assert Supplied(s, requests[..n]);
    SomeForfeit(s, requests[..n]) || ForfeitingFold(SessionRun(s, requests[..n]), requests[n])
  }

  /** Over any run of a session the chips at the table never grow, and some are lost exactly when some request was a
      forfeiting fold. */
  lemma {:induction false} TableNeverGains(s: Stored, requests: seq<Request>)
    requires SessionOk(s) && Supplied(s, requests)
    ensures TableTotal(SessionRun(s, requests)) <= TableTotal(s)
    ensures TableTotal(SessionRun(s, requests)) < TableTotal(s) <==> SomeForfeit(s, requests)
  {
    if requests != [] {
      var n := |requests| - 1;
      assert Supplied(s, requests[..n]);
      TableNeverGains(s, requests[..n]);
      assert WellSupplied(s, requests[n]);
      StepTotal(SessionRun(s, requests[..n]), requests[n]);
    }
  }

  // ---------- the button over a session ----------

  /** One hand of a session: it is dealt, and only actions follow. */
  ghost predicate OneHand(requests: seq<Request>) {
    requests != [] && requests[0].DealNext? && forall i :: 1 <= i < |requests| ==> !requests[i].DealNext?
  }

  lemma StepKeepsButton(s: Stored, request: Request)
    requires SessionOk(s) && OnAStreet(s.game) && !request.DealNext?
    ensures SessionStep(s, request).game.dealerSeat == s.game.dealerSeat
  {
    if Answer(s, request).Ok? {
      ActTotal(s, request);
    }
  }

  lemma {:induction false} HandKeepsButton(s: Stored, requests: seq<Request>, dealer: int)
    requires SessionOk(s) && Supplied(s, requests) && OneHand(requests) && OnAStreet(s.game)
    requires SessionStep(s, requests[0]).game.dealerSeat == dealer
    ensures SessionRun(s, requests).game.dealerSeat == dealer
  {
    var n := |requests| - 1;
    RunUnfolds(s, requests);
    if n == 0 {
      assert requests[..n] == [];
    } else {
      HandKeepsButton(s, requests[..n], dealer);
      StepKeepsButton(SessionRun(s, requests[..n]), requests[n]);
    }
  }

  lemma RunUnfolds(s: Stored, requests: seq<Request>)
    requires SessionOk(s) && Supplied(s, requests) && requests != []
    ensures Supplied(s, requests[..|requests| - 1]) && OnAStreet(SessionRun(s, requests[..|requests| - 1]).game)
    ensures SessionRun(s, requests) == SessionStep(SessionRun(s, requests[..|requests| - 1]), requests[|requests| - 1])
    ensures SessionRun(s, []) == s
  {
    var n := |requests| - 1;
    assert WellSupplied(s, requests[n]);
    StepTotal(SessionRun(s, requests[..n]), requests[n]);
  }

  /** From the end of one hand, with these seats still holding chips, to the end of the next, or wherever it stands. */
  ghost predicate PlaysHand(s: Stored, requests: seq<Request>, r: Stored, live: seq<int>) {
    && SessionOk(s) && s.game.status == HandFinished && SeatsWithChips(s.game.players) == live
    && Supplied(s, requests) && OneHand(requests) && SessionRun(s, requests) == r
  }

  lemma DealMovesButton(s: Stored, deck: seq<Card>)
    requires SessionOk(s) && s.game.status == HandFinished && EnoughCards(s, deck)
    requires |SeatsWithChips(s.game.players)| >= 2
    ensures OnAStreet(s.game)
    ensures NextDealerSeat(s.game.players, s.game.dealerSeat) == Some(SessionStep(s, DealNext(deck)).game.dealerSeat)
  {
    NextHandOutcome(s, deck);
  }

  lemma HandMovesButton(s: Stored, requests: seq<Request>, r: Stored, live: seq<int>)
    requires PlaysHand(s, requests, r, live) && |live| >= 2
    ensures NextDealerSeat(s.game.players, s.game.dealerSeat) == Some(r.game.dealerSeat)
  {
    assert WellSupplied(s, requests[0]);
    DealMovesButton(s, requests[0].deck);
    HandKeepsButton(s, requests, SessionStep(s, requests[0]).game.dealerSeat);
  }

  /** hands[j] is played from states[j] to states[j + 1], with the same seats holding chips before each. */
  ghost predicate HandsInARow(states: seq<Stored>, hands: seq<seq<Request>>, live: seq<int>) {
    && |states| == |hands| + 1
    && forall j :: 0 <= j < |hands| ==> PlaysHand(states[j], hands[j], states[j + 1], live)
  }

  function DealerSeats(states: seq<Stored>): seq<int> {
    seq(|states|, j requires 0 <= j < |states| => states[j].game.dealerSeat)
  }

  ghost function Tables(states: seq<Stored>): seq<seq<Player>> {
    seq(|states|, j requires 0 <= j < |states| => states[j].game.players)
  }

  lemma ButtonsFollow(states: seq<Stored>, hands: seq<seq<Request>>, live: seq<int>)
    requires HandsInARow(states, hands, live) && |hands| >= 1 && |live| >= 2
    ensures ConsecutiveDealers(DealerSeats(states[1..]), Tables(states[1..]), live)
  {
    var dealers, players := DealerSeats(states[1..]), Tables(states[1..]);
    assert PlaysHand(states[0], hands[0], states[1], live);
    LiveAscends(states[0].game.players);
    HandMovesButton(states[0], hands[0], states[1], live);
    NextDealerIsLive(states[0].game.players, states[0].game.dealerSeat);
    forall j | 0 <= j < |dealers| - 1
      ensures SeatsWithChips(players[j]) == live && NextDealerSeat(players[j], dealers[j]) == Some(dealers[j + 1])
    {
      assert PlaysHand(states[j + 1], hands[j + 1], states[j + 2], live);
      HandMovesButton(states[j + 1], hands[j + 1], states[j + 2], live);
    }
  }

  lemma NextDealerIsLive(players: seq<Player>, dealer: int)
    requires SeatsAscend(players) && |SeatsWithChips(players)| >= 2
    ensures NextDealerSeat(players, dealer).Some? && NextDealerSeat(players, dealer).value in SeatsWithChips(players)
  {
    var live := SeatsWithChips(players);
    LiveAscends(players);
    SortSeats(live);
    NormalizedIsLive(dealer, live);
    NextIsNeighbour(live, NormalizeDealerSeat(dealer, live));
  }

  /** As long as the same n seats hold chips, n hands in a row give each of them the button exactly once, whatever is
      played in them. */
  lemma SessionButtonGoesRound(states: seq<Stored>, hands: seq<seq<Request>>, live: seq<int>, seat: int)
      returns (j: nat)
    requires HandsInARow(states, hands, live) && |hands| == |live| >= 2 && seat in live
    ensures 1 <= j <= |hands| && states[j].game.dealerSeat == seat
    ensures forall i :: 1 <= i <= |hands| && states[i].game.dealerSeat == seat ==> i == j
  {
    ButtonsFollow(states, hands, live);
    var dealers := DealerSeats(states[1..]);
    var first := ButtonGoesRound(dealers, Tables(states[1..]), live, seat);
    j := first + 1;
    forall i | 1 <= i <= |hands| && states[i].game.dealerSeat == seat ensures i == j {
      assert dealers[i - 1] == states[i].game.dealerSeat;
    }
  }

  // ---------- from the room to the first hand ----------

  lemma RoomSetupIsValid(room: Room, deck: seq<Card>) returns (setup: Setup)
    requires RoomOk(room) && NotReadyToStart(room) == None && 0 < room.smallBlind < room.bigBlind
    requires |deck| >= 2 * |room.players| + 5
    ensures var inputs := RoomInputs(room.players); var live := LiveSeats(inputs);
      && live != [] && HandSetup(room.smallBlind, room.bigBlind, inputs, live[0], deck) == Ok(setup)
      && ValidSetup(setup) && setup.players == inputs && setup.dealerSeat == Some(live[0])
      && setup.smallBlind == room.smallBlind && setup.bigBlind == room.bigBlind
  {
    var inputs := RoomInputs(room.players);
    RoomIsLive(room);
    FirstBlinds(inputs);
    setup := Setup(room.smallBlind, room.bigBlind, inputs, Some(LiveSeats(inputs)[0]), deck);
  }

  /** Everybody in a room that may start has chips. */
  lemma RoomIsLive(room: Room)
    requires RoomOk(room) && NotReadyToStart(room) == None
    ensures var inputs := RoomInputs(room.players);
      && DistinctInputs(inputs) && |inputs| >= 2 && |LiveSeats(inputs)| == |inputs| && WithChips(inputs) == inputs
      && forall i :: 0 <= i < |inputs| ==> inputs[i].chips > 0
  {
    EveryoneLive(RoomInputs(room.players));
    LiveSeatsFacts(RoomInputs(room.players));
  }

  /** The lowest live seat keeps the button it is given. */
  lemma FirstBlinds(inputs: seq<SeatInput>)
    requires DistinctInputs(inputs) && |LiveSeats(inputs)| >= 2
    ensures ResolveBlindSeats(LiveSeats(inputs), LiveSeats(inputs)[0]).Ok?
    ensures ResolveBlindSeats(LiveSeats(inputs), LiveSeats(inputs)[0]).value.dealerSeat == LiveSeats(inputs)[0]
  {
    LiveSeatsFacts(inputs);
    SortSeats(LiveSeats(inputs));
  }

  lemma DealtSeats(setup: Setup, k: nat)
    requires ValidSetup(setup) && k < |Sort(setup.players, SeatLeq)|
    ensures |Deal(setup).players| == |Sort(setup.players, SeatLeq)|
    ensures Deal(setup).players[k].seatNo == Sort(setup.players, SeatLeq)[k].seatNo
    ensures Deal(setup).players[k].userId == Sort(setup.players, SeatLeq)[k].userId
    ensures Deal(setup).players[k].startHandChips == Sort(setup.players, SeatLeq)[k].chips
  {
    var d := DealFacts(setup);
    var sorted := Sort(setup.players, SeatLeq);
    assert HandDealt(sorted, setup.deck, |WithChips(setup.players)|, d, k);
    assert Identity(d.players[k]) == Identity(Deal(setup).players[k]);
  }

  lemma FirstSeats(room: Room, setup: Setup)
    requires RoomOk(room) && ValidSetup(setup) && setup.players == RoomInputs(room.players)
    requires SeatsAscend(Deal(setup).players)
    ensures SameSeats(room.players, Deal(setup).players)
  {
    var inputs, players := setup.players, Deal(setup).players;
    var sorted := Sort(inputs, SeatLeq);
    DealtSize(setup);
    forall i | 0 <= i < |room.players| ensures SitsAs(players, room.players[i]) {
      SortMembers(inputs, SeatLeq, inputs[i]);
      var j :| 0 <= j < |sorted| && sorted[j] == inputs[i];
      DealtSeats(setup, j);
      PositionAt(players, j);
    }
    forall k | 0 <= k < |players| ensures HasRow(room.players, players[k].seatNo) {
      DealtSeats(setup, k);
      SortMembers(inputs, SeatLeq, sorted[k]);
      var i :| 0 <= i < |inputs| && inputs[i] == sorted[k];
      assert room.players[i].seatNo == players[k].seatNo;
    }
  }

  lemma DealtSize(setup: Setup)
    requires ValidSetup(setup)
    ensures |Deal(setup).players| == |Sort(setup.players, SeatLeq)|
  {
    var d := DealFacts(setup);
  }

  lemma OpenedSession(room: Room, setup: Setup)
    requires RoomOk(room) && ValidSetup(setup) && setup.players == RoomInputs(room.players)
    requires setup.smallBlind == room.smallBlind && setup.bigBlind == room.bigBlind
    ensures var r := Deal(setup);
      SessionOk(Stored(InPlay, room.smallBlind, room.bigBlind, Persisted(room.players, r), r))
  {
    var r := Deal(setup);
    DealtHand(setup);
    FirstSeats(room, setup);
    PersistedSeats(room.players, r, r.players);
  }

  /** What a room that passes the start checks stores: the hand dealt to its members under the lowest seat's button. */
  lemma FirstHandStored(room: Room, deck: seq<Card>) returns (setup: Setup, s: Stored)
    requires RoomOk(room) && NotReadyToStart(room) == None && 0 < room.smallBlind < room.bigBlind
    requires |deck| >= 2 * |room.players| + 5
    ensures FirstHand(room, room.owner, deck) == Ok(s) && ValidSetup(setup) && LiveSeats(RoomInputs(room.players)) != []
    ensures setup == Setup(room.smallBlind, room.bigBlind, RoomInputs(room.players),
      Some(LiveSeats(RoomInputs(room.players))[0]), deck)
    ensures s == Stored(InPlay, room.smallBlind, room.bigBlind, Persisted(room.players, Deal(setup)), Deal(setup))
  {
    setup := RoomSetupIsValid(room, deck);
    s := Stored(InPlay, room.smallBlind, room.bigBlind, Persisted(room.players, Deal(setup)), Deal(setup));
  }

  lemma DealtFromRoom(setup: Setup)
    requires ValidSetup(setup)
    ensures var r := Deal(setup);
      (if r.status == Playing then TotalStart(r.players) else TotalChips(r.players)) == Sum(ChipsOf(setup.players))
    ensures Deal(setup).status != RoomFinished
  {
    DealtHand(setup);
    DealStart(setup);
  }

  /** A room that passes the start checks always gets its first hand: the session it opens is in order, the button is
      on the lowest seat, and the table holds exactly the chips the members brought. */
  lemma FirstHandOpens(room: Room, deck: seq<Card>)
    requires RoomOk(room) && NotReadyToStart(room) == None && 0 < room.smallBlind < room.bigBlind
    requires |deck| >= 2 * |room.players| + 5
    ensures FirstHand(room, room.owner, deck).Ok?
    ensures var s := FirstHand(room, room.owner, deck).value;
      && SessionOk(s) && s.game.status != RoomFinished
      && LiveSeats(RoomInputs(room.players)) != [] && s.game.dealerSeat == LiveSeats(RoomInputs(room.players))[0]
      && TableTotal(s) == Sum(ChipsOf(RoomInputs(room.players)))
  {
    var setup, s := FirstHandStored(room, deck);
    OpenedSession(room, setup);
    DealtFromRoom(setup);
    DealtHand(setup);
    FirstButton(setup);
  }

  /** Somebody at the table sits in this row's seat as this user and starts the hand with these chips. */
  ghost predicate DealtTo(players: seq<Player>, row: RoomPlayer, chips: int) {
    exists k :: 0 <= k < |players| && players[k].seatNo == row.seatNo && players[k].userId == row.userId
      && players[k].startHandChips == chips
  }

  lemma RowIsDealt(room: Room, setup: Setup, i: nat)
    requires ValidSetup(setup) && setup.players == RoomInputs(room.players) && i < |room.players|
    ensures DealtTo(Deal(setup).players, room.players[i], room.players[i].chips)
  {
    var sorted := Sort(setup.players, SeatLeq);
    SortMembers(setup.players, SeatLeq, setup.players[i]);
    var j :| 0 <= j < |sorted| && sorted[j] == setup.players[i];
    DealtSeats(setup, j);
  }

  /** From a new friends room over any requests: if it passes the start checks, the first hand is dealt, and every
      member starts it in the own seat with exactly the stack the member last chose, or the room's initial stack. */
  lemma ChosenStacksAreDealt(room: Room, requests: seq<RoomRequest>, deck: seq<Card>) returns (s: Stored)
    requires NewRoom(room) && NotReadyToStart(RoomRun(room, requests)) == None
    requires 0 < RoomRun(room, requests).smallBlind < RoomRun(room, requests).bigBlind
    requires |deck| >= 2 * |RoomRun(room, requests).players| + 5
    ensures var r := RoomRun(room, requests); FirstHand(r, r.owner, deck) == Ok(s)
    ensures forall i :: 0 <= i < |RoomRun(room, requests).players| ==>
      var row := RoomRun(room, requests).players[i];
      row.userId.Some? &&
      DealtTo(s.game.players, row, StandingOf(Log(room, requests), row.userId.value, room.initialChips).chips)
  {
    var r := RoomRun(room, requests);
    RunShows(room, requests);
    var setup;
    setup, s := FirstHandStored(r, deck);
    forall i | 0 <= i < |r.players|
      ensures r.players[i].userId.Some? && DealtTo(s.game.players, r.players[i],
        StandingOf(Log(room, requests), r.players[i].userId.value, room.initialChips).chips)
    {
      RowShowsChips(room, requests, r, i);
      RowIsDealt(r, setup, i);
    }
  }

  lemma RowShowsChips(room: Room, requests: seq<RoomRequest>, r: Room, i: nat)
    requires RoomOk(r) && i < |r.players| && RowsShow(Log(room, requests), r.players, room.initialChips)
    ensures r.players[i].userId.Some?
    ensures r.players[i].chips == StandingOf(Log(room, requests), r.players[i].userId.value, room.initialChips).chips
  {
    assert RowOk(r, r.players[i]);
    assert RowStanding(r.players[i]).chips == r.players[i].chips;
  }

  lemma FirstButton(setup: Setup)
    requires ValidSetup(setup) && LiveSeats(setup.players) != []
    requires setup.dealerSeat == Some(LiveSeats(setup.players)[0])
    ensures ResolveSetup(setup).Ok? && ResolveSetup(setup).value.dealerSeat == LiveSeats(setup.players)[0]
  {
    LiveSeatsFacts(setup.players);
    SortSeats(LiveSeats(setup.players));
  }
}
