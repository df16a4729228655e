/** The room's rows over a whole session: between hands every row holds the
    stack the last hand left in its seat, during a hand the stack it began with. */
module SessionRows {
  import opened Sequences
  import opened Deck
  import opened Engine
  import opened TurnOrder
  import opened HandInvariant
  import opened HandRuns
  import opened HandStart
  import opened HandTheorems
  import opened Rooms
  import opened RoomTheorems
  import opened Session
  import opened SessionTheorems
  import opened SessionRuns

  /** What the room is to show of a player. */
  function Shown(status: GameStatus, p: Player): int {
    if status == Playing then p.startHandChips else p.chips
  }

  ghost predicate RowHolds(g: GameState, row: RoomPlayer) {
    var k := PositionOf(g.players, row.seatNo);
    k < |g.players| && row.chips == Shown(g.status, g.players[k])
  }

  ghost predicate RowsHold(s: Stored) {
    forall i :: 0 <= i < |s.players| ==> RowHolds(s.game, s.players[i])
  }

  lemma SameSeatPosition(before: seq<Player>, after: seq<Player>, seat: int)
    requires SeatsAscend(before) && SeatsAscend(after) && SameSitters(before, after)
    requires PositionOf(before, seat) < |before|
    ensures PositionOf(after, seat) == PositionOf(before, seat)
  {
    PositionAt(after, PositionOf(before, seat));
  }

  /** While the new state is in play the rows already hold what the players start with. */
  ghost predicate RowsStart(room: seq<RoomPlayer>, before: seq<Player>, g: GameState)
    requires |g.players| == |before|
  {
    g.status == Playing ==> forall i :: 0 <= i < |room| ==>
      var k := PositionOf(before, room[i].seatNo);
      k < |before| && room[i].chips == g.players[k].startHandChips
  }

  lemma PersistedHolds(room: seq<RoomPlayer>, before: seq<Player>, g: GameState, i: nat)
    requires SameSeats(room, before) && SeatsAscend(before) && SeatsAscend(g.players) && SameSitters(before, g.players)
    requires RowsStart(room, before, g) && g.status != RoomFinished && i < |room|
    ensures RowHolds(g, Persisted(room, g)[i])
  {
    assert SitsAs(before, room[i]);
    SameSeatPosition(before, g.players, room[i].seatNo);
  }

  lemma ActionStarts(g: GameState, input: Input, r: GameState)
    requires Inv(g) && ApplyGameAction(g, input) == Ok(r)
    ensures |r.players| == |g.players| && r.status != RoomFinished
    ensures forall k :: 0 <= k < |g.players| ==> r.players[k].startHandChips == g.players[k].startHandChips
  {
    var t: nat :| TurnAt(g, t);
    StepKeepsSound(g, input);
    ActionKeeps(g, t, input);
    forall k | 0 <= k < |g.players| ensures r.players[k].startHandChips == g.players[k].startHandChips {
      assert Identity(g.players[k]) == Identity(r.players[k]);
    }
  }

  /** A new state of the same table, once the finished stacks are written back. */
  lemma PersistedRowsHold(s: Stored, status: RoomStatus, g: GameState)
    requires SameSeats(s.players, s.game.players) && SeatsAscend(s.game.players) && SeatsAscend(g.players)
    requires SameSitters(s.game.players, g.players)
    requires RowsStart(s.players, s.game.players, g) && g.status != RoomFinished
    ensures RowsHold(s.(status := status, game := g, players := Persisted(s.players, g)))
  {
    forall i | 0 <= i < |s.players| ensures RowHolds(g, Persisted(s.players, g)[i]) {
      PersistedHolds(s.players, s.game.players, g, i);
    }
  }

  /** What the rows hold of the last state is what the players of the next one start with. */
  lemma RowsStartNext(s: Stored, g: GameState)
    requires RowsHold(s) && |g.players| == |s.game.players|
    requires forall k :: 0 <= k < |g.players| ==> g.players[k].startHandChips == Shown(s.game.status, s.game.players[k])
    ensures RowsStart(s.players, s.game.players, g)
  {
    forall i | 0 <= i < |s.players|
      ensures PositionOf(s.game.players, s.players[i].seatNo) < |s.game.players|
      ensures s.players[i].chips == g.players[PositionOf(s.game.players, s.players[i].seatNo)].startHandChips
    {
      assert RowHolds(s.game, s.players[i]);
    }
  }

  lemma StoreHolds(s: Stored, input: Input, r: GameState)
    requires SessionOk(s) && RowsHold(s) && Inv(s.game) && ApplyGameAction(s.game, input) == Ok(r)
    ensures RowsHold(s.(game := r, players := Persisted(s.players, r)))
  {
    ActionAftermath(s.game, input, r);
    ActionStarts(s.game, input, r);
    RowsStartNext(s, r);
    PersistedRowsHold(s, s.status, r);
  }

  lemma DealtHolds(s: Stored, setup: Setup)
    requires SessionOk(s) && RowsHold(s) && s.game.status == HandFinished
    requires ValidSetup(setup) && setup.players == Refreshed(s.players, s.game.players)
    ensures RowsHold(s.(status := InPlay, game := Deal(setup), players := Persisted(s.players, Deal(setup))))
  {
    DealtFromOldStacks(s, setup);
    DealtHand(setup);
    DealtFromRoom(setup);
    RowsStartNext(s, Deal(setup));
    PersistedRowsHold(s, InPlay, Deal(setup));
  }

  lemma EndHolds(s: Stored)
    requires RowsHold(s) && s.game.status == HandFinished
    ensures RowsHold(s.(status := Ended, game := s.game.(status := RoomFinished, turn := None)))
  {
    forall i | 0 <= i < |s.players|
      ensures RowHolds(s.game.(status := RoomFinished, turn := None), s.players[i])
    {
      assert RowHolds(s.game, s.players[i]);
    }
  }

  lemma NextHolds(s: Stored, deck: seq<Card>)
    requires SessionOk(s) && RowsHold(s) && s.game.status == HandFinished && EnoughCards(s, deck)
    ensures NextHand(s, deck).Ok? ==> RowsHold(NextHand(s, deck).value)
  {
    DealerOrEnd(s);
    if |SeatsWithChips(s.game.players)| < 2 {
      EndHolds(s);
    } else {
      var setup := NextHandIsDealt(s, deck);
      DealtHolds(s, setup);
    }
  }

  lemma StepHolds(s: Stored, request: Request)
    requires SessionOk(s) && RowsHold(s) && WellSupplied(s, request)
    ensures OnAStreet(s.game) && RowsHold(SessionStep(s, request))
  {
    StepTotal(s, request);
    if request.DealNext? {
      DealStepIs(s, request.deck);
      if s.game.status == HandFinished {
        NextHolds(s, request.deck);
      }
    } else if Answer(s, request).Ok? {
      var input := ActionIsStored(s, request);
      Stores(s, input);
      StoreHolds(s, input, ApplyGameAction(s.game, input).value);
    }
  }

  /** The rows go on holding the stacks, whatever is requested. */
  lemma {:induction false} RunHoldsRows(s: Stored, requests: seq<Request>)
    requires SessionOk(s) && RowsHold(s) && Supplied(s, requests)
    ensures RowsHold(SessionRun(s, requests))
  {
    if requests != [] {
      var n := |requests| - 1;
      RunUnfolds(s, requests);
      RunHoldsRows(s, requests[..n]);
      assert WellSupplied(s, requests[n]);
      StepHolds(SessionRun(s, requests[..n]), requests[n]);
    }
  }

  lemma FirstRowsHold(room: Room, setup: Setup)
    requires RoomOk(room) && ValidSetup(setup) && setup.players == RoomInputs(room.players)
    requires setup.smallBlind == room.smallBlind && setup.bigBlind == room.bigBlind
    ensures RowsHold(Stored(InPlay, room.smallBlind, room.bigBlind, Persisted(room.players, Deal(setup)), Deal(setup)))
  {
    var r := Deal(setup);
    DealtHand(setup);
    FirstSeats(room, setup);
    DealtFromRoom(setup);
    forall i | 0 <= i < |room.players|
      ensures PositionOf(r.players, room.players[i].seatNo) < |r.players|
      ensures room.players[i].chips == r.players[PositionOf(r.players, room.players[i].seatNo)].startHandChips
    {
      RowIsDealt(room, setup, i);
      var k :| 0 <= k < |r.players| && r.players[k].seatNo == room.players[i].seatNo
        && r.players[k].startHandChips == room.players[i].chips;
      PositionAt(r.players, k);
    }
    forall i | 0 <= i < |room.players| ensures RowHolds(r, Persisted(room.players, r)[i]) {
      PersistedHolds(room.players, r.players, r, i);
    }
  }

  /** From the start of a room that passes the checks, over any requests: between hands every room row holds exactly
      the stack the last hand left in its seat, and during a hand the stack its player started with. */
  lemma RowsFollowSession(room: Room, deck: seq<Card>, s: Stored, requests: seq<Request>)
    requires RoomOk(room) && NotReadyToStart(room) == None && 0 < room.smallBlind < room.bigBlind
    requires |deck| >= 2 * |room.players| + 5 && FirstHand(room, room.owner, deck) == Ok(s)
    requires Supplied(s, requests)
    ensures SessionOk(s) && RowsHold(SessionRun(s, requests))
  {
    var setup, first := FirstHandStored(room, deck);
    OpenedSession(room, setup);
    FirstRowsHold(room, setup);
    RunHoldsRows(s, requests);
  }
}
