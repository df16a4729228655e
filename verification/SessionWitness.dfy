/** What the users and bots of a session do to the hand is what the engine does with their actions, and a session in
    which the table loses chips. */
module SessionWitness {
  import opened Sequences
  import opened Deck
  import opened Engine
  import opened TurnOrder
  import opened HandInvariant
  import opened HandAccounting
  import opened HandRuns
  import opened HandStart
  import opened HandTheorems
  import opened Rooms
  import opened RoomTheorems
  import opened Session
  import opened SessionTheorems
  import opened SessionRuns
  import opened ThreeHanded
  import opened HandWitness

  // ---------- a session follows the engine ----------

  /** An action by a member of the room, or a bot's for a seat in which no user sits. */
  ghost predicate PlayerActs(s: Stored, request: Request) {
    match request
    case UserActs(user, _, _) => MemberAt(s.players, user) < |s.players|
    case BotActs(seat, _, _) =>
      forall i :: 0 <= i < |s.players| && s.players[i].seatNo == seat ==> s.players[i].userId == None
    case DealNext(_) => false
  }

  /** The action as the engine gets it. */
  function EngineInput(s: Stored, request: Request): Input
    requires !request.DealNext?
  {
    match request
    case UserActs(user, move, amount) => Input(SeatOf(s, user), Some(user), move, amount)
    case BotActs(seat, move, amount) => Input(seat, None, move, amount)
  }

  /** The same users in the same rows. */
  ghost predicate SameRows(a: seq<RoomPlayer>, b: seq<RoomPlayer>) {
    |a| == |b| && forall i :: 0 <= i < |a| ==> a[i].seatNo == b[i].seatNo && a[i].userId == b[i].userId
  }

  /** The player whose action the engine accepts sits in the seat on turn and passes the session's checks. */
  lemma AcceptedPlays(s: Stored, t: nat, request: Request)
    requires SessionOk(s) && Inv(s.game) && TurnAt(s.game, t) && PlayerActs(s, request)
    requires ApplyGameAction(s.game, EngineInput(s, request)).Ok?
    ensures s.game.players[t].seatNo == EngineInput(s, request).seatNo
    ensures MayPlay(s.game, t, EngineInput(s, request).userId, request.move, request.amount)
  {
    AcceptedIff(s.game, t, EngineInput(s, request));
    match request
    case UserActs(user, _, _) =>
      assert SitsAs(s.game.players, s.players[MemberAt(s.players, user)]);
      PositionAt(s.game.players, t);
    case BotActs(_, _, _) =>
      var i := RowOfSeat(s, t);
  }

  lemma PlayerMayPlay(s: Stored, request: Request)
    requires SessionOk(s) && Sound(s.game) && PlayerActs(s, request) && OnAStreet(s.game)
    requires ApplyGameAction(s.game, EngineInput(s, request)).Ok?
    ensures var input := EngineInput(s, request);
      exists t: nat ::
        MayPlay(s.game, t, input.userId, input.move, input.amount) && s.game.players[t].seatNo == input.seatNo
  {
    var t: nat :| TurnAt(s.game, t);
    AcceptedPlays(s, t, request);
  }

  lemma PlayerAccepted(s: Stored, request: Request)
    requires SessionOk(s) && Sound(s.game) && PlayerActs(s, request)
    ensures OnAStreet(s.game) && (ApplyGameAction(s.game, EngineInput(s, request)).Ok? ==> Answer(s, request).Ok?)
  {
    SoundOnAStreet(s.game);
    if ApplyGameAction(s.game, EngineInput(s, request)).Ok? {
      PlayerMayPlay(s, request);
      match request
      case UserActs(user, move, amount) => UserActsIff(s, user, move, amount);
      case BotActs(seat, move, amount) => SeatActsIff(s, seat, None, move, amount);
    }
  }

  lemma AnswerStores(s: Stored, request: Request)
    requires OnAStreet(s.game) && !request.DealNext? && Answer(s, request).Ok?
    ensures ApplyGameAction(s.game, EngineInput(s, request)).Ok?
    ensures Answer(s, request).value.game == ApplyGameAction(s.game, EngineInput(s, request)).value
    ensures SameRows(s.players, Answer(s, request).value.players)
  {
  }

  lemma StepFollows(s: Stored, request: Request)
    requires SessionOk(s) && Sound(s.game) && PlayerActs(s, request)
    ensures OnAStreet(s.game) && SessionStep(s, request).game == Step(s.game, EngineInput(s, request))
    ensures SameRows(s.players, SessionStep(s, request).players)
  {
    PlayerAccepted(s, request);
    if Answer(s, request).Ok? {
      AnswerStores(s, request);
    }
  }

  function EngineInputs(s: Stored, requests: seq<Request>): seq<Input>
    requires forall i :: 0 <= i < |requests| ==> !requests[i].DealNext?
  {
    seq(|requests|, i requires 0 <= i < |requests| => EngineInput(s, requests[i]))
  }

  ghost predicate PlayersAct(s: Stored, requests: seq<Request>) {
    forall i :: 0 <= i < |requests| ==> PlayerActs(s, requests[i])
  }

  lemma RowsKeepSeats(s: Stored, r: Stored, request: Request)
    requires SessionOk(s) && SessionOk(r) && SameRows(s.players, r.players) && PlayerActs(s, request)
    ensures PlayerActs(r, request) && EngineInput(r, request) == EngineInput(s, request)
  {
    if request.UserActs? {
      MemberIs(r.players, r.game.players, MemberAt(s.players, request.user), request.user);
    }
  }

  lemma FollowsOnce(s: Stored, before: Stored, request: Request)
    requires SessionOk(s) && SessionOk(before) && Sound(before.game) && SameRows(s.players, before.players)
    requires PlayerActs(s, request)
    ensures OnAStreet(before.game)
    ensures SessionStep(before, request).game == Step(before.game, EngineInput(s, request))
    ensures SameRows(s.players, SessionStep(before, request).players)
  {
    RowsKeepSeats(s, before, request);
    StepFollows(before, request);
  }

  lemma EngineRunUnfolds(g: GameState, inputs: seq<Input>)
    requires Sound(g)
    ensures Run(g, []) == g
    ensures inputs != [] ==>
      var before := Run(g, inputs[..|inputs| - 1]);
      OnAStreet(before) && Run(g, inputs) == Step(before, inputs[|inputs| - 1])
  {
    if inputs != [] {
      SoundOnAStreet(Run(g, inputs[..|inputs| - 1]));
    }
  }

  lemma InputsPrefix(s: Stored, requests: seq<Request>)
    requires PlayersAct(s, requests) && requests != []
    ensures PlayersAct(s, requests[..|requests| - 1]) && PlayerActs(s, requests[|requests| - 1])
    ensures EngineInputs(s, requests)[..|requests| - 1] == EngineInputs(s, requests[..|requests| - 1])
    ensures EngineInputs(s, requests)[|requests| - 1] == EngineInput(s, requests[|requests| - 1])
  {
  }

  ghost predicate Follows(s: Stored, r: Stored, g: GameState) {
    SessionOk(r) && Sound(g) && r.game == g && SameRows(s.players, r.players)
  }

  /** Whatever members and bots request in a hand, the game goes on exactly as the engine takes their actions. */
  lemma {:induction false} SessionFollowsEngine(s: Stored, requests: seq<Request>)
    requires SessionOk(s) && Sound(s.game) && PlayersAct(s, requests) && Supplied(s, requests)
    ensures Follows(s, SessionRun(s, requests), Run(s.game, EngineInputs(s, requests)))
  {
    EngineRunUnfolds(s.game, EngineInputs(s, requests));
    if requests == [] {
      assert EngineInputs(s, requests) == [];
    } else {
      RunUnfolds(s, requests);
      InputsPrefix(s, requests);
      SessionFollowsEngine(s, requests[..|requests| - 1]);
      FollowsOnce(s, SessionRun(s, requests[..|requests| - 1]), requests[|requests| - 1]);
    }
  }

  // ---------- a session that loses chips ----------

  /** Three members in seats 1, 2 and 3 with 300, 100 and 100 chips, ready to start with blinds 1 and 2. */
  ghost predicate ShortRoom(room: Room) {
    && RoomOk(room) && NotReadyToStart(room) == None
    && room.smallBlind == 1 && room.bigBlind == 2 && |room.players| == 3
    && forall k :: 0 <= k < 3 ==>
      room.players[k].seatNo == k + 1 && room.players[k].userId.Some? && room.players[k].chips == ShortStacks()[k]
  }

  function Users(room: Room): seq<Option<int>> {
    seq(|room.players|, k requires 0 <= k < |room.players| => room.players[k].userId)
  }

  lemma ShortRoomOpens(room: Room, deck: seq<Card>, s: Stored)
    requires ShortRoom(room) && |deck| >= 11 && FirstHand(room, room.owner, deck) == Ok(s)
    ensures ValidSetup(Three(Users(room), ShortStacks(), deck))
    ensures s.game == Deal(Three(Users(room), ShortStacks(), deck))
    ensures SameRows(room.players, s.players)
  {
    var setup := FirstGame(room, deck, s);
    ShortInputs(room, deck);
    ThreeIsValid(Users(room), ShortStacks(), deck);
  }

  /** The game a room's first hand stores. */
  lemma FirstGame(room: Room, deck: seq<Card>, s: Stored) returns (setup: Setup)
    requires RoomOk(room) && NotReadyToStart(room) == None && 0 < room.smallBlind < room.bigBlind
    requires |deck| >= 2 * |room.players| + 5 && FirstHand(room, room.owner, deck) == Ok(s)
    ensures ValidSetup(setup) && s.game == Deal(setup) && SameRows(room.players, s.players)
    ensures LiveSeats(RoomInputs(room.players)) != []
    ensures setup == Setup(room.smallBlind, room.bigBlind, RoomInputs(room.players),
      Some(LiveSeats(RoomInputs(room.players))[0]), deck)
  {
    var stored;
    setup, stored := FirstHandStored(room, deck);
  }

  lemma ShortInputs(room: Room, deck: seq<Card>)
    requires ShortRoom(room)
    ensures RoomInputs(room.players) == Three(Users(room), ShortStacks(), deck).players
  {
  }

  function UserIn(room: Room, k: nat): int
    requires k < |room.players|
  {
    room.players[k].userId.GetOr(0)
  }

  /** Seat 1 raises to 200, seats 2 and 3 go all in, and seat 1 folds. */
  function ForfeitRequests(room: Room): seq<Request>
    requires |room.players| == 3
  {
    [UserActs(UserIn(room, 0), Raise, Some(200)), UserActs(UserIn(room, 1), AllInMove, None),
     UserActs(UserIn(room, 2), AllInMove, None), UserActs(UserIn(room, 0), Fold, None)]
  }

  /** The session knows the room's users in their seats. */
  ghost predicate Knows(s: Stored, room: Room) {
    && |room.players| == 3 && |s.players| == 3
    && forall k :: 0 <= k < 3 ==>
      && MemberAt(s.players, UserIn(room, k)) == k && s.players[k].seatNo == k + 1
      && room.players[k].userId == Some(UserIn(room, k))
  }

  lemma RoomIsKnown(room: Room, s: Stored)
    requires ShortRoom(room) && SessionOk(s) && SameRows(room.players, s.players)
    ensures Knows(s, room)
  {
    forall k | 0 <= k < 3 ensures MemberAt(s.players, UserIn(room, k)) == k {
      MemberIs(s.players, s.game.players, k, UserIn(room, k));
    }
  }

  lemma KnownInput(s: Stored, room: Room, k: nat, move: Move, amount: Option<int>)
    requires Knows(s, room) && k < 3
    ensures var request := UserActs(UserIn(room, k), move, amount);
      PlayerActs(s, request) && EngineInput(s, request) == Input(k + 1, Users(room)[k], move, amount)
  {
  }

  lemma ForfeitInputs(s: Stored, room: Room, requests: seq<Request>)
    requires Knows(s, room) && requests == ForfeitRequests(room)
    ensures PlayersAct(s, requests) && EngineInputs(s, requests) == RaiseAndFold(Users(room))
  {
    KnownInput(s, room, 0, Raise, Some(200));
    KnownInput(s, room, 1, AllInMove, None);
    KnownInput(s, room, 2, AllInMove, None);
    KnownInput(s, room, 0, Fold, None);
  }

  lemma FoldLosesIn(g: GameState, users: seq<Option<int>>, deck: seq<Card>, inputs: seq<Input>) returns (r: GameState)
    requires Seating(users, deck) && inputs == RaiseAndFold(users)
    requires ValidSetup(Three(users, ShortStacks(), deck)) && g == Deal(Three(users, ShortStacks(), deck))
    ensures r == Run(g, inputs) && r.status == HandFinished && TotalChips(r.players) < 500
  {
    FoldLosesChips(users, deck);
    r := Run(g, inputs);
  }

  /** The session such a room starts, with 500 chips on the table. */
  lemma OpensWith500(room: Room, deck: seq<Card>) returns (s: Stored)
    requires ShortRoom(room) && |deck| >= 11
    ensures FirstHand(room, room.owner, deck) == Ok(s) && SessionOk(s) && TableTotal(s) == 500 && Knows(s, room)
    ensures ValidSetup(Three(Users(room), ShortStacks(), deck))
    ensures s.game == Deal(Three(Users(room), ShortStacks(), deck))
  {
    FirstHandOpens(room, deck);
    s := FirstHand(room, room.owner, deck).value;
    ThreeSum(ChipsOf(RoomInputs(room.players)));
    ShortRoomOpens(room, deck, s);
    RoomIsKnown(room, s);
  }

  lemma ActionsNeedNoDeck(s: Stored, requests: seq<Request>)
    requires PlayersAct(s, requests)
    ensures Supplied(s, requests)
  {
    forall i | 0 <= i < |requests| ensures WellSupplied(s, requests[i]) {
      assert PlayerActs(s, requests[i]);
    }
  }

  lemma FoldFollowed(s: Stored, users: seq<Option<int>>, deck: seq<Card>, requests: seq<Request>)
    requires SessionOk(s) && PlayersAct(s, requests) && Seating(users, deck)
    requires EngineInputs(s, requests) == RaiseAndFold(users)
    requires ValidSetup(Three(users, ShortStacks(), deck)) && s.game == Deal(Three(users, ShortStacks(), deck))
    ensures Supplied(s, requests) && TableTotal(SessionRun(s, requests)) < 500
  {
    var r := FoldLosesIn(s.game, users, deck, EngineInputs(s, requests));
    DealtFromRoom(Three(users, ShortStacks(), deck));
    FollowedTotal(s, requests, r);
  }

  lemma FollowedTotal(s: Stored, requests: seq<Request>, r: GameState)
    requires SessionOk(s) && s.game.status != RoomFinished && PlayersAct(s, requests)
    requires r == Run(s.game, EngineInputs(s, requests)) && r.status == HandFinished && TotalChips(r.players) < 500
    ensures Supplied(s, requests) && TableTotal(SessionRun(s, requests)) < 500
  {
    FollowedGame(s, requests, r);
  }

  lemma FollowedGame(s: Stored, requests: seq<Request>, r: GameState)
    requires SessionOk(s) && Sound(s.game) && PlayersAct(s, requests) && r == Run(s.game, EngineInputs(s, requests))
    ensures Supplied(s, requests) && SessionRun(s, requests).game == r
  {
    ActionsNeedNoDeck(s, requests);
    SessionFollowsEngine(s, requests);
  }

  lemma ForfeitLowersTotal(s: Stored, room: Room, deck: seq<Card>, requests: seq<Request>)
    requires SessionOk(s) && Knows(s, room) && requests == ForfeitRequests(room) && |deck| >= 11
    requires ValidSetup(Three(Users(room), ShortStacks(), deck))
    requires s.game == Deal(Three(Users(room), ShortStacks(), deck))
    ensures Supplied(s, requests) && TableTotal(SessionRun(s, requests)) < 500
  {
    ForfeitInputs(s, room, requests);
    FoldFollowed(s, Users(room), deck, requests);
  }

  lemma LossMeansForfeit(s: Stored, requests: seq<Request>)
    requires SessionOk(s) && Supplied(s, requests) && TableTotal(SessionRun(s, requests)) < TableTotal(s)
    ensures SomeForfeit(s, requests)
  {
    TableNeverGains(s, requests);
  }

  /** The session of such a room starts with 500 chips on the table and, after these four requests, has fewer. */
  lemma SessionLosesChips(room: Room, deck: seq<Card>) returns (s: Stored, requests: seq<Request>)
    requires ShortRoom(room) && |deck| >= 11
    ensures FirstHand(room, room.owner, deck) == Ok(s) && SessionOk(s) && TableTotal(s) == 500
    ensures requests == ForfeitRequests(room) && Supplied(s, requests) && SomeForfeit(s, requests)
    ensures TableTotal(SessionRun(s, requests)) < 500
  {
    s := OpensWith500(room, deck);
    requests := ForfeitRequests(room);
    ForfeitLowersTotal(s, room, deck, requests);
    LossMeansForfeit(s, requests);
  }
}
