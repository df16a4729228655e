/** apps/api/src/practice-game/practice-game.service.ts: hand after hand at one
    table, as steps over the stored room and game state. */
module Session {
  import opened Sequences
  import opened Deck
  import opened Engine
  import opened HandStart
  import opened HandTable
  import opened Rooms

  // ---------- nextDealerSeat ----------

  function SeatsWithChips(players: seq<Player>): seq<int> {
    if players == [] then []
    else
      var n := |players| - 1;
      if players[n].chips > 0 then SeatsWithChips(players[..n]) + [players[n].seatNo] else SeatsWithChips(players[..n])
  }

  function NextDealerSeat(players: seq<Player>, current: int): Option<int> {
    var live := Sort(SeatsWithChips(players), IntLeq);
    if |live| < 2 then None else Some(NextSeat(live, NormalizeDealerSeat(current, live)))
  }

  // ---------- the stored state ----------

  datatype Stored = Stored(status: RoomStatus, smallBlind: int, bigBlind: int, players: seq<RoomPlayer>,
      game: GameState)

  datatype SessionError =
    | NotOwner | NotARoomMember | HandNotFinished | NotThisSeat | NotYou | NotABot
    | Refused(error: EngineError) | RoomRefused(reason: RoomError)

  function ChipsAt(players: seq<Player>, seat: int, default: int): int {
    var k := PositionOf(players, seat);
    if k < |players| then players[k].chips else default
  }

  /** refreshedRoom: every room player with the stack the last hand left in that seat. */
  function Refreshed(room: seq<RoomPlayer>, players: seq<Player>): seq<SeatInput> {
    seq(|room|, i requires 0 <= i < |room| =>
      SeatInput(room[i].seatNo, room[i].userId, ChipsAt(players, room[i].seatNo, room[i].chips)))
  }

  /** persistFinishedHand: a finished hand's stacks go back to the room. */
  function Persisted(room: seq<RoomPlayer>, g: GameState): seq<RoomPlayer> {
    if g.status == HandFinished then
      seq(|room|, i requires 0 <= i < |room| => room[i].(chips := ChipsAt(g.players, room[i].seatNo, room[i].chips)))
    else room
  }

  /** The row of a seat with a new stack. */
  function Recorded(room: seq<RoomPlayer>, seat: int, chips: int): seq<RoomPlayer> {
    seq(|room|, i requires 0 <= i < |room| => if room[i].seatNo == seat then room[i].(chips := chips) else room[i])
  }

  /** createAndPersistHand resolves the blinds once more before it creates the state. */
  function HandSetup(smallBlind: int, bigBlind: int, inputs: seq<SeatInput>, dealer: int, deck: seq<Card>)
      : Result<Setup, EngineError> {
    var blinds :- ResolveBlindSeats(LiveSeats(inputs), dealer);
    Ok(Setup(smallBlind, bigBlind, inputs, Some(blinds.dealerSeat), deck))
  }

  // ---------- startFirstHand ----------

  function RoomInputs(room: seq<RoomPlayer>): seq<SeatInput> {
    seq(|room|, i requires 0 <= i < |room| => SeatInput(room[i].seatNo, room[i].userId, room[i].chips))
  }

  /** startFirstHand while no hand is stored: the button starts on the lowest seat with chips. */
  function FirstHand(room: Room, user: int, deck: seq<Card>): Result<Stored, SessionError> {
    var started := Rooms.Start(room, user);
    if started.Err? then Err(RoomRefused(started.error))
    else
      var inputs := RoomInputs(room.players);
      var live := LiveSeats(inputs);
      var setup := HandSetup(room.smallBlind, room.bigBlind, inputs, if live == [] then 0 else live[0], deck);
      if setup.Err? then Err(Refused(setup.error))
      else
        var created := CreateInitialGameState(setup.value);
        if created.Err? then Err(Refused(created.error))
        else Ok(Stored(InPlay, room.smallBlind, room.bigBlind, Persisted(room.players, created.value), created.value))
  }

  // ---------- nextHand and the actions ----------

  function NextHand(s: Stored, deck: seq<Card>): Result<Stored, SessionError> {
    if s.game.status != HandFinished then Err(HandNotFinished)
    else
      var dealer := NextDealerSeat(s.game.players, s.game.dealerSeat);
      if dealer == None then Ok(s.(status := Ended, game := s.game.(status := RoomFinished, turn := None)))
      else
        var setup := HandSetup(s.smallBlind, s.bigBlind, Refreshed(s.players, s.game.players), dealer.value, deck);
        if setup.Err? then Err(Refused(setup.error))
        else
          var created := CreateInitialGameState(setup.value);
          if created.Err? then Err(Refused(created.error))
          else Ok(s.(status := InPlay, game := created.value, players := Persisted(s.players, created.value)))
  }

  /** assertRoomMember: the first row of the user, or the number of rows. */
  function MemberAt(room: seq<RoomPlayer>, user: int): (m: nat)
    ensures m <= |room|
    ensures m < |room| ==> room[m].userId == Some(user)
    ensures m == |room| ==> forall i :: 0 <= i < |room| ==> room[i].userId != Some(user)
  {
    if room == [] then 0 else if room[0].userId == Some(user) then 0 else 1 + MemberAt(room[1..], user)
  }

  /** The player on turn, or the number of players. */
  function CurrentPlayer(g: GameState): (k: nat)
    ensures k <= |g.players|
  {
    if g.turn == None then |g.players| else PositionOf(g.players, g.turn.value)
  }

  /** The end of applySeatAction: the engine's answer is stored, with the stacks when the hand is over. */
  function Store(s: Stored, input: Input): Result<Stored, SessionError>
    requires OnAStreet(s.game)
  {
    var applied := ApplyGameAction(s.game, input);
    if applied.Err? then Err(Refused(applied.error))
    else Ok(s.(game := applied.value, players := Persisted(s.players, applied.value)))
  }

  /** The checks of applySeatAction: a user acts for the own seat only; without a user the seat has to be a bot's, one
      without a user. */
  function SeatRefusal(g: GameState, seat: int, actor: Option<int>): Option<SessionError> {
    var k := CurrentPlayer(g);
    if k == |g.players| || g.players[k].seatNo != seat then Some(NotThisSeat)
    else if actor.Some? && g.players[k].userId != actor then Some(NotYou)
    else if actor == None && g.players[k].userId.Some? then Some(NotABot)
    else None
  }

  function SeatAction(s: Stored, seat: int, actor: Option<int>, move: Move, amount: Option<int>)
      : Result<Stored, SessionError>
    requires OnAStreet(s.game)
  {
    var refusal := SeatRefusal(s.game, seat, actor);
    if refusal.Some? then Err(refusal.value) else Store(s, Input(seat, actor, move, amount))
  }

  /** The checks of applyAction: the user's seat, looked up in the room, has to be on turn. */
  function UserRefusal(s: Stored, user: int): Option<SessionError> {
    var m, k := MemberAt(s.players, user), CurrentPlayer(s.game);
    if m == |s.players| then Some(NotARoomMember)
    else if k == |s.game.players| || s.game.players[k].seatNo != s.players[m].seatNo then Some(NotYou)
    else None
  }

  function UserAction(s: Stored, user: int, move: Move, amount: Option<int>): Result<Stored, SessionError>
    requires OnAStreet(s.game)
  {
    var refusal := UserRefusal(s, user);
    if refusal.Some? then Err(refusal.value)
    else SeatAction(s, s.players[MemberAt(s.players, user)].seatNo, Some(user), move, amount)
  }

  // ---------- the service object ----------

  /** The room row and the cached game state that every request reads and writes. */
  class PracticeGame {
    const owner: int
    var status: RoomStatus
    const smallBlind: int
    const bigBlind: int
    var players: seq<RoomPlayer>
    var game: GameState

    constructor (owner: int, s: Stored)
      ensures View() == s && this.owner == owner
    {
      this.owner := owner;
      status, players, game := s.status, s.players, s.game;
      smallBlind, bigBlind := s.smallBlind, s.bigBlind;
    }

    function View(): Stored
      reads this
    {
      Stored(status, smallBlind, bigBlind, players, game)
    }

    /** persistFinishedHand: one row update for every player of the hand. */
    method PersistFinished(g: GameState)
      requires SeatsDistinct(g.players)
      modifies this`players
      ensures players == Persisted(old(players), g)
    {
      if g.status != HandFinished {
        return;
      }
      for i := 0 to |g.players|
        invariant |players| == |old(players)|
        invariant forall r :: 0 <= r < |players| ==>
          var k := PositionOf(g.players, old(players)[r].seatNo);
          players[r] == old(players)[r].(chips := if k < i then g.players[k].chips else old(players)[r].chips)
      {
        players := Recorded(players, g.players[i].seatNo, g.players[i].chips);
      }
    }

    /** startFirstHand while no hand is stored. */
    static method StartFirstHand(room: Room, userId: int, deck: seq<Card>) returns (r: Result<Stored, SessionError>)
      requires DistinctInputs(RoomInputs(room.players))
      ensures r == FirstHand(room, userId, deck)
    {
      if room.owner != userId {
        return Err(RoomRefused(NotTheOwner));
      }
      var refusal := NotReadyToStart(room);
      if refusal.Some? {
        return Err(RoomRefused(refusal.value));
      }
      var inputs := RoomInputs(room.players);
      var live := LiveSeats(inputs);
      var setup := HandSetup(room.smallBlind, room.bigBlind, inputs, if live == [] then 0 else live[0], deck);
      if setup.Err? {
        return Err(Refused(setup.error));
      }
      var created := GameTable.Create(setup.value);
      if created.Err? {
        return Err(Refused(created.error));
      }
      r := Ok(Stored(InPlay, room.smallBlind, room.bigBlind, Persisted(room.players, created.value), created.value));
    }

    method StartNextHand(userId: int, deck: seq<Card>) returns (error: Option<SessionError>)
      requires DistinctInputs(Refreshed(players, game.players))
      modifies this`status, this`players, this`game
      ensures userId != owner ==> error == Some(NotOwner)
      ensures userId == owner ==>
        if error == None then NextHand(old(View()), deck) == Ok(View())
          else NextHand(old(View()), deck) == Err(error.value)
      ensures error.Some? ==> View() == old(View())
    {
      if userId != owner {
        return Some(NotOwner);
      }
      if game.status != HandFinished {
        return Some(HandNotFinished);
      }
      var dealer := NextDealerSeat(game.players, game.dealerSeat);
      if dealer == None {
        status := Ended;
        game := game.(status := RoomFinished, turn := None);
        return None;
      }
      var setup := HandSetup(smallBlind, bigBlind, Refreshed(players, game.players), dealer.value, deck);
      if setup.Err? {
        return Some(Refused(setup.error));
      }
      var created := GameTable.Create(setup.value);
      if created.Err? {
        return Some(Refused(created.error));
      }
      PersistFinished(created.value);
      status := InPlay;
      game := created.value;
      error := None;
    }

    method ApplySeatAction(seat: int, actor: Option<int>, move: Move, amount: Option<int>)
        returns (error: Option<SessionError>)
      requires OnAStreet(game) && SeatsDistinct(game.players)
      modifies this`players, this`game
      ensures if error == None then SeatAction(old(View()), seat, actor, move, amount) == Ok(View())
        else SeatAction(old(View()), seat, actor, move, amount) == Err(error.value)
      ensures error.Some? ==> View() == old(View())
    {
      var k := CurrentPlayer(game);
      if k == |game.players| || game.players[k].seatNo != seat {
        return Some(NotThisSeat);
      }
      if actor.Some? {
        if game.players[k].userId != actor {
          return Some(NotYou);
        }
      } else if game.players[k].userId.Some? {
        return Some(NotABot);
      }
      var applied := GameTable.Apply(game, Input(seat, game.players[k].userId, move, amount));
      if applied.Err? {
        return Some(Refused(applied.error));
      }
      PersistFinished(applied.value);
      game := applied.value;
      error := None;
    }

    method ApplyAction(user: int, move: Move, amount: Option<int>) returns (error: Option<SessionError>)
      requires OnAStreet(game) && SeatsDistinct(game.players)
      modifies this`players, this`game
      ensures if error == None then UserAction(old(View()), user, move, amount) == Ok(View())
        else UserAction(old(View()), user, move, amount) == Err(error.value)
      ensures error.Some? ==> View() == old(View())
    {
      var m := MemberAt(players, user);
      if m == |players| {
        return Some(NotARoomMember);
      }
      var k := CurrentPlayer(game);
      if k == |game.players| || game.players[k].seatNo != players[m].seatNo {
        return Some(NotYou);
      }
      error := ApplySeatAction(players[m].seatNo, Some(user), move, amount);
    }
  }
}
