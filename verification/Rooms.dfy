/** apps/api/src/practice-room/practice-room.service.ts: the seat, confirm and
    ready protocol of a practice room before its first hand. */
module Rooms {
  import opened Sequences

  datatype Mode = Friends | Solo

  datatype RoomStatus = Waiting | Ready | InPlay | Ended | Closed

  datatype RoomPlayer = RoomPlayer(seatNo: int, userId: Option<int>, chips: int, chipsSet: bool, confirmed: bool,
      ready: bool)

  datatype Room = Room(
    owner: int,
    mode: Mode,
    playerCount: int,
    smallBlind: int,
    bigBlind: int,
    initialChips: int,
    status: RoomStatus,
    players: seq<RoomPlayer>)

  datatype RoomError =
    | BlindsOutOfOrder | NotAFriendsRoom | CannotJoin | RoomFull | NoSeat | CannotChange | NotAMember
    | ChipsMissing | NotTheOwner | CannotStart | TooFewMembers | TooManyMembers | NotConfirmed | NoChips

  // ---------- createFriendsRoom and joinRoom ----------

  /** A newcomer's row. */
  function Newcomer(seat: int, user: int, chips: int): RoomPlayer {
    RoomPlayer(seat, Some(user), chips, false, false, false)
  }

  function CreateFriendsRoom(user: int, playerCount: int, smallBlind: int, bigBlind: int, chips: int)
      : Result<Room, RoomError> {
    if bigBlind <= smallBlind then Err(BlindsOutOfOrder)
    else Ok(Room(user, Friends, playerCount, smallBlind, bigBlind, chips, Waiting, [Newcomer(1, user, chips)]))
  }

  predicate IsMember(players: seq<RoomPlayer>, user: int) {
    exists i :: 0 <= i < |players| && players[i].userId == Some(user)
  }

  predicate Occupied(players: seq<RoomPlayer>, seat: int) {
    exists i :: 0 <= i < |players| && players[i].seatNo == seat
  }

  /** The first seat from `seat` to `last` nobody sits in. */
  function FirstFreeSeat(players: seq<RoomPlayer>, seat: int, last: int): Option<int>
    decreases last - seat
  {
    if seat > last then None
    else if !Occupied(players, seat) then Some(seat)
    else FirstFreeSeat(players, seat + 1, last)
  }

  function Join(room: Room, user: int): Result<Room, RoomError> {
    if room.mode != Friends then Err(NotAFriendsRoom)
    else if room.status == InPlay || room.status == Ended || room.status == Closed then Err(CannotJoin)
    else if IsMember(room.players, user) then Ok(room)
    else if |room.players| >= room.playerCount then Err(RoomFull)
    else
      var seat := FirstFreeSeat(room.players, 1, room.playerCount);
      if seat == None then Err(NoSeat)
      else Ok(RefreshReadyStatus(room.(players := room.players + [Newcomer(seat.value, user, room.initialChips)])))
  }

  // ---------- confirming, choosing chips, getting ready ----------

  predicate AllConfirmed(players: seq<RoomPlayer>) {
    forall i :: 0 <= i < |players| ==> players[i].confirmed
  }

  predicate AllChosen(players: seq<RoomPlayer>) {
    forall i :: 0 <= i < |players| ==> players[i].chipsSet
  }

  function RefreshReadyStatus(room: Room): Room {
    if room.status == Closed || room.status == InPlay then room
    else room.(status := if |room.players| > 0 && AllConfirmed(room.players) then Ready else Waiting)
  }

  predicate CanChange(status: RoomStatus) {
    status == Waiting || status == Ready
  }

  function WithConfirmed(players: seq<RoomPlayer>, user: int): seq<RoomPlayer> {
    seq(|players|, i requires 0 <= i < |players| =>
      if players[i].userId == Some(user) then players[i].(confirmed := true, ready := true) else players[i])
  }

  /** Everybody has to confirm again; the user's row takes the new stack. */
  function WithChipsChosen(players: seq<RoomPlayer>, user: int, chips: int): seq<RoomPlayer> {
    seq(|players|, i requires 0 <= i < |players| =>
      if players[i].userId == Some(user) then
        players[i].(confirmed := false, ready := false, chips := chips, chipsSet := true)
      else players[i].(confirmed := false, ready := false))
  }

  function WithReady(players: seq<RoomPlayer>, user: int, ready: bool): seq<RoomPlayer> {
    seq(|players|, i requires 0 <= i < |players| =>
      if players[i].userId == Some(user) then players[i].(ready := ready) else players[i])
  }

  function Confirm(room: Room, user: int): Result<Room, RoomError> {
    if !CanChange(room.status) then Err(CannotChange)
    else if !IsMember(room.players, user) then Err(NotAMember)
    else if !AllChosen(room.players) then Err(ChipsMissing)
    else Ok(RefreshReadyStatus(room.(players := WithConfirmed(room.players, user))))
  }

  function SetInitialChips(room: Room, user: int, chips: int): Result<Room, RoomError> {
    if !CanChange(room.status) then Err(CannotChange)
    else if !IsMember(room.players, user) then Err(NotAMember)
    else Ok(RefreshReadyStatus(room.(players := WithChipsChosen(room.players, user, chips))))
  }

  function SetReady(room: Room, user: int, ready: bool): Result<Room, RoomError> {
    if !CanChange(room.status) then Err(CannotChange)
    else if !IsMember(room.players, user) then Err(NotAMember)
    else Ok(RefreshReadyStatus(room.(players := WithReady(room.players, user, ready))))
  }

  function Close(room: Room, user: int): Result<Room, RoomError> {
    if room.owner != user then Err(NotTheOwner) else Ok(room.(status := Closed))
  }

  // ---------- starting ----------

  /** assertRoomReadyToStart: the first check that fails. */
  function NotReadyToStart(room: Room): Option<RoomError> {
    if room.status != Ready && room.status != Waiting then Some(CannotStart)
    else if |room.players| < 2 then Some(TooFewMembers)
    else if |room.players| > room.playerCount then Some(TooManyMembers)
    else if exists i :: 0 <= i < |room.players| && !(room.players[i].confirmed && room.players[i].ready) then
      Some(NotConfirmed)
    else if !(forall i :: 0 <= i < |room.players| ==> room.players[i].chips > 0) then Some(NoChips)
    else None
  }

  /** What startFirstHand does to the room row. */
  function Start(room: Room, user: int): Result<Room, RoomError> {
    if room.owner != user then Err(NotTheOwner)
    else if NotReadyToStart(room).Some? then Err(NotReadyToStart(room).value)
    else Ok(room.(status := InPlay))
  }

  // ---------- requests ----------

  datatype RoomRequest =
    | JoinRoom(user: int)
    | ConfirmChips(user: int)
    | ChooseChips(user: int, chips: int)
    | MarkReady(user: int, ready: bool)
    | CloseRoom(user: int)
    | StartGame(user: int)

  function Serve(room: Room, request: RoomRequest): Result<Room, RoomError> {
    match request
    case JoinRoom(user) => Join(room, user)
    case ConfirmChips(user) => Confirm(room, user)
    case ChooseChips(user, chips) => SetInitialChips(room, user, chips)
    case MarkReady(user, ready) => SetReady(room, user, ready)
    case CloseRoom(user) => Close(room, user)
    case StartGame(user) => Start(room, user)
  }

  // ---------- the stored room ----------

  /** The rows every request reads and rewrites. */
  class StoredRoom {
    const owner: int
    const mode: Mode
    const playerCount: int
    const smallBlind: int
    const bigBlind: int
    const initialChips: int
    var status: RoomStatus
    var players: seq<RoomPlayer>

    constructor (room: Room)
      ensures View() == room
    {
      owner, mode, playerCount := room.owner, room.mode, room.playerCount;
      smallBlind, bigBlind, initialChips := room.smallBlind, room.bigBlind, room.initialChips;
      status, players := room.status, room.players;
    }

    function View(): Room
      reads this
    {
      Room(owner, mode, playerCount, smallBlind, bigBlind, initialChips, status, players)
    }

    method Refresh()
      modifies this`status
      ensures View() == RefreshReadyStatus(old(View()))
    {
      if status == Closed || status == InPlay {
        return;
      }
      var confirmed := |players| > 0 && AllConfirmed(players);
      status := if confirmed then Ready else Waiting;
    }

    method JoinRoom(user: int) returns (error: Option<RoomError>)
      modifies this
      ensures if error == None then Join(old(View()), user) == Ok(View())
        else Join(old(View()), user) == Err(error.value)
      ensures error.Some? ==> View() == old(View())
    {
      if mode != Friends {
        return Some(NotAFriendsRoom);
      }
      if status == InPlay || status == Ended || status == Closed {
        return Some(CannotJoin);
      }
      if IsMember(players, user) {
        return None;
      }
      if |players| >= playerCount {
        return Some(RoomFull);
      }
      var seat := FirstFreeSeat(players, 1, playerCount);
      if seat == None {
        return Some(NoSeat);
      }
      players := players + [Newcomer(seat.value, user, initialChips)];
      Refresh();
      error := None;
    }

    method ConfirmInitialChips(user: int) returns (error: Option<RoomError>)
      modifies this
      ensures if error == None then Confirm(old(View()), user) == Ok(View())
        else Confirm(old(View()), user) == Err(error.value)
      ensures error.Some? ==> View() == old(View())
    {
      if !CanChange(status) {
        return Some(CannotChange);
      }
      if !IsMember(players, user) {
        return Some(NotAMember);
      }
      if !AllChosen(players) {
        return Some(ChipsMissing);
      }
      for i := 0 to |players|
        modifies this`players
        invariant |players| == |old(players)|
        invariant forall k :: 0 <= k < |players| ==>
          players[k] == if k < i then WithConfirmed(old(players), user)[k] else old(players)[k]
      {
        if players[i].userId == Some(user) {
          players := players[i := players[i].(confirmed := true, ready := true)];
        }
      }
      assert players == WithConfirmed(old(players), user);
      Refresh();
      error := None;
    }

    method ChooseInitialChips(user: int, chips: int) returns (error: Option<RoomError>)
      modifies this
      ensures if error == None then SetInitialChips(old(View()), user, chips) == Ok(View())
        else SetInitialChips(old(View()), user, chips) == Err(error.value)
      ensures error.Some? ==> View() == old(View())
    {
      if !CanChange(status) {
        return Some(CannotChange);
      }
      if !IsMember(players, user) {
        return Some(NotAMember);
      }
      for i := 0 to |players|
        modifies this`players
        invariant |players| == |old(players)|
        invariant forall k :: 0 <= k < |players| ==>
          players[k] == if k < i then old(players)[k].(confirmed := false, ready := false) else old(players)[k]
      {
        players := players[i := players[i].(confirmed := false, ready := false)];
      }
      for i := 0 to |players|
        modifies this`players
        invariant |players| == |old(players)|
        invariant forall k :: 0 <= k < |players| ==>
          players[k] == if k < i then WithChipsChosen(old(players), user, chips)[k]
            else old(players)[k].(confirmed := false, ready := false)
      {
        if players[i].userId == Some(user) {
          players := players[i := players[i].(chips := chips, chipsSet := true)];
        }
      }
      assert players == WithChipsChosen(old(players), user, chips);
      Refresh();
      error := None;
    }

    method MarkReady(user: int, ready: bool) returns (error: Option<RoomError>)
      modifies this
      ensures if error == None then SetReady(old(View()), user, ready) == Ok(View())
        else SetReady(old(View()), user, ready) == Err(error.value)
      ensures error.Some? ==> View() == old(View())
    {
      if !CanChange(status) {
        return Some(CannotChange);
      }
      if !IsMember(players, user) {
        return Some(NotAMember);
      }
      for i := 0 to |players|
        modifies this`players
        invariant |players| == |old(players)|
        invariant forall k :: 0 <= k < |players| ==>
          players[k] == if k < i then WithReady(old(players), user, ready)[k] else old(players)[k]
      {
        if players[i].userId == Some(user) {
          players := players[i := players[i].(ready := ready)];
        }
      }
      assert players == WithReady(old(players), user, ready);
      Refresh();
      error := None;
    }
  }
}
