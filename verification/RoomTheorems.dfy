/** The start protocol of a friends room over any sequence of requests. */
module RoomTheorems {
  import opened Sequences
  import opened Rooms

  // ---------- seats ----------

  /** A friends room's rows: different users in different seats, all within the room. */
  ghost predicate RoomOk(room: Room) {
    && SeatsDiffer(room.players) && UsersDiffer(room.players)
    && (forall i :: 0 <= i < |room.players| ==> RowOk(room, room.players[i]))
    && StatusFits(room)
  }

  ghost predicate SeatsDiffer(players: seq<RoomPlayer>) {
    forall i, j :: 0 <= i < j < |players| ==> players[i].seatNo != players[j].seatNo
  }

  ghost predicate UsersDiffer(players: seq<RoomPlayer>) {
    forall i, j :: 0 <= i < j < |players| ==> players[i].userId != players[j].userId
  }

  /** Before the game the room is READY exactly when everybody has confirmed. */
  ghost predicate StatusFits(room: Room) {
    CanChange(room.status) ==> (room.status == Ready <==> |room.players| > 0 && AllConfirmed(room.players))
  }

  ghost predicate RowOk(room: Room, p: RoomPlayer) {
    && 1 <= p.seatNo <= room.playerCount && p.userId.Some?
    && (p.confirmed ==> p.chipsSet)
  }

  lemma {:induction false} FreeSeatIsFree(players: seq<RoomPlayer>, seat: int, last: int)
    ensures var r := FirstFreeSeat(players, seat, last);
      && (r.Some? ==> seat <= r.value <= last && !Occupied(players, r.value))
      && (r == None ==> forall s :: seat <= s <= last ==> Occupied(players, s))
    decreases last - seat
  {
    if seat <= last && Occupied(players, seat) {
      FreeSeatIsFree(players, seat + 1, last);
    }
  }

  /** If the seats from `first` to `last` are all taken, there are at least that many rows. */
  lemma {:induction false} TakenSeatsNeedRows(players: seq<RoomPlayer>, first: int, last: int)
    requires forall s :: first <= s <= last ==> Occupied(players, s)
    ensures last - first + 1 <= |players|
    decreases last - first
  {
    if first <= last {
      assert Occupied(players, last);
      var k :| 0 <= k < |players| && players[k].seatNo == last;
      var rest := players[..k] + players[k + 1..];
      forall s | first <= s <= last - 1 ensures Occupied(rest, s) {
        assert Occupied(players, s);
        var i :| 0 <= i < |players| && players[i].seatNo == s;
        assert rest[if i < k then i else i - 1].seatNo == s;
      }
      TakenSeatsNeedRows(rest, first, last - 1);
    }
  }

  /** joinRoom's "no seat" answer never happens: a room that is not full has a free seat. */
  lemma SeatAlwaysFound(room: Room, user: int)
    ensures Join(room, user) != Err(NoSeat)
  {
    FreeSeatIsFree(room.players, 1, room.playerCount);
    if FirstFreeSeat(room.players, 1, room.playerCount) == None {
      TakenSeatsNeedRows(room.players, 1, room.playerCount);
    }
  }

  lemma JoinKeepsRoom(room: Room, user: int)
    requires RoomOk(room) && Join(room, user).Ok?
    ensures RoomOk(Join(room, user).value)
  {
    FreeSeatIsFree(room.players, 1, room.playerCount);
    if !IsMember(room.players, user) {
      RefreshFits(room.(players := Join(room, user).value.players));
    }
  }

  lemma RefreshFits(room: Room)
    ensures StatusFits(RefreshReadyStatus(room))
  {
  }

  /** Rows rewritten in place, each by its own rule. */
  ghost predicate RowsRewritten(room: Room, after: Room) {
    && |after.players| == |room.players| && after.playerCount == room.playerCount
    && forall i :: 0 <= i < |room.players| ==> RowRewritten(room.players[i], after.players[i])
  }

  ghost predicate RowRewritten(p: RoomPlayer, q: RoomPlayer) {
    q.seatNo == p.seatNo && q.userId == p.userId && (p.chipsSet ==> q.chipsSet) && (q.confirmed ==> q.chipsSet)
  }

  lemma RewriteKeepsRoom(room: Room, after: Room)
    requires RoomOk(room) && RowsRewritten(room, after) && StatusFits(after)
    ensures RoomOk(after)
  {
    forall i, j | 0 <= i < j < |after.players|
      ensures after.players[i].seatNo != after.players[j].seatNo && after.players[i].userId != after.players[j].userId
    {
      assert RowRewritten(room.players[i], after.players[i]) && RowRewritten(room.players[j], after.players[j]);
    }
    forall i | 0 <= i < |after.players| ensures RowOk(after, after.players[i]) {
      assert RowOk(room, room.players[i]) && RowRewritten(room.players[i], after.players[i]);
    }
  }

  lemma ServeRewrites(room: Room, request: RoomRequest)
    requires RoomOk(room) && Serve(room, request).Ok? && !request.JoinRoom?
    ensures RowsRewritten(room, Serve(room, request).value) && StatusFits(Serve(room, request).value)
  {
    var after := Serve(room, request).value;
    forall i | 0 <= i < |room.players| ensures RowRewritten(room.players[i], after.players[i]) {
      assert RowOk(room, room.players[i]);
    }
  }

  /** Every accepted request leaves different users in different seats within the room. */
  lemma ServeKeepsRoom(room: Room, request: RoomRequest)
    requires RoomOk(room) && Serve(room, request).Ok?
    ensures RoomOk(Serve(room, request).value)
  {
    if request.JoinRoom? {
      JoinKeepsRoom(room, request.user);
    } else {
      ServeRewrites(room, request);
      RewriteKeepsRoom(room, Serve(room, request).value);
    }
  }

  // ---------- what happened in a run ----------

  datatype Event =
    | Joined(user: int)
    | ChipsChosen(user: int, chips: int)
    | Confirmed(user: int)
    | MarkedReady(user: int, ready: bool)
    | Other

  /** What a request did to the room. */
  function EventOf(room: Room, request: RoomRequest): Event {
    if Serve(room, request).Err? then Other
    else match request
      case JoinRoom(user) => if IsMember(room.players, user) then Other else Joined(user)
      case ChooseChips(user, chips) => ChipsChosen(user, chips)
      case ConfirmChips(user) => Confirmed(user)
      case MarkReady(user, ready) => MarkedReady(user, ready)
      case _ => Other
  }

  function After(room: Room, request: RoomRequest): Room {
    var r := Serve(room, request);
    if r.Ok? then r.value else room
  }

  function RoomRun(room: Room, requests: seq<RoomRequest>): Room {
    if requests == [] then room
    else After(RoomRun(room, requests[..|requests| - 1]), requests[|requests| - 1])
  }

  /** One event a request, in the order of the requests. */
  function Log(room: Room, requests: seq<RoomRequest>): seq<Event> {
    if requests == [] then []
    else
      var n := |requests| - 1;
      Log(room, requests[..n]) + [EventOf(RoomRun(room, requests[..n]), requests[n])]
  }

  // ---------- the protocol ----------

  ghost predicate NoChipsChosenAfter(log: seq<Event>, c: nat) {
    forall j :: c < j < |log| ==> !log[j].ChipsChosen?
  }

  /** The user confirmed after the last change of chips by anyone. */
  ghost predicate ConfirmedSince(log: seq<Event>, user: int) {
    exists c :: 0 <= c < |log| && log[c] == Confirmed(user) && NoChipsChosenAfter(log, c)
  }

  ghost predicate ChoseAfter(log: seq<Event>, user: int, j: nat) {
    exists s :: j < s < |log| && log[s].ChipsChosen? && log[s].user == user
  }

  ghost predicate ConfirmationsFit(log: seq<Event>, players: seq<RoomPlayer>) {
    forall i :: 0 <= i < |players| && players[i].confirmed && players[i].userId.Some? ==>
      ConfirmedSince(log, players[i].userId.value)
  }

  /** Whoever joined at event j is in the room, and has chosen chips only if that came later. */
  ghost predicate JoinFits(log: seq<Event>, players: seq<RoomPlayer>, j: nat)
    requires j < |log|
  {
    log[j].Joined? ==>
      IsMember(players, log[j].user) &&
      forall i :: 0 <= i < |players| && players[i].userId == Some(log[j].user) && players[i].chipsSet ==>
        ChoseAfter(log, log[j].user, j)
  }

  ghost predicate JoinsFit(log: seq<Event>, players: seq<RoomPlayer>) {
    forall j :: 0 <= j < |log| ==> JoinFits(log, players, j)
  }

  lemma ConfirmationsKept(log: seq<Event>, room: Room, request: RoomRequest)
    requires RoomOk(room) && ConfirmationsFit(log, room.players)
    ensures ConfirmationsFit(log + [EventOf(room, request)], After(room, request).players)
  {
    var e := EventOf(room, request);
    var longer, after := log + [e], After(room, request).players;
    forall i | 0 <= i < |after| && after[i].confirmed && after[i].userId.Some?
      ensures ConfirmedSince(longer, after[i].userId.value)
    {
      if e == Confirmed(after[i].userId.value) {
        assert longer[|log|] == e && NoChipsChosenAfter(longer, |log|);
      } else {
        assert i < |room.players| && room.players[i].confirmed && room.players[i].userId == after[i].userId;
        var c :| 0 <= c < |log| && log[c] == Confirmed(after[i].userId.value) && NoChipsChosenAfter(log, c);
        assert longer[c] == log[c] && NoChipsChosenAfter(longer, c);
      }
    }
  }

  lemma JoinsKept(log: seq<Event>, room: Room, request: RoomRequest)
    requires RoomOk(room) && JoinsFit(log, room.players)
    ensures JoinsFit(log + [EventOf(room, request)], After(room, request).players)
  {
    var e := EventOf(room, request);
    var longer, after := log + [e], After(room, request).players;
    forall j | 0 <= j < |longer| ensures JoinFits(longer, after, j) {
      if j < |log| && log[j].Joined? {
        assert JoinFits(log, room.players, j);
        OldJoinKept(log, room, request, j);
      } else if j == |log| && e.Joined? {
        NewJoinFits(log, room, request);
      }
    }
  }

  lemma OldJoinKept(log: seq<Event>, room: Room, request: RoomRequest, j: nat)
    requires RoomOk(room) && j < |log| && log[j].Joined? && JoinFits(log, room.players, j)
    ensures JoinFits(log + [EventOf(room, request)], After(room, request).players, j)
  {
    var e := EventOf(room, request);
    var user, longer, after := log[j].user, log + [e], After(room, request).players;
    var k :| 0 <= k < |room.players| && room.players[k].userId == Some(user);
    assert after[k].userId == Some(user);
    forall i | 0 <= i < |after| && after[i].userId == Some(user) && after[i].chipsSet
      ensures ChoseAfter(longer, user, j)
    {
      if e.ChipsChosen? && e.user == user {
        assert longer[|log|] == e;
      } else {
        assert i < |room.players| && room.players[i].chipsSet;
        var s :| j < s < |log| && log[s].ChipsChosen? && log[s].user == user;
        assert longer[s] == log[s];
      }
    }
  }

  lemma NewJoinFits(log: seq<Event>, room: Room, request: RoomRequest)
    requires RoomOk(room) && EventOf(room, request).Joined?
    ensures JoinFits(log + [EventOf(room, request)], After(room, request).players, |log|)
  {
    var after := After(room, request).players;
    assert after[|room.players|].userId == Some(request.user);
  }

  /** A room in which nobody has confirmed yet, as createFriendsRoom makes it. */
  ghost predicate Unconfirmed(room: Room) {
    RoomOk(room) && forall i :: 0 <= i < |room.players| ==> !room.players[i].confirmed
  }

  lemma {:induction false} RunFits(room: Room, requests: seq<RoomRequest>)
    requires Unconfirmed(room)
    ensures RoomOk(RoomRun(room, requests))
    ensures ConfirmationsFit(Log(room, requests), RoomRun(room, requests).players)
    ensures JoinsFit(Log(room, requests), RoomRun(room, requests).players)
  {
    if requests != [] {
      var n := |requests| - 1;
      var before, log := RoomRun(room, requests[..n]), Log(room, requests[..n]);
      RunFits(room, requests[..n]);
      ConfirmationsKept(log, before, requests[n]);
      JoinsKept(log, before, requests[n]);
      if Serve(before, requests[n]).Ok? {
        ServeKeepsRoom(before, requests[n]);
      }
    }
  }

  lemma CreatedIsOk(user: int, playerCount: int, smallBlind: int, bigBlind: int, chips: int)
    requires playerCount >= 1 && CreateFriendsRoom(user, playerCount, smallBlind, bigBlind, chips).Ok?
    ensures Unconfirmed(CreateFriendsRoom(user, playerCount, smallBlind, bigBlind, chips).value)
  {
    assert !CreateFriendsRoom(user, playerCount, smallBlind, bigBlind, chips).value.players[0].confirmed;
  }

  /** Event c is the member's agreement to the table as it is: no chips were chosen and nobody joined after it. */
  ghost predicate AgreedLast(log: seq<Event>, user: int, c: nat) {
    c < |log| && log[c] == Confirmed(user) && forall j :: c < j < |log| ==> !log[j].ChipsChosen? && !log[j].Joined?
  }

  /** A start that succeeds after any run of requests on a new friends room finds 2 to playerCount members in different
      seats, each with chips, and each having confirmed after the last change of chips by anyone and after the last
      join. */
  lemma StartMeansAgreement(room: Room, requests: seq<RoomRequest>, owner: int)
    requires Unconfirmed(room)
    requires Start(RoomRun(room, requests), owner).Ok?
    ensures var r := RoomRun(room, requests);
      && RoomOk(r) && owner == r.owner && 2 <= |r.players| <= r.playerCount
      && (forall i :: 0 <= i < |r.players| ==> StartsAgreed(Log(room, requests), r.players[i]))
  {
    RunFits(room, requests);
    var r, log := RoomRun(room, requests), Log(room, requests);
    forall i | 0 <= i < |r.players| ensures StartsAgreed(log, r.players[i]) {
      assert RowOk(r, r.players[i]);
      assert ConfirmedSince(log, r.players[i].userId.value);
      var c :| 0 <= c < |log| && log[c] == Confirmed(r.players[i].userId.value) && NoChipsChosenAfter(log, c);
      forall j | c < j < |log| ensures !log[j].ChipsChosen? && !log[j].Joined? {
        NobodyJoinedAfter(r, log, c, j);
      }
      assert AgreedLast(log, r.players[i].userId.value, c);
    }
  }

  ghost predicate StartsAgreed(log: seq<Event>, p: RoomPlayer) {
    p.userId.Some? && p.chips > 0 && p.ready && exists c: nat :: AgreedLast(log, p.userId.value, c)
  }

  lemma JoinedThenChose(r: Room, log: seq<Event>, j: nat)
    requires RoomOk(r) && AllConfirmed(r.players) && JoinsFit(log, r.players) && j < |log| && log[j].Joined?
    ensures ChoseAfter(log, log[j].user, j)
  {
    assert JoinFits(log, r.players, j);
    var k :| 0 <= k < |r.players| && r.players[k].userId == Some(log[j].user);
    assert RowOk(r, r.players[k]);
  }

  lemma NobodyJoinedAfter(r: Room, log: seq<Event>, c: nat, j: nat)
    requires RoomOk(r) && AllConfirmed(r.players) && JoinsFit(log, r.players)
    requires c < j < |log| && NoChipsChosenAfter(log, c)
    ensures !log[j].Joined?
  {
    if log[j].Joined? {
      JoinedThenChose(r, log, j);
      assert false;
    }
  }

  // ---------- what the rows hold ----------

  /** Where a user stands: the stack, whether it was chosen, and the two flags. */
  datatype Standing = Standing(chips: int, chosen: bool, confirmed: bool, ready: bool)

  /** How a user stands after these events: the last stack the user chose, or the room's own when there is none;
      confirmed by the user's confirmation until anybody chooses chips; ready by confirmation or on the user's word,
      until anybody chooses chips. */
  function StandingOf(log: seq<Event>, user: int, initial: int): Standing {
    if log == [] then Standing(initial, false, false, false)
    else
      var was := StandingOf(log[..|log| - 1], user, initial);
      match log[|log| - 1]
      case ChipsChosen(who, chips) =>
        if who == user then Standing(chips, true, false, false) else was.(confirmed := false, ready := false)
      case Confirmed(who) => if who == user then was.(confirmed := true, ready := true) else was
      case MarkedReady(who, ready) => if who == user then was.(ready := ready) else was
      case Joined(_) => was
      case Other => was
  }

  function RowStanding(p: RoomPlayer): Standing {
    Standing(p.chips, p.chipsSet, p.confirmed, p.ready)
  }

  /** Every member's row shows how the member stands; nobody else has done anything yet. */
  ghost predicate RowsShow(log: seq<Event>, players: seq<RoomPlayer>, initial: int) {
    && (forall i :: 0 <= i < |players| && players[i].userId.Some? ==>
      RowStanding(players[i]) == StandingOf(log, players[i].userId.value, initial))
    && (forall user :: !IsMember(players, user) ==>
      StandingOf(log, user, initial) == Standing(initial, false, false, false))
  }

  /** A new friends room: its rows are as newcomers get them. */
  ghost predicate NewRoom(room: Room) {
    && RoomOk(room)
    && forall i :: 0 <= i < |room.players| ==>
      RowStanding(room.players[i]) == Standing(room.initialChips, false, false, false)
  }

  lemma LogGrows(log: seq<Event>, e: Event, user: int, initial: int)
    ensures (log + [e])[..|log|] == log && (log + [e])[|log|] == e
    ensures !e.ChipsChosen? && !e.Confirmed? && !e.MarkedReady? ==>
      StandingOf(log + [e], user, initial) == StandingOf(log, user, initial)
  {
  }

  lemma MemberShows(log: seq<Event>, room: Room, request: RoomRequest, i: nat)
    requires RoomOk(room) && RowsShow(log, room.players, room.initialChips)
    requires i < |After(room, request).players|
    ensures var p := After(room, request).players[i]; p.userId.Some? ==>
      RowStanding(p) == StandingOf(log + [EventOf(room, request)], p.userId.value, room.initialChips)
  {
    var p, e := After(room, request).players[i], EventOf(room, request);
    if p.userId.Some? {
      LogGrows(log, e, p.userId.value, room.initialChips);
      if i < |room.players| {
        assert room.players[i].userId == p.userId;
      } else {
        assert request.JoinRoom? && !IsMember(room.players, request.user);
      }
    }
  }

  lemma StrangerShows(log: seq<Event>, room: Room, request: RoomRequest, user: int)
    requires RoomOk(room) && RowsShow(log, room.players, room.initialChips)
    requires !IsMember(After(room, request).players, user)
    ensures StandingOf(log + [EventOf(room, request)], user, room.initialChips) ==
      Standing(room.initialChips, false, false, false)
  {
    var e := EventOf(room, request);
    LogGrows(log, e, user, room.initialChips);
    if IsMember(room.players, user) {
      MembersStay(room, request, user);
    }
  }

  lemma MembersStay(room: Room, request: RoomRequest, user: int)
    requires RoomOk(room) && IsMember(room.players, user)
    ensures IsMember(After(room, request).players, user)
  {
    var k :| 0 <= k < |room.players| && room.players[k].userId == Some(user);
    assert After(room, request).players[k].userId == Some(user);
  }

  lemma RowsKeepShowing(log: seq<Event>, room: Room, request: RoomRequest)
    requires RoomOk(room) && RowsShow(log, room.players, room.initialChips)
    ensures RowsShow(log + [EventOf(room, request)], After(room, request).players, room.initialChips)
    ensures After(room, request).initialChips == room.initialChips
  {
    var after := After(room, request).players;
    forall i | 0 <= i < |after| && after[i].userId.Some?
      ensures RowStanding(after[i]) ==
        StandingOf(log + [EventOf(room, request)], after[i].userId.value, room.initialChips)
    {
      MemberShows(log, room, request, i);
    }
    forall user | !IsMember(after, user)
      ensures StandingOf(log + [EventOf(room, request)], user, room.initialChips) ==
        Standing(room.initialChips, false, false, false)
    {
      StrangerShows(log, room, request, user);
    }
  }

  /** Over any run of a new friends room every member's row is what the events say: above all, the stack is the one the
      member last chose, or the room's initial stack. */
  lemma {:induction false} RunShows(room: Room, requests: seq<RoomRequest>)
    requires NewRoom(room)
    ensures RoomOk(RoomRun(room, requests)) && RoomRun(room, requests).initialChips == room.initialChips
    ensures RowsShow(Log(room, requests), RoomRun(room, requests).players, room.initialChips)
  {
    if requests != [] {
      var n := |requests| - 1;
      RunShows(room, requests[..n]);
      RowsKeepShowing(Log(room, requests[..n]), RoomRun(room, requests[..n]), requests[n]);
      if Serve(RoomRun(room, requests[..n]), requests[n]).Ok? {
        ServeKeepsRoom(RoomRun(room, requests[..n]), requests[n]);
      }
    }
  }

  /** The row a newcomer gets: the lowest seat nobody sits in, with the room's initial stack; the other rows stay. */
  lemma JoinSeatsLowest(room: Room, user: int)
    requires RoomOk(room) && !IsMember(room.players, user) && Join(room, user).Ok?
    ensures var after := Join(room, user).value.players; var row := after[|after| - 1];
      && |after| == |room.players| + 1 && after[..|room.players|] == room.players
      && row == RoomPlayer(row.seatNo, Some(user), room.initialChips, false, false, false)
      && 1 <= row.seatNo <= room.playerCount && !Occupied(room.players, row.seatNo)
      && forall seat :: 1 <= seat < row.seatNo ==> Occupied(room.players, seat)
  {
    FreeSeatIsFree(room.players, 1, room.playerCount);
    LowerSeatsTaken(room.players, 1, room.playerCount);
  }

  lemma {:induction false} LowerSeatsTaken(players: seq<RoomPlayer>, seat: int, last: int)
    ensures var r := FirstFreeSeat(players, seat, last);
      r.Some? ==> forall s :: seat <= s < r.value ==> Occupied(players, s)
    decreases last - seat
  {
    if seat <= last && Occupied(players, seat) {
      LowerSeatsTaken(players, seat + 1, last);
    }
  }

  /** createFriendsRoom makes a new room with its owner in seat 1. */
  lemma CreatedIsNew(user: int, playerCount: int, smallBlind: int, bigBlind: int, chips: int)
    requires playerCount >= 1
    ensures var r := CreateFriendsRoom(user, playerCount, smallBlind, bigBlind, chips);
      && (r.Ok? <==> smallBlind < bigBlind)
      && (r.Ok? ==> (
        && NewRoom(r.value) && r.value.owner == user && r.value.initialChips == chips
        && r.value.playerCount == playerCount && r.value.smallBlind == smallBlind && r.value.bigBlind == bigBlind
        && |r.value.players| == 1 && r.value.players[0].seatNo == 1 && r.value.players[0].userId == Some(user)))
  {
    if smallBlind < bigBlind {
      CreatedIsOk(user, playerCount, smallBlind, bigBlind, chips);
    }
  }

  // ---------- which requests go through ----------

  /** What a friends room asks of each request. */
  predicate Admits(room: Room, request: RoomRequest) {
    match request
    case JoinRoom(user) =>
      room.mode == Friends && CanChange(room.status)
      && (IsMember(room.players, user) || |room.players| < room.playerCount)
    case ConfirmChips(user) => CanChange(room.status) && IsMember(room.players, user) && AllChosen(room.players)
    case ChooseChips(user, _) => CanChange(room.status) && IsMember(room.players, user)
    case MarkReady(user, _) => CanChange(room.status) && IsMember(room.players, user)
    case CloseRoom(user) => user == room.owner
    case StartGame(user) =>
      user == room.owner && room.status == Ready && 2 <= |room.players| <= room.playerCount
      && forall i :: 0 <= i < |room.players| ==> room.players[i].ready && room.players[i].chips > 0
  }

  lemma StartsWhenReady(room: Room, user: int)
    requires RoomOk(room)
    ensures Start(room, user).Ok? <==> Admits(room, StartGame(user))
  {
  }

  /** Requests go through exactly when admitted; starting puts the room in play, closing closes it, and neither touches
      a row. No request changes the owner, the size, the blinds or the initial stack. */
  lemma ServedIff(room: Room, request: RoomRequest)
    requires RoomOk(room)
    ensures Serve(room, request).Ok? <==> Admits(room, request)
    ensures var after := After(room, request);
      && after == room.(status := after.status, players := after.players)
      && (Serve(room, request).Ok? && request.StartGame? ==> after.status == InPlay && after.players == room.players)
      && (Serve(room, request).Ok? && request.CloseRoom? ==> after.status == Closed && after.players == room.players)
  {
    if request.JoinRoom? {
      SeatAlwaysFound(room, request.user);
    }
    if request.StartGame? {
      StartsWhenReady(room, request.user);
    }
  }

  /** Once a game has started or the room was closed, no requests change a row any more; all that can still happen is
      that the owner closes the room. */
  lemma {:induction false} SettledRoomStays(room: Room, requests: seq<RoomRequest>)
    requires RoomOk(room) && !CanChange(room.status)
    ensures var r := RoomRun(room, requests); r == room.(status := r.status)
    ensures RoomRun(room, requests).status == room.status || RoomRun(room, requests).status == Closed
  {
    if requests != [] {
      var n := |requests| - 1;
      SettledRoomStays(room, requests[..n]);
      ServedIff(RoomRun(room, requests[..n]), requests[n]);
    }
  }

  // ---------- a room that gets started ----------

  function UserOf(room: Room, i: nat): int
    requires i < |room.players|
  {
    room.players[i].userId.GetOr(0)
  }

  /** The first j members choose their stacks. */
  function Choices(room: Room, chips: seq<int>, j: nat): seq<RoomRequest>
    requires j <= |chips| == |room.players|
  {
    if j == 0 then [] else Choices(room, chips, j - 1) + [ChooseChips(UserOf(room, j - 1), chips[j - 1])]
  }

  /** The first j members confirm. */
  function Agreements(room: Room, j: nat): seq<RoomRequest>
    requires j <= |room.players|
  {
    if j == 0 then [] else Agreements(room, j - 1) + [ConfirmChips(UserOf(room, j - 1))]
  }

  /** The room after the first j members have chosen: nobody is confirmed or ready any more. */
  function Chosen(room: Room, chips: seq<int>, j: nat): Room
    requires j <= |chips| == |room.players|
  {
    if j == 0 then room
    else room.(status := Waiting, players := seq(|chips|, i requires 0 <= i < |chips| =>
      if i < j then room.players[i].(chips := chips[i], chipsSet := true, confirmed := false, ready := false)
      else room.players[i].(confirmed := false, ready := false)))
  }

  /** The room after everybody has chosen and the first j members have confirmed. */
  function Agreed(room: Room, chips: seq<int>, j: nat): Room
    requires j <= |chips| == |room.players|
  {
    room.(status := if j == |chips| then Ready else Waiting, players := seq(|chips|, i requires 0 <= i < |chips| =>
      RoomPlayer(room.players[i].seatNo, room.players[i].userId, chips[i], true, i < j, i < j)))
  }

  lemma UserIsIn(room: Room, j: nat)
    requires RoomOk(room) && j < |room.players|
    ensures forall i :: 0 <= i < |room.players| ==> (room.players[i].userId == Some(UserOf(room, j)) <==> i == j)
  {
    assert RowOk(room, room.players[j]);
    forall i | 0 <= i < |room.players| && i != j ensures room.players[i].userId != room.players[j].userId {
      assert room.players[if i < j then i else j].userId != room.players[if i < j then j else i].userId;
    }
  }

  lemma ChoiceMade(room: Room, chips: seq<int>, j: nat)
    requires RoomOk(room) && CanChange(room.status) && j < |chips| == |room.players|
    ensures After(Chosen(room, chips, j), ChooseChips(UserOf(room, j), chips[j])) == Chosen(room, chips, j + 1)
  {
    var before, after := Chosen(room, chips, j), Chosen(room, chips, j + 1);
    UserIsIn(room, j);
    assert before.players[j].userId == Some(UserOf(room, j));
    assert WithChipsChosen(before.players, UserOf(room, j), chips[j]) == after.players;
    assert !after.players[0].confirmed;
  }

  lemma AgreementMade(room: Room, chips: seq<int>, j: nat)
    requires RoomOk(room) && CanChange(room.status) && j < |chips| == |room.players|
    ensures After(Agreed(room, chips, j), ConfirmChips(UserOf(room, j))) == Agreed(room, chips, j + 1)
  {
    var before, after := Agreed(room, chips, j), Agreed(room, chips, j + 1);
    UserIsIn(room, j);
    assert before.players[j].userId == Some(UserOf(room, j));
    assert WithConfirmed(before.players, UserOf(room, j)) == after.players;
    assert j + 1 < |chips| ==> !after.players[j + 1].confirmed;
  }

  lemma {:induction false} ChoicesMade(room: Room, chips: seq<int>, j: nat)
    requires RoomOk(room) && CanChange(room.status) && j <= |chips| == |room.players|
    ensures RoomRun(room, Choices(room, chips, j)) == Chosen(room, chips, j)
  {
    if j > 0 {
      ChoicesMade(room, chips, j - 1);
      var all := Choices(room, chips, j);
      assert all[..|all| - 1] == Choices(room, chips, j - 1);
      ChoiceMade(room, chips, j - 1);
    }
  }

  lemma {:induction false} AgreementsMade(room: Room, chips: seq<int>, j: nat)
    requires RoomOk(room) && CanChange(room.status) && 0 < |chips| == |room.players| && j <= |chips|
    ensures RoomRun(Agreed(room, chips, 0), Agreements(room, j)) == Agreed(room, chips, j)
  {
    if j > 0 {
      AgreementsMade(room, chips, j - 1);
      var all := Agreements(room, j);
      assert all[..|all| - 1] == Agreements(room, j - 1);
      AgreementMade(room, chips, j - 1);
    }
  }

  lemma {:induction false} RunSplits(room: Room, a: seq<RoomRequest>, b: seq<RoomRequest>)
    ensures RoomRun(room, a + b) == RoomRun(RoomRun(room, a), b)
  {
    if b == [] {
      assert a + b == a;
    } else {
      RunSplits(room, a, b[..|b| - 1]);
      assert (a + b)[..|a + b| - 1] == a + b[..|b| - 1];
    }
  }

  lemma RunJoins(room: Room, a: seq<RoomRequest>, b: seq<RoomRequest>, mid: Room, end: Room)
    requires RoomRun(room, a) == mid && RoomRun(mid, b) == end
    ensures RoomRun(room, a + b) == end
  {
    RunSplits(room, a, b);
  }

  lemma AllChose(room: Room, chips: seq<int>)
    requires RoomOk(room) && CanChange(room.status) && 0 < |chips| == |room.players|
    ensures RoomRun(room, Choices(room, chips, |chips|)) == Agreed(room, chips, 0)
  {
    ChoicesMade(room, chips, |chips|);
    assert Chosen(room, chips, |chips|).players == Agreed(room, chips, 0).players;
  }

  lemma AllAgreed(room: Room, chips: seq<int>)
    requires RoomOk(room) && CanChange(room.status) && 0 < |chips| == |room.players|
    ensures RoomRun(Agreed(room, chips, 0), Agreements(room, |chips|)) == Agreed(room, chips, |chips|)
  {
    AgreementsMade(room, chips, |chips|);
  }

  lemma AgreedCanStart(room: Room, chips: seq<int>)
    requires |chips| == |room.players| && 2 <= |room.players| <= room.playerCount
    requires forall i :: 0 <= i < |chips| ==> chips[i] > 0
    ensures Start(Agreed(room, chips, |chips|), room.owner).Ok?
  {
  }

  /** Two or more members who choose stacks and then all confirm leave the room READY with exactly those stacks, and
      it can be started. */
  lemma AgreementStarts(room: Room, chips: seq<int>)
    requires RoomOk(room) && CanChange(room.status) && |chips| == |room.players|
    requires 2 <= |room.players| <= room.playerCount && forall i :: 0 <= i < |chips| ==> chips[i] > 0
    ensures RoomRun(room, Choices(room, chips, |chips|) + Agreements(room, |chips|)) == Agreed(room, chips, |chips|)
    ensures Start(Agreed(room, chips, |chips|), room.owner).Ok?
  {
    AllChose(room, chips);
    AllAgreed(room, chips);
    RunJoins(room, Choices(room, chips, |chips|), Agreements(room, |chips|), Agreed(room, chips, 0),
      Agreed(room, chips, |chips|));
    AgreedCanStart(room, chips);
  }
}
