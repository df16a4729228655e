/** From hand to hand: stacks carry over, the button moves, and the table never
    gains chips. */
module SessionTheorems {
  import opened Sequences
  import opened Deck
  import opened Engine
  import opened TurnOrder
  import opened HandRuns
  import opened HandStart
  import opened Rooms
  import opened Session

  // ---------- who still has chips ----------

  lemma {:induction false} LiveContents(players: seq<Player>, seat: int)
    ensures seat in SeatsWithChips(players) <==>
      exists k :: 0 <= k < |players| && players[k].seatNo == seat && players[k].chips > 0
  {
    if players != [] {
      var n := |players| - 1;
      var rest := players[..n];
      LiveContents(rest, seat);
      if k :| 0 <= k < |players| && players[k].seatNo == seat && players[k].chips > 0 {
        assert k < n ==> rest[k].seatNo == seat && rest[k].chips > 0;
      }
    }
  }

  lemma {:induction false} LiveAscends(players: seq<Player>)
    requires SeatsAscend(players)
    ensures StrictlyAscending(SeatsWithChips(players)) && |SeatsWithChips(players)| <= |players|
  {
    if players != [] {
      var n := |players| - 1;
      var rest := SeatsWithChips(players[..n]);
      LiveAscends(players[..n]);
      forall i | 0 <= i < |rest| ensures rest[i] < players[n].seatNo {
        assert rest[i] in rest;
        LiveContents(players[..n], rest[i]);
        var k :| 0 <= k < n && players[..n][k].seatNo == rest[i];
        assert players[k].seatNo < players[n].seatNo;
      }
    }
  }

  // ---------- the button ----------

  /** The first live seat clockwise of a seat, live or not. */
  function FirstLiveAfter(live: seq<int>, seat: int): int
    requires live != []
  {
    FirstGreater(live, seat, live[0])
  }

  lemma {:induction false} FirstGreaterAt(seats: seq<int>, current: int, fallback: int, k: nat)
    requires StrictlyAscending(seats) && k <= |seats|
    requires forall i :: 0 <= i < |seats| ==> (seats[i] > current <==> i >= k)
    ensures FirstGreater(seats, current, fallback) == if k < |seats| then seats[k] else fallback
  {
    if seats != [] && k > 0 {
      FirstGreaterAt(seats[1..], current, fallback, k - 1);
    }
  }

  /** Position of the first live seat beyond `current`. */
  lemma {:induction false} Boundary(seats: seq<int>, current: int) returns (k: nat)
    requires StrictlyAscending(seats)
    ensures k <= |seats| && forall i :: 0 <= i < |seats| ==> (seats[i] > current <==> i >= k)
  {
    if seats == [] || seats[|seats| - 1] <= current {
      k := |seats|;
      forall i | 0 <= i < |seats| ensures seats[i] <= current {
        assert i < |seats| - 1 ==> seats[i] < seats[|seats| - 1];
      }
    } else {
      k := Boundary(seats[..|seats| - 1], current);
    }
  }

  /** The button goes to the first live seat after the old one exactly when the old dealer still has chips; when the
      dealer went broke, one live seat is passed over. */
  lemma ButtonMovesOneSeat(players: seq<Player>, dealer: int)
    requires SeatsAscend(players) && |SeatsWithChips(players)| >= 2
    ensures NextDealerSeat(players, dealer).Some?
    ensures var live := SeatsWithChips(players);
      NextDealerSeat(players, dealer) == Some(FirstLiveAfter(live, dealer)) <==> dealer in live
    ensures var live := SeatsWithChips(players);
      dealer !in live ==> NextDealerSeat(players, dealer) == Some(FirstLiveAfter(live, FirstLiveAfter(live, dealer)))
  {
    var live := SeatsWithChips(players);
    LiveAscends(players);
    SortSeats(live);
    var k := Boundary(live, dealer);
    FirstGreaterAt(live, dealer, live[0], k);
    var start := NormalizeDealerSeat(dealer, live);
    NormalizedIsLive(dealer, live);
    NextIsGreater(live, start);
    NextIsNeighbour(live, start);
  }

  lemma NextIsGreater(live: seq<int>, seat: int)
    requires StrictlyAscending(live) && seat in live
    ensures NextSeat(live, seat) == FirstLiveAfter(live, seat)
  {
    var k := IndexOf(live, seat);
    NextSeatAt(live, k);
    FirstGreaterAt(live, seat, live[0], k + 1);
  }

  /** The dealers of consecutive hands while nobody goes broke. */
  ghost predicate ConsecutiveDealers(dealers: seq<int>, players: seq<seq<Player>>, live: seq<int>) {
    && |dealers| == |players| && live != [] && StrictlyAscending(live)
    && (dealers != [] ==> dealers[0] in live)
    && (forall j :: 0 <= j < |dealers| - 1 ==> SeatsWithChips(players[j]) == live)
    && (forall j :: 0 <= j < |dealers| - 1 ==> NextDealerSeat(players[j], dealers[j]) == Some(dealers[j + 1]))
  }

  lemma LiveDealerMovesOn(players: seq<Player>, live: seq<int>, k: nat)
    requires StrictlyAscending(live) && |live| >= 2 && k < |live| && SeatsWithChips(players) == live
    ensures NextDealerSeat(players, live[k]) == Some(live[Clockwise(k, 1, |live|)])
  {
    SortSeats(live);
    NextSeatAt(live, k);
  }

  lemma {:induction false} DealerAt(dealers: seq<int>, players: seq<seq<Player>>, live: seq<int>, j: nat)
    requires ConsecutiveDealers(dealers, players, live) && j < |dealers| <= |live|
    ensures dealers[j] == live[Clockwise(IndexOf(live, dealers[0]), j, |live|)]
  {
    var n, first := |live|, IndexOf(live, dealers[0]);
    if j > 0 {
      DealerAt(dealers, players, live, j - 1);
      var k := Clockwise(first, j - 1, n);
      LiveDealerMovesOn(players[j - 1], live, k);
      assert NextDealerSeat(players[j - 1], dealers[j - 1]) == Some(dealers[j]);
      assert Clockwise(k, 1, n) == Clockwise(first, j, n);
    }
  }

  /** If no seat goes broke, n consecutive hands give each of the n seats the button exactly once. */
  lemma ButtonGoesRound(dealers: seq<int>, players: seq<seq<Player>>, live: seq<int>, seat: int) returns (j: nat)
    requires ConsecutiveDealers(dealers, players, live) && |dealers| == |live| && seat in live
    ensures j < |dealers| && dealers[j] == seat
    ensures forall i :: 0 <= i < |dealers| && dealers[i] == seat ==> i == j
  {
    var n, first, k := |live|, IndexOf(live, dealers[0]), IndexOf(live, seat);
    j := if k >= first then k - first else k + n - first;
    DealerAt(dealers, players, live, j);
    forall i | 0 <= i < |dealers| && dealers[i] == seat ensures i == j {
      DealerAt(dealers, players, live, i);
      IndexAt(live, Clockwise(first, i, n));
    }
  }

  // ---------- the stacks ----------

  /** Room rows and game players describe the same seats, with the same users in them. */
  ghost predicate SameSeats(room: seq<RoomPlayer>, players: seq<Player>) {
    && (forall i, j :: 0 <= i < j < |room| ==> room[i].seatNo != room[j].seatNo)
    && (forall i, j :: 0 <= i < j < |room| && room[i].userId.Some? ==> room[i].userId != room[j].userId)
    && (forall i :: 0 <= i < |room| ==> SitsAs(players, room[i]))
    && (forall k :: 0 <= k < |players| ==> HasRow(room, players[k].seatNo))
  }

  ghost predicate SitsAs(players: seq<Player>, row: RoomPlayer) {
    var k := PositionOf(players, row.seatNo);
    k < |players| && players[k].userId == row.userId
  }

  ghost predicate HasRow(room: seq<RoomPlayer>, seat: int) {
    exists i :: 0 <= i < |room| && room[i].seatNo == seat
  }

  ghost predicate NoDebts(players: seq<Player>) {
    forall k :: 0 <= k < |players| ==> players[k].chips >= 0
  }

  ghost predicate SessionOk(s: Stored) {
    && 0 < s.smallBlind < s.bigBlind
    && SeatsAscend(s.game.players) && NoDebts(s.game.players)
    && SameSeats(s.players, s.game.players)
    && (Sound(s.game) || s.game.status == RoomFinished)
  }

  lemma RefreshedChips(s: Stored, i: nat) returns (k: nat)
    requires SessionOk(s) && i < |s.players|
    ensures k < |s.game.players| && s.game.players[k].seatNo == s.players[i].seatNo
    ensures Refreshed(s.players, s.game.players)[i].chips == s.game.players[k].chips
    ensures Refreshed(s.players, s.game.players)[i].seatNo == s.game.players[k].seatNo
    ensures Refreshed(s.players, s.game.players)[i].userId == s.game.players[k].userId
  {
    assert SitsAs(s.game.players, s.players[i]);
    k := PositionOf(s.game.players, s.players[i].seatNo);
  }

  lemma RefreshedLive(s: Stored, seat: int)
    requires SessionOk(s)
    ensures HasChips(Refreshed(s.players, s.game.players), seat) <==> seat in SeatsWithChips(s.game.players)
  {
    var inputs, players := Refreshed(s.players, s.game.players), s.game.players;
    LiveContents(players, seat);
    if i :| 0 <= i < |inputs| && inputs[i].seatNo == seat && inputs[i].chips > 0 {
      var k := RefreshedChips(s, i);
    }
    if k :| 0 <= k < |players| && players[k].seatNo == seat && players[k].chips > 0 {
      assert HasRow(s.players, seat);
      var i :| 0 <= i < |s.players| && s.players[i].seatNo == seat;
      PositionAt(players, k);
      assert inputs[i].seatNo == seat && inputs[i].chips > 0;
    }
  }

  lemma AscendingUnique(xs: seq<int>, ys: seq<int>)
    requires StrictlyAscending(xs) && StrictlyAscending(ys)
    requires forall x :: x in xs <==> x in ys
    ensures xs == ys
  {
    NoDupMultiset(xs);
    NoDupMultiset(ys);
    forall x ensures multiset(xs)[x] == multiset(ys)[x] {
      assert x in multiset(xs) <==> x in xs;
      assert x in multiset(ys) <==> x in ys;
    }
    assert multiset(xs) == multiset(ys);
    assert TotalPreorder(IntLeq) && Antisymmetric(IntLeq);
    SortedUnique(xs, ys, IntLeq);
  }

  /** The live seats the room computes are those of the game. */
  lemma SameLive(s: Stored)
    requires SessionOk(s)
    ensures DistinctInputs(Refreshed(s.players, s.game.players))
    ensures LiveSeats(Refreshed(s.players, s.game.players)) == SeatsWithChips(s.game.players)
    ensures |WithChips(Refreshed(s.players, s.game.players))| == |SeatsWithChips(s.game.players)|
  {
    var inputs := Refreshed(s.players, s.game.players);
    forall i, j | 0 <= i < j < |inputs| ensures inputs[i].seatNo != inputs[j].seatNo {
      assert s.players[i].seatNo != s.players[j].seatNo;
    }
    LiveSeatsFacts(inputs);
    LiveAscends(s.game.players);
    forall seat ensures seat in LiveSeats(inputs) <==> seat in SeatsWithChips(s.game.players) {
      RefreshedLive(s, seat);
    }
    AscendingUnique(LiveSeats(inputs), SeatsWithChips(s.game.players));
  }

  /** nextHand always meets what createInitialGameState asks for, and deals under the next button. */
  lemma NextButtonIsLive(players: seq<Player>, dealer: int) returns (next: int)
    requires SeatsAscend(players) && |SeatsWithChips(players)| >= 2
    ensures NextDealerSeat(players, dealer) == Some(next) && next in SeatsWithChips(players)
  {
    var live := SeatsWithChips(players);
    ButtonMovesOneSeat(players, dealer);
    LiveAscends(players);
    SortSeats(live);
    NormalizedIsLive(dealer, live);
    NextIsNeighbour(live, NormalizeDealerSeat(dealer, live));
    next := NextDealerSeat(players, dealer).value;
  }

  lemma NextSetupIsValid(s: Stored, deck: seq<Card>) returns (setup: Setup)
    requires SessionOk(s) && |SeatsWithChips(s.game.players)| >= 2 && |deck| >= 2 * |s.game.players| + 5
    ensures NextDealerSeat(s.game.players, s.game.dealerSeat).Some?
    ensures HandSetup(s.smallBlind, s.bigBlind, Refreshed(s.players, s.game.players),
      NextDealerSeat(s.game.players, s.game.dealerSeat).value, deck) == Ok(setup)
    ensures ValidSetup(setup) && setup.players == Refreshed(s.players, s.game.players) && setup.deck == deck
    ensures setup.dealerSeat == NextDealerSeat(s.game.players, s.game.dealerSeat)
    ensures setup.smallBlind == s.smallBlind && setup.bigBlind == s.bigBlind
    ensures setup.dealerSeat.value in SeatsWithChips(s.game.players)
  {
    var live, inputs := SeatsWithChips(s.game.players), Refreshed(s.players, s.game.players);
    SameLive(s);
    LiveAscends(s.game.players);
    SortSeats(live);
    var next := NextButtonIsLive(s.game.players, s.game.dealerSeat);
    setup := HandSetup(s.smallBlind, s.bigBlind, Refreshed(s.players, s.game.players),
      NextDealerSeat(s.game.players, s.game.dealerSeat).value, deck).value;
    forall i | 0 <= i < |inputs| ensures inputs[i].chips >= 0 {
      var k := RefreshedChips(s, i);
    }
  }
}
