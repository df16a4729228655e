/** createInitialGameState: from any valid table the hand opens in the invariant
    (or runs straight to a showdown), with every card fixed by the deck. */
module HandStart {
  import opened Sequences
  import opened Deck
  import opened Pots
  import opened Engine
  import opened TurnOrder
  import opened HandInvariant
  import opened HandAccounting
  import opened HandStep
  import opened HandRuns

  ghost predicate DistinctInputs(inputs: seq<SeatInput>) {
    forall i, j :: 0 <= i < j < |inputs| ==> inputs[i].seatNo != inputs[j].seatNo
  }

  /** What callers pass: distinct seats, stacks of at least zero and two of them positive, blinds in order, and enough
      cards for everybody and the board. */
  ghost predicate ValidSetup(setup: Setup) {
    && DistinctInputs(setup.players)
    && (forall i :: 0 <= i < |setup.players| ==> setup.players[i].chips >= 0)
    && |WithChips(setup.players)| >= 2
    && 0 < setup.smallBlind < setup.bigBlind
    && |setup.deck| >= 2 * |WithChips(setup.players)| + 5
  }

  // ---------- sorting the seats ----------

  lemma SeatOrder()
    ensures TotalPreorder(SeatLeq)
  {
  }

  lemma SortedSeatsAscend(inputs: seq<SeatInput>)
    requires DistinctInputs(inputs)
    ensures StrictlyAscending(SeatNumbers(Sort(inputs, SeatLeq)))
  {
    var sorted := Sort(inputs, SeatLeq);
    SeatOrder();
    SortSorted(inputs, SeatLeq);
    SortNoDup(inputs, SeatLeq);
    forall i, j | 0 <= i < j < |sorted| ensures sorted[i].seatNo < sorted[j].seatNo {
      SortMembers(inputs, SeatLeq, sorted[i]);
      SortMembers(inputs, SeatLeq, sorted[j]);
      var a :| 0 <= a < |inputs| && inputs[a] == sorted[i];
      var b :| 0 <= b < |inputs| && inputs[b] == sorted[j];
      NoDupAt(sorted, i, j);
      assert SeatLeq(sorted[i], sorted[j]);
    }
  }

  lemma {:induction false} WithChipsContents(inputs: seq<SeatInput>, x: SeatInput)
    ensures x in WithChips(inputs) <==> x in inputs && x.chips > 0
  {
    if inputs != [] {
      var n := |inputs| - 1;
      assert inputs == inputs[..n] + [inputs[n]];
      WithChipsContents(inputs[..n], x);
    }
  }

  lemma {:induction false} WithChipsDistinct(inputs: seq<SeatInput>)
    requires DistinctInputs(inputs)
    ensures DistinctInputs(WithChips(inputs))
  {
    if inputs != [] {
      var n := |inputs| - 1;
      WithChipsDistinct(inputs[..n]);
      var rest := WithChips(inputs[..n]);
      forall i | 0 <= i < |rest| ensures rest[i].seatNo != inputs[n].seatNo {
        WithChipsContents(inputs[..n], rest[i]);
        assert rest[i] in rest;
        var a :| 0 <= a < n && inputs[..n][a] == rest[i];
      }
    }
  }

  lemma {:induction false} InsertWithChips(inputs: seq<SeatInput>, x: SeatInput)
    ensures |WithChips(Insert(inputs, x, SeatLeq))| == |WithChips(inputs)| + (if x.chips > 0 then 1 else 0)
  {
    var r := Insert(inputs, x, SeatLeq);
    if inputs != [] {
      var n := |inputs| - 1;
      InsertWithChips(inputs[..n], x);
      if SeatLeq(inputs[n], x) {
        assert r[..|inputs|] == inputs;
      } else {
        assert r[..|inputs|] == Insert(inputs[..n], x, SeatLeq);
      }
    }
  }

  lemma {:induction false} SortWithChips(inputs: seq<SeatInput>)
    ensures |WithChips(Sort(inputs, SeatLeq))| == |WithChips(inputs)|
  {
    if inputs != [] {
      var n := |inputs| - 1;
      SortWithChips(inputs[..n]);
      InsertWithChips(Sort(inputs[..n], SeatLeq), inputs[n]);
    }
  }

  lemma {:induction false} EveryoneLive(inputs: seq<SeatInput>)
    requires forall i :: 0 <= i < |inputs| ==> inputs[i].chips > 0
    ensures WithChips(inputs) == inputs
  {
    if inputs != [] {
      EveryoneLive(inputs[..|inputs| - 1]);
    }
  }

  ghost predicate HasChips(inputs: seq<SeatInput>, seat: int) {
    exists i :: 0 <= i < |inputs| && inputs[i].seatNo == seat && inputs[i].chips > 0
  }

  lemma LiveSeatMember(inputs: seq<SeatInput>, seat: int)
    ensures seat in LiveSeats(inputs) <==> HasChips(inputs, seat)
  {
    var sorted, live := Sort(WithChips(inputs), SeatLeq), LiveSeats(inputs);
    if seat in live {
      var k :| 0 <= k < |live| && live[k] == seat;
      SortMembers(WithChips(inputs), SeatLeq, sorted[k]);
      WithChipsContents(inputs, sorted[k]);
      var i :| 0 <= i < |inputs| && inputs[i] == sorted[k];
    }
    if i :| 0 <= i < |inputs| && inputs[i].seatNo == seat && inputs[i].chips > 0 {
      WithChipsContents(inputs, inputs[i]);
      SortMembers(WithChips(inputs), SeatLeq, inputs[i]);
      var k :| 0 <= k < |sorted| && sorted[k] == inputs[i];
      assert live[k] == seat;
    }
  }

  lemma LiveSeatsFacts(inputs: seq<SeatInput>)
    requires DistinctInputs(inputs)
    ensures StrictlyAscending(LiveSeats(inputs)) && |LiveSeats(inputs)| == |WithChips(inputs)|
    ensures forall s :: s in LiveSeats(inputs) <==> HasChips(inputs, s)
  {
    WithChipsDistinct(inputs);
    SortedSeatsAscend(WithChips(inputs));
    forall s ensures s in LiveSeats(inputs) <==> HasChips(inputs, s) {
      LiveSeatMember(inputs, s);
    }
  }

  // ---------- the button and the blinds ----------

  lemma {:induction false} FirstGreaterIn(seats: seq<int>, current: int, fallback: int)
    ensures FirstGreater(seats, current, fallback) in seats || FirstGreater(seats, current, fallback) == fallback
  {
    if seats != [] {
      FirstGreaterIn(seats[1..], current, fallback);
    }
  }

  lemma NormalizedIsLive(dealer: int, seats: seq<int>)
    requires seats != []
    ensures NormalizeDealerSeat(dealer, seats) in seats
  {
    FirstGreaterIn(seats, dealer, seats[0]);
    assert seats[0] in seats;
  }

  /** No live seat sits between two neighbours, going clockwise. */
  ghost predicate Neighbours(live: seq<int>, a: int, b: int) {
    && a in live && b in live && a != b
    && forall x :: x in live && x != a && x != b ==> if a < b then x < a || x > b else b < x < a
  }

  lemma NextIsNeighbour(live: seq<int>, a: int)
    requires StrictlyAscending(live) && |live| >= 2 && a in live
    ensures Neighbours(live, a, NextSeat(live, a))
  {
    var k := IndexOf(live, a);
    NextSeatAt(live, k);
    var m := Clockwise(k, 1, |live|);
    forall x | x in live && x != a && x != live[m]
      ensures if a < live[m] then x < a || x > live[m] else live[m] < x < a
    {
      var l :| 0 <= l < |live| && live[l] == x;
    }
  }

  lemma BlindsResolved(setup: Setup)
    requires ValidSetup(setup)
    ensures ResolveSetup(setup).Ok?
    ensures var live, b := LiveSeats(setup.players), ResolveSetup(setup).value;
      b.dealerSeat in live && Neighbours(live, b.smallBlindSeat, b.bigBlindSeat)
  {
    var live := LiveSeats(setup.players);
    LiveSeatsFacts(setup.players);
    SortSeats(live);
    var wanted := NormalizeDealerSeat(setup.dealerSeat.GetOr(live[0]), live);
    NormalizedIsLive(setup.dealerSeat.GetOr(live[0]), live);
    NormalizedIsLive(wanted, live);
    var dealer := NormalizeDealerSeat(wanted, live);
    NextIsNeighbour(live, dealer);
    NextIsNeighbour(live, NextSeat(live, dealer));
  }

  // ---------- dealing ----------

  /** How many of the players from i up to k are dealt in. */
  function DealtIn(players: seq<Player>, i: nat, k: nat): nat
    requires i <= k <= |players|
  {
    if i == k then 0 else DealtIn(players, i, k - 1) + (if players[k - 1].status == Out then 0 else 1)
  }

  lemma {:induction false} DealtInFromLeft(players: seq<Player>, i: nat, k: nat)
    requires i < k <= |players|
    ensures DealtIn(players, i, k) == (if players[i].status == Out then 0 else 1) + DealtIn(players, i + 1, k)
  {
    if i + 1 < k {
      DealtInFromLeft(players, i, k - 1);
    }
  }

  lemma {:induction false} DealtInGrows(players: seq<Player>, i: nat, j: nat, k: nat)
    requires i <= j <= k <= |players|
    ensures DealtIn(players, i, j) <= DealtIn(players, i, k)
  {
    if j < k {
      DealtInGrows(players, i, j, k - 1);
    }
  }

  lemma {:induction false} DealtInSame(before: seq<Player>, after: seq<Player>, i: nat, k: nat)
    requires |before| == |after| && i <= k <= |before|
    requires forall j :: 0 <= j < |before| ==> before[j].status == after[j].status
    ensures DealtIn(before, i, k) == DealtIn(after, i, k)
  {
    if i < k {
      DealtInSame(before, after, i, k - 1);
    }
  }

  /** Player k after a round that started at position i: one more card, the one at k's place in the dealing order. */
  ghost predicate PlayerDealt(d: Dealing, r: Dealing, i: nat, k: nat)
    requires i <= k < |d.players| == |r.players|
  {
    var place := DealtIn(d.players, i, k);
    if d.players[k].status == Out then r.players[k] == d.players[k]
    else place < |d.deck| && r.players[k] == d.players[k].(holeCards := d.players[k].holeCards + [d.deck[place]])
  }

  ghost predicate RoundDealt(d: Dealing, r: Dealing, i: nat)
    requires i <= |d.players|
  {
    && |r.players| == |d.players|
    && DealtIn(d.players, i, |d.players|) <= |d.deck|
    && r.deck == d.deck[DealtIn(d.players, i, |d.players|)..]
    && (forall k :: 0 <= k < i ==> r.players[k] == d.players[k])
    && (forall k :: i <= k < |d.players| ==> PlayerDealt(d, r, i, k))
  }

  lemma RoundExtends(d: Dealing, e: Dealing, r: Dealing, i: nat)
    requires i < |d.players| && |d.deck| >= 1 && d.players[i].status != Out
    requires e == Dealing(d.players[i := d.players[i].(holeCards := d.players[i].holeCards + [d.deck[0]])], d.deck[1..])
    requires RoundDealt(e, r, i + 1)
    ensures RoundDealt(d, r, i)
  {
    var n := |d.players|;
    DealtInFromLeft(d.players, i, n);
    DealtInSame(e.players, d.players, i + 1, n);
    forall k | i <= k < n ensures PlayerDealt(d, r, i, k) {
      if k > i {
        DealtInFromLeft(d.players, i, k);
        DealtInSame(e.players, d.players, i + 1, k);
        assert PlayerDealt(e, r, i + 1, k);
      }
    }
  }

  lemma RoundSkips(d: Dealing, r: Dealing, i: nat)
    requires i < |d.players| && RoundDealt(d, r, i + 1) && d.players[i].status == Out
    ensures RoundDealt(d, r, i)
  {
    var n := |d.players|;
    DealtInFromLeft(d.players, i, n);
    forall k | i <= k < n ensures PlayerDealt(d, r, i, k) {
      if k > i {
        DealtInFromLeft(d.players, i, k);
        assert PlayerDealt(d, r, i + 1, k);
      }
    }
  }

  lemma {:induction false} RoundIsDealt(d: Dealing, i: nat) returns (r: Dealing)
    requires i <= |d.players| && DealtIn(d.players, i, |d.players|) <= |d.deck|
    ensures DealRound(d, i) == Ok(r) && RoundDealt(d, r, i)
    decreases |d.players| - i
  {
    var n := |d.players|;
    if i == n {
      r := d;
      assert d.deck[0..] == d.deck;
    } else {
      DealtInFromLeft(d.players, i, n);
      if d.players[i].status == Out {
        r := RoundIsDealt(d, i + 1);
        RoundSkips(d, r, i);
      } else {
        var p := d.players[i];
        var e := Dealing(d.players[i := p.(holeCards := p.holeCards + [d.deck[0]])], d.deck[1..]);
        assert DealCards(d.deck, 1).value == Dealt([d.deck[0]], d.deck[1..]);
        DealtInSame(e.players, d.players, i + 1, n);
        r := RoundIsDealt(e, i + 1);
        RoundExtends(d, e, r, i);
      }
    }
  }

  lemma {:induction false} DealtInIsWithChips(inputs: seq<SeatInput>, k: nat)
    requires k <= |inputs|
    ensures DealtIn(SeatAll(inputs), 0, k) == |WithChips(inputs[..k])|
  {
    if k > 0 {
      DealtInIsWithChips(inputs, k - 1);
      assert inputs[..k][..k - 1] == inputs[..k - 1];
    }
  }

  /** The table after the deal: player k, if in, holds the two cards the deck had at k's place in each round. */
  function DealtPlayer(inputs: seq<SeatInput>, deck: seq<Card>, n: nat, k: nat): Player
    requires k < |inputs|
    requires n + DealtIn(SeatAll(inputs), 0, k) < |deck|
  {
    var place := DealtIn(SeatAll(inputs), 0, k);
    Seated(inputs[k]).(holeCards := if inputs[k].chips > 0 then [deck[place], deck[n + place]] else [])
  }

  ghost predicate HandsDealt(inputs: seq<SeatInput>, deck: seq<Card>, n: nat, d: Dealing) {
    && |d.players| == |inputs| && 2 * n <= |deck| && d.deck == deck[2 * n..]
    && forall k :: 0 <= k < |inputs| ==> HandDealt(inputs, deck, n, d, k)
  }

  ghost predicate HandDealt(inputs: seq<SeatInput>, deck: seq<Card>, n: nat, d: Dealing, k: nat)
    requires k < |inputs| == |d.players|
  {
    && n + DealtIn(SeatAll(inputs), 0, k) < |deck|
    && d.players[k] == DealtPlayer(inputs, deck, n, k)
  }

  lemma SameStatuses(start: Dealing, first: Dealing)
    requires |first.players| == |start.players|
    requires forall k :: 0 <= k < |start.players| ==> PlayerDealt(start, first, 0, k)
    ensures forall k :: 0 <= k < |start.players| ==> first.players[k].status == start.players[k].status
  {
    forall k | 0 <= k < |start.players| ensures first.players[k].status == start.players[k].status {
      assert PlayerDealt(start, first, 0, k);
    }
  }

  lemma TwoRounds(inputs: seq<SeatInput>, deck: seq<Card>) returns (d: Dealing)
    requires (forall i :: 0 <= i < |inputs| ==> inputs[i].chips >= 0) && |deck| >= 2 * |WithChips(inputs)| + 5
    ensures var start := DealRound(Dealing(SeatAll(inputs), deck), 0);
      start.Ok? && DealRound(start.value, 0) == Ok(d)
    ensures HandsDealt(inputs, deck, |WithChips(inputs)|, d)
  {
    var players, n := SeatAll(inputs), |WithChips(inputs)|;
    DealtInIsWithChips(inputs, |inputs|);
    assert inputs[..|inputs|] == inputs;
    var start := Dealing(players, deck);
    var first := RoundIsDealt(start, 0);
    SameStatuses(start, first);
    DealtInSame(first.players, players, 0, |players|);
    d := RoundIsDealt(first, 0);
    assert deck[n..][n..] == deck[2 * n..];
    forall k | 0 <= k < |inputs| ensures HandDealt(inputs, deck, n, d, k) {
      assert PlayerDealt(start, first, 0, k) && PlayerDealt(first, d, 0, k);
      DealtInSame(first.players, players, 0, k);
      DealtInGrows(players, 0, k, |players|);
    }
  }

  // ---------- the blinds ----------

  function Posted(p: Player, blind: int): Player {
    var amount := Min(p.chips, blind);
    p.(chips := p.chips - amount, investedThisStreet := p.investedThisStreet + amount,
      investedThisHand := p.investedThisHand + amount,
       status := if p.chips == amount && p.status == Active then AllIn else p.status)
  }

  /** A freshly dealt table: nobody has invested anything. */
  ghost predicate FreshTable(players: seq<Player>) {
    && |players| >= 2 && SeatsAscend(players) && AllOk(players)
    && (forall k :: 0 <= k < |players| ==> players[k].investedThisHand == 0 && !players[k].hasActed)
    && (forall k :: 0 <= k < |players| ==> players[k].status == Active || players[k].status == Out)
  }

  /** No live player sits clockwise between positions sp and bp. */
  ghost predicate NeighbourPositions(players: seq<Player>, sp: nat, bp: nat) {
    && sp < |players| && bp < |players| && sp != bp
    && players[sp].status == Active && players[bp].status == Active
    && (forall x :: 0 <= x < |players| && players[x].status == Active && x != sp && x != bp ==>
      if sp < bp then x < sp || x > bp else bp < x < sp)
  }

  function AfterBlinds(players: seq<Player>, sp: nat, bp: nat, small: int, big: int): seq<Player>
    requires sp < |players| && bp < |players|
  {
    players[sp := Posted(players[sp], small)][bp := Posted(players[bp], big)]
  }

  lemma {:induction false} MaxStreetBounds(players: seq<Player>)
    requires players != []
    ensures forall i :: 0 <= i < |players| ==> players[i].investedThisStreet <= MaxStreet(players)
    ensures exists i :: 0 <= i < |players| && players[i].investedThisStreet == MaxStreet(players)
  {
    if |players| == 1 {
      assert players[0].investedThisStreet == MaxStreet(players);
    } else {
      var n := |players| - 1;
      var rest := players[..n];
      MaxStreetBounds(rest);
      var i :| 0 <= i < n && rest[i].investedThisStreet == MaxStreet(rest);
      assert players[i].investedThisStreet == MaxStreet(rest);
      assert players[n].investedThisStreet <= MaxStreet(players);
    }
  }

  lemma BlindsTableOk(players: seq<Player>, sp: nat, bp: nat, small: int, big: int)
    requires FreshTable(players) && NeighbourPositions(players, sp, bp) && 0 < small < big
    ensures var after := AfterBlinds(players, sp, bp, small, big);
      TableOk(after, MaxStreet(after)) && MaxStreet(after) > 0
  {
    var after := AfterBlinds(players, sp, bp, small, big);
    MaxStreetBounds(after);
    forall k | 0 <= k < |after| ensures PlayerOk(after[k]) && Before(after[k]) == 0 {
      assert PlayerOk(players[k]);
    }
    assert after[bp].investedThisStreet > 0;
  }

  /** The option lies with the big blind, or with the small blind when a short big blind did not top it; nobody live
      sits behind either. */
  lemma BlindsOption(players: seq<Player>, sp: nat, bp: nat, small: int, big: int)
    requires FreshTable(players) && NeighbourPositions(players, sp, bp) && 0 < small < big
    ensures var after := AfterBlinds(players, sp, bp, small, big); OptionBehind(after, MaxStreet(after), bp)
  {
    var after := AfterBlinds(players, sp, bp, small, big);
    var bet, n := MaxStreet(after), |after|;
    MaxStreetBounds(after);
    assert PlayerOk(players[sp]) && PlayerOk(players[bp]);
    forall k | 0 <= k < n && k != sp && k != bp ensures after[k].investedThisStreet == 0 {
      assert PlayerOk(players[k]);
    }
    forall p, q | 0 <= p < n && 0 <= q < n && p != q && HoldsOption(after[p], bet) && NeedsAction(after[q], bet)
      ensures Distance(bp, q, n) < Distance(bp, p, n)
    {
      assert p == sp || p == bp;
      if p == sp {
        assert after[bp].investedThisStreet <= small;
        assert q != bp;
        assert players[q].status == Active;
      }
    }
  }

  lemma BlindsCovered(players: seq<Player>, sp: nat, bp: nat, small: int, big: int)
    requires FreshTable(players) && NeighbourPositions(players, sp, bp) && 0 < small < big
    ensures var after := AfterBlinds(players, sp, bp, small, big); Covered(after) && ContenderCount(after) >= 2
  {
    var after := AfterBlinds(players, sp, bp, small, big);
    assert Contends(after[sp].status) && Contends(after[bp].status);
    TwoContenders(after, if sp < bp then sp else bp, if sp < bp then bp else sp);
    assert PlayerOk(players[bp]);
    forall f | 0 <= f < |after| ensures CoveredAt(after, f) {
      CoverWith(after, f, if Contends(after[f].status) then f else bp);
    }
  }

  // ---------- the history replays the investments ----------

  /** What the action history says a seat has put in. */
  function RecordedFor(history: seq<Entry>, seat: int): int {
    if history == [] then 0
    else
      var n := |history| - 1;
      RecordedFor(history[..n], seat) + (if history[n].seatNo == seat then history[n].amount else 0)
  }

  ghost predicate HistoryReplays(s: GameState) {
    forall i :: 0 <= i < |s.players| ==> RecordedFor(s.history, s.players[i].seatNo) == s.players[i].investedThisHand
  }

  lemma BlindsReplay(s: GameState, d: seq<Player>, sp: nat, bp: nat, small: int, big: int)
    requires FreshTable(d) && sp < |d| && bp < |d| && sp != bp
    requires s.players == AfterBlinds(d, sp, bp, small, big)
    requires s.history == [] + [Entry(d[sp].seatNo, SmallBlindPost, Min(d[sp].chips, small), Preflop)]
      + [Entry(d[bp].seatNo, BigBlindPost, Min(d[bp].chips, big), Preflop)]
    ensures HistoryReplays(s)
  {
    forall i | 0 <= i < |d| ensures RecordedFor(s.history, d[i].seatNo) == s.players[i].investedThisHand {
      SeatsFollowPositions(d, i, sp);
      SeatsFollowPositions(d, i, bp);
      var h1 := s.history[..1];
      assert RecordedFor(h1, d[i].seatNo) == if i == sp then Min(d[sp].chips, small) else 0 by {
        assert h1[..0] == [];
      }
    }
  }

  // ---------- the opening state ----------

  lemma DealtTableIsFresh(setup: Setup, d: Dealing)
    requires ValidSetup(setup)
    requires HandsDealt(Sort(setup.players, SeatLeq), setup.deck, |WithChips(setup.players)|, d)
    ensures FreshTable(d.players)
  {
    var sorted := Sort(setup.players, SeatLeq);
    SortedSeatsAscend(setup.players);
    SortWithChips(setup.players);
    WithChipsShorter(setup.players);
    forall k | 0 <= k < |sorted| ensures PlayerOk(d.players[k]) && d.players[k].seatNo == SeatNumbers(sorted)[k]
      && d.players[k].investedThisHand == 0 && !d.players[k].hasActed
      && (d.players[k].status == Active || d.players[k].status == Out)
    {
      assert HandDealt(sorted, setup.deck, |WithChips(setup.players)|, d, k);
      SortMembers(setup.players, SeatLeq, sorted[k]);
      var i :| 0 <= i < |setup.players| && setup.players[i] == sorted[k];
    }
    forall i, j | 0 <= i < j < |d.players| ensures d.players[i].seatNo < d.players[j].seatNo {
      assert SeatNumbers(sorted)[i] < SeatNumbers(sorted)[j];
    }
  }

  lemma {:induction false} WithChipsShorter(inputs: seq<SeatInput>)
    ensures |WithChips(inputs)| <= |inputs|
  {
    if inputs != [] {
      WithChipsShorter(inputs[..|inputs| - 1]);
    }
  }

  /** A live seat is the seat of exactly the ACTIVE players. */
  lemma LiveIsActive(setup: Setup, d: Dealing, k: nat)
    requires ValidSetup(setup)
    requires HandsDealt(Sort(setup.players, SeatLeq), setup.deck, |WithChips(setup.players)|, d)
    requires k < |d.players|
    ensures d.players[k].status == Active <==> d.players[k].seatNo in LiveSeats(setup.players)
  {
    var sorted := Sort(setup.players, SeatLeq);
    assert HandDealt(sorted, setup.deck, |WithChips(setup.players)|, d, k);
    SortMembers(setup.players, SeatLeq, sorted[k]);
    var i :| 0 <= i < |setup.players| && setup.players[i] == sorted[k];
    LiveSeatMember(setup.players, sorted[k].seatNo);
    if j :| 0 <= j < |setup.players| && setup.players[j].seatNo == sorted[k].seatNo && setup.players[j].chips > 0 {
      assert i == j;
    }
  }

  lemma LivePosition(setup: Setup, d: Dealing, seat: int) returns (k: nat)
    requires ValidSetup(setup)
    requires HandsDealt(Sort(setup.players, SeatLeq), setup.deck, |WithChips(setup.players)|, d)
    requires seat in LiveSeats(setup.players)
    ensures k < |d.players| && d.players[k].seatNo == seat && d.players[k].status == Active
    ensures PositionOf(d.players, seat) == k
  {
    var sorted := Sort(setup.players, SeatLeq);
    LiveSeatMember(setup.players, seat);
    var i :| 0 <= i < |setup.players| && setup.players[i].seatNo == seat && setup.players[i].chips > 0;
    SortMembers(setup.players, SeatLeq, setup.players[i]);
    k :| 0 <= k < |sorted| && sorted[k] == setup.players[i];
    assert HandDealt(sorted, setup.deck, |WithChips(setup.players)|, d, k);
    DealtTableIsFresh(setup, d);
    PositionAt(d.players, k);
  }

  lemma BlindPositions(setup: Setup, d: Dealing, sp: nat, bp: nat)
    requires ValidSetup(setup)
    requires HandsDealt(Sort(setup.players, SeatLeq), setup.deck, |WithChips(setup.players)|, d)
    requires sp < |d.players| && bp < |d.players|
    requires d.players[sp].status == Active && d.players[bp].status == Active
    requires Neighbours(LiveSeats(setup.players), d.players[sp].seatNo, d.players[bp].seatNo)
    ensures NeighbourPositions(d.players, sp, bp)
  {
    DealtTableIsFresh(setup, d);
    forall x | 0 <= x < |d.players| && d.players[x].status == Active && x != sp && x != bp
      ensures if sp < bp then x < sp || x > bp else bp < x < sp
    {
      LiveIsActive(setup, d, x);
      SeatsFollowPositions(d.players, x, sp);
      SeatsFollowPositions(d.players, x, bp);
      SeatsFollowPositions(d.players, sp, bp);
    }
  }

  lemma SeatsFollowPositions(players: seq<Player>, x: nat, y: nat)
    requires SeatsAscend(players) && x < |players| && y < |players|
    ensures players[x].seatNo < players[y].seatNo <==> x < y
    ensures players[x].seatNo == players[y].seatNo <==> x == y
  {
  }

  lemma PostBlindAt(s: GameState, k: nat, blind: int, kind: EntryKind)
    requires SeatsAscend(s.players) && k < |s.players| && s.players[k].chips >= 0 && blind > 0
    ensures PostBlind(s, s.players[k].seatNo, blind, kind) == Ok(s.(
      players := s.players[k := Posted(s.players[k], blind)],
      history := s.history + [Entry(s.players[k].seatNo, kind, Min(s.players[k].chips, blind), Preflop)]))
  {
    PositionAt(s.players, k);
  }

  function BlindHistory(setup: Setup, d: Dealing, sp: nat, bp: nat): seq<Entry>
    requires sp < |d.players| && bp < |d.players|
  {
    [Entry(d.players[sp].seatNo, SmallBlindPost, Min(d.players[sp].chips, setup.smallBlind), Preflop),
     Entry(d.players[bp].seatNo, BigBlindPost, Min(d.players[bp].chips, setup.bigBlind), Preflop)]
  }

  /** The opening state, written out. */
  function BlindState(setup: Setup, blinds: Blinds, d: Dealing, sp: nat, bp: nat): GameState
    requires sp < |d.players| && bp < |d.players|
  {
    OpenBetting(Opening(setup, blinds, d).(
      players := AfterBlinds(d.players, sp, bp, setup.smallBlind, setup.bigBlind),
      history := BlindHistory(setup, d, sp, bp)))
  }

  lemma BlindsArePosted(setup: Setup, blinds: Blinds, d: Dealing, sp: nat, bp: nat)
    requires ValidSetup(setup) && FreshTable(d.players) && sp < |d.players| && bp < |d.players| && sp != bp
    requires d.players[sp].seatNo == blinds.smallBlindSeat && d.players[bp].seatNo == blinds.bigBlindSeat
    ensures var r1 := PostBlind(Opening(setup, blinds, d), blinds.smallBlindSeat, setup.smallBlind, SmallBlindPost);
      r1.Ok? && var r2 := PostBlind(r1.value, blinds.bigBlindSeat, setup.bigBlind, BigBlindPost);
      r2.Ok? && OpenBetting(r2.value) == BlindState(setup, blinds, d, sp, bp)
  {
    var s0 := Opening(setup, blinds, d);
    assert PlayerOk(d.players[sp]) && PlayerOk(d.players[bp]);
    PostBlindAt(s0, sp, setup.smallBlind, SmallBlindPost);
    var s1 := PostBlind(s0, blinds.smallBlindSeat, setup.smallBlind, SmallBlindPost).value;
    assert s1.players[bp] == d.players[bp];
    assert SeatsAscend(s1.players);
    PostBlindAt(s1, bp, setup.bigBlind, BigBlindPost);
  }

  /** The state normalizeAfterAction first sees. */
  ghost predicate OpensAs(setup: Setup, d: Dealing, s: GameState, bp: nat) {
    && bp < |s.players| && s.street != Showdown
    && CreateInitialGameState(setup) == NormalizeAfterAction(s, s.players[bp].seatNo)
    && Mid(s, bp) && ContenderCount(s.players) >= 2 && Covered(s.players)
    && HistoryReplays(s)
    && s.board == [] && s.deck == d.deck && |s.players| == |d.players|
    && (forall k :: 0 <= k < |d.players| ==> Identity(s.players[k]) == Identity(d.players[k]))
    && s.smallBlind == setup.smallBlind && s.bigBlind == setup.bigBlind
    && ResolveSetup(setup).Ok? && s.dealerSeat == ResolveSetup(setup).value.dealerSeat
  }

  lemma OpeningIsMid(setup: Setup, blinds: Blinds, d: Dealing, sp: nat, bp: nat)
    requires ValidSetup(setup) && |d.deck| >= 5
    requires FreshTable(d.players) && NeighbourPositions(d.players, sp, bp)
    requires SeatTaken(d.players, blinds.dealerSeat)
    ensures var s := BlindState(setup, blinds, d, sp, bp);
      Mid(s, bp) && ContenderCount(s.players) >= 2 && Covered(s.players)
  {
    var s := BlindState(setup, blinds, d, sp, bp);
    BlindsTableOk(d.players, sp, bp, setup.smallBlind, setup.bigBlind);
    BlindsOption(d.players, sp, bp, setup.smallBlind, setup.bigBlind);
    BlindsCovered(d.players, sp, bp, setup.smallBlind, setup.bigBlind);
    BlindsKeepSeat(d.players, sp, bp, setup.smallBlind, setup.bigBlind, blinds.dealerSeat);
    assert Underway(s);
  }

  lemma BlindsKeepSeat(players: seq<Player>, sp: nat, bp: nat, small: int, big: int, seat: int)
    requires sp < |players| && bp < |players| && SeatTaken(players, seat)
    ensures SeatTaken(AfterBlinds(players, sp, bp, small, big), seat)
  {
    var k :| 0 <= k < |players| && players[k].seatNo == seat;
    assert AfterBlinds(players, sp, bp, small, big)[k].seatNo == seat;
  }

  lemma DealtRounds(setup: Setup) returns (d: Dealing)
    requires ValidSetup(setup)
    ensures var sorted := Sort(setup.players, SeatLeq); var start := DealRound(Dealing(SeatAll(sorted), setup.deck), 0);
      start.Ok? && DealRound(start.value, 0) == Ok(d)
      && HandsDealt(sorted, setup.deck, |WithChips(setup.players)|, d)
    ensures |d.deck| >= 5
  {
    var sorted := Sort(setup.players, SeatLeq);
    SortWithChips(setup.players);
    forall i | 0 <= i < |sorted| ensures sorted[i].chips >= 0 {
      SortMembers(setup.players, SeatLeq, sorted[i]);
      var j :| 0 <= j < |setup.players| && setup.players[j] == sorted[i];
    }
    d := TwoRounds(sorted, setup.deck);
  }

  /** Where the blinds and the button are among the dealt players. */
  lemma OpeningPositions(setup: Setup, d: Dealing) returns (sp: nat, bp: nat)
    requires ValidSetup(setup)
    requires HandsDealt(Sort(setup.players, SeatLeq), setup.deck, |WithChips(setup.players)|, d)
    ensures ResolveSetup(setup).Ok? && NeighbourPositions(d.players, sp, bp)
    ensures var blinds := ResolveSetup(setup).value;
      && d.players[sp].seatNo == blinds.smallBlindSeat && d.players[bp].seatNo == blinds.bigBlindSeat
      && SeatTaken(d.players, blinds.dealerSeat)
  {
    BlindsResolved(setup);
    var blinds := ResolveSetup(setup).value;
    sp := LivePosition(setup, d, blinds.smallBlindSeat);
    bp := LivePosition(setup, d, blinds.bigBlindSeat);
    var dp := LivePosition(setup, d, blinds.dealerSeat);
    BlindPositions(setup, d, sp, bp);
  }

  /** createInitialGameState is normalizeAfterAction on that opening state. */
  lemma OpeningPath(setup: Setup, blinds: Blinds, d: Dealing, sp: nat, bp: nat)
    requires ValidSetup(setup) && ResolveSetup(setup) == Ok(blinds)
    requires FreshTable(d.players) && sp < |d.players| && bp < |d.players| && sp != bp
    requires d.players[sp].seatNo == blinds.smallBlindSeat && d.players[bp].seatNo == blinds.bigBlindSeat
    requires var start := DealRound(Dealing(SeatAll(Sort(setup.players, SeatLeq)), setup.deck), 0);
      start.Ok? && DealRound(start.value, 0) == Ok(d)
    ensures CreateInitialGameState(setup) ==
      NormalizeAfterAction(BlindState(setup, blinds, d, sp, bp), blinds.bigBlindSeat)
  {
    BlindsArePosted(setup, blinds, d, sp, bp);
  }

  lemma BlindStateFacts(setup: Setup, blinds: Blinds, d: Dealing, sp: nat, bp: nat)
    requires ValidSetup(setup) && FreshTable(d.players) && sp < |d.players| && bp < |d.players| && sp != bp
    ensures var s := BlindState(setup, blinds, d, sp, bp);
      && HistoryReplays(s) && s.board == [] && s.deck == d.deck && |s.players| == |d.players|
      && s.players[bp].seatNo == d.players[bp].seatNo
      && forall k :: 0 <= k < |d.players| ==> Identity(s.players[k]) == Identity(d.players[k])
  {
    var s := BlindState(setup, blinds, d, sp, bp);
    BlindsReplay(s, d.players, sp, bp, setup.smallBlind, setup.bigBlind);
  }

  lemma OpeningState(setup: Setup) returns (d: Dealing, s: GameState, bp: nat)
    requires ValidSetup(setup)
    ensures HandsDealt(Sort(setup.players, SeatLeq), setup.deck, |WithChips(setup.players)|, d)
    ensures OpensAs(setup, d, s, bp)
  {
    d := DealtRounds(setup);
    var sp;
    sp, bp := OpeningPositions(setup, d);
    var blinds := ResolveSetup(setup).value;
    DealtTableIsFresh(setup, d);
    OpeningPath(setup, blinds, d, sp, bp);
    BlindStateFacts(setup, blinds, d, sp, bp);
    OpeningIsMid(setup, blinds, d, sp, bp);
    s := BlindState(setup, blinds, d, sp, bp);
  }

  /** A valid table always gets a hand, and it starts in the invariant or, with nobody left to bet, at its showdown. */
  lemma HandOpens(setup: Setup)
    requires ValidSetup(setup)
    ensures CreateInitialGameState(setup).Ok? && Sound(CreateInitialGameState(setup).value)
  {
    var d, s, bp := OpeningState(setup);
    NormalizeOutcome(s, bp);
    UnderwayFacts(s);
    var r := CreateInitialGameState(setup).value;
    if ShowdownEnd(s, r) {
      ShowdownCloses(s, r);
    }
  }
}
