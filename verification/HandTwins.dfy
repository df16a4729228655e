/** Two results about pairs of hands: ALL_IN is RAISE by another name, and hole
    cards have no influence on anything public before a showdown. */
module HandTwins {
  import opened Sequences
  import opened Engine
  import opened TurnOrder
  import opened HandInvariant
  import opened HandRuns
  import opened HandStart
  import opened HandTheorems
  import opened HandRelations
  import opened LegalActions

  // ---------- ALL_IN above a bet is RAISE to the same total ----------

  /** The player can put in more than the standing bet. */
  ghost predicate CanShoveOver(s: GameState, t: nat)
    requires t < |s.players|
  {
    s.currentBet > 0 && s.players[t].investedThisStreet + s.players[t].chips > s.currentBet
  }

  function ShoveTotal(s: GameState, t: nat): Option<int>
    requires t < |s.players|
  {
    Some(s.players[t].investedThisStreet + s.players[t].chips)
  }

  /** The two mutations may clear different acted flags and name different aggressors, but only for players the new bet
      forces to act in any case. */
  lemma ShoveMutations(s: GameState, t: nat) returns (m: Moved, n: Moved)
    requires t < |s.players| && CanAct(s.players[t]) && s.minRaise > 0 && CanShoveOver(s, t)
    requires forall k :: 0 <= k < |s.players| ==> 0 <= s.players[k].investedThisStreet <= s.currentBet
    ensures ApplyMove(BettingOf(s), t, AllInMove, None) == Ok(m)
    ensures ApplyMove(BettingOf(s), t, Raise, ShoveTotal(s, t)) == Ok(n)
    ensures m.amount == n.amount && BettingAlike(SharedCards, m.betting, n.betting)
  {
    var b := BettingOf(s);
    var total := b.players[t].investedThisStreet + b.players[t].chips;
    m, n := ApplyMove(b, t, AllInMove, None).value, ApplyMove(b, t, Raise, Some(total)).value;
    forall k | 0 <= k < |b.players|
      ensures CoreAlike(m.betting.players[k], n.betting.players[k])
      ensures FlagsAgree(m.betting.players[k], n.betting.players[k], m.betting.currentBet)
    {
      assert k != t ==> m.betting.players[k].investedThisStreet < total;
    }
  }

  lemma StreetsWithinBet(s: GameState)
    requires Inv(s)
    ensures forall k :: 0 <= k < |s.players| ==> 0 <= s.players[k].investedThisStreet <= s.currentBet
  {
    forall k | 0 <= k < |s.players| ensures 0 <= s.players[k].investedThisStreet <= s.currentBet {
      assert PlayerOk(s.players[k]);
    }
  }

  lemma ShovesRecorded(s: GameState, t: nat, m: Moved, n: Moved)
    requires t < |s.players| && s.status == Playing
    requires BettingAlike(SharedCards, m.betting, n.betting) && m.amount == n.amount
    ensures Alike(SharedCards, Record(s, t, AllInMove, m), Record(s, t, Raise, n))
  {
    SameMoney(m.betting.players, n.betting.players);
  }

  lemma ShoveAccepted(s: GameState, t: nat)
    requires Inv(s) && TurnAt(s, t) && CanShoveOver(s, t)
    ensures ResultsAlike(SharedCards,
      ApplyGameAction(s, Request(s, t, AllInMove, None)), ApplyGameAction(s, Request(s, t, Raise, ShoveTotal(s, t))))
  {
    TurnFacts(s, t);
    StreetsWithinBet(s);
    var m, n := ShoveMutations(s, t);
    ShovesRecorded(s, t, m, n);
    AcceptedIff(s, t, Request(s, t, AllInMove, None));
    AcceptedIff(s, t, Request(s, t, Raise, ShoveTotal(s, t)));
    MutatedIsMid(s, t, AllInMove, None);
    MutatedIsMid(s, t, Raise, ShoveTotal(s, t));
    NormalizeAlike(SharedCards, Mutated(s, t, AllInMove, None), Mutated(s, t, Raise, ShoveTotal(s, t)), t);
  }

  /** What anybody can tell about a hand, and be paid by it. */
  ghost predicate SameOutcome(r: GameState, q: GameState) {
    && r.status == q.status && r.street == q.street && r.turn == q.turn
    && r.pot == q.pot && r.currentBet == q.currentBet && r.minRaise == q.minRaise
    && r.board == q.board && r.deck == q.deck && r.winnerInfo == q.winnerInfo
    && |r.players| == |q.players|
    && (forall i :: 0 <= i < |r.players| ==> r.players[i].(hasActed := q.players[i].hasActed) == q.players[i])
    && (forall seat :: Legal(r, seat) == Legal(q, seat))
  }

  lemma AlikeIsSameOutcome(r: GameState, q: GameState)
    requires Alike(SharedCards, r, q)
    ensures SameOutcome(r, q)
  {
    forall i | 0 <= i < |r.players| ensures r.players[i].(hasActed := q.players[i].hasActed) == q.players[i] {
      assert CoreAlike(r.players[i], q.players[i]);
    }
    forall seat ensures Legal(r, seat) == Legal(q, seat) {
      SameOffers(r, q, seat);
    }
  }

  lemma SameOffers(r: GameState, q: GameState, seat: int)
    requires Alike(SharedCards, r, q)
    ensures Legal(r, seat) == Legal(q, seat)
  {
    assert SeatsOf(r.players) == SeatsOf(q.players) by { SameMoney(r.players, q.players); }
    SamePosition(r.players, q.players, seat);
    var k := PositionOf(r.players, seat);
    if k < |r.players| {
      assert CoreAlike(r.players[k], q.players[k]);
      assert CheckOrCall(r.players[k], r.currentBet) == CheckOrCall(q.players[k], q.currentBet);
      assert BetOrRaise(r, r.players[k]) == BetOrRaise(q, q.players[k]);
    }
  }

  /** From any reachable state, going all-in over a bet and raising to the same total are both accepted, and under every
      later sequence of requests the two hands give the same answers, turns, streets, stacks, bets, offers and
      payouts. */
  lemma AllInIsRaise(s: GameState, t: nat, inputs: seq<Input>, next: Input)
    requires Inv(s) && TurnAt(s, t) && CanShoveOver(s, t)
    ensures var shove := ApplyGameAction(s, Request(s, t, AllInMove, None));
      var raised := ApplyGameAction(s, Request(s, t, Raise, ShoveTotal(s, t)));
      && shove.Ok? && raised.Ok? && Sound(shove.value) && Sound(raised.value)
      && SameOutcome(Run(shove.value, inputs), Run(raised.value, inputs))
      && SameAnswer(Run(shove.value, inputs), Run(raised.value, inputs), next)
  {
    ShoveAccepted(s, t);
    StepKeepsSound(s, Request(s, t, AllInMove, None));
    StepKeepsSound(s, Request(s, t, Raise, ShoveTotal(s, t)));
    var shove := ApplyGameAction(s, Request(s, t, AllInMove, None)).value;
    var raised := ApplyGameAction(s, Request(s, t, Raise, ShoveTotal(s, t))).value;
    RunInStep(SharedCards, shove, raised, inputs);
    AlikeIsSameOutcome(Run(shove, inputs), Run(raised, inputs));
    StepInStep(SharedCards, Run(shove, inputs), Run(raised, inputs), next);
  }

  /** Both hands accept the request, or both refuse it with the same error. */
  ghost predicate SameAnswer(r: GameState, q: GameState, input: Input) {
    && OnAStreet(r) && OnAStreet(q)
    && var a, b := ApplyGameAction(r, input), ApplyGameAction(q, input);
    (a.Err? <==> b.Err?) && (a.Err? ==> a.error == b.error)
  }

  // ---------- hole cards do not leak before a showdown ----------

  /** toPublicGameState. */
  function PublicView(s: GameState): GameState {
    s.(deck := [], players := seq(|s.players|, i requires 0 <= i < |s.players| => s.players[i].(holeCards := [])))
  }

  lemma AlikeIsSamePublic(r: GameState, q: GameState)
    requires Alike(SharedFlags, r, q)
    ensures PublicView(r) == PublicView(q)
  {
    forall i | 0 <= i < |r.players| ensures PublicView(r).players[i] == PublicView(q).players[i] {
      assert CoreAlike(r.players[i], q.players[i]);
    }
  }

  /** The same table with another deck that puts the same five cards on the board. */
  ghost predicate SameBut(a: Setup, b: Setup) {
    && ValidSetup(a) && b == a.(deck := b.deck)
    && var n := |WithChips(a.players)|;
    |b.deck| >= 2 * n + 5 && a.deck[2 * n..2 * n + 5] == b.deck[2 * n..2 * n + 5]
  }

  /** Two deals of the same table differ in hole cards and the rest of the deck only. */
  lemma DealtAlike(a: Setup, b: Setup, d: Dealing, e: Dealing)
    requires SameBut(a, b)
    requires HandsDealt(Sort(a.players, SeatLeq), a.deck, |WithChips(a.players)|, d)
    requires HandsDealt(Sort(b.players, SeatLeq), b.deck, |WithChips(b.players)|, e)
    ensures |d.players| == |e.players|
    ensures forall k :: 0 <= k < |d.players| ==> d.players[k].(holeCards := []) == e.players[k].(holeCards := [])
    ensures |d.deck| >= 5 && |e.deck| >= 5 && d.deck[..5] == e.deck[..5]
  {
    var sorted, n := Sort(a.players, SeatLeq), |WithChips(a.players)|;
    forall k | 0 <= k < |d.players| ensures d.players[k].(holeCards := []) == e.players[k].(holeCards := []) {
      assert HandDealt(sorted, a.deck, n, d, k) && HandDealt(sorted, b.deck, n, e, k);
    }
    assert d.deck[..5] == a.deck[2 * n..2 * n + 5] && e.deck[..5] == b.deck[2 * n..2 * n + 5];
  }

  lemma {:induction false} SameMaxStreet(ps: seq<Player>, qs: seq<Player>)
    requires |ps| == |qs| && ps != []
    requires forall i :: 0 <= i < |ps| ==> ps[i].investedThisStreet == qs[i].investedThisStreet
    ensures MaxStreet(ps) == MaxStreet(qs)
  {
    if |ps| > 1 {
      SameMaxStreet(ps[..|ps| - 1], qs[..|qs| - 1]);
    }
  }

  lemma BlindTablesAlike(ps: seq<Player>, qs: seq<Player>, sp: nat, bp: nat, small: int, big: int)
    requires |ps| == |qs| && sp < |ps| && bp < |ps|
    requires forall k :: 0 <= k < |ps| ==> ps[k].(holeCards := []) == qs[k].(holeCards := [])
    ensures var ms, ns := AfterBlinds(ps, sp, bp, small, big), AfterBlinds(qs, sp, bp, small, big);
      forall k :: 0 <= k < |ms| ==> CoreAlike(ms[k], ns[k]) && ms[k].hasActed == ns[k].hasActed
  {
    var ms, ns := AfterBlinds(ps, sp, bp, small, big), AfterBlinds(qs, sp, bp, small, big);
    assert ps[sp].(holeCards := []) == qs[sp].(holeCards := []);
    assert ps[bp].(holeCards := []) == qs[bp].(holeCards := []);
    forall k | 0 <= k < |ms| ensures CoreAlike(ms[k], ns[k]) && ms[k].hasActed == ns[k].hasActed {
      assert ps[k].(holeCards := []) == qs[k].(holeCards := []);
    }
  }

  lemma OpenBettingAlike(s: GameState, t: GameState)
    requires |s.players| == |t.players| && s.players != []
    requires forall k :: 0 <= k < |s.players| ==>
      CoreAlike(s.players[k], t.players[k]) && s.players[k].hasActed == t.players[k].hasActed
    requires t == s.(deck := t.deck, players := t.players) && SameBoardToCome(s, t)
    ensures Alike(SharedFlags, OpenBetting(s), OpenBetting(t))
  {
    OpenBettingSame(s, t);
  }

  lemma OpenBettingSame(s: GameState, t: GameState)
    requires |s.players| == |t.players| && s.players != [] && t == s.(deck := t.deck, players := t.players)
    requires forall k :: 0 <= k < |s.players| ==>
      CoreAlike(s.players[k], t.players[k]) && s.players[k].hasActed == t.players[k].hasActed
    ensures OpenBetting(t) == OpenBetting(s).(deck := t.deck, players := t.players)
  {
    SameMaxStreet(s.players, t.players);
    SameMoney(s.players, t.players);
    var bet := MaxStreet(s.players);
    SameNeedsExactly(s.players, t.players, bet);
    SameTurn(s.players, t.players, bet, s.bigBlindSeat, |s.players|);
  }

  lemma BlindStatesAlike(a: Setup, b: Setup, blinds: Blinds, d: Dealing, e: Dealing, sp: nat, bp: nat)
    requires b == a.(deck := b.deck) && |d.players| == |e.players| && sp < |d.players| && bp < |d.players|
    requires forall k :: 0 <= k < |d.players| ==> d.players[k].(holeCards := []) == e.players[k].(holeCards := [])
    requires |d.deck| >= 5 && |e.deck| >= 5 && d.deck[..5] == e.deck[..5]
    ensures Alike(SharedFlags, BlindState(a, blinds, d, sp, bp), BlindState(b, blinds, e, sp, bp))
  {
    BlindTablesAlike(d.players, e.players, sp, bp, a.smallBlind, a.bigBlind);
    assert d.players[sp].(holeCards := []) == e.players[sp].(holeCards := []);
    assert d.players[bp].(holeCards := []) == e.players[bp].(holeCards := []);
    OpenBettingAlike(
      Opening(a, blinds, d).(players := AfterBlinds(d.players, sp, bp, a.smallBlind, a.bigBlind),
        history := BlindHistory(a, d, sp, bp)),
      Opening(b, blinds, e).(players := AfterBlinds(e.players, sp, bp, b.smallBlind, b.bigBlind),
        history := BlindHistory(b, e, sp, bp)));
  }

  lemma SameNeedsExactly(ps: seq<Player>, qs: seq<Player>, bet: int)
    requires |ps| == |qs| && forall i :: 0 <= i < |ps| ==> CoreAlike(ps[i], qs[i]) && ps[i].hasActed == qs[i].hasActed
    ensures forall i :: 0 <= i < |ps| ==> (NeedsAction(ps[i], bet) <==> NeedsAction(qs[i], bet))
  {
  }

  lemma DealsInStep(a: Setup, b: Setup)
    requires SameBut(a, b)
    ensures ValidSetup(b) && InStep(SharedFlags, Deal(a), Deal(b))
  {
    var d := DealtRounds(a);
    var e := DealtRounds(b);
    var sp, bp := OpeningPositions(a, d);
    var sp', bp' := OpeningPositions(b, e);
    var blinds := ResolveSetup(a).value;
    DealtAlike(a, b, d, e);
    DealtTableIsFresh(a, d);
    DealtTableIsFresh(b, e);
    SeatsMatch(d.players, e.players, sp, sp');
    SeatsMatch(d.players, e.players, bp, bp');
    OpeningPath(a, blinds, d, sp, bp);
    OpeningPath(b, blinds, e, sp, bp);
    OpeningIsMid(a, blinds, d, sp, bp);
    OpeningIsMid(b, blinds, e, sp, bp);
    BlindStatesAlike(a, b, blinds, d, e, sp, bp);
    BlindStateFacts(a, blinds, d, sp, bp);
    NormalizeAlike(SharedFlags, BlindState(a, blinds, d, sp, bp), BlindState(b, blinds, e, sp, bp), bp);
  }

  lemma SeatsMatch(ps: seq<Player>, qs: seq<Player>, k: nat, l: nat)
    requires |ps| == |qs| && k < |ps| && l < |qs| && SeatsAscend(ps) && ps[k].seatNo == qs[l].seatNo
    requires forall i :: 0 <= i < |ps| ==> ps[i].(holeCards := []) == qs[i].(holeCards := [])
    ensures k == l
  {
    assert ps[l].(holeCards := []) == qs[l].(holeCards := []);
    SeatsFollowPositions(ps, k, l);
  }

  /** Two hands at the same table whose decks agree on the five board cards: under the same requests they give the same
      answers and show the public the same state at every step, until both reach a showdown. Fold finishes included. */
  lemma HoleCardsStayPrivate(a: Setup, b: Setup, inputs: seq<Input>, next: Input)
    requires SameBut(a, b)
    ensures ValidSetup(b)
    ensures var r, q := Run(Deal(a), inputs), Run(Deal(b), inputs);
      (PublicView(r) == PublicView(q) && SameAnswer(r, q, next)) || BothShowdown(SharedFlags, r, q)
  {
    DealsInStep(a, b);
    RunInStep(SharedFlags, Deal(a), Deal(b), inputs);
    var r, q := Run(Deal(a), inputs), Run(Deal(b), inputs);
    StepInStep(SharedFlags, r, q, next);
    if Alike(SharedFlags, r, q) {
      AlikeIsSamePublic(r, q);
    }
  }
}
