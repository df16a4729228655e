/** Table rules that span several operations: where the blinds sit, who has to
    answer a bet, and how big the next raise must be. */
module HandRules {
  import opened Sequences
  import opened Engine
  import opened TurnOrder
  import opened HandInvariant
  import opened HandStep
  import opened HandRuns
  import opened HandProgress
  import opened HandStart

  // ---------- the blinds ----------

  /** The dealer keeps the button when live. Heads up the dealer posts the small blind and the other player the big
      blind; otherwise the blinds are the next two live seats clockwise of the dealer. */
  lemma BlindsFollowButton(live: seq<int>, dealer: int)
    requires StrictlyAscending(live) && |live| >= 2
    ensures ResolveBlindSeats(live, dealer).Ok?
    ensures var b, n := ResolveBlindSeats(live, dealer).value, |live|;
      && b.dealerSeat in live && (dealer in live ==> b.dealerSeat == dealer)
      && var k := IndexOf(live, b.dealerSeat);
         var small := if n == 2 then k else Clockwise(k, 1, n);
         b.smallBlindSeat == live[small] && b.bigBlindSeat == live[Clockwise(small, 1, n)]
  {
    SortSeats(live);
    NormalizedIsLive(dealer, live);
    var k := IndexOf(live, NormalizeDealerSeat(dealer, live));
    NextSeatAt(live, k);
    NextSeatAt(live, Clockwise(k, 1, |live|));
  }

  ghost predicate NoneBeyond(seats: seq<int>, seat: int) {
    forall s :: s in seats ==> s <= seat
  }

  /** The first live seat clockwise of a seat: the next higher one, or the lowest of all. */
  ghost predicate FirstBeyond(live: seq<int>, seat: int, next: int) {
    && next in live
    && (forall s :: s in live && s > seat ==> seat < next <= s)
    && (NoneBeyond(live, seat) ==> forall s :: s in live ==> next <= s)
  }

  lemma {:induction false} FirstGreaterUpTo(seats: seq<int>, current: int, fallback: int, i: nat)
    requires StrictlyAscending(seats) && i < |seats| && seats[i] > current
    ensures current < FirstGreater(seats, current, fallback) <= seats[i]
    ensures FirstGreater(seats, current, fallback) in seats
  {
    if seats[0] <= current {
      FirstGreaterUpTo(seats[1..], current, fallback, i - 1);
    }
  }

  lemma {:induction false} NoneGreater(seats: seq<int>, current: int, fallback: int)
    requires NoneBeyond(seats, current)
    ensures FirstGreater(seats, current, fallback) == fallback
  {
    if seats != [] {
      assert seats[0] in seats;
      forall s | s in seats[1..] ensures s <= current {
        assert s in seats;
      }
      NoneGreater(seats[1..], current, fallback);
    }
  }

  lemma FirstGreaterIsNext(seats: seq<int>, current: int)
    requires StrictlyAscending(seats) && seats != []
    ensures FirstBeyond(seats, current, FirstGreater(seats, current, seats[0]))
  {
    FirstGreaterIn(seats, current, seats[0]);
    var next := FirstGreater(seats, current, seats[0]);
    forall s | s in seats && s > current ensures current < next <= s {
      var i :| 0 <= i < |seats| && seats[i] == s;
      FirstGreaterUpTo(seats, current, seats[0], i);
    }
    if NoneBeyond(seats, current) {
      NoneGreater(seats, current, seats[0]);
      forall s | s in seats ensures next <= s {
        var i :| 0 <= i < |seats| && seats[i] == s;
      }
    }
  }

  /** The button of a new hand: the seat asked for when it holds chips, the next seat that does otherwise, and the
      lowest one when none is asked for. */
  lemma ButtonIsSet(setup: Setup)
    requires ValidSetup(setup)
    ensures ResolveSetup(setup).Ok?
    ensures var live, b := LiveSeats(setup.players), ResolveSetup(setup).value;
      && StrictlyAscending(live) && (forall s :: s in live <==> HasChips(setup.players, s))
      && b.dealerSeat in live && Ok(b) == ResolveBlindSeats(live, b.dealerSeat)
      && match setup.dealerSeat
         case None => b.dealerSeat == live[0]
         case Some(seat) => if seat in live then b.dealerSeat == seat else FirstBeyond(live, seat, b.dealerSeat)
  {
    var live := LiveSeats(setup.players);
    BlindsResolved(setup);
    LiveSeatsFacts(setup.players);
    SortSeats(live);
    NormalizedIsLive(setup.dealerSeat.GetOr(live[0]), live);
    if setup.dealerSeat.Some? && setup.dealerSeat.value !in live {
      FirstGreaterIsNext(live, setup.dealerSeat.value);
    }
  }

  /** Both blinds are in and recorded, as far as the stacks go, nobody else has invested, and the bet is the larger of
      the two. */
  ghost predicate BlindsIn(setup: Setup, m: GameState, sp: nat, bp: nat) {
    && sp < |m.players| && bp < |m.players| && sp != bp
    && m.players[sp].investedThisHand == Min(m.players[sp].startHandChips, setup.smallBlind)
    && m.players[bp].investedThisHand == Min(m.players[bp].startHandChips, setup.bigBlind)
    && (forall k :: 0 <= k < |m.players| && k != sp && k != bp ==> m.players[k].investedThisHand == 0)
    && m.currentBet == Max(m.players[sp].investedThisHand, m.players[bp].investedThisHand)
    && m.minRaise == setup.bigBlind && m.lastAggressor == Some(m.players[bp].seatNo)
    && m.history == [
      Entry(m.players[sp].seatNo, SmallBlindPost, m.players[sp].investedThisHand, Preflop),
      Entry(m.players[bp].seatNo, BigBlindPost, m.players[bp].investedThisHand, Preflop)]
  }

  /** Every hand opens from posted blinds, and the turn is offered clockwise from the big blind. */
  lemma OpeningBlinds(setup: Setup) returns (m: GameState, sp: nat, bp: nat)
    requires ValidSetup(setup)
    ensures ResolveSetup(setup).Ok? && BlindsIn(setup, m, sp, bp)
    ensures m.players[sp].seatNo == ResolveSetup(setup).value.smallBlindSeat
    ensures m.players[bp].seatNo == ResolveSetup(setup).value.bigBlindSeat
    ensures m.street == Preflop && CreateInitialGameState(setup) == NormalizeAfterAction(m, m.players[bp].seatNo)
    ensures m.turn.Some? ==>
      exists t: nat :: ActsNext(m.players, m.currentBet, bp, t) && m.turn == Some(m.players[t].seatNo)
  {
    var d := DealtRounds(setup);
    sp, bp := OpeningPositions(setup, d);
    var blinds := ResolveSetup(setup).value;
    DealtTableIsFresh(setup, d);
    OpeningPath(setup, blinds, d, sp, bp);
    m := BlindState(setup, blinds, d, sp, bp);
    PostedBlinds(d.players, sp, bp, setup.smallBlind, setup.bigBlind);
    var t := NearestActs(m.players, m.currentBet, bp);
  }

  lemma PostedBlinds(players: seq<Player>, sp: nat, bp: nat, small: int, big: int)
    requires FreshTable(players) && sp < |players| && bp < |players| && sp != bp && 0 < small < big
    ensures var after := AfterBlinds(players, sp, bp, small, big);
      && SeatsAscend(after)
      && after[sp].investedThisHand == Min(after[sp].startHandChips, small)
      && after[bp].investedThisHand == Min(after[bp].startHandChips, big)
      && (forall k :: 0 <= k < |after| && k != sp && k != bp ==> after[k].investedThisHand == 0)
      && MaxStreet(after) == Max(after[sp].investedThisHand, after[bp].investedThisHand)
  {
    var after := AfterBlinds(players, sp, bp, small, big);
    assert PlayerOk(players[sp]) && PlayerOk(players[bp]);
    forall k | 0 <= k < |players| ensures players[k].investedThisStreet == 0 {
      assert PlayerOk(players[k]);
    }
    MaxStreetBounds(after);
  }

  // ---------- who has to answer ----------

  /** After an accepted action the actor is done. If the action raised the bet, by a full raise or a short one,
      everybody else who can act has to answer; if it did not, exactly those who had to act before still do. */
  lemma WhoMustAnswer(s: GameState, t: nat, move: Move, amount: Option<int>)
    requires Inv(s) && TurnAt(s, t) && ApplyMove(BettingOf(s), t, move, amount).Ok?
    ensures var m := Mutated(s, t, move, amount);
      && !NeedsAction(m.players[t], m.currentBet) && m.currentBet >= s.currentBet
      && forall k :: 0 <= k < |s.players| && k != t ==>
        (NeedsAction(m.players[k], m.currentBet) <==>
          CanAct(s.players[k]) && (m.currentBet > s.currentBet || NeedsAction(s.players[k], s.currentBet)))
  {
    TurnFacts(s, t);
    MoveHasEffect(BettingOf(s), t, move, amount);
    AnswersAfter(BettingOf(s), t, ApplyMove(BettingOf(s), t, move, amount).value, move == Fold);
  }

  lemma AnswersAfter(b: Betting, t: nat, m: Moved, fold: bool)
    requires t < |b.players| && Effect(b, t, m.betting, m.amount, fold)
    requires forall k :: 0 <= k < |b.players| ==> b.players[k].investedThisStreet <= b.currentBet
    ensures |m.betting.players| == |b.players| && !NeedsAction(m.betting.players[t], m.betting.currentBet)
    ensures m.betting.currentBet >= b.currentBet
    ensures forall k :: 0 <= k < |b.players| && k != t ==> (NeedsAction(m.betting.players[k], m.betting.currentBet) <==>
      CanAct(b.players[k]) && (m.betting.currentBet > b.currentBet || NeedsAction(b.players[k], b.currentBet)))
  {
  }

  // ---------- how big the next raise must be ----------

  /** A hand that stays on its street has only passed the turn. */
  lemma SameStreetPasses(m: GameState, a: nat, r: GameState)
    requires Mid(m, a) && NormalizeAfterAction(m, m.players[a].seatNo) == Ok(r) && r.status == Playing
    requires r.street == m.street
    ensures r == PassTurn(WithPot(m), m.players[a].seatNo)
  {
    var from := m.players[a].seatNo;
    if ContenderCount(m.players) == 1 {
      OneContenderEnds(m, from);
    } else if !NobodyCanBet(m.players) && IsBettingRoundComplete(m.players, m.currentBet) && m.street != River {
      NextStreetStarts(m, a);
      NormalizeAdvances(m, from);
      AdvanceIsLater(m, r);
    } else {
      StaysOrEnds(m, a, r);
    }
  }

  /** By how much an accepted action raised the bet. */
  function Raised(s: GameState, r: GameState): int {
    r.currentBet - s.currentBet
  }

  /** An accepted action after which the hand is still on the same street. */
  ghost predicate StaysOnStreet(s: GameState, t: nat, input: Input, r: GameState) {
    && Inv(s) && TurnAt(s, t) && ApplyGameAction(s, input) == Ok(r) && r.status == Playing && r.street == s.street
  }

  lemma BettingKept(s: GameState, t: nat, input: Input, r: GameState)
    requires StaysOnStreet(s, t, input, r)
    ensures ApplyMove(BettingOf(s), t, input.move, input.amount).Ok?
    ensures BettingOf(r) == ApplyMove(BettingOf(s), t, input.move, input.amount).value.betting
  {
    AcceptedIff(s, t, input);
    MutatedIsMid(s, t, input.move, input.amount);
    SameStreetPasses(Mutated(s, t, input.move, input.amount), t, r);
  }

  lemma RaiseIsKept(s: GameState, t: nat, input: Input, r: GameState)
    requires StaysOnStreet(s, t, input, r)
    ensures Raised(s, r) > 0 && (Raised(s, r) >= s.minRaise || s.currentBet == 0) ==> r.minRaise >= Raised(s, r)
  {
    BettingKept(s, t, input, r);
    TurnFacts(s, t);
    FullRaiseIsRemembered(BettingOf(s), t, input.move, input.amount);
  }

  /** Once a bet stands, no action on the street lowers it or the minimum raise. */
  lemma StandingBetKeepsMinimum(s: GameState, t: nat, input: Input, r: GameState)
    requires StaysOnStreet(s, t, input, r) && s.currentBet > 0
    ensures r.currentBet >= s.currentBet && r.minRaise >= s.minRaise
  {
    BettingKept(s, t, input, r);
    TurnFacts(s, t);
    MinimumNeverFalls(BettingOf(s), t, input.move, input.amount);
  }

  lemma MinimumNeverFalls(b: Betting, t: nat, move: Move, amount: Option<int>)
    requires t < |b.players| && b.currentBet > 0 && ApplyMove(b, t, move, amount).Ok?
    ensures var m := ApplyMove(b, t, move, amount).value.betting;
      m.currentBet >= b.currentBet && m.minRaise >= b.minRaise
  {
  }

  lemma StreetNeverGoesBack(s: GameState, input: Input)
    requires Sound(s) && Inv(Step(s, input))
    ensures Inv(s) && StreetsLeft(Step(s, input).street) <= StreetsLeft(s.street)
  {
    if Inv(s) {
      if ApplyGameAction(s, input).Ok? {
        StepLowers(s, input);
      }
    } else {
      FinishedStays(s, input);
    }
  }

  lemma FinishedStays(s: GameState, input: Input)
    requires Closed(s)
    ensures OnAStreet(s) && Step(s, input) == s
  {
  }

  /** The minimum raise and the bet have not gone down, if the street is still the same. */
  ghost predicate MinimumStands(r: GameState, q: GameState) {
    && StreetsLeft(q.street) <= StreetsLeft(r.street)
    && (q.street == r.street ==> q.currentBet >= r.currentBet && q.minRaise >= r.minRaise)
  }

  lemma StepKeepsMinimum(r: GameState, before: GameState, input: Input)
    requires Inv(before) && Inv(Step(before, input)) && r.currentBet > 0 && MinimumStands(r, before)
    ensures MinimumStands(r, Step(before, input))
  {
    var after := Step(before, input);
    StreetNeverGoesBack(before, input);
    StreetsAreNumbered(before.street, r.street);
    if after.street == r.street && before != after {
      StreetsAreNumbered(after.street, r.street);
      var t: nat :| TurnAt(before, t);
      StandingBetKeepsMinimum(before, t, input, after);
    }
  }

  /** Any requests after which the hand is still on the street of r leave its bet and minimum raise where they are or
      raise them. */
  lemma {:induction false} StreetKeepsMinimum(r: GameState, inputs: seq<Input>)
    requires Inv(r) && r.currentBet > 0 && Inv(Run(r, inputs))
    ensures MinimumStands(r, Run(r, inputs))
  {
    if inputs != [] {
      var n := |inputs| - 1;
      var before := Run(r, inputs[..n]);
      SoundOnAStreet(before);
      StreetNeverGoesBack(before, inputs[n]);
      StreetKeepsMinimum(r, inputs[..n]);
      StepKeepsMinimum(r, before, inputs[n]);
    }
  }

  lemma StreetsAreNumbered(a: Street, b: Street)
    ensures StreetsLeft(a) == StreetsLeft(b) <==> a == b
  {
  }

  lemma RaiseIsBigEnough(r: GameState, u: nat, next: Input)
    requires Inv(r) && TurnAt(r, u) && next.move == Raise && ApplyGameAction(r, next).Ok?
    ensures next.amount.Some?
    ensures
      || next.amount.value - r.currentBet >= r.minRaise
      || next.amount.value == r.players[u].investedThisStreet + r.players[u].chips
  {
    AcceptedIff(r, u, next);
  }

  /** Once a bet or a full raise by some amount has been made, every later raise on the street, whatever happens in
      between, must be by at least that amount, unless it puts the raiser all in. */
  lemma LaterRaisesMatch(s: GameState, t: nat, input: Input, r: GameState, inputs: seq<Input>, u: nat, next: Input)
    requires StaysOnStreet(s, t, input, r) && Inv(r)
    requires Raised(s, r) > 0 && (Raised(s, r) >= s.minRaise || s.currentBet == 0)
    requires Inv(Run(r, inputs)) && Run(r, inputs).street == s.street
    requires TurnAt(Run(r, inputs), u) && next.move == Raise && ApplyGameAction(Run(r, inputs), next).Ok?
    ensures var q := Run(r, inputs);
      && next.amount.Some?
      && (next.amount.value - q.currentBet >= Raised(s, r)
        || next.amount.value == q.players[u].investedThisStreet + q.players[u].chips)
  {
    RaiseIsKept(s, t, input, r);
    BettingKept(s, t, input, r);
    StreetKeepsMinimum(r, inputs);
    RaiseIsBigEnough(Run(r, inputs), u, next);
  }

  // ---------- a short raise reopens the betting ----------

  lemma ShortRaiseKeepsMinimum(b: Betting, t: nat, move: Move, amount: Option<int>)
    requires t < |b.players| && b.currentBet > 0 && ApplyMove(b, t, move, amount).Ok?
    ensures var m := ApplyMove(b, t, move, amount).value.betting;
      m.currentBet - b.currentBet < b.minRaise ==> m.minRaise == b.minRaise
  {
  }

  /** After a raise by less than the minimum, whoever is on turn may raise, players who had already acted included:
      RAISE is accepted exactly for totals above the bet, within the stack, and at least the unchanged minimum more
      or all in. */
  lemma ShortRaiseReopens(s: GameState, t: nat, input: Input, r: GameState, u: nat, amount: Option<int>)
    requires StaysOnStreet(s, t, input, r) && Inv(r) && s.currentBet > 0 && 0 < Raised(s, r) < s.minRaise
    requires TurnAt(r, u)
    ensures var p := r.players[u];
      ApplyGameAction(r, Input(p.seatNo, p.userId, Raise, amount)).Ok? <==>
        && amount.Some? && r.currentBet < amount.value <= p.investedThisStreet + p.chips
        && (amount.value - r.currentBet >= s.minRaise || amount.value == p.investedThisStreet + p.chips)
  {
    BettingKept(s, t, input, r);
    ShortRaiseKeepsMinimum(BettingOf(s), t, input.move, input.amount);
    var p := r.players[u];
    TurnFacts(r, u);
    AcceptedIff(r, u, Input(p.seatNo, p.userId, Raise, amount));
    RaiseAllowedIff(BettingOf(r), u, amount);
  }

  lemma RaiseAllowedIff(b: Betting, u: nat, amount: Option<int>)
    requires u < |b.players| && CanAct(b.players[u]) && 0 <= b.players[u].investedThisStreet <= b.currentBet
    requires b.currentBet > 0
    ensures var p := b.players[u];
      ApplyMove(b, u, Raise, amount).Ok? <==>
        && amount.Some? && b.currentBet < amount.value <= p.investedThisStreet + p.chips
        && (amount.value - b.currentBet >= b.minRaise || amount.value == p.investedThisStreet + p.chips)
  {
  }

  lemma FullRaiseIsRemembered(b: Betting, t: nat, move: Move, amount: Option<int>)
    requires t < |b.players| && CanAct(b.players[t]) && 0 <= b.players[t].investedThisStreet <= b.currentBet
    requires ApplyMove(b, t, move, amount).Ok?
    ensures var m := ApplyMove(b, t, move, amount).value.betting; var step := m.currentBet - b.currentBet;
      step > 0 && (step >= b.minRaise || b.currentBet == 0) ==> m.minRaise >= step
  {
  }
}
