/** What a hand promises over any sequence of attempted actions, from the deal
    to the end. */
module HandTheorems {
  import opened Sequences
  import opened Deck
  import Evaluator
  import opened Pots
  import opened Engine
  import opened TurnOrder
  import opened HandInvariant
  import opened HandAccounting
  import opened HandStep
  import opened HandRuns
  import opened HandStart

  /** The hand a setup deals. */
  ghost function Deal(setup: Setup): (s: GameState)
    requires ValidSetup(setup)
    ensures Sound(s) && CreateInitialGameState(setup) == Ok(s)
  {
    HandOpens(setup);
    CreateInitialGameState(setup).value
  }

  // ---------- chips ----------

  function ChipsOf(inputs: seq<SeatInput>): seq<int> {
    seq(|inputs|, i requires 0 <= i < |inputs| => inputs[i].chips)
  }

  lemma {:induction false} InsertChips(inputs: seq<SeatInput>, x: SeatInput)
    ensures Sum(ChipsOf(Insert(inputs, x, SeatLeq))) == Sum(ChipsOf(inputs)) + x.chips
  {
    var r := Insert(inputs, x, SeatLeq);
    assert ChipsOf(r)[..|inputs|] == ChipsOf(r[..|inputs|]);
    if inputs != [] {
      var n := |inputs| - 1;
      assert ChipsOf(inputs)[..n] == ChipsOf(inputs[..n]);
      InsertChips(inputs[..n], x);
      if SeatLeq(inputs[n], x) {
        assert r[..|inputs|] == inputs;
      } else {
        assert r[..|inputs|] == Insert(inputs[..n], x, SeatLeq);
      }
    }
  }

  lemma {:induction false} SortChips(inputs: seq<SeatInput>)
    ensures Sum(ChipsOf(Sort(inputs, SeatLeq))) == Sum(ChipsOf(inputs))
  {
    if inputs != [] {
      var n := |inputs| - 1;
      SortChips(inputs[..n]);
      InsertChips(Sort(inputs[..n], SeatLeq), inputs[n]);
      assert ChipsOf(inputs)[..n] == ChipsOf(inputs[..n]);
    }
  }

  /** How the hand starts: seats in order, each with its stack and its cards. */
  lemma DealFacts(setup: Setup) returns (d: Dealing)
    requires ValidSetup(setup)
    ensures HandsDealt(Sort(setup.players, SeatLeq), setup.deck, |WithChips(setup.players)|, d)
    ensures SameIdentities(d.players, Deal(setup).players)
    ensures Deal(setup).board + Deal(setup).deck == d.deck
  {
    var m, bp;
    d, m, bp := OpeningState(setup);
    var r := Deal(setup);
    OpeningKept(m, bp, r);
    forall i | 0 <= i < |d.players| ensures Identity(d.players[i]) == Identity(r.players[i]) {
      assert Identity(m.players[i]) == Identity(r.players[i]);
    }
    assert m.board + m.deck == m.deck;
  }

  lemma OpeningKept(m: GameState, bp: nat, r: GameState)
    requires bp < |m.players| && m.street != Showdown && NormalizeAfterAction(m, m.players[bp].seatNo) == Ok(r)
    ensures SameIdentities(m.players, r.players) && r.board + r.deck == m.board + m.deck
  {
    NormalizeKeeps(m, m.players[bp].seatNo);
  }

  lemma DealStart(setup: Setup)
    requires ValidSetup(setup)
    ensures TotalStart(Deal(setup).players) == Sum(ChipsOf(setup.players))
  {
    var d := DealFacts(setup);
    var sorted := Sort(setup.players, SeatLeq);
    forall k | 0 <= k < |sorted| ensures Deal(setup).players[k].startHandChips == sorted[k].chips {
      assert HandDealt(sorted, setup.deck, |WithChips(setup.players)|, d, k);
      assert Identity(d.players[k]) == Identity(Deal(setup).players[k]);
    }
    assert Starts(Deal(setup).players) == ChipsOf(sorted);
    SortChips(setup.players);
  }

  /** Over every run: while the hand is played each stack plus investment is the starting stack and the pot is what was
      invested; an uncontested pot gives all chips back; a showdown gives back all but the shortfall. */
  lemma RunAccounting(setup: Setup, inputs: seq<Input>)
    requires ValidSetup(setup)
    ensures var r := Run(Deal(setup), inputs);
      && (r.status == Playing || r.status == HandFinished)
      && (r.status == Playing ==>
        && (forall i :: 0 <= i < |r.players| ==>
          r.players[i].chips + r.players[i].investedThisHand == r.players[i].startHandChips)
        && r.pot == TotalInvested(r.players)
        && TotalChips(r.players) + r.pot == Sum(ChipsOf(setup.players)))
      && (r.status == HandFinished ==>
        && r.winnerInfo.Some?
        && var lost := if r.winnerInfo.value.reason == AllOthersFolded then 0 else Shortfall(r.players);
           TotalChips(r.players) == Sum(ChipsOf(setup.players)) - lost)
  {
    var r := Run(Deal(setup), inputs);
    DealStart(setup);
    if Inv(r) {
      StacksPlusPot(r.players);
      forall i | 0 <= i < |r.players|
        ensures r.players[i].chips + r.players[i].investedThisHand == r.players[i].startHandChips
      {
        assert PlayerOk(r.players[i]);
      }
    }
  }

  // ---------- the history replays the investments ----------

  lemma StepReplays(s: GameState, t: nat, input: Input)
    requires Inv(s) && TurnAt(s, t) && ApplyGameAction(s, input).Ok? && HistoryReplays(s)
    ensures HistoryReplays(ApplyGameAction(s, input).value)
  {
    var r := ApplyGameAction(s, input).value;
    AcceptedIff(s, t, input);
    ActionKeeps(s, t, input);
    TurnFacts(s, t);
    var moved := ApplyMove(BettingOf(s), t, input.move, input.amount).value;
    MoveHasEffect(BettingOf(s), t, input.move, input.amount);
    forall i | 0 <= i < |r.players|
      ensures RecordedFor(r.history, r.players[i].seatNo) == r.players[i].investedThisHand
    {
      assert r.history[..|s.history|] == s.history;
      assert Identity(s.players[i]) == Identity(r.players[i]);
      SeatsFollowPositions(s.players, i, t);
      assert r.players[i].investedThisHand == moved.betting.players[i].investedThisHand;
    }
  }

  lemma {:induction false} RunReplaysFrom(s: GameState, inputs: seq<Input>)
    requires Sound(s) && HistoryReplays(s)
    ensures HistoryReplays(Run(s, inputs))
  {
    if inputs != [] {
      var n := |inputs| - 1;
      var before := Run(s, inputs[..n]);
      RunReplaysFrom(s, inputs[..n]);
      SoundOnAStreet(before);
      if Inv(before) && ApplyGameAction(before, inputs[n]).Ok? {
        var t: nat :| TurnAt(before, t);
        StepReplays(before, t, inputs[n]);
      }
    }
  }

  lemma NormalizeReplays(m: GameState, from: int, r: GameState)
    requires m.street != Showdown && NormalizeAfterAction(m, from) == Ok(r) && HistoryReplays(m)
    ensures HistoryReplays(r)
  {
    NormalizeKeeps(m, from);
    forall i | 0 <= i < |r.players|
      ensures RecordedFor(r.history, r.players[i].seatNo) == r.players[i].investedThisHand
    {
      assert Identity(m.players[i]) == Identity(r.players[i]);
    }
  }

  /** In every reachable state, and after the hand, the recorded actions of a seat add up to what it invested. */
  lemma RunReplays(setup: Setup, inputs: seq<Input>)
    requires ValidSetup(setup)
    ensures HistoryReplays(Run(Deal(setup), inputs))
  {
    var d, m, bp := OpeningState(setup);
    NormalizeReplays(m, m.players[bp].seatNo, Deal(setup));
    RunReplaysFrom(Deal(setup), inputs);
  }

  // ---------- streets ----------

  /** A street opens only after everybody who could act had acted and matched the bet; on the new street the bet is 0,
      the ACTIVE players have all invested the same and nobody has invested more. */
  lemma StreetOpensLevel(s: GameState, t: nat, input: Input)
    requires Inv(s) && TurnAt(s, t) && ApplyGameAction(s, input).Ok?
    requires ApplyGameAction(s, input).value.status == Playing && ApplyGameAction(s, input).value.street != s.street
    ensures ApplyMove(BettingOf(s), t, input.move, input.amount).Ok?
    ensures var m, r := Mutated(s, t, input.move, input.amount), ApplyGameAction(s, input).value;
      && IsBettingRoundComplete(m.players, m.currentBet)
      && r.street == NextStreet(s.street) && r.currentBet == 0
      && forall i, j :: 0 <= i < |r.players| && 0 <= j < |r.players| && r.players[i].status == Active ==>
        r.players[j].investedThisHand <= r.players[i].investedThisHand
  {
    AcceptedIff(s, t, input);
    MutatedIsMid(s, t, input.move, input.amount);
    var m := Mutated(s, t, input.move, input.amount);
    MidStreets(m, t);
    AdvancedIsLevel(m);
  }

  lemma AdvancedIsLevel(m: GameState)
    requires Underway(m) && IsBettingRoundComplete(m.players, m.currentBet) && AdvanceStreet(WithPot(m)).Ok?
    ensures var r := AdvanceStreet(WithPot(m)).value;
      && r.street == NextStreet(m.street) && r.currentBet == 0
      && forall i, j :: 0 <= i < |r.players| && 0 <= j < |r.players| && r.players[i].status == Active ==>
        r.players[j].investedThisHand <= r.players[i].investedThisHand
  {
    var players := m.players;
    forall i, j | 0 <= i < |players| && 0 <= j < |players| && players[i].status == Active
      ensures players[j].investedThisHand <= players[i].investedThisHand
    {
      assert PlayerOk(players[i]) && CanAct(players[i]);
      assert Before(players[j]) <= Before(players[i]) && players[j].investedThisStreet <= m.currentBet;
    }
  }

  /** The only branch that leaves the hand in play on another street. */
  lemma MidStreets(m: GameState, a: nat)
    requires Mid(m, a) && NormalizeAfterAction(m, m.players[a].seatNo).Ok?
    ensures var r := NormalizeAfterAction(m, m.players[a].seatNo).value;
      r.status == Playing && r.street != m.street ==>
        IsBettingRoundComplete(m.players, m.currentBet) && AdvanceStreet(WithPot(m)) == Ok(r)
  {
    var from := m.players[a].seatNo;
    UnderwayFacts(m);
    if ContenderCount(m.players) < 2 {
      ContenderFound(m.players);
    } else if !NobodyCanBet(m.players) && IsBettingRoundComplete(m.players, m.currentBet) && m.street != River {
      NextStreetStarts(m, a);
      NormalizeAdvances(m, from);
    } else {
      ShowdownHappens(m);
      NormalizeEndsOrPasses(m, from);
    }
  }

  // ---------- who gets what at a showdown ----------

  /** At a showdown a folded player's stack stays as it is; a contender gets at most what everybody put in up to that
      contender's own investment, and exactly that when the hand strictly beats every other contender's. */
  lemma ShowdownStacks(m: GameState, r: GameState, i: nat)
    requires SeatsAscend(m.players) && AllOk(m.players) && ShowdownEnd(m, r) && i < |m.players|
    ensures |r.players| == |m.players|
    ensures !Contends(m.players[i].status) ==> r.players[i].chips == m.players[i].chips
    ensures Contends(m.players[i].status) ==>
      m.players[i].chips <= r.players[i].chips
        <= m.players[i].chips + Matched(PotView(m.players), m.players[i].investedThisHand)
    ensures Contends(m.players[i].status) && BeatsTheOthers(m, i) ==>
      r.players[i].chips == m.players[i].chips + Matched(PotView(m.players), m.players[i].investedThisHand)
  {
    var hands := EvaluateContenders(m.players, FullBoard(m).board).value;
    var view, ranks := PotView(m.players), RankValues(hands);
    ViewIsFine(m.players, hands);
    if Contends(m.players[i].status) {
      CollectsAtMostMatched(view, ranks, i);
      if BeatsTheOthers(m, i) {
        BeatingOthersIsBeatingAll(m, hands, i);
      }
    } else {
      NotAContender(m.players, i);
      FoldedCollectsNothing(view, ranks, m.players[i].seatNo, |Levels(view)|);
    }
  }

  lemma NotAContender(players: seq<Player>, i: nat)
    requires SeatsAscend(players) && i < |players| && !Contends(players[i].status)
    ensures !ContenderSeat(PotView(players), players[i].seatNo)
  {
    var view := PotView(players);
    if k :| 0 <= k < |players| && view[k].seatNo == players[i].seatNo && Contends(view[k].status) {
      SeatsFollowPositions(players, k, i);
    }
  }

  ghost predicate BeatsTheOthers(m: GameState, i: nat)
    requires i < |m.players| && |m.board| <= 5 <= |m.board| + |m.deck|
  {
    var hands := EvaluateContenders(m.players, FullBoard(m).board);
    && hands.Ok? && m.players[i].seatNo in hands.value
    && forall k :: 0 <= k < |m.players| && k != i && Contends(m.players[k].status) ==>
      && m.players[k].seatNo in hands.value
      && hands.value[m.players[k].seatNo].rankValue < hands.value[m.players[i].seatNo].rankValue
  }

  lemma BeatingOthersIsBeatingAll(m: GameState, hands: map<int, Evaluator.EvaluatedHand>, i: nat)
    requires i < |m.players| && |m.board| <= 5 <= |m.board| + |m.deck| && Contends(m.players[i].status)
    requires EvaluateContenders(m.players, FullBoard(m).board) == Ok(hands) && BeatsTheOthers(m, i)
    requires ContendersRanked(PotView(m.players), RankValues(hands))
    ensures BeatsAll(PotView(m.players), RankValues(hands), i)
  {
    var view := PotView(m.players);
    assert ContenderSeat(view, view[i].seatNo);
    forall s | ContenderSeat(view, s) && s != view[i].seatNo
      ensures RankValues(hands)[s] < RankValues(hands)[view[i].seatNo]
    {
      var k :| 0 <= k < |view| && view[k].seatNo == s && Contends(view[k].status);
      assert Contends(m.players[k].status);
    }
  }

  lemma {:induction false} HandsUnpaid(ps: seq<Player>, qs: seq<Player>, board: seq<Card>)
    requires |ps| == |qs|
    requires forall k :: 0 <= k < |ps| ==> ps[k] == qs[k].(chips := ps[k].chips)
    ensures EvaluateContenders(ps, board) == EvaluateContenders(qs, board)
  {
    if ps != [] {
      var n := |ps| - 1;
      HandsUnpaid(ps[..n], qs[..n], board);
      assert ps[n] == qs[n].(chips := ps[n].chips);
    }
  }

  lemma OnlyChipsPaid(m: GameState, r: GameState)
    requires ShowdownEnd(m, r)
    ensures |r.players| == |m.players| && r.board == FullBoard(m).board && |r.board| == 5
    ensures forall k :: 0 <= k < |m.players| ==> r.players[k] == m.players[k].(chips := r.players[k].chips)
    ensures FullBoard(r).board == r.board && PotView(r.players) == PotView(m.players)
  {
  }

  // ---------- cards ----------

  lemma StepKeepsCards(s: GameState, input: Input)
    requires Sound(s)
    ensures OnAStreet(s) && CardsKept(s, Step(s, input))
  {
    if Inv(s) && ApplyGameAction(s, input).Ok? {
      var t: nat :| TurnAt(s, t);
      ActionKeeps(s, t, input);
    }
  }

  lemma CardsKeptTransitive(s: GameState, t: GameState, r: GameState)
    requires CardsKept(s, t) && CardsKept(t, r)
    ensures CardsKept(s, r)
  {
  }

  lemma {:induction false} RunKeepsCards(s: GameState, inputs: seq<Input>)
    requires Sound(s)
    ensures CardsKept(s, Run(s, inputs))
  {
    if inputs != [] {
      var n := |inputs| - 1;
      var before := Run(s, inputs[..n]);
      RunKeepsCards(s, inputs[..n]);
      StepKeepsCards(before, inputs[n]);
      CardsKeptTransitive(s, before, Run(s, inputs));
    }
  }

  ghost predicate HoldsDealt(setup: Setup, r: GameState, k: nat)
    requires k < |r.players|
  {
    var sorted, n := Sort(setup.players, SeatLeq), |WithChips(setup.players)|;
    && k < |sorted| && r.players[k].seatNo == sorted[k].seatNo
    && n + DealtIn(SeatAll(sorted), 0, k) < |setup.deck|
    && r.players[k].holeCards == DealtPlayer(sorted, setup.deck, n, k).holeCards
  }

  lemma HoleCardsFixed(setup: Setup, r: GameState, d: Dealing, k: nat)
    requires HandsDealt(Sort(setup.players, SeatLeq), setup.deck, |WithChips(setup.players)|, d)
    requires SameIdentities(d.players, r.players) && k < |r.players|
    ensures HoldsDealt(setup, r, k)
  {
    assert HandDealt(Sort(setup.players, SeatLeq), setup.deck, |WithChips(setup.players)|, d, k);
    assert Identity(d.players[k]) == Identity(r.players[k]);
  }

  lemma IdentitiesTransitive(a: seq<Player>, b: seq<Player>, c: seq<Player>)
    requires SameIdentities(a, b) && SameIdentities(b, c)
    ensures SameIdentities(a, c)
  {
    forall i | 0 <= i < |a| ensures Identity(a[i]) == Identity(c[i]) {
      assert Identity(a[i]) == Identity(b[i]) && Identity(b[i]) == Identity(c[i]);
    }
  }

  /** The board is the next cards of the deck after the deal, the rest of the deck is still there, and every player
      holds the two cards the deal gave. */
  ghost predicate CardsAsDealt(setup: Setup, r: GameState) {
    var n := |WithChips(setup.players)|;
    && 2 * n + |r.board| <= |setup.deck|
    && r.board == setup.deck[2 * n..2 * n + |r.board|] && r.deck == setup.deck[2 * n + |r.board|..]
    && |r.players| == |setup.players|
    && forall k :: 0 <= k < |r.players| ==> HoldsDealt(setup, r, k)
  }

  lemma KeptAsDealt(setup: Setup, d: Dealing, s: GameState, r: GameState)
    requires HandsDealt(Sort(setup.players, SeatLeq), setup.deck, |WithChips(setup.players)|, d)
    requires SameIdentities(d.players, s.players) && s.board + s.deck == d.deck && CardsKept(s, r)
    requires 2 * |WithChips(setup.players)| <= |setup.deck|
    ensures CardsAsDealt(setup, r)
  {
    BoardSlice(setup.deck, 2 * |WithChips(setup.players)|, r.board, r.deck);
    IdentitiesTransitive(d.players, s.players, r.players);
    forall k | 0 <= k < |r.players| ensures HoldsDealt(setup, r, k) {
      HoleCardsFixed(setup, r, d, k);
    }
  }

  /** Whatever is played, actions never change which cards come, and the board grows with the streets. */
  lemma CardsFixedByDeck(setup: Setup, inputs: seq<Input>)
    requires ValidSetup(setup)
    ensures CardsAsDealt(setup, Run(Deal(setup), inputs))
    ensures Run(Deal(setup), inputs).status == Playing ==>
      |Run(Deal(setup), inputs).board| == BoardSize(Run(Deal(setup), inputs).street)
  {
    var s := Deal(setup);
    var d := DealFacts(setup);
    RunKeepsCards(s, inputs);
    KeptAsDealt(setup, d, s, Run(s, inputs));
  }

  lemma BoardSlice(deck: seq<Card>, n: nat, board: seq<Card>, rest: seq<Card>)
    requires n <= |deck| && board + rest == deck[n..]
    ensures n + |board| <= |deck| && board == deck[n..n + |board|] && rest == deck[n + |board|..]
  {
    assert board == (board + rest)[..|board|] && rest == (board + rest)[|board|..];
  }

  // ---------- no card is lost ----------

  function HoleCardsUpTo(players: seq<Player>, k: nat): seq<Card>
    requires k <= |players|
  {
    if k == 0 then [] else HoleCardsUpTo(players, k - 1) + players[k - 1].holeCards
  }

  /** The cards the first `dealt` players got in two rounds of n. */
  function TwoPrefixes(deck: seq<Card>, n: nat, dealt: nat): multiset<Card>
    requires dealt <= n && 2 * n <= |deck|
  {
    multiset(deck[..dealt]) + multiset(deck[n..n + dealt])
  }

  lemma PrefixesGrow(deck: seq<Card>, n: nat, dealt: nat)
    requires dealt < n && 2 * n <= |deck|
    ensures TwoPrefixes(deck, n, dealt + 1) == TwoPrefixes(deck, n, dealt) + multiset([deck[dealt], deck[n + dealt]])
  {
    assert deck[..dealt + 1] == deck[..dealt] + [deck[dealt]];
    assert deck[n..n + dealt + 1] == deck[n..n + dealt] + [deck[n + dealt]];
  }

  /** How many players before position k were dealt in. */
  function Place(setup: Setup, k: nat): nat
    requires k <= |setup.players|
  {
    DealtIn(SeatAll(Sort(setup.players, SeatLeq)), 0, k)
  }

  /** All places are below n: there are as many as players with chips. */
  lemma PlacesBelow(setup: Setup, k: nat)
    requires k <= |setup.players|
    ensures Place(setup, k) <= |WithChips(setup.players)|
    ensures k == |setup.players| ==> Place(setup, k) == |WithChips(setup.players)|
  {
    var sorted := Sort(setup.players, SeatLeq);
    DealtInIsWithChips(sorted, |sorted|);
    SortWithChips(setup.players);
    assert sorted[..|sorted|] == sorted;
    DealtInGrows(SeatAll(sorted), 0, k, |sorted|);
  }

  ghost predicate HolesFit(setup: Setup, r: GameState, k: nat)
    requires k <= |r.players| == |setup.players| && 2 * |WithChips(setup.players)| <= |setup.deck|
  {
    var n, place := |WithChips(setup.players)|, Place(setup, k);
    place <= n && multiset(HoleCardsUpTo(r.players, k)) == TwoPrefixes(setup.deck, n, place)
  }

  lemma NoHoles(setup: Setup, r: GameState)
    requires |r.players| == |setup.players| && 2 * |WithChips(setup.players)| <= |setup.deck|
    ensures HolesFit(setup, r, 0)
  {
    PlacesBelow(setup, 0);
  }

  lemma {:induction false} HolesArePrefixes(setup: Setup, r: GameState, k: nat)
    requires CardsAsDealt(setup, r) && k <= |r.players|
    ensures HolesFit(setup, r, k)
  {
    if k == 0 {
      NoHoles(setup, r);
    } else {
      PlacesBelow(setup, k);
      HolesArePrefixes(setup, r, k - 1);
      HolesGrow(setup, r, k);
    }
  }

  lemma HolesGrow(setup: Setup, r: GameState, k: nat)
    requires CardsAsDealt(setup, r) && 0 < k <= |r.players|
    requires HolesFit(setup, r, k - 1) && Place(setup, k) <= |WithChips(setup.players)|
    ensures HolesFit(setup, r, k)
  {
    HoleCardsStep(r.players, k);
    PlayerAddsHoles(setup, r, k - 1);
  }

  lemma HoleCardsStep(players: seq<Player>, k: nat)
    requires 0 < k <= |players|
    ensures multiset(HoleCardsUpTo(players, k)) ==
      multiset(HoleCardsUpTo(players, k - 1)) + multiset(players[k - 1].holeCards)
  {
  }

  lemma PlayerAddsHoles(setup: Setup, r: GameState, k: nat)
    requires 2 * |WithChips(setup.players)| <= |setup.deck| && k < |r.players| == |setup.players|
    requires HoldsDealt(setup, r, k)
    requires Place(setup, k) <= |WithChips(setup.players)| && Place(setup, k + 1) <= |WithChips(setup.players)|
    ensures var n := |WithChips(setup.players)|;
      TwoPrefixes(setup.deck, n, Place(setup, k + 1)) ==
        TwoPrefixes(setup.deck, n, Place(setup, k)) + multiset(r.players[k].holeCards)
  {
    var sorted, n := Sort(setup.players, SeatLeq), |WithChips(setup.players)|;
    var place := Place(setup, k);
    if sorted[k].chips > 0 {
      assert Place(setup, k + 1) == place + 1;
      assert r.players[k].holeCards == [setup.deck[place], setup.deck[n + place]];
      PrefixesGrow(setup.deck, n, place);
    } else {
      assert Place(setup, k + 1) == place;
      assert r.players[k].holeCards == [];
    }
  }

  lemma DealtCardsAddUp(setup: Setup, r: GameState)
    requires CardsAsDealt(setup, r)
    ensures multiset(HoleCardsUpTo(r.players, |r.players|)) + multiset(r.board) + multiset(r.deck) ==
      multiset(setup.deck)
  {
    HolesArePrefixes(setup, r, |r.players|);
    PlacesBelow(setup, |setup.players|);
    SplitDeck(setup.deck, |WithChips(setup.players)|, r.board, r.deck);
  }

  /** Deck, board and hole cards together are always the deck the hand started with. */
  lemma NoCardLost(setup: Setup, inputs: seq<Input>)
    requires ValidSetup(setup)
    ensures var r := Run(Deal(setup), inputs);
      multiset(HoleCardsUpTo(r.players, |r.players|)) + multiset(r.board) + multiset(r.deck) == multiset(setup.deck)
  {
    CardsFixedByDeck(setup, inputs);
    DealtCardsAddUp(setup, Run(Deal(setup), inputs));
  }

  lemma SplitDeck(deck: seq<Card>, n: nat, board: seq<Card>, rest: seq<Card>)
    requires 2 * n + |board| <= |deck| && board == deck[2 * n..2 * n + |board|] && rest == deck[2 * n + |board|..]
    ensures TwoPrefixes(deck, n, n) + multiset(board) + multiset(rest) == multiset(deck)
  {
    assert deck == deck[..n] + deck[n..n + n] + board + rest;
  }
}
