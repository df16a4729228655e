/** Where the chips are: in play, after a fold, and after a showdown. */
module HandAccounting {
  import opened Sequences
  import opened Deck
  import Evaluator
  import opened Pots
  import opened Engine
  import opened TurnOrder
  import opened HandInvariant

  function Stacks(players: seq<Player>): seq<int> {
    seq(|players|, i requires 0 <= i < |players| => players[i].chips)
  }

  function TotalChips(players: seq<Player>): int {
    Sum(Stacks(players))
  }

  function Starts(players: seq<Player>): seq<int> {
    seq(|players|, i requires 0 <= i < |players| => players[i].startHandChips)
  }

  function TotalStart(players: seq<Player>): int {
    Sum(Starts(players))
  }

  ghost predicate AllOk(players: seq<Player>) {
    forall i :: 0 <= i < |players| ==> PlayerOk(players[i])
  }

  /** In play, stacks plus investments are what the players sat down with. */
  lemma StacksPlusPot(players: seq<Player>)
    requires AllOk(players)
    ensures TotalChips(players) + TotalInvested(players) == TotalStart(players)
  {
    SumPointwise(Stacks(players), Invested(players), Starts(players));
  }

  // ---------- the shortfall of a showdown ----------

  function Excesses(players: seq<Player>, m: int): seq<int> {
    seq(|players|, i requires 0 <= i < |players| => Max(0, players[i].investedThisHand - m))
  }

  /** What everybody invested above the largest contender's investment. */
  function Shortfall(players: seq<Player>): int {
    Sum(Excesses(players, LargestContender(PotView(players))))
  }

  lemma ShortfallIsUnmatched(players: seq<Player>)
    ensures TotalInvested(players) == Matched(PotView(players), LargestContender(PotView(players))) + Shortfall(players)
  {
    var m := LargestContender(PotView(players));
    SumPointwise(Capped(PotView(players), m), Excesses(players, m), Invested(players));
  }

  lemma ExcessSum(players: seq<Player>, m: int)
    ensures Sum(Excesses(players, m)) >= 0
    ensures Sum(Excesses(players, m)) == 0 <==> forall i :: 0 <= i < |players| ==> players[i].investedThisHand <= m
  {
    var excesses := Excesses(players, m);
    var zeros := seq(|players|, i => 0);
    SumZero(zeros);
    SumMonotone(zeros, excesses);
    forall i | 0 <= i < |players| ensures excesses[i] == zeros[i] <==> players[i].investedThisHand <= m {}
    if exists i :: 0 <= i < |players| && players[i].investedThisHand > m {
      var i :| 0 <= i < |players| && players[i].investedThisHand > m;
      assert excesses[i] != zeros[i];
    } else {
      assert excesses == zeros;
    }
  }

  /** The contender who invested most. */
  lemma TopContender(players: seq<Player>) returns (c: nat)
    requires AllOk(players) && ContenderCount(players) > 0
    ensures c < |players| && Contends(players[c].status)
    ensures players[c].investedThisHand == LargestContender(PotView(players))
    ensures forall i :: 0 <= i < |players| && Contends(players[i].status) ==>
      players[i].investedThisHand <= players[c].investedThisHand
  {
    var view := PotView(players);
    var m := LargestContender(view);
    LargestContenderBounds(view);
    ContenderFound(players);
    var d :| 0 <= d < |players| && Contends(players[d].status);
    assert PlayerOk(players[d]) && view[d].invested <= m;
    if m > 0 {
      c :| 0 <= c < |view| && Contends(view[c].status) && view[c].invested == m;
    } else {
      c := d;
    }
    forall i | 0 <= i < |players| && Contends(players[i].status) ensures players[i].investedThisHand <= m {
      assert view[i].invested <= m;
    }
  }

  lemma CoveredIffBelowLargest(players: seq<Player>, f: nat)
    requires f < |players| && AllOk(players) && ContenderCount(players) > 0
    ensures CoveredAt(players, f) <==> players[f].investedThisHand <= LargestContender(PotView(players))
  {
    var c := TopContender(players);
    if players[f].investedThisHand <= players[c].investedThisHand {
      CoverWith(players, f, c);
    }
  }

  /** No shortfall exactly when nobody invested more than every contender. */
  lemma NoShortfallIffCovered(players: seq<Player>)
    requires AllOk(players) && ContenderCount(players) > 0
    ensures Shortfall(players) >= 0 && (Shortfall(players) == 0 <==> Covered(players))
  {
    var m := LargestContender(PotView(players));
    ExcessSum(players, m);
    forall f | 0 <= f < |players| ensures CoveredAt(players, f) <==> players[f].investedThisHand <= m {
      CoveredIffBelowLargest(players, f);
    }
  }

  // ---------- the two ways a hand ends ----------

  /** The winner of an uncontested pot gets all of it. */
  lemma FoldFinishPaysPot(s: GameState, winner: nat)
    requires winner < |s.players|
    ensures TotalChips(FinishByFold(s, winner).players) == TotalChips(s.players) + s.pot
  {
    var w := s.players[winner];
    assert Stacks(FinishByFold(s, winner).players) == Stacks(s.players)[winner := w.chips + s.pot];
    SumUpdate(Stacks(s.players), winner, w.chips + s.pot);
  }

  ghost predicate HandsKnown(players: seq<Player>, hands: map<int, Evaluator.EvaluatedHand>) {
    forall i :: 0 <= i < |players| && Contends(players[i].status) ==> players[i].seatNo in hands
  }

  lemma ViewIsFine(players: seq<Player>, hands: map<int, Evaluator.EvaluatedHand>)
    requires SeatsAscend(players) && AllOk(players) && HandsKnown(players, hands)
    ensures DistinctSeats(PotView(players)) && NonNegative(PotView(players))
    ensures ContendersRanked(PotView(players), RankValues(hands))
  {
    var view := PotView(players);
    forall i, j | 0 <= i < j < |view| ensures view[i].seatNo != view[j].seatNo {
      assert players[i].seatNo < players[j].seatNo;
    }
    forall i | 0 <= i < |view| ensures view[i].invested >= 0 {
      assert PlayerOk(players[i]);
    }
    forall s | ContenderSeat(view, s) ensures s in RankValues(hands) {
      var i :| 0 <= i < |view| && view[i].seatNo == s && Contends(view[i].status);
      assert players[i].seatNo in hands;
    }
  }

  /** A showdown pays out every investment up to the largest contender's. */
  lemma ShowdownPays(s: GameState, hands: map<int, Evaluator.EvaluatedHand>)
    requires SeatsAscend(s.players) && AllOk(s.players) && HandsKnown(s.players, hands)
    ensures TotalChips(SettleShowdown(s, hands).players) == TotalStart(s.players) - Shortfall(s.players)
  {
    var view := PotView(s.players);
    var allocations := AllocateAll(SidePots(view), RankValues(hands));
    ViewIsFine(s.players, hands);
    ShowdownPaysMatched(view, RankValues(hands));
    SumPointwise(Stacks(s.players), CollectedBy(allocations, Seats(view)), Stacks(PayAll(s.players, allocations)));
    StacksPlusPot(s.players);
    ShortfallIsUnmatched(s.players);
  }

  // ---------- a showdown can always be held ----------

  lemma {:induction false} BoardDealt(s: GameState)
    requires |s.board| <= 5 <= |s.board| + |s.deck|
    ensures DealBoardToFive(s) == Ok(s.(deck := s.deck[5 - |s.board|..], board := s.board + s.deck[..5 - |s.board|]))
    decreases 5 - |s.board|
  {
    if |s.board| < 5 {
      var t := s.(deck := s.deck[1..], board := s.board + s.deck[..1]);
      BoardDealt(t);
      var k := 5 - |s.board|;
      assert t.deck[k - 1..] == s.deck[k..];
      assert t.board + t.deck[..k - 1] == s.board + s.deck[..k];
    } else {
      assert s.deck[0..] == s.deck && s.board + s.deck[..0] == s.board;
    }
  }

  lemma {:induction false} ContendersEvaluated(players: seq<Player>, board: seq<Card>)
    requires |board| == 5
    requires forall i :: 0 <= i < |players| && Contends(players[i].status) ==> |players[i].holeCards| == 2
    ensures EvaluateContenders(players, board).Ok? && HandsKnown(players, EvaluateContenders(players, board).value)
  {
    if players != [] {
      var n := |players| - 1;
      var rest := players[..n];
      ContendersEvaluated(rest, board);
      var hands := EvaluateContenders(players, board).value;
      forall i | 0 <= i < |players| && Contends(players[i].status) ensures players[i].seatNo in hands {
        if i < n {
          assert rest[i].seatNo in EvaluateContenders(rest, board).value;
        }
      }
    }
  }
}
