/** evaluateSevenCards and findWinners: the best of all five-card subsets,
    independent of the order the seven cards come in. */
module EvaluatorBest {
  import opened Sequences
  import opened Deck
  import opened Evaluator
  import opened EvaluatorGroups
  import opened EvaluatorShapes
  import opened EvaluatorOrder
  import opened EvaluatorClassification
  import opened Pots

  lemma GroupRanksAreDigits(values: seq<int>)
    requires FiveValues(values)
    ensures |GroupRanks(values)| <= 5
    ensures forall k :: 0 <= k < |GroupRanks(values)| ==> 0 <= GroupRanks(values)[k].rank < 15
  {
    var g := GroupRanks(values);
    FiveCardShapes(values);
    GroupsTally(values);
    forall k | 0 <= k < |g| ensures 0 <= g[k].rank < 15 {
      assert multiset(values)[g[k].rank] > 0;
      assert g[k].rank in values;
    }
  }

  lemma TiebreakersAreDigits(values: seq<int>, t: seq<int>)
    requires FiveValues(values)
    requires t == if StraightHigh(values).Some? then [StraightHigh(values).value]
      else GroupRanksOnly(GroupRanks(values))
    ensures |t| <= 5 && forall k :: 0 <= k < |t| ==> 0 <= t[k] < 15
  {
    GroupRanksAreDigits(values);
    if StraightHigh(values).Some? {
      StraightHighExact(values, StraightHigh(values).value);
    }
  }

  /** The tiebreakers of five cards, without what they encode to. */
  lemma TiebreakersOf(cards: seq<Card>) returns (t: seq<int>)
    requires |cards| == 5 && NoDup(cards)
    ensures t == EvaluateFive(cards).tiebreakers
    ensures |t| <= 5 && forall k :: 0 <= k < |t| ==> 0 <= t[k] < 15
  {
    var values := Values(cards);
    t := if StraightHigh(values).Some? then [StraightHigh(values).value] else GroupRanksOnly(GroupRanks(values));
    TiebreakersListed(cards);
    ValuesFacts(cards);
    TiebreakersAreDigits(values, t);
  }

  lemma FiveIsWellRanked(cards: seq<Card>)
    requires |cards| == 5 && NoDup(cards)
    ensures WellRanked(EvaluateFive(cards))
  {
    var t := TiebreakersOf(cards);
  }

  // ---------- compareHands is a total preorder ----------

  lemma {:induction false} CompareFromAntisymmetric(a: EvaluatedHand, b: EvaluatedHand, k: nat)
    ensures CompareFrom(a, b, k) == -CompareFrom(b, a, k)
    decreases Max(|a.tiebreakers|, |b.tiebreakers|) - k
  {
    if k < Max(|a.tiebreakers|, |b.tiebreakers|) {
      CompareFromAntisymmetric(a, b, k + 1);
    }
  }

  lemma {:induction false} CompareFromTransitive(a: EvaluatedHand, b: EvaluatedHand, c: EvaluatedHand, k: nat)
    requires CompareFrom(a, b, k) <= 0 && CompareFrom(b, c, k) <= 0
    ensures CompareFrom(a, c, k) <= 0
    decreases Max(Max(|a.tiebreakers|, |b.tiebreakers|), |c.tiebreakers|) - k
  {
    if k < Max(Max(|a.tiebreakers|, |b.tiebreakers|), |c.tiebreakers|) {
      StepFrom(a, b, k);
      StepFrom(b, c, k);
      StepFrom(a, c, k);
      if TiebreakerAt(a, k) == TiebreakerAt(b, k) == TiebreakerAt(c, k) {
        CompareFromTransitive(a, b, c, k + 1);
      }
    }
  }

  /** Past both lists every digit reads 0, so the loop bound does not matter. */
  lemma StepFrom(a: EvaluatedHand, b: EvaluatedHand, k: nat)
    ensures CompareFrom(a, b, k) ==
      if TiebreakerAt(a, k) != TiebreakerAt(b, k) then TiebreakerAt(a, k) - TiebreakerAt(b, k)
        else CompareFrom(a, b, k + 1)
  {
  }

  lemma HandOrder()
    ensures TotalPreorder(HandLeq)
  {
    forall a, b ensures HandLeq(a, b) || HandLeq(b, a) {
      CompareFromAntisymmetric(a, b, 0);
    }
    forall a, b, c | HandLeq(a, b) && HandLeq(b, c) ensures HandLeq(a, c) {
      if a.category == b.category == c.category {
        CompareFromTransitive(a, b, c, 0);
      } else {
        CategoriesDiffer(a, b);
        CategoriesDiffer(b, c);
        CategoriesDiffer(a, c);
      }
    }
  }

  lemma CategoriesDiffer(a: EvaluatedHand, b: EvaluatedHand)
    ensures Strength(a.category) == Strength(b.category) <==> a.category == b.category
  {
  }

  // ---------- combinations are exactly the sub-multisets ----------

  lemma {:induction false} CombinationsSound<T>(items: seq<T>, size: nat)
    ensures forall i :: 0 <= i < |Combinations(items, size)| ==>
      |Combinations(items, size)[i]| == size && multiset(Combinations(items, size)[i]) <= multiset(items)
    decreases items
  {
    if size > 0 && |items| >= size {
      var tail := items[1..];
      assert items == [items[0]] + tail;
      CombinationsSound(tail, size - 1);
      CombinationsSound(tail, size);
      var taking := Combinations(tail, size - 1);
      var all := Combinations(items, size);
      forall i | 0 <= i < |all| ensures |all[i]| == size && multiset(all[i]) <= multiset(items) {
        if i < |taking| {
          assert all[i] == [items[0]] + taking[i];
        } else {
          assert all[i] == Combinations(tail, size)[i - |taking|];
        }
      }
    }
  }

  lemma TakeHead<T>(items: seq<T>, size: nat, d: seq<T>)
    requires 0 < size <= |items| && d in Combinations(items[1..], size - 1)
    ensures [items[0]] + d in Combinations(items, size)
  {
    var taking := Combinations(items[1..], size - 1);
    var i :| 0 <= i < |taking| && taking[i] == d;
    assert Combinations(items, size)[i] == [items[0]] + d;
  }

  lemma SkipHead<T>(items: seq<T>, size: nat, d: seq<T>)
    requires 0 < size <= |items| && d in Combinations(items[1..], size)
    ensures d in Combinations(items, size)
  {
    var taking, skipping := Combinations(items[1..], size - 1), Combinations(items[1..], size);
    assert Combinations(items, size) == Prepend(items[0], taking) + skipping;
    InTheSecond(Prepend(items[0], taking), skipping, d);
  }

  lemma InTheSecond<T>(a: seq<T>, b: seq<T>, x: T)
    requires x in b
    ensures x in a + b
  {
  }

  /** What the tail has to supply of m. */
  lemma OffTheHead<T>(items: seq<T>, m: multiset<T>) returns (rest: multiset<T>)
    requires items != [] && m <= multiset(items)
    ensures rest <= multiset(items[1..])
    ensures items[0] in m ==> rest == m - multiset{items[0]} && |rest| == |m| - 1
    ensures items[0] !in m ==> rest == m
  {
    assert multiset(items) == multiset{items[0]} + multiset(items[1..]) by { assert items == [items[0]] + items[1..]; }
    WithoutHead(m, items[0], multiset(items[1..]));
    rest := if items[0] in m then m - multiset{items[0]} else m;
  }

  lemma WithTheHead<T>(items: seq<T>, m: multiset<T>, size: nat, d: seq<T>) returns (c: seq<T>)
    requires 0 < size <= |items| && items[0] in m
    requires d in Combinations(items[1..], size - 1) && multiset(d) == m - multiset{items[0]}
    ensures c in Combinations(items, size) && multiset(c) == m
  {
    TakeHead(items, size, d);
    c := [items[0]] + d;
    assert multiset(c) == multiset{items[0]} + multiset(d);
  }

  lemma {:induction false} CombinationsComplete<T>(items: seq<T>, m: multiset<T>, size: nat) returns (c: seq<T>)
    requires m <= multiset(items) && |m| == size
    ensures c in Combinations(items, size) && multiset(c) == m
    decreases items
  {
    SubsetSize(m, multiset(items));
    assert size <= |items|;
    if size == 0 {
      c := [];
      assert Combinations(items, size)[0] == c;
    } else {
      var rest := OffTheHead(items, m);
      if items[0] in m {
        var d := CombinationsComplete(items[1..], rest, size - 1);
        c := WithTheHead(items, m, size, d);
      } else {
        c := CombinationsComplete(items[1..], rest, size);
        SkipHead(items, size, c);
      }
    }
  }

  lemma WithoutHead<T>(m: multiset<T>, head: T, rest: multiset<T>)
    requires m <= multiset{head} + rest
    ensures head in m ==> m - multiset{head} <= rest && |m - multiset{head}| == |m| - 1
    ensures head !in m ==> m <= rest
  {
    if head in m {
      assert m == (m - multiset{head}) + multiset{head};
    }
  }

  lemma SubsetSize<T>(m: multiset<T>, n: multiset<T>)
    requires m <= n
    ensures |m| <= |n|
  {
    assert n == m + (n - m);
  }

  lemma SubsetNoDup<T>(sub: seq<T>, all: seq<T>)
    requires NoDup(all) && multiset(sub) <= multiset(all)
    ensures NoDup(sub)
  {
    NoDupMultiset(all);
    NoDupMultiset(sub);
  }

  // ---------- the best hand ----------

  ghost predicate FiveOf(five: seq<Card>, cards: seq<Card>) {
    |five| == 5 && multiset(five) <= multiset(cards)
  }

  /** The order of five cards does not change what they are worth. */
  lemma FiveIgnoresOrder(five: seq<Card>, five': seq<Card>)
    requires |five| == 5 && multiset(five) == multiset(five')
    ensures EvaluateFive(five).rankValue == EvaluateFive(five').rankValue
    ensures EvaluateFive(five).category == EvaluateFive(five').category
  {
    assert |five'| == |multiset(five')| == |multiset(five)| == 5;
    SameValues(five, five');
    SameSuits(five, five');
    SameSuits(five', five);
  }

  lemma SameSuits(five: seq<Card>, five': seq<Card>)
    requires multiset(five) == multiset(five')
    ensures OneSuit(five) ==> OneSuit(five')
  {
    if OneSuit(five) {
      forall i | 0 <= i < |five'| ensures five'[i].suit == five'[0].suit {
        assert five'[i] in multiset(five) && five'[0] in multiset(five);
      }
    }
  }

  lemma SameValues(five: seq<Card>, five': seq<Card>)
    requires multiset(five) == multiset(five')
    ensures Values(five) == Values(five')
  {
    IntOrders();
    SortSorted(Ranks(five), IntGeq);
    SortSorted(Ranks(five'), IntGeq);
    SortContents(Ranks(five), IntGeq);
    SortContents(Ranks(five'), IntGeq);
    forall r ensures multiset(Ranks(five))[r] == multiset(Ranks(five'))[r] {
      if 2 <= r <= 14 {
        RankBySuits(five, r);
        RankBySuits(five', r);
      } else {
        RanksInRange(five, r);
        RanksInRange(five', r);
      }
    }
    assert multiset(Ranks(five)) == multiset(Ranks(five'));
    SortedUnique(Values(five), Values(five'), IntGeq);
  }

  lemma RanksInRange(cards: seq<Card>, r: int)
    requires !(2 <= r <= 14)
    ensures multiset(Ranks(cards))[r] == 0
  {
    assert r !in Ranks(cards);
  }

  /** The last hand of the sorted list is worth the most. */
  lemma LastHandIsBest(hands: seq<EvaluatedHand>, x: EvaluatedHand)
    requires x in hands && forall i :: 0 <= i < |hands| ==> WellRanked(hands[i])
    ensures LastHand(hands) in hands && x.rankValue <= LastHand(hands).rankValue
  {
    var sorted := Sort(hands, HandLeq);
    var last := sorted[|sorted| - 1];
    SortMembers(hands, HandLeq, x);
    SortMembers(hands, HandLeq, last);
    HandOrder();
    SortSorted(hands, HandLeq);
    LastIsGreatest(sorted, x, HandLeq);
    OrdersAgree(x, last);
  }

  ghost predicate AllFives(combos: seq<seq<Card>>, cards: seq<Card>) {
    forall i :: 0 <= i < |combos| ==> FiveOf(combos[i], cards)
  }

  lemma CombinationHands(cards: seq<Card>)
    requires |cards| == 7 && NoDup(cards)
    ensures Combinations(cards, 5) != [] && AllFives(Combinations(cards, 5), cards)
    ensures forall i :: 0 <= i < |Combinations(cards, 5)| ==> WellRanked(EvaluateAll(Combinations(cards, 5))[i])
  {
    var combos := Combinations(cards, 5);
    CombinationsNonEmpty(cards, 5);
    CombinationsSound(cards, 5);
    forall i | 0 <= i < |combos| ensures WellRanked(EvaluateAll(combos)[i]) {
      SubsetNoDup(combos[i], cards);
      FiveIsWellRanked(combos[i]);
    }
  }

  /** What evaluateSevenCards picks out of the hands of all five-card subsets. */
  function LastHand(hands: seq<EvaluatedHand>): EvaluatedHand
    requires hands != []
  {
    var sorted := Sort(hands, HandLeq);
    sorted[|sorted| - 1]
  }

  lemma SevenIsLast(cards: seq<Card>, hands: seq<EvaluatedHand>)
    requires |cards| == 7 && hands == EvaluateAll(Combinations(cards, 5)) && hands != []
    ensures EvaluateSeven(cards) == Ok(LastHand(hands))
  {
  }

  /** evaluateSevenCards returns the value of one of the five-card subsets. */
  lemma SevenIsSomeFive(cards: seq<Card>) returns (five: seq<Card>)
    requires |cards| == 7 && NoDup(cards)
    ensures FiveOf(five, cards) && EvaluateSeven(cards) == Ok(EvaluateFive(five)) && WellRanked(EvaluateFive(five))
  {
    var combos := Combinations(cards, 5);
    CombinationHands(cards);
    SevenIsLast(cards, EvaluateAll(combos));
    five := LastComesFrom(combos, EvaluateAll(combos));
  }

  lemma LastComesFrom(combos: seq<seq<Card>>, hands: seq<EvaluatedHand>) returns (five: seq<Card>)
    requires combos != [] && hands == EvaluateAll(combos) && forall i :: 0 <= i < |hands| ==> WellRanked(hands[i])
    ensures five in combos && LastHand(hands) == EvaluateFive(five) && WellRanked(LastHand(hands))
  {
    LastHandIsBest(hands, hands[0]);
    var k :| 0 <= k < |hands| && hands[k] == LastHand(hands);
    five := combos[k];
  }

  /** No five of the seven cards are worth more. */
  lemma NoFiveIsBetter(cards: seq<Card>, five: seq<Card>)
    requires |cards| == 7 && NoDup(cards) && FiveOf(five, cards)
    ensures EvaluateFive(five).rankValue <= EvaluateSeven(cards).value.rankValue
  {
    var combos := Combinations(cards, 5);
    var hands := EvaluateAll(combos);
    CombinationHands(cards);
    SevenIsLast(cards, hands);
    var combo := CombinationsComplete(cards, multiset(five), 5);
    var i :| 0 <= i < |combos| && combos[i] == combo;
    assert hands[i] == EvaluateFive(combo);
    FiveIgnoresOrder(combo, five);
    LastHandIsBest(hands, hands[i]);
  }

  /** evaluateSevenCards returns the value of one of the five-card subsets, and none of them is worth more. */
  lemma BestOfSeven(cards: seq<Card>)
    requires |cards| == 7 && NoDup(cards)
    ensures WellRanked(EvaluateSeven(cards).value)
    ensures exists five :: FiveOf(five, cards) && EvaluateSeven(cards).value == EvaluateFive(five)
    ensures forall five :: FiveOf(five, cards) ==> EvaluateFive(five).rankValue <= EvaluateSeven(cards).value.rankValue
  {
    var best := SevenIsSomeFive(cards);
    forall five | FiveOf(five, cards) ensures EvaluateFive(five).rankValue <= EvaluateSeven(cards).value.rankValue {
      NoFiveIsBetter(cards, five);
    }
  }

  lemma NotWorthLess(cards: seq<Card>, cards': seq<Card>)
    requires |cards| == 7 && NoDup(cards) && |cards'| == 7 && NoDup(cards') && multiset(cards) == multiset(cards')
    ensures EvaluateSeven(cards).value.rankValue <= EvaluateSeven(cards').value.rankValue
  {
    var five := SevenIsSomeFive(cards);
    NoFiveIsBetter(cards', five);
  }

  /** Shuffling the seven cards changes neither the value nor the category of the best hand. */
  lemma SevenIgnoresOrder(cards: seq<Card>, cards': seq<Card>)
    requires |cards| == 7 && NoDup(cards) && multiset(cards) == multiset(cards')
    ensures |cards'| == 7
    ensures EvaluateSeven(cards).value.rankValue == EvaluateSeven(cards').value.rankValue
    ensures EvaluateSeven(cards).value.category == EvaluateSeven(cards').value.category
  {
    assert |cards'| == |multiset(cards')| == |multiset(cards)| == 7;
    SubsetNoDup(cards', cards);
    NotWorthLess(cards, cards');
    NotWorthLess(cards', cards);
    SevenIsWellRanked(cards);
    SevenIsWellRanked(cards');
    SameRankSameCategory(EvaluateSeven(cards).value, EvaluateSeven(cards').value);
  }

  lemma SameRankSameCategory(a: EvaluatedHand, b: EvaluatedHand)
    requires WellRanked(a) && WellRanked(b) && a.rankValue == b.rankValue
    ensures a.category == b.category
  {
    OrdersAgree(a, b);
    CategoriesDiffer(a, b);
  }

  lemma SevenIsWellRanked(cards: seq<Card>)
    requires |cards| == 7 && NoDup(cards)
    ensures WellRanked(EvaluateSeven(cards).value)
  {
    var five := SevenIsSomeFive(cards);
  }

  // ---------- findWinners ----------

  datatype ShowdownPlayer = ShowdownPlayer(seatNo: int, holeCards: seq<Card>)

  /** Everybody's best hand; fails as a whole when some player cannot show seven cards. */
  function RankedHands(players: seq<ShowdownPlayer>, board: seq<Card>): (r: Result<seq<EvaluatedHand>, EvaluateError>)
    ensures r.Ok? ==> |r.value| == |players|
  {
    if players == [] then Ok([])
    else
      var n := |players| - 1;
      var rest :- RankedHands(players[..n], board);
      var hand :- EvaluateSeven(players[n].holeCards + board);
      Ok(rest + [hand])
  }

  function SeatsMatching(players: seq<ShowdownPlayer>, hands: seq<EvaluatedHand>, best: EvaluatedHand): seq<int>
    requires |hands| == |players|
  {
    if players == [] then []
    else
      var n := |players| - 1;
      var rest := SeatsMatching(players[..n], hands[..n], best);
      if Compare(hands[n], best) == 0 then rest + [players[n].seatNo] else rest
  }

  function FindWinners(players: seq<ShowdownPlayer>, board: seq<Card>): Result<seq<int>, EvaluateError> {
    var hands :- RankedHands(players, board);
    if hands == [] then Ok([])
    else
      var sorted := Sort(hands, HandLeq);
      Ok(SeatsMatching(players, hands, sorted[|sorted| - 1]))
  }

  /** Every player shows seven different cards. */
  ghost predicate CanShow(players: seq<ShowdownPlayer>, board: seq<Card>) {
    forall i :: 0 <= i < |players| ==>
      |players[i].holeCards + board| == 7 && NoDup(players[i].holeCards + board)
  }

  /** Hand i is the best seven-card hand of player i. */
  ghost predicate HandsOf(players: seq<ShowdownPlayer>, board: seq<Card>, hands: seq<EvaluatedHand>) {
    if players == [] then hands == []
    else
      var n := |players| - 1;
      |hands| == n + 1 && HandsOf(players[..n], board, hands[..n]) && Shows(players[n], board, hands[n])
  }

  ghost predicate Shows(player: ShowdownPlayer, board: seq<Card>, hand: EvaluatedHand) {
    EvaluateSeven(player.holeCards + board) == Ok(hand) && WellRanked(hand)
  }

  lemma {:induction false} RankedHandsOk(players: seq<ShowdownPlayer>, board: seq<Card>)
      returns (hands: seq<EvaluatedHand>)
    requires CanShow(players, board)
    ensures RankedHands(players, board) == Ok(hands) && HandsOf(players, board, hands)
  {
    if players == [] {
      hands := [];
    } else {
      var n := |players| - 1;
      var rest := RankedHandsOk(players[..n], board);
      SevenIsWellRanked(players[n].holeCards + board);
      var hand := EvaluateSeven(players[n].holeCards + board).value;
      hands := rest + [hand];
      assert hands[..n] == rest;
    }
  }

  lemma {:induction false} HandAt(players: seq<ShowdownPlayer>, board: seq<Card>, hands: seq<EvaluatedHand>, i: nat)
    requires HandsOf(players, board, hands) && i < |players|
    ensures |hands| == |players| && Shows(players[i], board, hands[i])
  {
    if i < |players| - 1 {
      HandAt(players[..|players| - 1], board, hands[..|players| - 1], i);
    }
  }

  lemma {:induction false} SeatsMatchingContents(players: seq<ShowdownPlayer>, hands: seq<EvaluatedHand>,
      best: EvaluatedHand, s: int)
    requires |hands| == |players|
    ensures s in SeatsMatching(players, hands, best) <==>
      exists i :: 0 <= i < |players| && players[i].seatNo == s && Compare(hands[i], best) == 0
  {
    if players != [] {
      var n := |players| - 1;
      SeatsMatchingContents(players[..n], hands[..n], best, s);
      if i :| 0 <= i < |players| && players[i].seatNo == s && Compare(hands[i], best) == 0 {
        assert i < n ==> players[..n][i].seatNo == s && Compare(hands[..n][i], best) == 0;
      }
    }
  }

  /** The ranks the showdown hands to allocateSidePots. */
  ghost predicate RanksOf(players: seq<ShowdownPlayer>, board: seq<Card>, ranks: map<int, int>) {
    forall i :: 0 <= i < |players| ==> (
      && players[i].seatNo in ranks
      && EvaluateSeven(players[i].holeCards + board).Ok?
      && ranks[players[i].seatNo] == EvaluateSeven(players[i].holeCards + board).value.rankValue)
  }

  /** When all contenders share one pot, the comparison-based winners and the rank-based winners are the same seats. */
  lemma FindWinnersMatchesPot(players: seq<ShowdownPlayer>, board: seq<Card>, ranks: map<int, int>, pot: SidePot,
      s: int)
    requires CanShow(players, board) && players != [] && RanksOf(players, board, ranks)
    requires forall i, j :: 0 <= i < j < |players| ==> players[i].seatNo != players[j].seatNo
    requires forall t :: t in pot.eligible <==> exists i :: 0 <= i < |players| && players[i].seatNo == t
    ensures FindWinners(players, board).Ok?
    ensures s in FindWinners(players, board).value <==> s in Winners(pot, ranks)
  {
    var hands := RankedHandsOk(players, board);
    var sorted := Sort(hands, HandLeq);
    forall i | 0 <= i < |hands|
      ensures WellRanked(hands[i]) && players[i].seatNo in ranks && ranks[players[i].seatNo] == hands[i].rankValue
    {
      HandAt(players, board, hands, i);
    }
    var b := LastIsTopRank(hands);
    PotWinnersByRank(players, hands, ranks, pot, b, s);
    SeatsMatchingContents(players, hands, sorted[|sorted| - 1], s);
  }

  /** The last hand after sorting is one of the hands, and ties with it are ties in rank value. */
  lemma LastIsTopRank(hands: seq<EvaluatedHand>) returns (b: nat)
    requires hands != [] && forall i :: 0 <= i < |hands| ==> WellRanked(hands[i])
    ensures var sorted := Sort(hands, HandLeq);
      b < |hands| && hands[b] == sorted[|sorted| - 1]
    ensures forall i :: 0 <= i < |hands| ==>
      && hands[i].rankValue <= hands[b].rankValue
      && (Compare(hands[i], hands[b]) == 0 <==> hands[i].rankValue == hands[b].rankValue)
  {
    var sorted := Sort(hands, HandLeq);
    var best := sorted[|sorted| - 1];
    HandOrder();
    SortSorted(hands, HandLeq);
    SortMembers(hands, HandLeq, best);
    b :| 0 <= b < |hands| && hands[b] == best;
    forall i | 0 <= i < |hands|
      ensures hands[i].rankValue <= best.rankValue
      ensures Compare(hands[i], best) == 0 <==> hands[i].rankValue == best.rankValue
    {
      SortMembers(hands, HandLeq, hands[i]);
      LastIsGreatest(sorted, hands[i], HandLeq);
      OrdersAgree(hands[i], best);
    }
  }

  lemma PotWinnersByRank(players: seq<ShowdownPlayer>, hands: seq<EvaluatedHand>, ranks: map<int, int>, pot: SidePot,
      b: nat, s: int)
    requires b < |players| == |hands|
    requires forall i :: 0 <= i < |players| ==>
      players[i].seatNo in ranks && ranks[players[i].seatNo] == hands[i].rankValue
    requires forall i :: 0 <= i < |hands| ==> hands[i].rankValue <= hands[b].rankValue
    requires forall t :: t in pot.eligible <==> exists i :: 0 <= i < |players| && players[i].seatNo == t
    ensures s in Winners(pot, ranks) <==>
      exists i :: 0 <= i < |players| && players[i].seatNo == s && hands[i].rankValue == hands[b].rankValue
  {
    assert players[b].seatNo in pot.eligible;
    WinnersAreBest(pot, ranks);
    if s in Winners(pot, ranks) {
      var i :| 0 <= i < |players| && players[i].seatNo == s;
      assert ranks[players[b].seatNo] <= ranks[s];
    }
    if i :| 0 <= i < |players| && players[i].seatNo == s && hands[i].rankValue == hands[b].rankValue {
      forall t | t in pot.eligible ensures ranks[t] <= ranks[s] {
        var j :| 0 <= j < |players| && players[j].seatNo == t;
      }
    }
  }
}
