/** The order in which evaluateFiveCards shows the five cards. */
module EvaluatorBestFive {
  import opened Sequences
  import opened Deck
  import opened Evaluator
  import opened EvaluatorGroups
  import opened EvaluatorShapes
  import opened EvaluatorClassification

  /** cardsForRanks picks exactly the ranks asked for, in their order. */
  lemma {:induction false} PickedRanks(cards: seq<Card>, ranks: seq<int>)
    requires multiset(ranks) == multiset(Ranks(cards))
    ensures Ranks(CardsForRanks(cards, ranks)) == ranks
    decreases |ranks|
  {
    if ranks != [] {
      var k := TakeFirst(cards, ranks);
      PickedRanks(cards[..k] + cards[k + 1..], ranks[1..]);
      var tail := CardsForRanks(cards[..k] + cards[k + 1..], ranks[1..]);
      assert CardsForRanks(cards, ranks) == [cards[k]] + tail;
      assert Ranks([cards[k]] + tail) == [cards[k].rank] + Ranks(tail);
    }
  }

  lemma {:induction false} InsertedRanks(cards: seq<Card>, card: Card)
    ensures Ranks(Insert(cards, card, CardGeq)) == Insert(Ranks(cards), card.rank, IntGeq)
  {
    if cards != [] {
      var n := |cards| - 1;
      assert Ranks(cards)[..n] == Ranks(cards[..n]);
      InsertedRanks(cards[..n], card);
    }
  }

  /** Sorting the cards by rank sorts the ranks. */
  lemma {:induction false} SortedCardRanks(cards: seq<Card>)
    ensures Ranks(Sort(cards, CardGeq)) == Values(cards)
  {
    if cards != [] {
      var n := |cards| - 1;
      assert Ranks(cards)[..n] == Ranks(cards[..n]);
      SortedCardRanks(cards[..n]);
      InsertedRanks(Sort(cards[..n], CardGeq), cards[n]);
    }
  }

  // ---------- the layout ----------

  lemma LayoutOfKinds(values: seq<int>)
    requires FiveValues(values) && GroupRanks(values) != [] && 2 <= GroupRanks(values)[0].count <= 4
    ensures ShapeOf(values, false).layout == Repeated(GroupRanks(values))
    ensures ShapeOf(values, false).category != Flush && ShapeOf(values, false).category != HighCard
  {
    var g := GroupRanks(values);
    FiveCardShapes(values);
    if CountsAre(g, [4, 1]) { ShapeFour(values); }
    else if CountsAre(g, [3, 2]) { ShapeFullHouse(values); }
    else if CountsAre(g, [3, 1, 1]) { ShapeThree(values); }
    else if CountsAre(g, [2, 2, 1]) { ShapeTwoPair(values); }
    else { ShapeOnePair(values); }
  }

  lemma LayoutOfSingles(values: seq<int>, flush: bool)
    requires FiveValues(values) && GroupRanks(values) != [] && GroupRanks(values)[0].count == 1
    ensures var high, shape := StraightHigh(values), ShapeOf(values, flush);
      && shape.layout == (if high.Some? then Run(high.value) else Repeated(GroupRanks(values)))
      && (shape.category == Flush || shape.category == HighCard ==> shape.layout == values)
  {
    FiveCardShapes(values);
    ShapeSingles(values, flush);
    AllSingle(values);
    AllRanksOnce(GroupRanks(values));
  }

  lemma LayoutIs(cards: seq<Card>)
    requires |cards| == 5 && NoDup(cards)
    ensures var values := Values(cards); var shape := ShapeOf(values, OneSuit(cards));
      && shape.layout ==
        (if StraightHigh(values).Some? then Run(StraightHigh(values).value) else Repeated(GroupRanks(values)))
      && (shape.category == Flush || shape.category == HighCard ==> shape.layout == values)
  {
    var values := Values(cards);
    ShapeFacts(cards);
    ValuesFacts(cards);
    GroupsTally(values);
    if GroupRanks(values)[0].count >= 2 {
      LayoutOfKinds(values);
    } else {
      LayoutOfSingles(values, OneSuit(cards));
    }
  }

  lemma ShownRanks(cards: seq<Card>)
    requires |cards| == 5 && NoDup(cards)
    ensures Ranks(EvaluateFive(cards).bestFive) == ShapeOf(Values(cards), OneSuit(cards)).layout
  {
    var shape := ShapeOf(Values(cards), OneSuit(cards));
    LayoutIs(cards);
    ShapeFacts(cards);
    SortContents(Ranks(cards), IntGeq);
    SortedCardRanks(cards);
    PickedRanks(cards, shape.layout);
  }

  /** Later entries come from the same or a later group. */
  lemma {:induction false} RepeatedInOrder(g: seq<Group>, a: nat, b: nat) returns (i: nat, j: nat)
    requires a <= b < |Repeated(g)| && forall k :: 0 <= k < |g| ==> g[k].count > 0
    ensures i <= j < |g| && Repeated(g)[a] == g[i].rank && Repeated(g)[b] == g[j].rank
  {
    var n := g[0].count;
    if b < n {
      i, j := 0, 0;
    } else if a < n {
      var l;
      l, j := RepeatedInOrder(g[1..], b - n, b - n);
      i, j := 0, j + 1;
    } else {
      i, j := RepeatedInOrder(g[1..], a - n, b - n);
      i, j := i + 1, j + 1;
    }
  }

  /** r comes before s on display: more of the cards have it, or as many and it is no lower. */
  ghost predicate Before(cards: seq<Card>, r: int, s: int) {
    Multiplicity(cards, r) > Multiplicity(cards, s) || (Multiplicity(cards, r) == Multiplicity(cards, s) && r >= s)
  }

  lemma RepeatedBefore(cards: seq<Card>, a: nat, b: nat)
    requires |cards| == 5 && a < b < |Repeated(GroupRanks(Values(cards)))|
    ensures Before(cards, Repeated(GroupRanks(Values(cards)))[a], Repeated(GroupRanks(Values(cards)))[b])
  {
    var g := GroupRanks(Values(cards));
    GroupsTally(Values(cards));
    ValuesFacts(cards);
    var i, j := RepeatedInOrder(g, a, b);
    if i < j {
      assert GroupLeq(g[i], g[j]);
    }
  }

  /** A straight is shown from its top card down, a wheel's ace last; any other hand by how often a rank occurs, then by
      height. */
  lemma BestFiveInOrder(cards: seq<Card>, hand: EvaluatedHand)
    requires |cards| == 5 && NoDup(cards) && hand == EvaluateFive(cards)
    ensures |hand.bestFive| == 5
    ensures forall h :: InARow(cards, h) ==> Ranks(hand.bestFive) == Run(h)
    ensures (forall h :: !InARow(cards, h)) ==>
      forall a, b :: 0 <= a < b < 5 ==> Before(cards, hand.bestFive[a].rank, hand.bestFive[b].rank)
  {
    var high := StraightHigh(Values(cards));
    LayoutIs(cards);
    ShownRanks(cards);
    BestFiveIsInput(cards);
    assert |hand.bestFive| == |multiset(hand.bestFive)| == |multiset(cards)|;
    forall h | InARow(cards, h) ensures Ranks(hand.bestFive) == Run(h) {
      RowIffStraight(cards, h);
    }
    if forall h :: !InARow(cards, h) {
      if high.Some? {
        RowIffStraight(cards, high.value);
      }
      forall a, b | 0 <= a < b < 5 ensures Before(cards, hand.bestFive[a].rank, hand.bestFive[b].rank) {
        RepeatedBefore(cards, a, b);
        assert Ranks(hand.bestFive)[a] == hand.bestFive[a].rank && Ranks(hand.bestFive)[b] == hand.bestFive[b].rank;
      }
    }
  }
}
