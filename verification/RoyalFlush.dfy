/** Eleven cards from which seat 2 makes a royal flush and seat 1 no five of a
    suit, and why the first beats the second. */
module RoyalFlush {
  import opened Sequences
  import opened Deck
  import opened Evaluator
  import opened EvaluatorClassification
  import opened EvaluatorOrder
  import opened EvaluatorBest

  /** Seat 1 gets 2C 7H, seat 2 AS KS, seat 3 3D 8D, and the board is QS JS TS 4H 5C. */
  function RiggedCards(): seq<Card> {
    [Card(2, Clubs), Card(14, Spades), Card(3, Diamonds)] + [Card(7, Hearts), Card(13, Spades), Card(8, Diamonds)] +
    RiggedBoard()
  }

  function RiggedBoard(): seq<Card> {
    [Card(12, Spades), Card(11, Spades), Card(10, Spades), Card(4, Hearts), Card(5, Clubs)]
  }

  function LosingSeven(): seq<Card> {
    [Card(2, Clubs), Card(7, Hearts)] + RiggedBoard()
  }

  function RoyalSeven(): seq<Card> {
    [Card(14, Spades), Card(13, Spades)] + RiggedBoard()
  }

  lemma DisjointFit(a: seq<Card>, b: seq<Card>, all: seq<Card>)
    requires multiset(a) <= multiset(all) && multiset(b) <= multiset(all) && forall c :: c in a ==> c !in b
    ensures |a| + |b| <= |all|
  {
    var both := multiset(a) + multiset(b);
    forall c ensures both[c] <= multiset(all)[c] {
      assert c in a <==> c in multiset(a);
      assert c in b <==> c in multiset(b);
    }
    assert multiset(all) == both + (multiset(all) - both);
  }

  lemma PickedFit(picked: seq<Card>, all: seq<Card>)
    requires NoDup(picked) && forall k :: 0 <= k < |picked| ==> picked[k] in all
    ensures multiset(picked) <= multiset(all)
  {
    NoDupMultiset(picked);
    forall c ensures multiset(picked)[c] <= multiset(all)[c] {
      assert c in multiset(picked) ==> c in multiset(all);
    }
  }

  /** Five of seven cards cannot share a suit that three of the seven do not have. */
  lemma ThreeOthers(five: seq<Card>, cards: seq<Card>, others: seq<Card>)
    requires FiveOf(five, cards) && |cards| == 7 && |others| == 3 && multiset(others) <= multiset(cards)
    requires forall k :: 0 <= k < 3 ==> others[k].suit != five[0].suit
    ensures !OneSuit(five)
  {
    if forall c :: c in five ==> c !in others {
      DisjointFit(five, others, cards);
    } else {
      var c :| c in five && c in others;
      var i, k :| 0 <= i < 5 && five[i] == c && 0 <= k < 3 && others[k] == c;
    }
  }

  /** Two clubs, two hearts and three spades. */
  ghost predicate Mixed(cards: seq<Card>) {
    && |cards| == 7 && NoDup(cards)
    && cards[0].suit == cards[6].suit == Clubs && cards[1].suit == cards[5].suit == Hearts
    && cards[2].suit == cards[3].suit == cards[4].suit == Spades
  }

  lemma MixedIsNoFlush(five: seq<Card>, cards: seq<Card>)
    requires Mixed(cards) && FiveOf(five, cards)
    ensures !OneSuit(five)
  {
    var others := if five[0].suit == Spades then [cards[0], cards[1], cards[5]] else [cards[2], cards[3], cards[4]];
    PickedFit(others, cards);
    ThreeOthers(five, cards, others);
  }

  lemma NoFlushCategory(five: seq<Card>)
    requires |five| == 5 && NoDup(five) && !OneSuit(five)
    ensures Strength(EvaluateFive(five).category) < Strength(StraightFlush)
  {
    NoStraightFlush(five);
    NoRoyalFlush(five);
  }

  lemma NoStraightFlush(five: seq<Card>)
    requires |five| == 5 && NoDup(five) && !OneSuit(five)
    ensures EvaluateFive(five).category != StraightFlush
  {
    StrongerThan(five, StraightFlush);
  }

  lemma NoRoyalFlush(five: seq<Card>)
    requires |five| == 5 && NoDup(five) && !OneSuit(five)
    ensures EvaluateFive(five).category != Category.RoyalFlush
  {
    StrongerThan(five, Category.RoyalFlush);
  }

  lemma CategoryDecides(a: EvaluatedHand, b: EvaluatedHand)
    requires WellRanked(a) && WellRanked(b) && Strength(a.category) < Strength(b.category)
    ensures a.rankValue < b.rankValue
  {
    OrdersAgree(a, b);
  }

  lemma MixedIsLow(low: seq<Card>) returns (h: EvaluatedHand)
    requires Mixed(low)
    ensures EvaluateSeven(low) == Ok(h) && WellRanked(h) && Strength(h.category) < Strength(StraightFlush)
  {
    var five := SevenIsSomeFive(low);
    h := EvaluateFive(five);
    MixedIsNoFlush(five, low);
    SubsetNoDup(five, low);
    NoFlushCategory(five);
  }

  lemma RoyalCategory(royal: seq<Card>) returns (h: EvaluatedHand)
    requires |royal| == 5 && NoDup(royal) && Holds(RoyalFlush, royal)
    ensures h == EvaluateFive(royal) && WellRanked(h) && Strength(h.category) >= Strength(RoyalFlush)
  {
    StrongerThan(royal, RoyalFlush);
    FiveIsWellRanked(royal);
    h := EvaluateFive(royal);
  }

  lemma RoyalIsHigh(high: seq<Card>, royal: seq<Card>) returns (h: EvaluatedHand, best: EvaluatedHand)
    requires |high| == 7 && NoDup(high) && FiveOf(royal, high) && Holds(RoyalFlush, royal)
    ensures WellRanked(h) && Strength(h.category) >= Strength(RoyalFlush)
    ensures EvaluateSeven(high) == Ok(best) && h.rankValue <= best.rankValue
  {
    SubsetNoDup(royal, high);
    h := RoyalCategory(royal);
    best := SevenAtLeast(high, royal);
  }

  lemma SevenAtLeast(cards: seq<Card>, five: seq<Card>) returns (best: EvaluatedHand)
    requires |cards| == 7 && NoDup(cards) && FiveOf(five, cards)
    ensures EvaluateSeven(cards) == Ok(best) && EvaluateFive(five).rankValue <= best.rankValue
  {
    var some := SevenIsSomeFive(cards);
    best := EvaluateSeven(cards).value;
    NoFiveIsBetter(cards, five);
  }

  function RoyalFive(): seq<Card> {
    [Card(14, Spades), Card(13, Spades), Card(12, Spades), Card(11, Spades), Card(10, Spades)]
  }

  lemma LosingIsMixed(seven: seq<Card>)
    requires seven == LosingSeven()
    ensures Mixed(seven)
  {
  }

  lemma RoyalHolds(five: seq<Card>)
    requires five == RoyalFive()
    ensures Holds(RoyalFlush, five)
  {
    assert Ranks(five) == [14, 13, 12, 11, 10];
    assert Run(14) == [14, 13, 12, 11, 10];
  }

  lemma RoyalIsThere(five: seq<Card>, seven: seq<Card>)
    requires five == RoyalFive() && seven == RoyalSeven()
    ensures |seven| == 7 && NoDup(seven) && FiveOf(five, seven)
  {
    assert seven == five + [Card(4, Hearts), Card(5, Clubs)];
  }

  /** Seat 2's cards, with a royal flush, are worth more than seat 1's, without five of a suit. */
  lemma SeatTwoWins(low: seq<Card>, high: seq<Card>) returns (a: EvaluatedHand, b: EvaluatedHand)
    requires low == LosingSeven() && high == RoyalSeven()
    ensures EvaluateSeven(low) == Ok(a) && EvaluateSeven(high) == Ok(b) && a.rankValue < b.rankValue
  {
    a := LosingIsLow(low);
    var h;
    h, b := RoyalOutranks(high);
    CategoryDecides(a, h);
  }

  lemma LosingIsLow(low: seq<Card>) returns (a: EvaluatedHand)
    requires low == LosingSeven()
    ensures EvaluateSeven(low) == Ok(a) && WellRanked(a) && Strength(a.category) < Strength(StraightFlush)
  {
    LosingIsMixed(low);
    a := MixedIsLow(low);
  }

  lemma RoyalOutranks(high: seq<Card>) returns (h: EvaluatedHand, best: EvaluatedHand)
    requires high == RoyalSeven()
    ensures WellRanked(h) && Strength(h.category) >= Strength(RoyalFlush)
    ensures EvaluateSeven(high) == Ok(best) && h.rankValue <= best.rankValue
  {
    RoyalHolds(RoyalFive());
    RoyalIsThere(RoyalFive(), high);
    h, best := RoyalIsHigh(high, RoyalFive());
  }
}
