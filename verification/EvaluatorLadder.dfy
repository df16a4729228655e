/** The order of the ten categories, as the rule book lists them, decides
    between hands: five cards against five, seven against seven. */
module EvaluatorLadder {
  import opened Sequences
  import opened Deck
  import opened Evaluator
  import opened EvaluatorClassification
  import opened EvaluatorOrder
  import opened EvaluatorBest

  /** The categories from the lowest to the highest. */
  function Ladder(): seq<Category> {
    [HighCard, OnePair, TwoPair, ThreeOfAKind, Straight, Flush, FullHouse, FourOfAKind, StraightFlush, RoyalFlush]
  }

  /** HAND_RANK_STRENGTH numbers the list from 1. */
  lemma StrengthIsPlace(j: nat)
    requires j < 10
    ensures Strength(Ladder()[j]) == j + 1
  {
  }

  lemma EveryCategoryListed(c: Category) returns (j: nat)
    ensures j < 10 && Ladder()[j] == c
  {
    j := Strength(c) - 1;
  }

  /** Of two hands of different categories the one later in the list compares higher and has the larger rank value. */
  lemma LadderDecides(a: EvaluatedHand, b: EvaluatedHand, i: nat, j: nat)
    requires WellRanked(a) && WellRanked(b) && i < j < 10 && a.category == Ladder()[i] && b.category == Ladder()[j]
    ensures Compare(a, b) < 0 && Compare(b, a) > 0 && a.rankValue < b.rankValue
  {
    StrengthIsPlace(i);
    StrengthIsPlace(j);
    OrdersAgree(a, b);
  }

  lemma {:induction false} FirstDifference(a: EvaluatedHand, b: EvaluatedHand, from: nat, k: nat)
    requires from <= k < |a.tiebreakers| && k < |b.tiebreakers| && k < 5
    requires forall l :: from <= l < k ==> a.tiebreakers[l] == b.tiebreakers[l]
    requires a.tiebreakers[k] > b.tiebreakers[k]
    ensures CompareFrom(a, b, from) > 0
    decreases k - from
  {
    if from < k {
      FirstDifference(a, b, from + 1, k);
    }
  }

  /** Within a category the first tiebreaker that differs decides. */
  lemma TiebreakerDecides(a: EvaluatedHand, b: EvaluatedHand, k: nat)
    requires WellRanked(a) && WellRanked(b) && a.category == b.category
    requires k < |a.tiebreakers| && k < |b.tiebreakers| && a.tiebreakers[..k] == b.tiebreakers[..k]
    requires a.tiebreakers[k] > b.tiebreakers[k]
    ensures Compare(a, b) > 0 && a.rankValue > b.rankValue
  {
    forall l | 0 <= l < k ensures a.tiebreakers[l] == b.tiebreakers[l] {
      assert a.tiebreakers[..k][l] == b.tiebreakers[..k][l];
    }
    FirstDifference(a, b, 0, k);
    OrdersAgree(a, b);
  }

  // ---------- five cards ----------

  /** Category j of the list holds of these five cards, and none after it. */
  ghost predicate Makes(five: seq<Card>, j: nat) {
    j < 10 && Holds(Ladder()[j], five) && forall k :: j < k < 10 ==> !Holds(Ladder()[k], five)
  }

  lemma FiveMakes(five: seq<Card>, j: nat)
    requires |five| == 5 && NoDup(five) && j < 10 && EvaluateFive(five).category == Ladder()[j]
    ensures Makes(five, j)
  {
    StrongerThan(five, Ladder()[j]);
    forall k | j < k < 10 ensures !Holds(Ladder()[k], five) {
      StrongerThan(five, Ladder()[k]);
      StrengthIsPlace(k);
      StrengthIsPlace(j);
    }
  }

  lemma MakesOnce(five: seq<Card>, i: nat, j: nat)
    requires Makes(five, i) && Makes(five, j)
    ensures i == j
  {
  }

  lemma CategoryAt(c: Category, i: nat, j: nat)
    requires i < 10 && j < 10 && c == Ladder()[i]
    ensures c == Ladder()[j] <==> i == j
  {
    StrengthIsPlace(i);
    StrengthIsPlace(j);
  }

  /** evaluateFiveCards names the last category of the list that holds. */
  lemma FiveByLadder(five: seq<Card>, j: nat)
    requires |five| == 5 && NoDup(five) && j < 10
    ensures EvaluateFive(five).category == Ladder()[j] <==> Makes(five, j)
  {
    var i := EveryCategoryListed(EvaluateFive(five).category);
    FiveMakes(five, i);
    CategoryAt(EvaluateFive(five).category, i, j);
    if Makes(five, j) {
      MakesOnce(five, i, j);
    }
  }

  // ---------- seven cards ----------

  /** Some five of the seven cards make category j, and no five make a later one. */
  ghost predicate SevenMakes(seven: seq<Card>, j: nat) {
    && (exists five :: FiveOf(five, seven) && Makes(five, j))
    && forall five, k: nat :: FiveOf(five, seven) && Makes(five, k) ==> k <= j
  }

  lemma SevenFindsBest(seven: seq<Card>) returns (j: nat)
    requires |seven| == 7 && NoDup(seven)
    ensures j < 10 && EvaluateSeven(seven).Ok? && EvaluateSeven(seven).value.category == Ladder()[j]
    ensures WellRanked(EvaluateSeven(seven).value) && SevenMakes(seven, j)
  {
    var best := SevenIsSomeFive(seven);
    SubsetNoDup(best, seven);
    j := EveryCategoryListed(EvaluateFive(best).category);
    FiveMakes(best, j);
    forall five, k: nat | FiveOf(five, seven) && Makes(five, k) ensures k <= j {
      LaterWouldBeBetter(seven, best, five, j, k);
    }
  }

  lemma LaterWouldBeBetter(seven: seq<Card>, best: seq<Card>, five: seq<Card>, j: nat, k: nat)
    requires |seven| == 7 && NoDup(seven) && FiveOf(five, seven) && Makes(five, k)
    requires j < 10 && WellRanked(EvaluateFive(best)) && EvaluateFive(best).category == Ladder()[j]
    requires EvaluateSeven(seven) == Ok(EvaluateFive(best))
    ensures k <= j
  {
    SubsetNoDup(five, seven);
    FiveByLadder(five, k);
    FiveIsWellRanked(five);
    NoFiveIsBetter(seven, five);
    if j < k {
      LadderDecides(EvaluateFive(best), EvaluateFive(five), j, k);
    }
  }

  /** evaluateSevenCards names the last category of the list that some five of the cards make. */
  lemma SevenByLadder(seven: seq<Card>, j: nat)
    requires |seven| == 7 && NoDup(seven) && j < 10
    ensures EvaluateSeven(seven).Ok?
    ensures EvaluateSeven(seven).value.category == Ladder()[j] <==> SevenMakes(seven, j)
  {
    var i := SevenFindsBest(seven);
    if SevenMakes(seven, j) {
      SevenMakesOnce(seven, i, j);
    }
    CategoryAt(EvaluateSeven(seven).value.category, i, j);
  }

  lemma SevenMakesOnce(seven: seq<Card>, i: nat, j: nat)
    requires SevenMakes(seven, i) && SevenMakes(seven, j)
    ensures i == j
  {
    var a :| FiveOf(a, seven) && Makes(a, i);
    var b :| FiveOf(b, seven) && Makes(b, j);
  }

  /** Seven cards that make a later category are worth more. */
  lemma LaterSevenWins(a: seq<Card>, b: seq<Card>, i: nat, j: nat)
    requires |a| == 7 && NoDup(a) && |b| == 7 && NoDup(b) && SevenMakes(a, i) && SevenMakes(b, j) && i < j
    ensures EvaluateSeven(a).Ok? && EvaluateSeven(b).Ok?
    ensures EvaluateSeven(a).value.rankValue < EvaluateSeven(b).value.rankValue
  {
    var ia := SevenFindsBest(a);
    var jb := SevenFindsBest(b);
    SevenMakesOnce(a, i, ia);
    SevenMakesOnce(b, j, jb);
    LadderDecides(EvaluateSeven(a).value, EvaluateSeven(b).value, i, j);
  }
}
