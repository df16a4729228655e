/** packages/shared/src/poker/evaluator.ts: five-card evaluation, the two
    orders on evaluated hands, and the best of the 21 five-card subsets. */
module Evaluator {
  import opened Sequences
  import opened Deck

  datatype Category =
    | HighCard | OnePair | TwoPair | ThreeOfAKind | Straight
    | Flush | FullHouse | FourOfAKind | StraightFlush | RoyalFlush

  /** HAND_RANK_STRENGTH. */
  function Strength(c: Category): int {
    match c
    case HighCard => 1
    case OnePair => 2
    case TwoPair => 3
    case ThreeOfAKind => 4
    case Straight => 5
    case Flush => 6
    case FullHouse => 7
    case FourOfAKind => 8
    case StraightFlush => 9
    case RoyalFlush => 10
  }

  datatype EvaluatedHand = EvaluatedHand(category: Category, rankValue: int, tiebreakers: seq<int>, bestFive: seq<Card>)

  // ---------- groupRanks ----------

  datatype Group = Group(rank: int, count: int)

  /** Most frequent first, then higher rank first. */
  predicate GroupLeq(a: Group, b: Group) {
    a.count > b.count || (a.count == b.count && a.rank >= b.rank)
  }

  function IndexOfRank(groups: seq<Group>, rank: int): (k: nat)
    ensures k <= |groups|
    ensures k < |groups| ==> groups[k].rank == rank
    ensures forall j :: 0 <= j < k ==> groups[j].rank != rank
  {
    if groups == [] then 0
    else if groups[0].rank == rank then 0
    else 1 + IndexOfRank(groups[1..], rank)
  }

  /** counts.set(v, (counts.get(v) || 0) + 1) on an insertion-ordered Map. */
  function Bump(groups: seq<Group>, rank: int): seq<Group> {
    var k := IndexOfRank(groups, rank);
    if k < |groups| then groups[k := Group(rank, groups[k].count + 1)] else groups + [Group(rank, 1)]
  }

  function Tally(values: seq<int>): seq<Group> {
    if values == [] then [] else Bump(Tally(values[..|values| - 1]), values[|values| - 1])
  }

  function GroupRanks(values: seq<int>): seq<Group> {
    Sort(Tally(values), GroupLeq)
  }

  method GroupRanksLoop(values: seq<int>) returns (groups: seq<Group>)
    ensures groups == GroupRanks(values)
  {
    var counts: seq<Group> := [];
    for i := 0 to |values|
      invariant counts == Tally(values[..i])
    {
      counts := Bump(counts, values[i]);
      assert values[..i + 1][..i] == values[..i];
    }
    assert values[..|values|] == values;
    groups := Sort(counts, GroupLeq);
  }

  // ---------- getStraightHigh ----------

  function Distinct(values: seq<int>): seq<int> {
    if values == [] then []
    else
      var n := |values| - 1;
      var rest := Distinct(values[..n]);
      if values[n] in rest then rest else rest + [values[n]]
  }

  /** An ace also counts as one, below the deuce. */
  function WithLowAce(unique: seq<int>): seq<int> {
    if 14 in unique then unique + [1] else unique
  }

  predicate Consecutive(window: seq<int>) {
    forall k :: 0 < k < |window| ==> window[k] == window[k - 1] - 1
  }

  function SearchStraight(unique: seq<int>, index: nat): Option<int>
    decreases |unique| - index
  {
    if index + 5 > |unique| then None
    else if Consecutive(unique[index..index + 5]) then Some(if unique[index] == 1 then 5 else unique[index])
    else SearchStraight(unique, index + 1)
  }

  function StraightHigh(values: seq<int>): Option<int> {
    SearchStraight(WithLowAce(Distinct(values)), 0)
  }

  method GetStraightHigh(values: seq<int>) returns (high: Option<int>)
    ensures high == StraightHigh(values)
  {
    var unique := Distinct(values);
    if 14 in unique {
      unique := unique + [1];
    }
    var index := 0;
    while index + 5 <= |unique|
      invariant 0 <= index
      invariant SearchStraight(unique, index) == StraightHigh(values)
    {
      if Consecutive(unique[index..index + 5]) {
        return Some(if unique[index] == 1 then 5 else unique[index]);
      }
      index := index + 1;
    }
    high := None;
  }

  // ---------- cardsForRanks ----------

  function FirstOfRank(cards: seq<Card>, rank: int): (k: nat)
    ensures k <= |cards|
    ensures k < |cards| ==> cards[k].rank == rank
    ensures k == |cards| ==> forall j :: 0 <= j < |cards| ==> cards[j].rank != rank
  {
    if cards == [] then 0
    else if cards[0].rank == rank then 0
    else 1 + FirstOfRank(cards[1..], rank)
  }

  /** For each rank in turn take the first remaining card of that rank. */
  function CardsForRanks(cards: seq<Card>, ranks: seq<int>): seq<Card> {
    if ranks == [] then []
    else
      var k := FirstOfRank(cards, ranks[0]);
      if k < |cards| then [cards[k]] + CardsForRanks(cards[..k] + cards[k + 1..], ranks[1..])
      else CardsForRanks(cards, ranks[1..])
  }

  method CardsForRanksLoop(cards: seq<Card>, ranks: seq<int>) returns (result: seq<Card>)
    ensures result == CardsForRanks(cards, ranks)
  {
    var remaining := cards;
    result := [];
    for i := 0 to |ranks|
      invariant result + CardsForRanks(remaining, ranks[i..]) == CardsForRanks(cards, ranks)
    {
      var k := FirstOfRank(remaining, ranks[i]);
      assert ranks[i..][1..] == ranks[i + 1..];
      if k < |remaining| {
        result := result + [remaining[k]];
        remaining := remaining[..k] + remaining[k + 1..];
      }
    }
  }

  /** The ranks of a straight as the table shows them; a wheel ends in its ace. */
  function Run(high: int): seq<int> {
    if high == 5 then [5, 4, 3, 2, 14] else [high, high - 1, high - 2, high - 3, high - 4]
  }

  // ---------- encodeRank and compareHands ----------

  function Padded(tiebreakers: seq<int>): (r: seq<int>)
    ensures |r| >= 5
    decreases 5 - |tiebreakers|
  {
    if |tiebreakers| < 5 then Padded(tiebreakers + [0]) else tiebreakers
  }

  /** Digits read in base 15. */
  function Base15(digits: seq<int>): int {
    if digits == [] then 0 else Base15(digits[..|digits| - 1]) * 15 + digits[|digits| - 1]
  }

  function EncodeRank(category: Category, tiebreakers: seq<int>): int {
    Base15([Strength(category)] + Padded(tiebreakers))
  }

  method EncodeRankLoop(category: Category, tiebreakers: seq<int>) returns (value: int)
    ensures value == EncodeRank(category, tiebreakers)
  {
    var padded := tiebreakers;
    while |padded| < 5
      invariant Padded(padded) == Padded(tiebreakers)
      decreases 5 - |padded|
    {
      padded := padded + [0];
    }
    var digits := [Strength(category)] + padded;
    value := 0;
    for i := 0 to |digits|
      invariant value == Base15(digits[..i])
    {
      value := value * 15 + digits[i];
      assert digits[..i + 1][..i] == digits[..i];
    }
    assert digits[..|digits|] == digits;
  }

  function TiebreakerAt(h: EvaluatedHand, k: nat): int {
    if k < |h.tiebreakers| then h.tiebreakers[k] else 0
  }

  function CompareFrom(a: EvaluatedHand, b: EvaluatedHand, index: nat): int
    decreases Max(|a.tiebreakers|, |b.tiebreakers|) - index
  {
    if index >= Max(|a.tiebreakers|, |b.tiebreakers|) then 0
    else if TiebreakerAt(a, index) != TiebreakerAt(b, index) then TiebreakerAt(a, index) - TiebreakerAt(b, index)
    else CompareFrom(a, b, index + 1)
  }

  function Compare(a: EvaluatedHand, b: EvaluatedHand): int {
    if a.category != b.category then Strength(a.category) - Strength(b.category)
    else CompareFrom(a, b, 0)
  }

  method CompareHands(a: EvaluatedHand, b: EvaluatedHand) returns (diff: int)
    ensures diff == Compare(a, b)
  {
    diff := Strength(a.category) - Strength(b.category);
    if diff != 0 {
      return;
    }
    assert a.category == b.category;
    var maxLength := Max(|a.tiebreakers|, |b.tiebreakers|);
    for index := 0 to maxLength
      invariant CompareFrom(a, b, index) == Compare(a, b)
    {
      diff := TiebreakerAt(a, index) - TiebreakerAt(b, index);
      if diff != 0 {
        return;
      }
    }
    diff := 0;
  }

  // ---------- evaluateFiveCards ----------

  function Ranks(cards: seq<Card>): seq<int> {
    seq(|cards|, i requires 0 <= i < |cards| => cards[i].rank)
  }

  function Values(cards: seq<Card>): seq<int> {
    Sort(Ranks(cards), IntGeq)
  }

  predicate OneSuit(cards: seq<Card>) {
    forall i :: 0 <= i < |cards| ==> cards[i].suit == cards[0].suit
  }

  predicate CardGeq(a: Card, b: Card) {
    a.rank >= b.rank
  }

  function FindCount(groups: seq<Group>, count: int): Option<Group> {
    if groups == [] then None
    else if groups[0].count == count then Some(groups[0])
    else FindCount(groups[1..], count)
  }

  function OtherRanks(groups: seq<Group>, rank: int): seq<int> {
    if groups == [] then []
    else if groups[0].rank != rank then [groups[0].rank] + OtherRanks(groups[1..], rank)
    else OtherRanks(groups[1..], rank)
  }

  function RanksWithCount(groups: seq<Group>, count: int): seq<int> {
    if groups == [] then []
    else if groups[0].count == count then [groups[0].rank] + RanksWithCount(groups[1..], count)
    else RanksWithCount(groups[1..], count)
  }

  /** The element the source reads with a non-null assertion. */
  function Head(ranks: seq<int>): int {
    if ranks == [] then 0 else ranks[0]
  }

  function MakeHand(category: Category, tiebreakers: seq<int>, bestFive: seq<Card>): EvaluatedHand {
    EvaluatedHand(category, EncodeRank(category, tiebreakers), tiebreakers, bestFive)
  }

  /** What a hand is, before its cards are laid out: everything that decides its strength. */
  datatype Shape = Shape(category: Category, tiebreakers: seq<int>, layout: seq<int>)

  function ShapeOf(values: seq<int>, flush: bool): Shape {
    var groups := GroupRanks(values);
    var high := StraightHigh(values);
    var four := FindCount(groups, 4);
    var three := FindCount(groups, 3);
    var pair := FindCount(groups, 2);
    if flush && high == Some(14) then Shape(RoyalFlush, [14], Run(14))
    else if flush && high.Some? then Shape(StraightFlush, [high.value], Run(high.value))
    else if four.Some? then
      var kicker := Head(OtherRanks(groups, four.value.rank));
      var r := four.value.rank;
      Shape(FourOfAKind, [r, kicker], [r, r, r, r, kicker])
    else if three.Some? && pair.Some? then
      var r, s := three.value.rank, pair.value.rank;
      Shape(FullHouse, [r, s], [r, r, r, s, s])
    else if flush then Shape(Flush, values, values)
    else if high.Some? then Shape(Straight, [high.value], Run(high.value))
    else if three.Some? then
      var r := three.value.rank;
      var kickers := OtherRanks(groups, r);
      Shape(ThreeOfAKind, [r] + kickers, [r, r, r] + kickers)
    else
      var pairs := Sort(RanksWithCount(groups, 2), IntGeq);
      if |pairs| == 2 then
        var kicker := Head(RanksWithCount(groups, 1));
        Shape(TwoPair, pairs + [kicker], [pairs[0], pairs[0], pairs[1], pairs[1], kicker])
      else if |pairs| == 1 then
        var kickers := OtherRanks(groups, pairs[0]);
        Shape(OnePair, [pairs[0]] + kickers, [pairs[0], pairs[0]] + kickers)
      else Shape(HighCard, values, values)
  }

  function EvaluateFive(cards: seq<Card>): EvaluatedHand {
    var shape := ShapeOf(Values(cards), OneSuit(cards));
    MakeHand(shape.category, shape.tiebreakers,
      if shape.category == Flush || shape.category == HighCard then Sort(cards, CardGeq)
      else CardsForRanks(cards, shape.layout))
  }

  // ---------- the best of seven ----------

  function Prepend<T>(x: T, xss: seq<seq<T>>): (r: seq<seq<T>>)
    ensures |r| == |xss| && forall i :: 0 <= i < |xss| ==> r[i] == [x] + xss[i]
  {
    seq(|xss|, i requires 0 <= i < |xss| => [x] + xss[i])
  }

  function Combinations<T>(items: seq<T>, size: nat): seq<seq<T>>
    decreases items
  {
    if size == 0 then [[]]
    else if |items| < size then []
    else Prepend(items[0], Combinations(items[1..], size - 1)) + Combinations(items[1..], size)
  }

  function EvaluateAll(combos: seq<seq<Card>>): (r: seq<EvaluatedHand>)
    ensures |r| == |combos| && forall i :: 0 <= i < |combos| ==> r[i] == EvaluateFive(combos[i])
  {
    seq(|combos|, i requires 0 <= i < |combos| => EvaluateFive(combos[i]))
  }

  predicate HandLeq(a: EvaluatedHand, b: EvaluatedHand) {
    Compare(a, b) <= 0
  }

  datatype EvaluateError = NotSevenCards

  lemma {:induction false} CombinationsNonEmpty<T>(items: seq<T>, size: nat)
    requires size <= |items|
    ensures Combinations(items, size) != []
    decreases items
  {
    if size > 0 {
      CombinationsNonEmpty(items[1..], size - 1);
    }
  }

  function EvaluateSeven(cards: seq<Card>): (r: Result<EvaluatedHand, EvaluateError>)
    ensures r.Ok? <==> |cards| == 7
  {
    if |cards| != 7 then Err(NotSevenCards)
    else
      CombinationsNonEmpty(cards, 5);
      var hands := Sort(EvaluateAll(Combinations(cards, 5)), HandLeq);
      Ok(hands[|hands| - 1])
  }
}
