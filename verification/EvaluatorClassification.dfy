/** evaluateFiveCards against a declarative definition of the ten categories. */
module EvaluatorClassification {
  import opened Sequences
  import opened Deck
  import opened Evaluator
  import opened EvaluatorGroups
  import opened EvaluatorShapes

  // ---------- the declarative side ----------

  function Multiplicity(cards: seq<Card>, rank: int): nat {
    multiset(Ranks(cards))[rank]
  }

  ghost predicate OfAKind(cards: seq<Card>, k: nat) {
    exists r :: Multiplicity(cards, r) >= k
  }

  ghost predicate TwoKinds(cards: seq<Card>, k: nat, m: nat) {
    exists r, s :: r != s && Multiplicity(cards, r) >= k && Multiplicity(cards, s) >= m
  }

  ghost predicate InARow(cards: seq<Card>, high: int) {
    5 <= high <= 14 && multiset(Ranks(cards)) == multiset(Run(high))
  }

  /** What each category asks of the cards, in the rule book's terms. */
  ghost predicate Holds(category: Category, cards: seq<Card>) {
    match category
    case HighCard => true
    case OnePair => OfAKind(cards, 2)
    case TwoPair => TwoKinds(cards, 2, 2)
    case ThreeOfAKind => OfAKind(cards, 3)
    case Straight => exists h :: InARow(cards, h)
    case Flush => OneSuit(cards)
    case FullHouse => TwoKinds(cards, 3, 2)
    case FourOfAKind => OfAKind(cards, 4)
    case StraightFlush => OneSuit(cards) && exists h :: InARow(cards, h)
    case RoyalFlush => OneSuit(cards) && InARow(cards, 14)
  }

  // ---------- what ShapeOf returns on each multiplicity shape ----------

  lemma ValuesFacts(cards: seq<Card>)
    requires |cards| == 5
    ensures FiveValues(Values(cards)) && multiset(Values(cards)) == multiset(Ranks(cards))
  {
    var values := Values(cards);
    IntOrders();
    SortSorted(Ranks(cards), IntGeq);
    SortContents(Ranks(cards), IntGeq);
    forall k | 0 <= k < 5 ensures 2 <= values[k] <= 14 {
      SortMembers(Ranks(cards), IntGeq, values[k]);
      var j :| 0 <= j < |cards| && Ranks(cards)[j] == values[k];
    }
  }

  lemma RepeatedBy(values: seq<int>, g: seq<Group>, list: seq<int>)
    requires Tallies(values, g) && Covers(values, g)
    requires forall k :: 0 <= k < |g| ==> multiset(list)[g[k].rank] == g[k].count
    requires forall x :: x in list ==> exists k :: 0 <= k < |g| && g[k].rank == x
    ensures multiset(values) == multiset(list)
  {
    forall v ensures multiset(values)[v] == multiset(list)[v] {
      if v in list {
        var k :| 0 <= k < |g| && g[k].rank == v;
        assert v in multiset(values);
      }
      if v in values {
        var k :| 0 <= k < |g| && g[k].rank == v;
      }
    }
  }

  /** The group ranks, each as often as it was counted. */
  function Repeated(g: seq<Group>): seq<int> {
    if g == [] then [] else seq(if g[0].count > 0 then g[0].count else 0, i => g[0].rank) + Repeated(g[1..])
  }

  lemma {:induction false} RepeatedCounts(g: seq<Group>)
    requires forall i, j :: 0 <= i < j < |g| ==> g[i].rank != g[j].rank
    requires forall i :: 0 <= i < |g| ==> g[i].count > 0
    ensures forall k :: 0 <= k < |g| ==> multiset(Repeated(g))[g[k].rank] == g[k].count
    ensures forall x :: x in Repeated(g) ==> exists k :: 0 <= k < |g| && g[k].rank == x
  {
    if g != [] {
      var head := seq(g[0].count, i => g[0].rank);
      RepeatedCounts(g[1..]);
      ConstantCount(g[0].count, g[0].rank);
      assert Repeated(g) == head + Repeated(g[1..]);
      forall x | x in Repeated(g) ensures exists k :: 0 <= k < |g| && g[k].rank == x {
        if x in Repeated(g[1..]) {
          var k :| 0 <= k < |g[1..]| && g[1..][k].rank == x;
          assert g[k + 1].rank == x;
        } else {
          assert g[0].rank == x;
        }
      }
      assert g[0].rank !in Repeated(g[1..]);
    }
  }

  lemma {:induction false} ConstantCount(n: nat, x: int)
    ensures multiset(seq(n, i => x)) == multiset{}[x := n]
  {
    if n > 0 {
      ConstantCount(n - 1, x);
      assert seq(n, i => x) == seq(n - 1, i => x) + [x];
    }
  }

  /** The values are the group ranks repeated by their counts. */
  lemma RepeatedRanks(values: seq<int>)
    ensures multiset(values) == multiset(Repeated(GroupRanks(values)))
  {
    GroupsTally(values);
    RepeatedCounts(GroupRanks(values));
    RepeatedBy(values, GroupRanks(values), Repeated(GroupRanks(values)));
  }

  /** Group i in front of what the later groups repeat. */
  lemma RepeatedAt(g: seq<Group>, i: nat, tail: seq<int>)
    requires i < |g| && Repeated(g[i + 1..]) == tail
    ensures g[i].count == 1 ==> Repeated(g[i..]) == [g[i].rank] + tail
    ensures g[i].count == 2 ==> Repeated(g[i..]) == [g[i].rank, g[i].rank] + tail
    ensures g[i].count == 3 ==> Repeated(g[i..]) == [g[i].rank, g[i].rank, g[i].rank] + tail
    ensures g[i].count == 4 ==> Repeated(g[i..]) == [g[i].rank, g[i].rank, g[i].rank, g[i].rank] + tail
  {
    assert g[i..][1..] == g[i + 1..];
  }

  lemma RepeatedTwo(g: seq<Group>)
    requires |g| == 2
    ensures CountsAre(g, [3, 2]) ==> Repeated(g) == [g[0].rank, g[0].rank, g[0].rank, g[1].rank, g[1].rank]
    ensures CountsAre(g, [4, 1]) ==> Repeated(g) == [g[0].rank, g[0].rank, g[0].rank, g[0].rank, g[1].rank]
  {
    assert g[0..] == g && g[2..] == [];
    RepeatedAt(g, 1, []);
    RepeatedAt(g, 0, Repeated(g[1..]));
  }

  lemma RepeatedThree(g: seq<Group>)
    requires |g| == 3
    ensures CountsAre(g, [2, 2, 1]) ==> Repeated(g) == [g[0].rank, g[0].rank, g[1].rank, g[1].rank, g[2].rank]
    ensures CountsAre(g, [3, 1, 1]) ==> Repeated(g) == [g[0].rank, g[0].rank, g[0].rank, g[1].rank, g[2].rank]
  {
    assert g[0..] == g && g[3..] == [];
    RepeatedAt(g, 2, []);
    RepeatedAt(g, 1, Repeated(g[2..]));
    RepeatedAt(g, 0, Repeated(g[1..]));
  }

  lemma RepeatedFour(g: seq<Group>)
    requires CountsAre(g, [2, 1, 1, 1])
    ensures Repeated(g) == [g[0].rank, g[0].rank, g[1].rank, g[2].rank, g[3].rank]
  {
    assert g[0..] == g && g[4..] == [];
    RepeatedAt(g, 3, []);
    RepeatedAt(g, 2, [g[3].rank]);
    RepeatedAt(g, 1, [g[2].rank, g[3].rank]);
    RepeatedAt(g, 0, [g[1].rank, g[2].rank, g[3].rank]);
  }

  lemma RepeatedOnShapes(g: seq<Group>)
    ensures CountsAre(g, [1, 1, 1, 1, 1]) ==> Repeated(g) == GroupRanksOnly(g)
    ensures CountsAre(g, [2, 1, 1, 1]) ==> Repeated(g) == [g[0].rank, g[0].rank, g[1].rank, g[2].rank, g[3].rank]
    ensures CountsAre(g, [2, 2, 1]) ==> Repeated(g) == [g[0].rank, g[0].rank, g[1].rank, g[1].rank, g[2].rank]
    ensures CountsAre(g, [3, 1, 1]) ==> Repeated(g) == [g[0].rank, g[0].rank, g[0].rank, g[1].rank, g[2].rank]
    ensures CountsAre(g, [3, 2]) ==> Repeated(g) == [g[0].rank, g[0].rank, g[0].rank, g[1].rank, g[1].rank]
    ensures CountsAre(g, [4, 1]) ==> Repeated(g) == [g[0].rank, g[0].rank, g[0].rank, g[0].rank, g[1].rank]
  {
    if |g| == 2 {
      RepeatedTwo(g);
    } else if |g| == 3 {
      RepeatedThree(g);
    } else if CountsAre(g, [2, 1, 1, 1]) {
      RepeatedFour(g);
    } else if CountsAre(g, [1, 1, 1, 1, 1]) {
      AllRanksOnce(g);
    }
  }

  lemma {:induction false} AllRanksOnce(g: seq<Group>)
    requires forall i :: 0 <= i < |g| ==> g[i].count == 1
    ensures Repeated(g) == GroupRanksOnly(g)
  {
    if g != [] {
      AllRanksOnce(g[1..]);
      assert GroupRanksOnly(g) == [g[0].rank] + GroupRanksOnly(g[1..]);
    }
  }

  /** With five different ranks the groups, in order, are the sorted values. */
  lemma AllSingle(values: seq<int>)
    requires FiveValues(values) && CountsAre(GroupRanks(values), [1, 1, 1, 1, 1])
    ensures GroupRanksOnly(GroupRanks(values)) == values
  {
    var g := GroupRanks(values);
    var r := GroupRanksOnly(g);
    GroupsTally(values);
    RepeatedRanks(values);
    RepeatedOnShapes(g);
    assert SortedBy(r, IntGeq) by {
      forall i, j | 0 <= i < j < 5 ensures IntGeq(r[i], r[j]) {
        assert GroupLeq(g[i], g[j]);
      }
    }
    IntOrders();
    SortedUnique(r, values, IntGeq);
  }

  lemma PairedNotStraight(values: seq<int>)
    requires FiveValues(values) && GroupRanks(values) != [] && GroupRanks(values)[0].count >= 2
    ensures StraightHigh(values) == None
  {
    GroupsTally(values);
    NoDupMultiset(values);
    var top := GroupRanks(values)[0].rank;
    assert multiset(values)[top] >= 2;
    NoStraightWithPair(values);
  }

  lemma ShapeFour(values: seq<int>)
    requires FiveValues(values) && CountsAre(GroupRanks(values), [4, 1])
    ensures ShapeOf(values, false) ==
      Shape(FourOfAKind, GroupRanksOnly(GroupRanks(values)), Repeated(GroupRanks(values)))
  {
    var g := GroupRanks(values);
    GroupsTally(values);
    PairedNotStraight(values);
    RepeatedOnShapes(g);
    FindCountAt(g, 4, 0);
    OtherRanksHead(g);
    assert GroupRanksOnly(g) == [g[0].rank, g[1].rank];
  }

  lemma ShapeFullHouse(values: seq<int>)
    requires FiveValues(values) && CountsAre(GroupRanks(values), [3, 2])
    ensures ShapeOf(values, false) == Shape(FullHouse, GroupRanksOnly(GroupRanks(values)), Repeated(GroupRanks(values)))
  {
    var g := GroupRanks(values);
    RepeatedOnShapes(g);
    FindCountNone(g, 4);
    FindCountAt(g, 3, 0);
    FindCountAt(g, 2, 1);
    PairedNotStraight(values);
    assert GroupRanksOnly(g) == [g[0].rank, g[1].rank];
  }

  lemma ShapeThree(values: seq<int>)
    requires FiveValues(values) && CountsAre(GroupRanks(values), [3, 1, 1])
    ensures ShapeOf(values, false) ==
      Shape(ThreeOfAKind, GroupRanksOnly(GroupRanks(values)), Repeated(GroupRanks(values)))
  {
    var g := GroupRanks(values);
    GroupsTally(values);
    RepeatedOnShapes(g);
    FindCountNone(g, 4);
    FindCountAt(g, 3, 0);
    FindCountNone(g, 2);
    PairedNotStraight(values);
    OtherRanksHead(g);
    assert GroupRanksOnly(g) == [g[0].rank, g[1].rank, g[2].rank];
  }

  lemma TwoPairFinders(values: seq<int>)
    requires CountsAre(GroupRanks(values), [2, 2, 1])
    ensures var g := GroupRanks(values); var r := GroupRanksOnly(g);
      && r == [g[0].rank, g[1].rank, g[2].rank]
      && Sort(RanksWithCount(g, 2), IntGeq) == [r[0], r[1]] && RanksWithCount(g, 1) == [r[2]]
  {
    var g := GroupRanks(values);
    GroupsTally(values);
    RanksWithCountPrefix(g, 2, 2);
    RanksWithCountSuffix(g, 1, 2);
    assert GroupRanksOnly(g) == [g[0].rank, g[1].rank, g[2].rank];
    assert GroupLeq(g[0], g[1]);
    SortIdentity([g[0].rank, g[1].rank], IntGeq);
  }

  lemma ShapeTwoPair(values: seq<int>)
    requires FiveValues(values) && CountsAre(GroupRanks(values), [2, 2, 1])
    ensures ShapeOf(values, false) == Shape(TwoPair, GroupRanksOnly(GroupRanks(values)), Repeated(GroupRanks(values)))
  {
    var g := GroupRanks(values);
    FindCountNone(g, 4);
    FindCountNone(g, 3);
    PairedNotStraight(values);
    TwoPairFinders(values);
    RepeatedOnShapes(g);
  }

  lemma ShapeOnePair(values: seq<int>)
    requires FiveValues(values) && CountsAre(GroupRanks(values), [2, 1, 1, 1])
    ensures ShapeOf(values, false) == Shape(OnePair, GroupRanksOnly(GroupRanks(values)), Repeated(GroupRanks(values)))
  {
    var g := GroupRanks(values);
    FindCountNone(g, 4);
    FindCountNone(g, 3);
    PairedNotStraight(values);
    OnePairFinders(values);
    RepeatedOnShapes(g);
    var r := GroupRanksOnly(g);
    assert [r[0]] + r[1..] == r && [r[0], r[0]] + r[1..] == Repeated(g);
  }

  lemma OnePairFinders(values: seq<int>)
    requires CountsAre(GroupRanks(values), [2, 1, 1, 1])
    ensures var g := GroupRanks(values); var r := GroupRanksOnly(g);
      Sort(RanksWithCount(g, 2), IntGeq) == [r[0]] && OtherRanks(g, r[0]) == r[1..]
  {
    var g := GroupRanks(values);
    GroupsTally(values);
    RanksWithCountPrefix(g, 2, 1);
    assert GroupRanksOnly(g)[..1] == [g[0].rank];
    SortIdentity([g[0].rank], IntGeq);
    OtherRanksHead(g);
  }

  lemma ShapeSingles(values: seq<int>, flush: bool)
    requires FiveValues(values) && CountsAre(GroupRanks(values), [1, 1, 1, 1, 1])
    ensures var high := StraightHigh(values);
      ShapeOf(values, flush) ==
        if flush && high == Some(14) then Shape(RoyalFlush, [14], Run(14))
        else if flush && high.Some? then Shape(StraightFlush, [high.value], Run(high.value))
        else if flush then Shape(Flush, values, values)
        else if high.Some? then Shape(Straight, [high.value], Run(high.value))
        else Shape(HighCard, values, values)
  {
    var g := GroupRanks(values);
    FindCountNone(g, 4);
    FindCountNone(g, 3);
    FindCountNone(g, 2);
  }

  // ---------- from the groups to the declarative categories ----------

  lemma KindIffCount(cards: seq<Card>, k: nat)
    requires |cards| == 5 && k > 0
    ensures OfAKind(cards, k) <==> GroupRanks(Values(cards)) != [] && GroupRanks(Values(cards))[0].count >= k
  {
    var values, g := Values(cards), GroupRanks(Values(cards));
    ValuesFacts(cards);
    GroupsTally(values);
    if OfAKind(cards, k) {
      var r :| Multiplicity(cards, r) >= k;
      assert r in values by { assert multiset(values)[r] > 0; }
      var i :| 0 <= i < |g| && g[i].rank == r;
      assert i > 0 ==> GroupLeq(g[0], g[i]);
    }
    if g != [] {
      assert Multiplicity(cards, g[0].rank) == g[0].count;
    }
  }

  lemma TwoKindsIffCounts(cards: seq<Card>, k: nat, m: nat)
    requires |cards| == 5 && k >= m > 0
    ensures TwoKinds(cards, k, m) <==>
      var g := GroupRanks(Values(cards)); |g| >= 2 && g[0].count >= k && g[1].count >= m
  {
    var values, g := Values(cards), GroupRanks(Values(cards));
    ValuesFacts(cards);
    GroupsTally(values);
    if TwoKinds(cards, k, m) {
      var r, s :| r != s && Multiplicity(cards, r) >= k && Multiplicity(cards, s) >= m;
      assert r in values by { assert multiset(values)[r] > 0; }
      assert s in values by { assert multiset(values)[s] > 0; }
      var i :| 0 <= i < |g| && g[i].rank == r;
      var j :| 0 <= j < |g| && g[j].rank == s;
      assert GroupLeq(g[0], g[1]);
      assert i > 0 ==> GroupLeq(g[0], g[i]);
      assert i > 1 ==> GroupLeq(g[1], g[i]);
      assert j > 0 ==> GroupLeq(g[0], g[j]);
      assert j > 1 ==> GroupLeq(g[1], g[j]);
    }
    if |g| >= 2 {
      assert Multiplicity(cards, g[0].rank) == g[0].count && Multiplicity(cards, g[1].rank) == g[1].count;
      assert g[0].rank != g[1].rank;
    }
  }

  lemma RowIffStraight(cards: seq<Card>, high: int)
    requires |cards| == 5
    ensures InARow(cards, high) <==> StraightHigh(Values(cards)) == Some(high)
  {
    ValuesFacts(cards);
    StraightHighExact(Values(cards), high);
  }

  /** A rank occurs once for each suit it occurs in. */
  lemma {:induction false} RankBySuits(cards: seq<Card>, r: Rank)
    ensures Multiplicity(cards, r) == multiset(cards)[Card(r, Spades)] + multiset(cards)[Card(r, Hearts)]
      + multiset(cards)[Card(r, Diamonds)] + multiset(cards)[Card(r, Clubs)]
  {
    if cards != [] {
      var n := |cards| - 1;
      RankBySuits(cards[..n], r);
      assert cards == cards[..n] + [cards[n]];
      assert multiset(cards) == multiset(cards[..n]) + multiset{cards[n]};
      assert Ranks(cards) == Ranks(cards[..n]) + [cards[n].rank];
      assert multiset(Ranks(cards)) == multiset(Ranks(cards[..n])) + multiset{cards[n].rank};
      match cards[n].suit {
        case Spades => case Hearts => case Diamonds => case Clubs =>
      }
    }
  }

  lemma TopCount(cards: seq<Card>)
    requires |cards| == 5 && NoDup(cards)
    ensures var g := GroupRanks(Values(cards));
      g != [] && g[0].count <= 4 && (OneSuit(cards) ==> g[0].count == 1)
  {
    var g := GroupRanks(Values(cards));
    ValuesFacts(cards);
    GroupsTally(Values(cards));
    FiveCardShapes(Values(cards));
    NoDupMultiset(cards);
    var r := g[0].rank;
    assert r in Values(cards) by { assert multiset(Values(cards))[r] > 0; }
    SortMembers(Ranks(cards), IntGeq, r);
    RankBySuits(cards, r);
    if OneSuit(cards) {
      forall s: Suit | s != cards[0].suit ensures multiset(cards)[Card(r, s)] == 0 {}
    }
  }

  /** The category decided by the multiplicities, the suits and the run. */
  function CategoryBy(g: seq<Group>, flush: bool, high: Option<int>): Category
    requires g != []
  {
    if g[0].count == 4 then FourOfAKind
    else if g[0].count == 3 then (if |g| == 2 then FullHouse else ThreeOfAKind)
    else if g[0].count == 2 then (if |g| == 3 then TwoPair else OnePair)
    else if flush then (if high == Some(14) then RoyalFlush else if high.Some? then StraightFlush else Flush)
    else if high.Some? then Straight
    else HighCard
  }

  lemma ShapeFacts(cards: seq<Card>)
    requires |cards| == 5 && NoDup(cards)
    ensures var values := Values(cards); var g := GroupRanks(values);
      && g != [] && g[0].count <= 4 && (OneSuit(cards) ==> g[0].count == 1)
      && (g[0].count >= 2 ==> StraightHigh(values) == None)
      && EvaluateFive(cards).category == CategoryBy(g, OneSuit(cards), StraightHigh(values))
      && EvaluateFive(cards).tiebreakers ==
        (if StraightHigh(values).Some? then [StraightHigh(values).value] else GroupRanksOnly(g))
      && multiset(ShapeOf(values, OneSuit(cards)).layout) == multiset(values)
  {
    var values := Values(cards);
    var g := GroupRanks(values);
    TopCount(cards);
    ValuesFacts(cards);
    FiveCardShapes(values);
    RepeatedRanks(values);
    if g[0].count >= 2 {
      PairedNotStraight(values);
      if CountsAre(g, [4, 1]) { ShapeFour(values); }
      else if CountsAre(g, [3, 2]) { ShapeFullHouse(values); }
      else if CountsAre(g, [3, 1, 1]) { ShapeThree(values); }
      else if CountsAre(g, [2, 2, 1]) { ShapeTwoPair(values); }
      else { ShapeOnePair(values); }
    } else {
      ShapeSingles(values, OneSuit(cards));
      AllSingle(values);
      if StraightHigh(values).Some? {
        StraightHighExact(values, StraightHigh(values).value);
      }
    }
  }

  /** Each category, read off the multiplicities, the suits and the run. */
  predicate HoldsBy(c: Category, g: seq<Group>, flush: bool, high: Option<int>)
    requires g != []
  {
    match c
    case HighCard => true
    case OnePair => g[0].count >= 2
    case TwoPair => |g| >= 2 && g[0].count >= 2 && g[1].count >= 2
    case ThreeOfAKind => g[0].count >= 3
    case Straight => high.Some?
    case Flush => flush
    case FullHouse => |g| >= 2 && g[0].count >= 3 && g[1].count >= 2
    case FourOfAKind => g[0].count >= 4
    case StraightFlush => flush && high.Some?
    case RoyalFlush => flush && high == Some(14)
  }

  lemma HoldsByGroups(c: Category, cards: seq<Card>)
    requires |cards| == 5 && GroupRanks(Values(cards)) != []
    ensures Holds(c, cards) <==> HoldsBy(c, GroupRanks(Values(cards)), OneSuit(cards), StraightHigh(Values(cards)))
  {
    match c
    case HighCard =>
    case OnePair => KindIffCount(cards, 2);
    case TwoPair => TwoKindsIffCounts(cards, 2, 2);
    case ThreeOfAKind => KindIffCount(cards, 3);
    case Straight => SomeRowIffStraight(cards);
    case Flush =>
    case FullHouse => TwoKindsIffCounts(cards, 3, 2);
    case FourOfAKind => KindIffCount(cards, 4);
    case StraightFlush => SomeRowIffStraight(cards);
    case RoyalFlush => RowIffStraight(cards, 14);
  }

  lemma SomeRowIffStraight(cards: seq<Card>)
    requires |cards| == 5
    ensures (exists h :: InARow(cards, h)) <==> StraightHigh(Values(cards)).Some?
  {
    forall h ensures InARow(cards, h) <==> StraightHigh(Values(cards)) == Some(h) {
      RowIffStraight(cards, h);
    }
    if StraightHigh(Values(cards)).Some? {
      assert InARow(cards, StraightHigh(Values(cards)).value);
    }
  }

  lemma CategoryByIsStrongest(values: seq<int>, flush: bool, high: Option<int>, c: Category)
    requires |values| == 5
    ensures var g := GroupRanks(values);
      g != [] && (g[0].count <= 4 && (flush ==> g[0].count == 1) && (g[0].count >= 2 ==> high == None) ==>
        && HoldsBy(CategoryBy(g, flush, high), g, flush, high)
        && (HoldsBy(c, g, flush, high) ==> Strength(c) <= Strength(CategoryBy(g, flush, high))))
  {
    FiveCardShapes(values);
  }

  /** evaluateFiveCards names the strongest category that holds of the five cards. */
  lemma StrongestCategory(cards: seq<Card>)
    requires |cards| == 5 && NoDup(cards)
    ensures Holds(EvaluateFive(cards).category, cards)
    ensures forall c :: Holds(c, cards) ==> Strength(c) <= Strength(EvaluateFive(cards).category)
  {
    var best := EvaluateFive(cards).category;
    forall c ensures (c == best ==> Holds(c, cards)) && (Holds(c, cards) ==> Strength(c) <= Strength(best)) {
      StrongerThan(cards, c);
    }
  }

  lemma StrongerThan(cards: seq<Card>, c: Category)
    requires |cards| == 5 && NoDup(cards)
    ensures c == EvaluateFive(cards).category ==> Holds(c, cards)
    ensures Holds(c, cards) ==> Strength(c) <= Strength(EvaluateFive(cards).category)
  {
    ShapeFacts(cards);
    HoldsByGroups(c, cards);
    CategoryByIsStrongest(Values(cards), OneSuit(cards), StraightHigh(Values(cards)), c);
  }

  // ---------- bestFiveCards ----------

  lemma RemoveAt<T>(xs: seq<T>, k: nat)
    requires k < |xs|
    ensures multiset(xs[..k] + xs[k + 1..]) == multiset(xs) - multiset{xs[k]}
  {
    assert xs == xs[..k] + [xs[k]] + xs[k + 1..];
  }

  /** Taking the first card of the leading rank out of the cards takes that rank out of their ranks. */
  lemma TakeFirst(cards: seq<Card>, ranks: seq<int>) returns (k: nat)
    requires multiset(ranks) == multiset(Ranks(cards)) && ranks != []
    ensures k == FirstOfRank(cards, ranks[0]) < |cards|
    ensures multiset(ranks[1..]) == multiset(Ranks(cards[..k] + cards[k + 1..]))
    ensures multiset(cards) == multiset{cards[k]} + multiset(cards[..k] + cards[k + 1..])
  {
    k := RankIsHeld(cards, ranks);
    RanksWithout(cards, ranks, k);
    RemoveAt(cards, k);
    assert cards[k] in multiset(cards);
  }

  lemma RankIsHeld(cards: seq<Card>, ranks: seq<int>) returns (k: nat)
    requires multiset(ranks) == multiset(Ranks(cards)) && ranks != []
    ensures k == FirstOfRank(cards, ranks[0]) < |cards|
  {
    k := FirstOfRank(cards, ranks[0]);
    assert ranks[0] in multiset(Ranks(cards));
    var j :| 0 <= j < |cards| && Ranks(cards)[j] == ranks[0];
    assert cards[j].rank == ranks[0];
  }

  lemma RanksWithout(cards: seq<Card>, ranks: seq<int>, k: nat)
    requires multiset(ranks) == multiset(Ranks(cards)) && ranks != [] && k < |cards| && cards[k].rank == ranks[0]
    ensures multiset(ranks[1..]) == multiset(Ranks(cards[..k] + cards[k + 1..]))
  {
    WithoutCard(cards, k);
    WithoutFirst(ranks);
  }

  lemma WithoutCard(cards: seq<Card>, k: nat)
    requires k < |cards|
    ensures multiset(Ranks(cards[..k] + cards[k + 1..])) == multiset(Ranks(cards)) - multiset{cards[k].rank}
  {
    assert Ranks(cards[..k] + cards[k + 1..]) == Ranks(cards)[..k] + Ranks(cards)[k + 1..];
    RemoveAt(Ranks(cards), k);
  }

  lemma WithoutFirst(ranks: seq<int>)
    requires ranks != []
    ensures multiset(ranks[1..]) == multiset(ranks) - multiset{ranks[0]}
  {
    RemoveAt(ranks, 0);
    assert ranks[..0] + ranks[1..] == ranks[1..];
  }

  lemma {:induction false} CardsForRanksKeepsAll(cards: seq<Card>, ranks: seq<int>)
    requires multiset(ranks) == multiset(Ranks(cards))
    ensures multiset(CardsForRanks(cards, ranks)) == multiset(cards)
    decreases |ranks|
  {
    if ranks == [] {
      assert |Ranks(cards)| == |multiset(Ranks(cards))| == 0;
    } else {
      var k := TakeFirst(cards, ranks);
      var tail := CardsForRanks(cards[..k] + cards[k + 1..], ranks[1..]);
      CardsForRanksKeepsAll(cards[..k] + cards[k + 1..], ranks[1..]);
      assert CardsForRanks(cards, ranks) == [cards[k]] + tail;
    }
  }

  lemma LayoutKeepsAll(cards: seq<Card>, layout: seq<int>, sorted: bool)
    requires multiset(layout) == multiset(Values(cards))
    ensures multiset(if sorted then Sort(cards, CardGeq) else CardsForRanks(cards, layout)) == multiset(cards)
  {
    SortContents(cards, CardGeq);
    SortContents(Ranks(cards), IntGeq);
    CardsForRanksKeepsAll(cards, layout);
  }

  lemma BestFiveIsInput(cards: seq<Card>)
    requires |cards| == 5 && NoDup(cards)
    ensures multiset(EvaluateFive(cards).bestFive) == multiset(cards)
  {
    ShapeFacts(cards);
    var shape := ShapeOf(Values(cards), OneSuit(cards));
    LayoutKeepsAll(cards, shape.layout, shape.category == Flush || shape.category == HighCard);
  }

  lemma TiebreakersListed(cards: seq<Card>)
    requires |cards| == 5 && NoDup(cards)
    ensures EvaluateFive(cards).tiebreakers ==
      if StraightHigh(Values(cards)).Some? then [StraightHigh(Values(cards)).value]
        else GroupRanksOnly(GroupRanks(Values(cards)))
  {
    ShapeFacts(cards);
  }

  lemma NamedByRow(cards: seq<Card>, t: seq<int>)
    requires |cards| == 5
    requires t == if StraightHigh(Values(cards)).Some? then [StraightHigh(Values(cards)).value]
      else GroupRanksOnly(GroupRanks(Values(cards)))
    ensures forall h :: InARow(cards, h) ==> t == [h]
    ensures (forall h :: !InARow(cards, h)) ==> t == GroupRanksOnly(GroupRanks(Values(cards)))
  {
    forall h ensures InARow(cards, h) <==> StraightHigh(Values(cards)) == Some(h) {
      RowIffStraight(cards, h);
    }
    if StraightHigh(Values(cards)).Some? {
      assert InARow(cards, StraightHigh(Values(cards)).value);
    }
  }

  /** The cards shown as the best hand are exactly the five cards evaluated, and the tiebreakers list the ranks by
      multiplicity and then height (a straight is named by its top card). */
  lemma BestFiveAndTiebreakers(cards: seq<Card>, hand: EvaluatedHand)
    requires |cards| == 5 && NoDup(cards) && hand == EvaluateFive(cards)
    ensures multiset(hand.bestFive) == multiset(cards)
    ensures forall h :: InARow(cards, h) ==> hand.tiebreakers == [h]
    ensures (forall h :: !InARow(cards, h)) ==> hand.tiebreakers == GroupRanksOnly(GroupRanks(Values(cards)))
  {
    BestFiveIsInput(cards);
    TiebreakersListed(cards);
    NamedByRow(cards, hand.tiebreakers);
  }
}
