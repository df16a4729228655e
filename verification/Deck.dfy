/** packages/shared/src/poker/deck.ts and cards.ts: cards, dealing and the
    Fisher-Yates loop over an oracle of random choices. */
module Deck {
  import opened Sequences

  datatype Suit = Spades | Hearts | Diamonds | Clubs

  type Rank = r: int | 2 <= r <= 14 witness 2

  /** A card "AS" is rank 14 and suit Spades; ranks follow RANK_VALUE. */
  datatype Card = Card(rank: Rank, suit: Suit)

  function SuitAt(k: nat): Suit {
    if k == 0 then Spades else if k == 1 then Hearts else if k == 2 then Diamonds else Clubs
  }

  /** All cards, rank by rank. */
  function CreateDeck(): (deck: seq<Card>)
    ensures |deck| == 52
  {
    seq(52, i requires 0 <= i < 52 => Card(2 + i / 4, SuitAt(i % 4)))
  }

  lemma CreateDeckNoDup()
    ensures |CreateDeck()| == 52 && NoDup(CreateDeck())
  {
    var deck := CreateDeck();
    forall i, j | 0 <= i < j < 52 ensures deck[i] != deck[j] {
      if i / 4 == j / 4 {
        assert i % 4 != j % 4;
      }
    }
  }

  /** Every card is in the new deck, rank by rank. */
  lemma CreateDeckComplete(card: Card)
    ensures card in CreateDeck()
    ensures forall i, j :: 0 <= i < j < 52 ==> CreateDeck()[i].rank <= CreateDeck()[j].rank
  {
    var suit := match card.suit case Spades => 0 case Hearts => 1 case Diamonds => 2 case Clubs => 3;
    assert CreateDeck()[4 * (card.rank - 2) + suit] == card;
  }

  datatype DealError = NegativeCount | NotEnoughCards

  datatype Dealt = Dealt(cards: seq<Card>, deck: seq<Card>)

  function DealCards(deck: seq<Card>, count: int): (r: Result<Dealt, DealError>)
    ensures r.Ok? <==> 0 <= count <= |deck|
    ensures r.Ok? ==> |r.value.cards| == count && r.value.cards + r.value.deck == deck
  {
    if count < 0 then Err(NegativeCount)
    else if |deck| < count then Err(NotEnoughCards)
    else Ok(Dealt(deck[..count], deck[count..]))
  }

  // ---------- Fisher-Yates ----------

  /** The draws of randomInt: at index i some j with 0 <= j <= i. Index 0 is never drawn and is fixed to 0. */
  predicate ChoiceVector(choices: seq<nat>) {
    forall i :: 0 <= i < |choices| ==> choices[i] <= i
  }

  function Swap<T>(s: seq<T>, i: nat, j: nat): seq<T>
    requires i < |s| && j < |s|
  {
    s[i := s[j]][j := s[i]]
  }

  /** The swaps for index, index - 1, ..., 1. */
  function ShuffleFrom<T>(s: seq<T>, choices: seq<nat>, index: nat): (r: seq<T>)
    requires ChoiceVector(choices) && |choices| == |s|
    requires index < |s|
    ensures |r| == |s|
    decreases index
  {
    if index == 0 then s else ShuffleFrom(Swap(s, index, choices[index]), choices, index - 1)
  }

  function Shuffle<T>(s: seq<T>, choices: seq<nat>): (r: seq<T>)
    requires ChoiceVector(choices) && |choices| == |s|
    ensures |r| == |s|
  {
    if s == [] then s else ShuffleFrom(s, choices, |s| - 1)
  }

  method ShuffleDeck<T>(deck: seq<T>, choices: seq<nat>) returns (shuffled: array<T>)
    requires ChoiceVector(choices) && |choices| == |deck|
    ensures fresh(shuffled) && shuffled[..] == Shuffle(deck, choices)
  {
    shuffled := new T[|deck|](i requires 0 <= i < |deck| => deck[i]);
    assert shuffled[..] == deck;
    var index := shuffled.Length - 1;
    while index > 0
      invariant shuffled.Length == |deck| && (deck == [] || 0 <= index < |deck|)
      invariant deck == [] ==> shuffled[..] == deck
      invariant deck != [] ==> ShuffleFrom(shuffled[..], choices, index) == Shuffle(deck, choices)
    {
      var swapIndex := choices[index];
      ghost var before := shuffled[..];
      shuffled[index], shuffled[swapIndex] := shuffled[swapIndex], shuffled[index];
      assert shuffled[..] == Swap(before, index, swapIndex);
      index := index - 1;
    }
  }

  lemma SwapMultiset<T>(s: seq<T>, i: nat, j: nat)
    requires i < |s| && j < |s|
    ensures multiset(Swap(s, i, j)) == multiset(s)
  {
  }

  lemma {:induction false} ShuffleFromKeeps<T>(s: seq<T>, choices: seq<nat>, index: nat)
    requires ChoiceVector(choices) && |choices| == |s| && index < |s|
    ensures multiset(ShuffleFrom(s, choices, index)) == multiset(s)
    decreases index
  {
    if index > 0 {
      SwapMultiset(s, index, choices[index]);
      ShuffleFromKeeps(Swap(s, index, choices[index]), choices, index - 1);
    }
  }

  /** Cards above the running index stay where they are. */
  lemma {:induction false} ShuffleFromLeaves<T>(s: seq<T>, choices: seq<nat>, index: nat, k: nat)
    requires ChoiceVector(choices) && |choices| == |s| && index < k < |s|
    ensures ShuffleFrom(s, choices, index)[k] == s[k]
    decreases index
  {
    if index > 0 {
      ShuffleFromLeaves(Swap(s, index, choices[index]), choices, index - 1, k);
    }
  }

  /** Every outcome is a permutation of the deck. */
  lemma ShuffleIsPermutation<T>(s: seq<T>, choices: seq<nat>)
    requires ChoiceVector(choices) && |choices| == |s|
    ensures multiset(Shuffle(s, choices)) == multiset(s)
  {
    if s != [] {
      ShuffleFromKeeps(s, choices, |s| - 1);
    }
  }

  lemma SwappedCardStays<T>(s: seq<T>, choices: seq<nat>, index: nat)
    requires ChoiceVector(choices) && |choices| == |s| && 0 < index < |s|
    ensures ShuffleFrom(s, choices, index)[index] == Swap(s, index, choices[index])[index]
  {
    ShuffleFromLeaves(Swap(s, index, choices[index]), choices, index - 1, index);
  }

  lemma SwapAt<T>(s: seq<T>, i: nat, j: nat)
    requires i < |s| && j < |s|
    ensures Swap(s, i, j)[i] == s[j]
  {
  }

  /** The card at `index` is settled by the draw at `index` alone. */
  lemma ShuffleSettles<T>(s: seq<T>, choices: seq<nat>, index: nat)
    requires ChoiceVector(choices) && |choices| == |s| && 0 < index < |s|
    ensures ShuffleFrom(s, choices, index)[index] == s[choices[index]]
  {
    SwappedCardStays(s, choices, index);
    SwapAt(s, index, choices[index]);
  }

  lemma SwapNoDup<T>(s: seq<T>, i: nat, j: nat)
    requires i < |s| && j < |s| && NoDup(s)
    ensures NoDup(Swap(s, i, j))
  {
  }

  lemma {:induction false} ShuffleFromInjective<T>(s: seq<T>, c: seq<nat>, d: seq<nat>, index: nat)
    requires ChoiceVector(c) && ChoiceVector(d) && |c| == |d| == |s| && index < |s| && NoDup(s)
    requires ShuffleFrom(s, c, index) == ShuffleFrom(s, d, index)
    ensures c[..index + 1] == d[..index + 1]
    decreases index
  {
    if index > 0 {
      ShuffleSettles(s, c, index);
      ShuffleSettles(s, d, index);
      assert c[index] == d[index];
      SwapNoDup(s, index, c[index]);
      ShuffleFromInjective(Swap(s, index, c[index]), c, d, index - 1);
      assert c[..index + 1] == c[..index] + [c[index]];
    }
  }

  /** Different draws give different decks. */
  lemma ShuffleInjective<T>(s: seq<T>, c: seq<nat>, d: seq<nat>)
    requires ChoiceVector(c) && ChoiceVector(d) && |c| == |d| == |s| && NoDup(s)
    requires Shuffle(s, c) == Shuffle(s, d)
    ensures c == d
  {
    if s != [] {
      ShuffleFromInjective(s, c, d, |s| - 1);
      assert c == c[..|s|] && d == d[..|s|];
    }
  }

  /** From `index` down, these choices lead to the target whatever was chosen before. */
  ghost predicate LeadsFrom<T>(s: seq<T>, choices: seq<nat>, index: nat, target: seq<T>)
    requires index < |s| && |choices| == index + 1
  {
    forall tail: seq<nat> :: |tail| == |s| - index - 1 && ChoiceVector(choices + tail) ==>
      ShuffleFrom(s, choices + tail, index) == target
  }

  /** Rebuilds the draws that lead from s to target, from the top index down. */
  lemma {:induction false} ShuffleFromOnto<T>(s: seq<T>, target: seq<T>, index: nat) returns (choices: seq<nat>)
    requires index < |s| == |target| && multiset(s[..index + 1]) == multiset(target[..index + 1])
    requires s[index + 1..] == target[index + 1..]
    ensures |choices| == index + 1 && ChoiceVector(choices) && LeadsFrom(s, choices, index, target)
    decreases index
  {
    if index == 0 {
      choices := [0];
      OneCardLeft(s, target);
    } else {
      var j := CardToMove(s, target, index);
      SwapPrefix(s, target, index, j);
      var rest := ShuffleFromOnto(Swap(s, index, j), target, index - 1);
      choices := rest + [j];
      OneChoiceMore(s, target, index, rest, j);
    }
  }

  lemma OneCardLeft<T>(s: seq<T>, target: seq<T>)
    requires 0 < |s| == |target| && multiset(s[..1]) == multiset(target[..1]) && s[1..] == target[1..]
    ensures ChoiceVector([0]) && LeadsFrom(s, [0], 0, target)
  {
    assert s[0] in multiset(target[..1]);
    assert s == s[..1] + s[1..] && target == target[..1] + target[1..];
  }

  lemma CardToMove<T>(s: seq<T>, target: seq<T>, index: nat) returns (j: nat)
    requires index < |s| == |target| && multiset(s[..index + 1]) == multiset(target[..index + 1])
    ensures j <= index && s[j] == target[index]
  {
    assert target[..index + 1][index] == target[index];
    assert target[index] in multiset(s[..index + 1]);
    j :| j <= index && s[j] == target[index];
  }

  lemma OneChoiceMore<T>(s: seq<T>, target: seq<T>, index: nat, rest: seq<nat>, j: nat)
    requires 0 < index < |s| && |rest| == index && j <= index
    requires LeadsFrom(Swap(s, index, j), rest, index - 1, target)
    ensures LeadsFrom(s, rest + [j], index, target)
  {
    var choices := rest + [j];
    forall tail: seq<nat> | |tail| == |s| - index - 1 && ChoiceVector(choices + tail)
      ensures ShuffleFrom(s, choices + tail, index) == target
    {
      assert choices + tail == rest + ([j] + tail);
      assert (choices + tail)[index] == j;
    }
  }

  lemma SwapPrefix<T>(s: seq<T>, target: seq<T>, index: nat, j: nat)
    requires 0 < index < |s| == |target| && j <= index && s[j] == target[index]
    requires multiset(s[..index + 1]) == multiset(target[..index + 1])
    requires s[index + 1..] == target[index + 1..]
    ensures multiset(Swap(s, index, j)[..index]) == multiset(target[..index])
    ensures Swap(s, index, j)[index..] == target[index..]
  {
    var t := Swap(s, index, j);
    SwapAt(s, index, j);
    SwappedPrefix(s, index, j);
    PrefixMultiset(t, index);
    PrefixMultiset(target, index);
    SwappedSuffix(s, target, index, j);
  }

  lemma SwappedSuffix<T>(s: seq<T>, target: seq<T>, index: nat, j: nat)
    requires 0 < index < |s| == |target| && j <= index && s[j] == target[index]
    requires s[index + 1..] == target[index + 1..]
    ensures Swap(s, index, j)[index..] == target[index..]
  {
    var t := Swap(s, index, j);
    SwapAt(s, index, j);
    assert t[index + 1..] == s[index + 1..];
    assert t[index..] == [t[index]] + t[index + 1..] && target[index..] == [target[index]] + target[index + 1..];
  }

  lemma SwappedPrefix<T>(s: seq<T>, index: nat, j: nat)
    requires j <= index < |s|
    ensures multiset(Swap(s, index, j)[..index + 1]) == multiset(s[..index + 1])
  {
    SwapMultiset(s[..index + 1], index, j);
    assert Swap(s, index, j)[..index + 1] == Swap(s[..index + 1], index, j);
  }

  lemma PrefixMultiset<T>(s: seq<T>, index: nat)
    requires index < |s|
    ensures multiset(s[..index]) == multiset(s[..index + 1]) - multiset{s[index]}
  {
    assert s[..index + 1] == s[..index] + [s[index]];
  }

  predicate LeadsTo<T(==)>(s: seq<T>, choices: seq<nat>, target: seq<T>) {
    ChoiceVector(choices) && |choices| == |s| && Shuffle(s, choices) == target
  }

  /** The loop is a bijection between choice vectors and permutations of a duplicate-free deck: every permutation
      comes from exactly one choice vector. */
  lemma ShuffleBijective<T(!new)>(s: seq<T>, target: seq<T>)
    requires NoDup(s) && multiset(s) == multiset(target)
    ensures exists c :: LeadsTo(s, c, target) && (forall d :: LeadsTo(s, d, target) ==> d == c)
  {
    assert |s| == |multiset(s)| == |multiset(target)| == |target|;
    var c: seq<nat>;
    if s == [] {
      c := [];
    } else {
      assert s[..|s|] == s && target[..|s|] == target;
      c := ShuffleFromOnto(s, target, |s| - 1);
      var none: seq<nat> := [];
      assert c + none == c;
    }
    assert LeadsTo(s, c, target);
    forall d | LeadsTo(s, d, target) ensures d == c {
      ShuffleInjective(s, c, d);
    }
  }
}
