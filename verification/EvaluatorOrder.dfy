/** The two orders on evaluated hands agree: the comparison by category and
    tiebreakers, and the comparison of the encoded rank values. */
module EvaluatorOrder {
  import opened Evaluator

  /** What every evaluated hand satisfies: at most five tiebreakers, each a base-15 digit, encoded by encodeRank. */
  ghost predicate WellRanked(h: EvaluatedHand) {
    && |h.tiebreakers| <= 5
    && (forall k :: 0 <= k < |h.tiebreakers| ==> 0 <= h.tiebreakers[k] < 15)
    && h.rankValue == EncodeRank(h.category, h.tiebreakers)
  }

  // ---------- integer order and lexicographic order ----------

  function Weight(k: nat): int {
    if k == 0 then 50625 else if k == 1 then 3375 else if k == 2 then 225 else if k == 3 then 15 else 1
  }

  /** The part of the encoding below digit k. */
  function TailValue(h: EvaluatedHand, k: nat): int
    requires k <= 5
    decreases 5 - k
  {
    if k == 5 then 0 else TiebreakerAt(h, k) * Weight(k) + TailValue(h, k + 1)
  }

  lemma {:induction false} TailBounds(h: EvaluatedHand, k: nat)
    requires WellRanked(h) && k <= 5
    ensures 0 <= TailValue(h, k) < (if k == 0 then 759375 else Weight(k - 1)) || (k == 5 && TailValue(h, k) == 0)
    decreases 5 - k
  {
    if k < 5 {
      TailBounds(h, k + 1);
      assert 0 <= TiebreakerAt(h, k) < 15;
    }
  }

  lemma {:induction false} PaddedDigits(tiebreakers: seq<int>)
    requires |tiebreakers| <= 5
    ensures |Padded(tiebreakers)| == 5
    ensures forall k :: 0 <= k < 5 ==> Padded(tiebreakers)[k] == if k < |tiebreakers| then tiebreakers[k] else 0
    decreases 5 - |tiebreakers|
  {
    if |tiebreakers| < 5 {
      PaddedDigits(tiebreakers + [0]);
    }
  }

  lemma SixDigits(d: seq<int>)
    requires |d| == 6
    ensures Base15(d) == d[0] * 759375 + d[1] * 50625 + d[2] * 3375 + d[3] * 225 + d[4] * 15 + d[5]
  {
    assert d[..5][..4] == d[..4] && d[..4][..3] == d[..3] && d[..3][..2] == d[..2] && d[..2][..1] == d[..1];
    assert Base15(d[..1]) == d[0] by { assert d[..1][..0] == []; }
    assert Base15(d[..2]) == d[0] * 15 + d[1];
    assert Base15(d[..3]) == Base15(d[..2]) * 15 + d[2];
    assert Base15(d[..4]) == Base15(d[..3]) * 15 + d[3];
    assert Base15(d[..5]) == Base15(d[..4]) * 15 + d[4];
  }

  lemma EncodingSplits(h: EvaluatedHand)
    requires WellRanked(h)
    ensures h.rankValue == Strength(h.category) * 759375 + TailValue(h, 0)
  {
    PaddedDigits(h.tiebreakers);
    SixDigits([Strength(h.category)] + Padded(h.tiebreakers));
    assert TailValue(h, 3) == TiebreakerAt(h, 3) * 15 + TiebreakerAt(h, 4) by {
      assert TailValue(h, 4) == TiebreakerAt(h, 4) + TailValue(h, 5);
    }
    assert TailValue(h, 1) == TiebreakerAt(h, 1) * 3375 + TiebreakerAt(h, 2) * 225 + TailValue(h, 3) by {
      assert TailValue(h, 2) == TiebreakerAt(h, 2) * 225 + TailValue(h, 3);
    }
  }

  predicate SameSign(x: int, y: int) {
    (x < 0 <==> y < 0) && (x == 0 <==> y == 0)
  }

  lemma HigherDigit(x: int, d: nat, w: nat)
    ensures (x + 1 + d) * w >= x * w + w
  {
    assert (x + 1 + d) * w == x * w + w + d * w;
  }

  lemma LeadingDigitDecides(x: int, y: int, w: int, s: int, t: int)
    requires 0 <= s < w && 0 <= t < w
    ensures x < y ==> x * w + s < y * w + t
    ensures x > y ==> x * w + s > y * w + t
  {
    if x < y {
      HigherDigit(x, y - x - 1, w);
    } else if x > y {
      HigherDigit(y, x - y - 1, w);
    }
  }

  lemma {:induction false} CompareFromIsTailDifference(a: EvaluatedHand, b: EvaluatedHand, k: nat)
    requires WellRanked(a) && WellRanked(b) && k <= 5
    ensures SameSign(CompareFrom(a, b, k), TailValue(a, k) - TailValue(b, k))
    decreases 5 - k
  {
    if k < 5 {
      CompareFromIsTailDifference(a, b, k + 1);
      TailBounds(a, k + 1);
      TailBounds(b, k + 1);
      LeadingDigitDecides(TiebreakerAt(a, k), TiebreakerAt(b, k), Weight(k), TailValue(a, k + 1), TailValue(b, k + 1));
    }
  }

  /** compareHands and the difference of rank values always have the same sign. */
  lemma OrdersAgree(a: EvaluatedHand, b: EvaluatedHand)
    requires WellRanked(a) && WellRanked(b)
    ensures SameSign(Compare(a, b), a.rankValue - b.rankValue)
  {
    EncodingSplits(a);
    EncodingSplits(b);
    TailBounds(a, 0);
    TailBounds(b, 0);
    CompareFromIsTailDifference(a, b, 0);
    assert Strength(a.category) == Strength(b.category) ==> a.category == b.category;
  }
}
