/**
 * The advocate aggregates that `create_review` recomputes from the whole review table:
 * the mean of the ratings and their number.
 */
module ReviewAggregates {
  import Advocates
  import opened BookingModels

  /** The `rating` of every review of advocate `a`, in table order. */
  function RatingsOf(reviews: seq<Review>, a: Advocates.AdvocateId): seq<int> {
    if |reviews| == 0 then []
    else RatingsOf(reviews[..|reviews| - 1], a) +
         (if reviews[|reviews| - 1].advocate == a then [reviews[|reviews| - 1].rating] else [])
  }

  /** Appending a review adds its rating to its own advocate's list and to no other. */
  lemma RatingsOfAppend(reviews: seq<Review>, r: Review, a: Advocates.AdvocateId)
    ensures RatingsOf(reviews + [r], a) ==
            RatingsOf(reviews, a) + (if r.advocate == a then [r.rating] else [])
  {
    assert (reviews + [r])[..|reviews|] == reviews;
  }

  /** An advocate that no review names has no ratings. */
  lemma {:induction false} RatingsOfNone(reviews: seq<Review>, a: Advocates.AdvocateId)
    requires forall i :: 0 <= i < |reviews| ==> reviews[i].advocate != a
    ensures RatingsOf(reviews, a) == []
    decreases |reviews|
  {
    if |reviews| > 0 {
      RatingsOfNone(reviews[..|reviews| - 1], a);
    }
  }

  /** Ratings taken from reviews with valid scores are themselves in 1..5. */
  lemma {:induction false} RatingsInRange(reviews: seq<Review>, a: Advocates.AdvocateId)
    requires forall i :: 0 <= i < |reviews| ==> InScoreRange(reviews[i].rating)
    ensures forall k :: 0 <= k < |RatingsOf(reviews, a)| ==> InScoreRange(RatingsOf(reviews, a)[k])
    decreases |reviews|
  {
    if |reviews| > 0 {
      RatingsInRange(reviews[..|reviews| - 1], a);
    }
  }

  /** The sum of a list of ratings. */
  function Sum(xs: seq<int>): int {
    if |xs| == 0 then 0 else Sum(xs[..|xs| - 1]) + xs[|xs| - 1]
  }

  /** `Avg('rating')` taken exactly, with 0 for an empty list (the `rating` default). */
  function Mean(xs: seq<int>): real {
    if |xs| == 0 then 0.0 else Sum(xs) as real / |xs| as real
  }

  /** A sum of `n` values, each within `lo..hi`, lies within `n * lo .. n * hi`. */
  lemma {:induction false} SumBounds(xs: seq<int>, lo: int, hi: int)
    requires forall k :: 0 <= k < |xs| ==> lo <= xs[k] <= hi
    ensures |xs| * lo <= Sum(xs) <= |xs| * hi
    decreases |xs|
  {
    if |xs| > 0 {
      SumBounds(xs[..|xs| - 1], lo, hi);
      assert |xs| * lo == (|xs| - 1) * lo + lo;
      assert |xs| * hi == (|xs| - 1) * hi + hi;
    }
  }

  /** The mean of scores in 1..5 is 0 for no scores and lies in 1..5 otherwise. */
  lemma MeanInRange(xs: seq<int>)
    requires forall k :: 0 <= k < |xs| ==> InScoreRange(xs[k])
    ensures |xs| == 0 ==> Mean(xs) == 0.0
    ensures |xs| > 0 ==> 1.0 <= Mean(xs) <= 5.0
  {
    if |xs| > 0 {
      SumBounds(xs, 1, 5);
      DivBounds(Sum(xs) as real, |xs| as real, 1.0, 5.0);
    }
  }

  /** An advocate with a single review has that review's rating as its mean. */
  lemma MeanSingle(x: int)
    ensures Mean([x]) == x as real
  {
    assert [x][..0] == [];
    assert Sum([x]) == x;
  }

  /** A product with a positive factor is non-negative only when the other factor is. */
  lemma ProductSign(x: real, n: real)
    requires 0.0 < n && 0.0 <= x * n
    ensures 0.0 <= x
  {
  }

  /** A quotient `s / n` with `lo * n <= s <= hi * n` and positive `n` lies within `lo..hi`. */
  lemma DivBounds(s: real, n: real, lo: real, hi: real)
    requires 0.0 < n && lo * n <= s <= hi * n
    ensures lo <= s / n <= hi
  {
    var q := s / n;
    assert q * n == s;
    assert (q - lo) * n == s - lo * n;
    assert (hi - q) * n == hi * n - s;
    ProductSign(q - lo, n);
    ProductSign(hi - q, n);
  }

  /** Recomputing from scratch agrees with the running mean: the old mean weighted by the old count, plus the new rating. */
  lemma MeanAppend(xs: seq<int>, x: int)
    ensures Mean(xs + [x]) * (|xs| + 1) as real == Mean(xs) * |xs| as real + x as real
  {
    assert (xs + [x])[..|xs|] == xs;
    var n := |xs| as real;
    if |xs| > 0 {
      assert Mean(xs) * n == Sum(xs) as real;
    }
    assert Mean(xs + [x]) * (n + 1.0) == Sum(xs + [x]) as real;
  }
}
