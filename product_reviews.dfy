/** The review list of components/product-reviews.tsx: the star distribution, the four
    orderings of a copy of the reviews, and when "Load More" is offered. */
module ProductReviews {
  import opened Wrappers
  import opened Sorting
  import opened SeqFacts

  /** `rating` is a whole number of stars. */
  datatype Review = Review(
    id: string, author: string, avatar: Option<string>, rating: int, date: string,
    title: string, content: string, helpful: int, notHelpful: int, verified: bool)

  /** `reviews.filter((review) => review.rating === rating).length`. */
  function CountRating(reviews: seq<Review>, rating: int): (c: nat)
    ensures c <= |reviews|
  {
    if |reviews| == 0 then 0
    else (if reviews[0].rating == rating then 1 else 0) + CountRating(reviews[1..], rating)
  }

  /** One bar of the distribution; the percentage is exact here (see the README on
      floating point). */
  datatype Bar = Bar(rating: int, count: nat, percentage: real)

  function BarFor(reviews: seq<Review>, totalReviews: int, rating: int): Bar {
    var count := CountRating(reviews, rating);
    Bar(rating, count, if totalReviews > 0 then (count as real / totalReviews as real) * 100.0 else 0.0)
  }

  /** `ratingDistribution`: one bar for each of 5, 4, 3, 2 and 1 stars, in that order. */
  function RatingDistribution(reviews: seq<Review>, totalReviews: int): (bars: seq<Bar>)
    ensures |bars| == 5
    ensures forall i :: 0 <= i < 5 ==> bars[i].rating == 5 - i && bars[i].count == CountRating(reviews, 5 - i)
    ensures totalReviews <= 0 ==> forall i :: 0 <= i < 5 ==> bars[i].percentage == 0.0
  {
    [ BarFor(reviews, totalReviews, 5), BarFor(reviews, totalReviews, 4), BarFor(reviews, totalReviews, 3),
      BarFor(reviews, totalReviews, 2), BarFor(reviews, totalReviews, 1) ]
  }

  /** The orderings of the `sortBy` selector; any other value sorts newest first. */
  datatype ReviewOrder = Highest | Lowest | MostHelpful | NewestFirst

  function ReviewOrderOf(sortBy: string): ReviewOrder {
    if sortBy == "highest" then Highest
    else if sortBy == "lowest" then Lowest
    else if sortBy == "helpful" then MostHelpful
    else NewestFirst
  }

  function HighestKey(r: Review): int { -r.rating }
  function LowestKey(r: Review): int { r.rating }
  function HelpfulKey(r: Review): int { -r.helpful }

  /** The comparator's key for each order; `timestamp` stands for
      `new Date(date).getTime()`. */
  function ReviewKey(order: ReviewOrder, timestamp: string -> int): Review -> int {
    match order
    case Highest => HighestKey
    case Lowest => LowestKey
    case MostHelpful => HelpfulKey
    case NewestFirst => (r: Review) => -timestamp(r.date)
  }

  /** What each order promises of the sorted list. */
  predicate InOrder(s: seq<Review>, order: ReviewOrder, timestamp: string -> int) {
    match order
    case Highest => forall i, j :: 0 <= i < j < |s| ==> s[i].rating >= s[j].rating
    case Lowest => forall i, j :: 0 <= i < j < |s| ==> s[i].rating <= s[j].rating
    case MostHelpful => forall i, j :: 0 <= i < j < |s| ==> s[i].helpful >= s[j].helpful
    case NewestFirst => forall i, j :: 0 <= i < j < |s| ==> timestamp(s[i].date) >= timestamp(s[j].date)
  }

  /** `sortedReviews`: a sorted copy; `reviews` itself is a value and stays as it was. */
  function SortedReviews(reviews: seq<Review>, sortBy: string, timestamp: string -> int): (r: seq<Review>)
    ensures |r| == |reviews| && multiset(r) == multiset(reviews)
    ensures InOrder(r, ReviewOrderOf(sortBy), timestamp)
  {
    var key := ReviewKey(ReviewOrderOf(sortBy), timestamp);
    StableSortSorted(reviews, key);
    SortedInOrder(StableSort(reviews, key), ReviewOrderOf(sortBy), timestamp);
    StableSort(reviews, key)
  }

  /** "Load More Reviews" is offered while fewer reviews are listed than exist. */
  predicate ShowLoadMore(reviews: seq<Review>, totalReviews: int) {
    |reviews| < totalReviews
  }

  // ---------------------------------------------------------------------------------
  // Properties

  lemma SortedInOrder(s: seq<Review>, order: ReviewOrder, timestamp: string -> int)
    requires SortedBy(s, ReviewKey(order, timestamp))
    ensures InOrder(s, order, timestamp)
  {
    match order
    case Highest =>
      forall i, j | 0 <= i < j < |s| ensures s[i].rating >= s[j].rating {
        assert HighestKey(s[i]) <= HighestKey(s[j]);
      }
    case Lowest =>
    case MostHelpful =>
      forall i, j | 0 <= i < j < |s| ensures s[i].helpful >= s[j].helpful {
        assert HelpfulKey(s[i]) <= HelpfulKey(s[j]);
      }
    case NewestFirst =>
  }

  /** Counting distributes over concatenation. */
  lemma {:induction false} CountRatingAppend(a: seq<Review>, b: seq<Review>, rating: int)
    ensures CountRating(a + b, rating) == CountRating(a, rating) + CountRating(b, rating)
  {
    if |a| > 0 {
      AppendFront(a, b);
      CountRatingAppend(a[1..], b, rating);
    } else {
      AppendEmpty(a, b);
    }
  }

  /** The ratings of the reviews, in order. */
  function Ratings(reviews: seq<Review>): (r: seq<int>)
    ensures |r| == |reviews| && forall i :: 0 <= i < |reviews| ==> r[i] == reviews[i].rating
  {
    if |reviews| == 0 then [] else [reviews[0].rating] + Ratings(reviews[1..])
  }

  /** Each count is the number of times that rating occurs among the reviews' ratings. */
  lemma {:induction false} CountRatingIsMultiplicity(reviews: seq<Review>, rating: int)
    ensures CountRating(reviews, rating) == multiset(Ratings(reviews))[rating]
  {
    if |reviews| > 0 {
      CountRatingIsMultiplicity(reviews[1..], rating);
      assert Ratings(reviews) == [reviews[0].rating] + Ratings(reviews[1..]);
    }
  }

  /** When every rating is between 1 and 5 stars, the five bars count every review once. */
  lemma {:induction false} BarsCountEveryReview(reviews: seq<Review>, totalReviews: int)
    requires forall i :: 0 <= i < |reviews| ==> 1 <= reviews[i].rating <= 5
    ensures var bars := RatingDistribution(reviews, totalReviews);
      bars[0].count + bars[1].count + bars[2].count + bars[3].count + bars[4].count == |reviews|
  {
    if |reviews| > 0 {
      BarsCountEveryReview(reviews[1..], totalReviews);
    }
  }

  /** Sorting changes no count: the distribution of the sorted list is the same. */
  lemma {:induction false} CountRatingOfPermutation(a: seq<Review>, b: seq<Review>, rating: int)
    requires multiset(a) == multiset(b)
    ensures CountRating(a, rating) == CountRating(b, rating)
    decreases |a|
  {
    if |a| > 0 {
      assert a[0] in multiset(a);
      var k := PositionOf(b, a[0]);
      var b' := b[..k] + b[k + 1..];
      PermutationTails(a, b, k);
      CountRatingOfPermutation(a[1..], b', rating);
      CountRatingOfRemove(b, k, rating);
    }
  }

  /** Dropping one review takes it out of its rating's count. */
  lemma CountRatingOfRemove(s: seq<Review>, k: nat, rating: int)
    requires k < |s|
    ensures CountRating(s, rating) ==
            CountRating(s[..k] + s[k + 1..], rating) + (if s[k].rating == rating then 1 else 0)
  {
    SplitAt(s, k);
    CountRatingAppend(s[..k] + [s[k]], s[k + 1..], rating);
    CountRatingAppend(s[..k], [s[k]], rating);
    CountRatingAppend(s[..k], s[k + 1..], rating);
  }

  /** The distribution does not depend on the order of the list, so sorting leaves it as
      it was. */
  lemma DistributionOfSorted(reviews: seq<Review>, totalReviews: int, sortBy: string, timestamp: string -> int)
    ensures RatingDistribution(SortedReviews(reviews, sortBy, timestamp), totalReviews) ==
            RatingDistribution(reviews, totalReviews)
  {
    var sorted := SortedReviews(reviews, sortBy, timestamp);
    forall rating | 1 <= rating <= 5 ensures BarFor(sorted, totalReviews, rating) == BarFor(reviews, totalReviews, rating) {
      CountRatingOfPermutation(sorted, reviews, rating);
    }
  }

  /** When the list holds every review and each has 1 to 5 stars, the five percentages add
      up to exactly 100. */
  lemma PercentagesAddUp(reviews: seq<Review>)
    requires |reviews| > 0
    requires forall i :: 0 <= i < |reviews| ==> 1 <= reviews[i].rating <= 5
    ensures var bars := RatingDistribution(reviews, |reviews|);
      bars[0].percentage + bars[1].percentage + bars[2].percentage + bars[3].percentage +
      bars[4].percentage == 100.0
  {
    BarsCountEveryReview(reviews, |reviews|);
    var bars := RatingDistribution(reviews, |reviews|);
    FractionsAddUp(bars[0].count as real, bars[1].count as real, bars[2].count as real,
                   bars[3].count as real, bars[4].count as real, |reviews| as real);
  }

  /** Five shares of a positive whole, as percentages, add up to 100. */
  lemma FractionsAddUp(a: real, b: real, c: real, d: real, e: real, t: real)
    requires t > 0.0 && a + b + c + d + e == t
    ensures (a / t) * 100.0 + (b / t) * 100.0 + (c / t) * 100.0 + (d / t) * 100.0 + (e / t) * 100.0 == 100.0
  {
    calc {
      (a / t) * 100.0 + (b / t) * 100.0 + (c / t) * 100.0 + (d / t) * 100.0 + (e / t) * 100.0;
      ((a + b + c + d + e) / t) * 100.0;
      (t / t) * 100.0;
      100.0;
    }
  }

  /** "Load More" is offered exactly when some reviews are not listed yet, and never when
      the list is complete. */
  lemma LoadMoreRule(reviews: seq<Review>, totalReviews: int)
    ensures ShowLoadMore(reviews, totalReviews) <==> totalReviews - |reviews| > 0
    ensures totalReviews == |reviews| ==> !ShowLoadMore(reviews, totalReviews)
  {
  }
}
