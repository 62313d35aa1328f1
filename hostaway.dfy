/**
 * The booking-platform review route (src/app/api/reviews/hostaway/route.ts):
 * the raw record, `normalizeReview`, and the fetched-or-fixture choice of `GET`.
 */
module Hostaway {
  import opened Wrappers
  import opened Reviews
  import Numeric

  datatype ReviewCategory = ReviewCategory(category: string, rating: int)

  /** A record as the booking platform sends it. `rating` is part of the shape but never read. */
  datatype HostawayReview = HostawayReview(
    id: int,
    reviewType: string,
    status: string,
    rating: Option<int>,
    publicReview: string,
    reviewCategory: seq<ReviewCategory>,
    submittedAt: string,
    guestName: string,
    listingName: string)

  /**
   * The first `reduce`: every entry is written into an initially empty
   * dictionary in turn. Its keys are exactly the entries' category names
   * (nothing is zero-filled).
   */
  function CategoryMap(cats: seq<ReviewCategory>): (m: map<string, int>)
    ensures m.Keys == set i | 0 <= i < |cats| :: cats[i].category
  {
    if |cats| == 0 then map[]
    else
      var init := cats[..|cats| - 1];
      var last := cats[|cats| - 1];
      assert forall i :: 0 <= i < |init| ==> init[i] == cats[i];
      CategoryMap(init)[last.category := last.rating]
  }

  /** The second `reduce`: the sum of every entry's rating, duplicates included. */
  function RatingSum(cats: seq<ReviewCategory>): int {
    if |cats| == 0 then 0 else RatingSum(cats[..|cats| - 1]) + cats[|cats| - 1].rating
  }

  /** `avgRating`: the mean over all entries, or null when there are none. */
  function AverageRating(cats: seq<ReviewCategory>): Option<real> {
    if |cats| > 0 then Some(RatingSum(cats) as real / |cats| as real) else None
  }

  /** `normalizeReview`. */
  function NormalizeReview(review: HostawayReview): Review {
    Review(
      IntId(review.id),
      review.reviewType,
      review.status,
      AverageRating(review.reviewCategory),
      review.publicReview,
      CategoryMap(review.reviewCategory),
      review.submittedAt,
      review.guestName,
      review.listingName,
      HostawayChannel,
      false,
      None)
  }

  /** With at least one entry the overall rating is the entries' sum over their count; with none it is null. */
  lemma OverallRatingIsMean(review: HostawayReview)
    ensures var cats := review.reviewCategory;
      && (|cats| > 0 <==> NormalizeReview(review).overallRating.Some?)
      && (|cats| > 0 ==> NormalizeReview(review).overallRating.value * |cats| as real == RatingSum(cats) as real)
  {
  }

  /** The rating of the last entry with a given name is the one the map keeps. */
  lemma {:induction false} CategoryMapLastWins(cats: seq<ReviewCategory>, i: nat)
    requires i < |cats|
    requires forall j :: i < j < |cats| ==> cats[j].category != cats[i].category
    ensures cats[i].category in CategoryMap(cats)
    ensures CategoryMap(cats)[cats[i].category] == cats[i].rating
  {
    if i < |cats| - 1 {
      var init := cats[..|cats| - 1];
      assert init[i] == cats[i];
      CategoryMapLastWins(init, i);
    }
  }

  /** A duplicated name keeps the later rating in the map, but both entries count in the mean. */
  lemma DuplicateCategoryExample()
    ensures var cats := [ReviewCategory("value", 4), ReviewCategory("value", 8)];
      && CategoryMap(cats) == map["value" := 8]
      && AverageRating(cats) == Some(6.0)
  {
    var cats := [ReviewCategory("value", 4), ReviewCategory("value", 8)];
    assert cats[..1] == [ReviewCategory("value", 4)];
    assert cats[..1][..0] == [];
    assert RatingSum(cats) == 12;
  }

  /** Category ratings within [lo, hi] sum to between `lo` and `hi` added up once per category. */
  lemma {:induction false} RatingSumBetween(cats: seq<ReviewCategory>, lo: real, hi: real)
    requires forall i :: 0 <= i < |cats| ==> lo <= cats[i].rating as real <= hi
    ensures Numeric.Times(lo, |cats|) <= RatingSum(cats) as real <= Numeric.Times(hi, |cats|)
  {
    if |cats| > 0 {
      var init := cats[..|cats| - 1];
      assert forall i :: 0 <= i < |init| ==> init[i] == cats[i];
      RatingSumBetween(init, lo, hi);
    }
  }

  /** When every category rating lies in [lo, hi] (the platform's scale is [0, 10]), so does the overall rating. */
  lemma OverallRatingBounds(review: HostawayReview, lo: real, hi: real)
    requires forall i :: 0 <= i < |review.reviewCategory| ==> lo <= review.reviewCategory[i].rating as real <= hi
    ensures NormalizeReview(review).overallRating.Some? ==>
      lo <= NormalizeReview(review).overallRating.value <= hi
  {
    var cats := review.reviewCategory;
    if |cats| > 0 {
      RatingSumBetween(cats, lo, hi);
      Numeric.MeanBetween(RatingSum(cats) as real, |cats|, lo, hi);
    }
  }

  function MinRating(cats: seq<ReviewCategory>): (m: int)
    requires |cats| > 0
    ensures forall i :: 0 <= i < |cats| ==> m <= cats[i].rating
    ensures exists i :: 0 <= i < |cats| && m == cats[i].rating
  {
    if |cats| == 1 then cats[0].rating
    else
      var init := cats[..|cats| - 1];
      assert forall i :: 0 <= i < |init| ==> init[i] == cats[i];
      var m := MinRating(init);
      if cats[|cats| - 1].rating < m then cats[|cats| - 1].rating else m
  }

  function MaxRating(cats: seq<ReviewCategory>): (m: int)
    requires |cats| > 0
    ensures forall i :: 0 <= i < |cats| ==> cats[i].rating <= m
    ensures exists i :: 0 <= i < |cats| && m == cats[i].rating
  {
    if |cats| == 1 then cats[0].rating
    else
      var init := cats[..|cats| - 1];
      assert forall i :: 0 <= i < |init| ==> init[i] == cats[i];
      var m := MaxRating(init);
      if cats[|cats| - 1].rating > m then cats[|cats| - 1].rating else m
  }

  /** The overall rating lies between the lowest and the highest category rating. */
  lemma OverallRatingBetweenEntries(review: HostawayReview)
    requires |review.reviewCategory| > 0
    ensures var cats := review.reviewCategory;
      MinRating(cats) as real <= NormalizeReview(review).overallRating.value <= MaxRating(cats) as real
  {
    var cats := review.reviewCategory;
    OverallRatingBounds(review, MinRating(cats) as real, MaxRating(cats) as real);
  }

  /** The record's own `rating` field never influences the result. */
  lemma NormalizeIgnoresRating(review: HostawayReview, other: Option<int>)
    ensures NormalizeReview(review.(rating := other)) == NormalizeReview(review)
  {
  }

  /** Fields carried over unchanged, and the two fixed by the normaliser. */
  lemma NormalizeCopiesFields(review: HostawayReview)
    ensures var r := NormalizeReview(review);
      && r.id == IntId(review.id) && r.reviewType == review.reviewType && r.status == review.status
      && r.reviewText == review.publicReview && r.submittedAt == review.submittedAt
      && r.guestName == review.guestName && r.listingName == review.listingName
      && r.channel == "hostaway" && !r.isApproved && r.googleMetadata.None?
  {
  }

  /** The route's fixture list, used whenever the platform returns nothing. */
  const MockReviews: seq<HostawayReview> := [
    HostawayReview(7453, "guest-to-host", "published", None,
      "Amazing stay! The property was exactly as described and Shane was very responsive. Would definitely book again.",
      [ReviewCategory("cleanliness", 10), ReviewCategory("communication", 10), ReviewCategory("accuracy", 9),
       ReviewCategory("location", 8), ReviewCategory("value", 9)],
      "2024-08-21 22:45:14", "John Smith", Shoreditch),
    HostawayReview(7454, "guest-to-host", "published", None,
      "Great location and clean apartment. Check-in was smooth and the host was helpful throughout our stay.",
      [ReviewCategory("cleanliness", 9), ReviewCategory("communication", 8), ReviewCategory("accuracy", 10),
       ReviewCategory("location", 10), ReviewCategory("value", 8)],
      "2024-08-15 14:30:22", "Emma Wilson", CamdenLock),
    HostawayReview(7455, "guest-to-host", "published", None,
      "The apartment was nice but had some cleanliness issues. The location is excellent though.",
      [ReviewCategory("cleanliness", 6), ReviewCategory("communication", 9), ReviewCategory("accuracy", 8),
       ReviewCategory("location", 10), ReviewCategory("value", 7)],
      "2024-08-10 09:15:33", "Michael Johnson", CanaryWharf),
    HostawayReview(7456, "guest-to-host", "published", None,
      "Perfect stay! Everything was spotless and the amenities were great. Highly recommend this property.",
      [ReviewCategory("cleanliness", 10), ReviewCategory("communication", 10), ReviewCategory("accuracy", 10),
       ReviewCategory("location", 9), ReviewCategory("value", 10)],
      "2024-08-05 16:20:45", "Sarah Davis", Shoreditch),
    HostawayReview(7457, "guest-to-host", "published", None,
      "Good value for money. The apartment was comfortable and the host was easy to communicate with.",
      [ReviewCategory("cleanliness", 8), ReviewCategory("communication", 9), ReviewCategory("accuracy", 8),
       ReviewCategory("location", 7), ReviewCategory("value", 9)],
      "2024-07-28 11:45:12", "David Brown", CamdenLock)
  ]

  /** The list `GET` normalises: the platform's result when it is non-empty, the fixtures otherwise. */
  function ReviewsToProcess(upstream: Option<seq<HostawayReview>>): seq<HostawayReview> {
    var fetched := upstream.GetOr([]);
    if |fetched| > 0 then fetched else MockReviews
  }

  /**
   * `GET`. `upstream` is the platform call's `result` list; None stands for a
   * call that threw or returned no `result`, which the route treats as an
   * empty list.
   */
  function Get(upstream: Option<seq<HostawayReview>>): (resp: ApiResponse)
    ensures resp.Ok? && resp.total == |resp.data|
    ensures resp.source == "hostaway" <==> upstream.Some? && |upstream.value| > 0
    ensures resp.source == "hostaway" || resp.source == "mock"
    ensures |resp.data| == |ReviewsToProcess(upstream)|
    ensures forall i :: 0 <= i < |resp.data| ==> resp.data[i] == NormalizeReview(ReviewsToProcess(upstream)[i])
  {
    var fetched := upstream.GetOr([]);
    var toProcess := ReviewsToProcess(upstream);
    var normalized := seq(|toProcess|, i requires 0 <= i < |toProcess| => NormalizeReview(toProcess[i]));
    Ok(normalized, |normalized|, if |fetched| > 0 then "hostaway" else "mock")
  }

  /** With the platform silent, the five fixtures normalise to overall ratings 9.2, 9.0, 8.0, 9.8 and 8.2. */
  lemma FixtureOverallRatings()
    ensures var d := Get(None).data;
      && |d| == 5
      && d[0].overallRating == Some(9.2) && d[1].overallRating == Some(9.0)
      && d[2].overallRating == Some(8.0) && d[3].overallRating == Some(9.8)
      && d[4].overallRating == Some(8.2)
  {
    var m := MockReviews;
    assert ReviewsToProcess(None) == m;
    OverallOfFive(m[0]);
    OverallOfFive(m[1]);
    OverallOfFive(m[2]);
    OverallOfFive(m[3]);
    OverallOfFive(m[4]);
  }

  /** A record with five category entries is rated the fifth of their sum. */
  lemma OverallOfFive(review: HostawayReview)
    requires |review.reviewCategory| == 5
    ensures NormalizeReview(review).overallRating == Some(SumOfFive(review.reviewCategory) as real / 5.0)
  {
    RatingSumOfFive(review.reviewCategory);
  }

  function SumOfFive(cats: seq<ReviewCategory>): int
    requires |cats| == 5
  {
    cats[0].rating + cats[1].rating + cats[2].rating + cats[3].rating + cats[4].rating
  }

  lemma RatingSumOfFive(cats: seq<ReviewCategory>)
    requires |cats| == 5
    ensures RatingSum(cats) == SumOfFive(cats)
  {
    assert cats[..4][..3] == cats[..3] && cats[..3][..2] == cats[..2] && cats[..2][..1] == cats[..1];
    assert RatingSum(cats[..1]) == cats[0].rating by {
      assert cats[..1][..0] == [];
    }
    assert RatingSum(cats[..2]) == RatingSum(cats[..1]) + cats[1].rating;
    assert RatingSum(cats[..3]) == RatingSum(cats[..2]) + cats[2].rating;
    assert RatingSum(cats[..4]) == RatingSum(cats[..3]) + cats[3].rating;
  }
}
