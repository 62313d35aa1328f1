/**
 * The reviews page (src/app/reviews/page.tsx): the merge of both routes'
 * responses with a fallback to the fixture list, the pending/approved split,
 * the average shown to one decimal and the first five pending reviews.
 */
module ReviewsPage {
  import opened Wrappers
  import opened Reviews
  import Seqs
  import Numeric
  import MockData
  import Hostaway
  import Google

  /** What the page ends with: the review list and the error message. */
  datatype ReviewsState = ReviewsState(reviews: seq<Review>, error: Option<string>)

  /** `fetchReviews`: both successful gives the platform data then the places data; anything else gives the fixtures. */
  function LoadReviews(outcome: FetchOutcome): ReviewsState {
    match outcome
    case Thrown => ReviewsState(MockData.MockReviews, Some("Failed to load reviews"))
    case Fetched(hostaway, google) =>
      if hostaway.Success() && google.Success() then ReviewsState(hostaway.Data() + google.Data(), None)
      else ReviewsState(MockData.MockReviews, None)
  }

  /**
   * Both responses successful: the list is the platform data followed by the
   * places data, each in its own order. Otherwise the fixture list; the error
   * is set exactly when the fetch threw.
   */
  lemma LoadReviewsOutcome(outcome: FetchOutcome)
    ensures var st := LoadReviews(outcome);
      && (st.error.Some? <==> outcome.Thrown?)
      && (outcome.Fetched? && outcome.hostaway.Success() && outcome.google.Success() ==>
            && |st.reviews| == |outcome.hostaway.Data()| + |outcome.google.Data()|
            && st.reviews[..|outcome.hostaway.Data()|] == outcome.hostaway.Data()
            && st.reviews[|outcome.hostaway.Data()|..] == outcome.google.Data())
      && (!(outcome.Fetched? && outcome.hostaway.Success() && outcome.google.Success()) ==>
            st.reviews == MockData.MockReviews)
  {
    if outcome.Fetched? && outcome.hostaway.Success() && outcome.google.Success() {
      var h, g := outcome.hostaway.Data(), outcome.google.Data();
      assert (h + g)[..|h|] == h;
      assert (h + g)[|h|..] == g;
    }
  }

  /**
   * With the two routes as the page calls them (the places route with
   * `placeId=demo_place_1`), both succeed: every review is there, the platform
   * ones first, the places ones all at the Shoreditch listing, and none approved.
   */
  lemma LoadFromRoutes(upstream: Option<seq<Hostaway.HostawayReview>>, places: seq<Google.GoogleReview>,
                       isoOfMillis: int -> string)
    ensures var st := LoadReviews(Fetched(Hostaway.Get(upstream), Google.Get(Some("demo_place_1"), places, isoOfMillis)));
      var n := |Hostaway.ReviewsToProcess(upstream)|;
      && st.error == None
      && |st.reviews| == n + |places|
      && (forall i :: 0 <= i < n ==> st.reviews[i].channel == HostawayChannel)
      && (forall i :: n <= i < |st.reviews| ==> st.reviews[i].channel == GoogleChannel && st.reviews[i].listingName == Shoreditch)
      && (forall i :: 0 <= i < |st.reviews| ==> !st.reviews[i].isApproved)
  {
    var h := Hostaway.Get(upstream);
    var g := Google.Get(Some("demo_place_1"), places, isoOfMillis);
    var n := |Hostaway.ReviewsToProcess(upstream)|;
    var all := h.Data() + g.Data();
    forall i | 0 <= i < n
      ensures all[i].channel == HostawayChannel && !all[i].isApproved
    {
      Hostaway.NormalizeCopiesFields(Hostaway.ReviewsToProcess(upstream)[i]);
    }
    forall i | n <= i < |all|
      ensures all[i].channel == GoogleChannel && all[i].listingName == Shoreditch && !all[i].isApproved
    {
      Google.NormalizeFixedFields(places[i - n], "demo_place_1", Google.PlaceName("demo_place_1"), isoOfMillis);
    }
  }

  /** `pendingReviews` and `approvedReviews` split the list: disjoint, lengths adding up, nothing lost. */
  lemma PendingApprovedSplit(reviews: seq<Review>)
    ensures |MockData.Pending(reviews)| + |MockData.Approved(reviews)| == |reviews|
    ensures multiset(MockData.Pending(reviews)) + multiset(MockData.Approved(reviews)) == multiset(reviews)
    ensures forall i, j :: 0 <= i < |MockData.Pending(reviews)| && 0 <= j < |MockData.Approved(reviews)| ==>
      MockData.Pending(reviews)[i] != MockData.Approved(reviews)[j]
  {
    MockData.ApprovedPendingPartition(reviews);
  }

  /** `pendingReviews.slice(0, 5)`: the pending section's list. */
  function PendingShown(reviews: seq<Review>): seq<Review> {
    Seqs.Take(MockData.Pending(reviews), 5)
  }

  /** At most five, the first pending ones in order, all unapproved reviews of the list. */
  lemma PendingShownFirstFive(reviews: seq<Review>)
    ensures var shown := PendingShown(reviews);
      && |shown| == (if |MockData.Pending(reviews)| < 5 then |MockData.Pending(reviews)| else 5)
      && shown == MockData.Pending(reviews)[..|shown|]
      && forall i :: 0 <= i < |shown| ==> shown[i] in reviews && !shown[i].isApproved
  {
    var shown := PendingShown(reviews);
    var pending := MockData.Pending(reviews);
    assert forall i :: 0 <= i < |shown| ==> shown[i] == pending[i];
  }

  /** The "Average Rating" card: "0.0" for no reviews, else the mean (null as 0) with `toFixed(1)`. */
  function AverageDisplay(reviews: seq<Review>): string {
    if |reviews| > 0 then Numeric.ToFixed1String(RatingTotal(reviews) / |reviews| as real) else "0.0"
  }

  /** With ratings in [0, 10], the displayed text reads back as the mean rounded half-up to one decimal, in [0, 10]. */
  lemma AverageDisplayReadsBack(reviews: seq<Review>)
    requires forall i :: 0 <= i < |reviews| ==> 0.0 <= RatingOrZero(reviews[i]) <= 10.0
    ensures Numeric.ParseTenths(AverageDisplay(reviews)) == Some(Numeric.RoundTo1(MeanRating(reviews)))
    ensures 0.0 <= Numeric.RoundTo1(MeanRating(reviews)) <= 10.0
  {
    if |reviews| > 0 {
      MeanRatingBounds(reviews, 0.0, 10.0);
    }
    Numeric.ParseToFixed1(MeanRating(reviews));
    Numeric.ToFixed1IsRoundTo1(MeanRating(reviews));
    Numeric.RoundTo1Bounds(MeanRating(reviews), 0, 10);
    if |reviews| == 0 {
      assert Numeric.ToFixed1String(0.0) == "0.0";
    }
  }
}
