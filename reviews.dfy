/**
 * The unified review record every page works on (`Review` in src/lib/types.ts,
 * `NormalizedReview` in the two routes), the response envelope of the two
 * review routes, and the rating sums the aggregates share.
 */
module Reviews {
  import opened Wrappers
  import Numeric

  /** The booking platform's ids are numbers, the places service's ids are synthesised strings. */
  datatype ReviewId = IntId(n: int) | StrId(s: string)

  /** Extra fields the places normaliser attaches; absent on every other record. */
  datatype GoogleMetadata = GoogleMetadata(language: string, relativeTime: string, profilePhoto: Option<string>)

  /** A normalised review. `categories` maps any category name to its rating; `reviewType` is the source's `type`. */
  datatype Review = Review(
    id: ReviewId,
    reviewType: string,
    status: string,
    overallRating: Option<real>,
    reviewText: string,
    categories: map<string, int>,
    submittedAt: string,
    guestName: string,
    listingName: string,
    channel: string,
    isApproved: bool,
    googleMetadata: Option<GoogleMetadata>)

  const HostawayChannel := "hostaway"
  const GoogleChannel := "google"

  /** The three listings the fixtures and the address table know. */
  const Shoreditch := "2B N1 A - 29 Shoreditch Heights"
  const CamdenLock := "1B S2 C - 15 Camden Lock"
  const CanaryWharf := "3B E1 B - 42 Canary Wharf Tower"

  /** `r.overallRating || 0`: a null rating counts as zero. */
  function RatingOrZero(r: Review): real {
    r.overallRating.GetOr(0.0)
  }

  /** `rs.reduce((sum, r) => sum + (r.overallRating || 0), 0)`. */
  function RatingTotal(rs: seq<Review>): real {
    if |rs| == 0 then 0.0 else RatingTotal(rs[..|rs| - 1]) + RatingOrZero(rs[|rs| - 1])
  }

  /** The mean rating with null counted as zero, and 0 for an empty list (the pages' `length > 0 ? ... : 0`). */
  function MeanRating(rs: seq<Review>): real {
    if |rs| == 0 then 0.0 else RatingTotal(rs) / |rs| as real
  }

  lemma {:induction false} RatingTotalConcat(a: seq<Review>, b: seq<Review>)
    ensures RatingTotal(a + b) == RatingTotal(a) + RatingTotal(b)
  {
    if |b| > 0 {
      assert (a + b)[..|a + b| - 1] == a + b[..|b| - 1];
      RatingTotalConcat(a, b[..|b| - 1]);
    } else {
      assert a + b == a;
    }
  }

  lemma {:induction false} RatingTotalBounds(rs: seq<Review>, lo: real, hi: real)
    requires forall i :: 0 <= i < |rs| ==> lo <= RatingOrZero(rs[i]) <= hi
    ensures Numeric.Times(lo, |rs|) <= RatingTotal(rs) <= Numeric.Times(hi, |rs|)
  {
    if |rs| > 0 {
      var init := rs[..|rs| - 1];
      assert forall i :: 0 <= i < |init| ==> init[i] == rs[i];
      RatingTotalBounds(init, lo, hi);
    }
  }

  /** When every rating (null read as 0) lies in [lo, hi], so does the mean of a non-empty list. */
  lemma MeanRatingBounds(rs: seq<Review>, lo: real, hi: real)
    requires |rs| > 0
    requires forall i :: 0 <= i < |rs| ==> lo <= RatingOrZero(rs[i]) <= hi
    ensures lo <= MeanRating(rs) <= hi
  {
    RatingTotalBounds(rs, lo, hi);
    Numeric.MeanBetween(RatingTotal(rs), |rs|, lo, hi);
  }

  /** The response body of the two review routes. A failure always carries `data: []`. */
  datatype ApiResponse =
    | Ok(data: seq<Review>, total: int, source: string)
    | Fail(status: int, error: string)
  {
    predicate Success() {
      Ok?
    }

    function Data(): seq<Review> {
      if Ok? then data else []
    }
  }

  /** What a page's `Promise.all` of the two fetches gave: both parsed bodies, or an exception. */
  datatype FetchOutcome = Fetched(hostaway: ApiResponse, google: ApiResponse) | Thrown
}
