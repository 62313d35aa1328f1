/**
 * The places review route (src/app/api/reviews/google/route.ts): the raw
 * record, `normalizeGoogleReview`, and `GET`'s `placeId` check and
 * place-name choice.
 */
module Google {
  import opened Wrappers
  import opened Reviews
  import Numeric

  /** A record as the places service sends it; `time` is in epoch seconds. */
  datatype GoogleReview = GoogleReview(
    authorName: string,
    authorUrl: Option<string>,
    language: string,
    profilePhotoUrl: Option<string>,
    rating: int,
    relativeTimeDescription: string,
    text: string,
    time: int)

  /** The synthetic id `google_${placeId}_${time}`. */
  function SyntheticId(placeId: string, time: int): string {
    "google_" + placeId + "_" + Numeric.IntToString(time)
  }

  /**
   * `normalizeGoogleReview`. `isoOfMillis` stands for
   * `new Date(ms).toISOString()`, which the model does not implement.
   */
  function NormalizeGoogleReview(review: GoogleReview, placeId: string, placeName: string,
                                 isoOfMillis: int -> string): Review
  {
    Review(
      StrId(SyntheticId(placeId, review.time)),
      "guest-review",
      "published",
      Some((review.rating * 2) as real),
      review.text,
      map[],
      isoOfMillis(review.time * 1000),
      review.authorName,
      placeName,
      GoogleChannel,
      false,
      Some(GoogleMetadata(review.language, review.relativeTimeDescription, review.profilePhotoUrl)))
  }

  /** The star rating is doubled onto the 10-point scale, whatever it is; 1..5 become 2, 4, 6, 8, 10. */
  lemma StarsDoubled(review: GoogleReview, placeId: string, placeName: string, isoOfMillis: int -> string)
    ensures var r := NormalizeGoogleReview(review, placeId, placeName, isoOfMillis);
      && r.overallRating == Some(2.0 * review.rating as real)
      && (1 <= review.rating <= 5 ==> 2.0 <= r.overallRating.value <= 10.0)
      && (review.rating == 5 ==> r.overallRating == Some(10.0))
  {
  }

  /** What every normalised places record has in common, and which raw fields it carries over. */
  lemma NormalizeFixedFields(review: GoogleReview, placeId: string, placeName: string, isoOfMillis: int -> string)
    ensures var r := NormalizeGoogleReview(review, placeId, placeName, isoOfMillis);
      && r.categories == map[] && r.channel == "google" && r.reviewType == "guest-review"
      && r.status == "published" && !r.isApproved
      && r.guestName == review.authorName && r.reviewText == review.text && r.listingName == placeName
      && r.googleMetadata == Some(GoogleMetadata(review.language, review.relativeTimeDescription, review.profilePhotoUrl))
  {
  }

  lemma SuffixAfterCommonPrefix(p: string, x: string, y: string)
    requires p + x == p + y
    ensures x == y
  {
    assert x == (p + x)[|p|..];
    assert y == (p + y)[|p|..];
  }

  /** Two reviews of the same place with different `time` get different ids. */
  lemma DistinctTimesDistinctIds(placeId: string, t1: int, t2: int)
    requires t1 != t2
    ensures SyntheticId(placeId, t1) != SyntheticId(placeId, t2)
  {
    if SyntheticId(placeId, t1) == SyntheticId(placeId, t2) {
      SuffixAfterCommonPrefix("google_" + placeId + "_", Numeric.IntToString(t1), Numeric.IntToString(t2));
      Numeric.IntToStringInjective(t1, t2);
    }
  }

  /** The listing name `GET` passes: the Shoreditch listing for the demo place only. */
  function PlaceName(placeId: string): (name: string)
    ensures name == Shoreditch <==> placeId == "demo_place_1"
    ensures placeId != "demo_place_1" ==> name == "Unknown Property"
  {
    if placeId == "demo_place_1" then Shoreditch else "Unknown Property"
  }

  /** `GET`, over the list of places reviews it serves. A missing or empty `placeId` fails with 400. */
  function Get(placeId: Option<string>, reviews: seq<GoogleReview>, isoOfMillis: int -> string): (resp: ApiResponse)
    ensures resp.Success() <==> placeId.Some? && placeId.value != ""
    ensures !resp.Success() ==> resp == Fail(400, "placeId parameter is required") && resp.Data() == []
    ensures resp.Success() ==>
      && resp.source == "google_places_api_mock"
      && |resp.data| == |reviews| == resp.total
      && forall i :: 0 <= i < |reviews| ==>
           resp.data[i] == NormalizeGoogleReview(reviews[i], placeId.value, PlaceName(placeId.value), isoOfMillis)
  {
    if placeId.None? || placeId.value == "" then
      Fail(400, "placeId parameter is required")
    else
      var id := placeId.value;
      var normalized := seq(|reviews|, i requires 0 <= i < |reviews| =>
        NormalizeGoogleReview(reviews[i], id, PlaceName(id), isoOfMillis));
      Ok(normalized, |normalized|, "google_places_api_mock")
  }

  /** Every record the route returns is filed under the place's listing name, on channel "google". */
  lemma GetRecords(placeId: string, reviews: seq<GoogleReview>, isoOfMillis: int -> string)
    ensures var d := Get(Some(placeId), reviews, isoOfMillis).Data();
      forall i :: 0 <= i < |d| ==> d[i].listingName == PlaceName(placeId) && d[i].channel == "google"
  {
  }

  /** Reviews with distinct times get distinct ids. */
  lemma GetRecordsDistinctIds(placeId: string, reviews: seq<GoogleReview>, isoOfMillis: int -> string)
    requires forall i, j :: 0 <= i < j < |reviews| ==> reviews[i].time != reviews[j].time
    ensures var d := Get(Some(placeId), reviews, isoOfMillis).Data();
      forall i, j :: 0 <= i < j < |d| ==> d[i].id != d[j].id
  {
    var d := Get(Some(placeId), reviews, isoOfMillis).Data();
    forall i, j | 0 <= i < j < |d| ensures d[i].id != d[j].id {
      DistinctTimesDistinctIds(placeId, reviews[i].time, reviews[j].time);
    }
  }

  /** The route's fixture list. */
  const MockReviews: seq<GoogleReview> := [
    GoogleReview("Lisa Anderson", None, "en", None, 5, "2 weeks ago",
      "Fantastic property in the heart of London. The host was incredibly welcoming and the space was immaculate. Perfect location for exploring the city!",
      1692627615),
    GoogleReview("Robert Taylor", None, "en", None, 4, "1 month ago",
      "Decent place but the noise from the street was quite bothersome at night. Otherwise good location and clean facilities.",
      1690035615)
  ]

  /** The pages ask for `demo_place_1`: two Shoreditch records rated 10 and 8. */
  lemma DemoPlaceFixtures(isoOfMillis: int -> string)
    ensures var resp := Get(Some("demo_place_1"), MockReviews, isoOfMillis);
      && resp.Success() && |resp.data| == 2
      && resp.data[0].listingName == Shoreditch && resp.data[1].listingName == Shoreditch
      && resp.data[0].overallRating == Some(10.0) && resp.data[1].overallRating == Some(8.0)
  {
  }
}
