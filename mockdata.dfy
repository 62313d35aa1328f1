/**
 * The fixture list and the helpers of src/lib/mockData.ts. The helpers read a
 * module-level array in the source; here they take the list as a parameter.
 */
module MockData {
  import opened Wrappers
  import opened Reviews
  import Seqs
  import Numeric

  /** `getReviewsByProperty`: the reviews of one listing, in order. */
  function ByProperty(reviews: seq<Review>, propertyName: string): (r: seq<Review>)
    ensures forall i :: 0 <= i < |r| ==> r[i] in reviews && r[i].listingName == propertyName
    ensures forall i :: 0 <= i < |reviews| && reviews[i].listingName == propertyName ==> reviews[i] in r
  {
    Seqs.FilterMembers(reviews, (x: Review) => x.listingName == propertyName);
    Seqs.Filter(reviews, (x: Review) => x.listingName == propertyName)
  }

  /** `getReviewsByChannel`: the reviews from one channel, in order. */
  function ByChannel(reviews: seq<Review>, channel: string): (r: seq<Review>)
    ensures forall i :: 0 <= i < |r| ==> r[i] in reviews && r[i].channel == channel
    ensures forall i :: 0 <= i < |reviews| && reviews[i].channel == channel ==> reviews[i] in r
  {
    Seqs.FilterMembers(reviews, (x: Review) => x.channel == channel);
    Seqs.Filter(reviews, (x: Review) => x.channel == channel)
  }

  /** `getApprovedReviews`. */
  function Approved(reviews: seq<Review>): (r: seq<Review>)
    ensures forall i :: 0 <= i < |r| ==> r[i] in reviews && r[i].isApproved
    ensures forall i :: 0 <= i < |reviews| && reviews[i].isApproved ==> reviews[i] in r
  {
    Seqs.FilterMembers(reviews, (x: Review) => x.isApproved);
    Seqs.Filter(reviews, (x: Review) => x.isApproved)
  }

  /** `getPendingReviews`. */
  function Pending(reviews: seq<Review>): (r: seq<Review>)
    ensures forall i :: 0 <= i < |r| ==> r[i] in reviews && !r[i].isApproved
    ensures forall i :: 0 <= i < |reviews| && !reviews[i].isApproved ==> reviews[i] in r
  {
    Seqs.FilterMembers(reviews, (x: Review) => !x.isApproved);
    Seqs.Filter(reviews, (x: Review) => !x.isApproved)
  }

  /**
   * The property filter keeps exactly the listing's positions, in their
   * original order: the k-th result is the input at the k-th matching position.
   */
  lemma ByPropertyInOrder(reviews: seq<Review>, propertyName: string)
    ensures var idx := Seqs.Selected(reviews, (x: Review) => x.listingName == propertyName);
      && |ByProperty(reviews, propertyName)| == |idx|
      && Seqs.StrictlyIncreasing(idx)
      && (forall i :: i in idx <==> 0 <= i < |reviews| && reviews[i].listingName == propertyName)
      && (forall k :: 0 <= k < |idx| ==> idx[k] < |reviews| && ByProperty(reviews, propertyName)[k] == reviews[idx[k]])
  {
    Seqs.FilterIsSelection(reviews, (x: Review) => x.listingName == propertyName);
    Seqs.SelectedExact(reviews, (x: Review) => x.listingName == propertyName);
  }

  /** The channel filter keeps exactly the channel's positions, in their original order. */
  lemma ByChannelInOrder(reviews: seq<Review>, channel: string)
    ensures var idx := Seqs.Selected(reviews, (x: Review) => x.channel == channel);
      && |ByChannel(reviews, channel)| == |idx|
      && Seqs.StrictlyIncreasing(idx)
      && (forall i :: i in idx <==> 0 <= i < |reviews| && reviews[i].channel == channel)
      && (forall k :: 0 <= k < |idx| ==> idx[k] < |reviews| && ByChannel(reviews, channel)[k] == reviews[idx[k]])
  {
    Seqs.FilterIsSelection(reviews, (x: Review) => x.channel == channel);
    Seqs.SelectedExact(reviews, (x: Review) => x.channel == channel);
  }

  /** Approved and pending split the list: no record in both, and together they are all of it. */
  lemma ApprovedPendingPartition(reviews: seq<Review>)
    ensures |Approved(reviews)| + |Pending(reviews)| == |reviews|
    ensures multiset(Approved(reviews)) + multiset(Pending(reviews)) == multiset(reviews)
    ensures forall i, j :: 0 <= i < |Approved(reviews)| && 0 <= j < |Pending(reviews)| ==>
      Approved(reviews)[i] != Pending(reviews)[j]
  {
    Seqs.FilterPartition(reviews, (x: Review) => x.isApproved, (x: Review) => !x.isApproved);
  }

  // calculatePropertyStats

  /** The result of `calculatePropertyStats`. */
  datatype PropertyStats = PropertyStats(totalReviews: nat, averageRating: real, categoryAverages: map<string, real>)

  /** Whether `r` contributes to category `c`'s average: present and non-zero (`if (rating)`). */
  predicate Contributes(r: Review, c: string) {
    c in r.categories && r.categories[c] != 0
  }

  /** The sum of the contributing ratings for `c`. */
  function CategorySum(rs: seq<Review>, c: string): int {
    if |rs| == 0 then 0
    else
      var r := rs[|rs| - 1];
      CategorySum(rs[..|rs| - 1], c) + (if Contributes(r, c) then r.categories[c] else 0)
  }

  /** The number of reviews contributing to `c`: the category's own denominator. */
  function CategoryCount(rs: seq<Review>, c: string): nat {
    if |rs| == 0 then 0
    else CategoryCount(rs[..|rs| - 1], c) + (if Contributes(rs[|rs| - 1], c) then 1 else 0)
  }

  /** The categories with at least one contributing rating. */
  function CategoryKeys(rs: seq<Review>): set<string> {
    set i, c | 0 <= i < |rs| && c in rs[i].categories && Contributes(rs[i], c) :: c
  }

  /** Per category: its contributing ratings' sum over their own count. */
  function CategoryAverages(rs: seq<Review>): map<string, real> {
    map c | c in CategoryKeys(rs) && CategoryCount(rs, c) > 0 :: CategorySum(rs, c) as real / CategoryCount(rs, c) as real
  }

  lemma {:induction false} CategoryCountPositive(rs: seq<Review>, c: string)
    ensures CategoryCount(rs, c) > 0 <==> c in CategoryKeys(rs)
  {
    if |rs| > 0 {
      var init := rs[..|rs| - 1];
      CategoryCountPositive(init, c);
      assert forall i :: 0 <= i < |init| ==> init[i] == rs[i];
      if CategoryCount(init, c) == 0 && Contributes(rs[|rs| - 1], c) {
        assert c in rs[|rs| - 1].categories;
      }
    }
  }

  /** The key set of the category averages is exactly the categories someone rated non-zero. */
  lemma CategoryAveragesKeys(rs: seq<Review>)
    ensures CategoryAverages(rs).Keys == CategoryKeys(rs)
  {
    forall c | c in CategoryKeys(rs) ensures CategoryCount(rs, c) > 0 {
      CategoryCountPositive(rs, c);
    }
  }

  /** The spec of `calculatePropertyStats` over a list, in one value. */
  function ExpectedStats(reviews: seq<Review>, propertyName: string): PropertyStats {
    var prs := ByProperty(reviews, propertyName);
    if |prs| == 0 then PropertyStats(0, 0.0, map[])
    else PropertyStats(|prs|, Numeric.RoundTo1(RatingTotal(prs) / |prs| as real), CategoryAverages(prs))
  }

  /** `(m[c] || 0)`: a running total, or 0 before the first contribution. */
  function Running(m: map<string, int>, c: string): int {
    if c in m then m[c] else 0
  }

  /** What review `r` adds to category `c`'s running sum. */
  function Contribution(r: Review, c: string): int {
    if Contributes(r, c) then r.categories[c] else 0
  }

  /** The categories review `r` contributes to. */
  function ContributedKeys(r: Review): set<string> {
    set c | c in r.categories && Contributes(r, c)
  }

  /**
   * The inner `forEach` over one review's categories: each non-zero rating is
   * added to its category's running sum and count.
   */
  method AddCategories(sums: map<string, int>, counts: map<string, int>, review: Review)
    returns (sums': map<string, int>, counts': map<string, int>)
    requires sums.Keys == counts.Keys
    ensures sums'.Keys == counts'.Keys == sums.Keys + ContributedKeys(review)
    ensures forall c :: c in sums' ==>
      sums'[c] == Running(sums, c) + Contribution(review, c)
      && counts'[c] == Running(counts, c) + (if Contributes(review, c) then 1 else 0)
  {
    sums', counts' := sums, counts;
    var todo := review.categories.Keys;
    while todo != {}
      invariant todo <= review.categories.Keys
      invariant sums'.Keys == counts'.Keys
      invariant forall c :: c in sums' <==> c in sums || (c !in todo && Contributes(review, c))
      invariant forall c :: c in sums' ==>
        && sums'[c] == Running(sums, c) + (if c !in todo then Contribution(review, c) else 0)
        && counts'[c] == Running(counts, c) + (if c !in todo && Contributes(review, c) then 1 else 0)
      decreases todo
    {
      var category :| category in todo;
      var rating := review.categories[category];
      if rating != 0 {
        sums' := sums'[category := Running(sums', category) + rating];
        counts' := counts'[category := Running(counts', category) + 1];
      }
      todo := todo - {category};
    }
  }

  /** The outer `forEach`: running sums and counts over all of a listing's reviews. */
  method SumCategories(propertyReviews: seq<Review>) returns (sums: map<string, int>, counts: map<string, int>)
    ensures sums.Keys == counts.Keys == CategoryKeys(propertyReviews)
    ensures forall c :: c in sums ==>
      sums[c] == CategorySum(propertyReviews, c) && counts[c] == CategoryCount(propertyReviews, c)
  {
    sums, counts := map[], map[];
    var i := 0;
    while i < |propertyReviews|
      invariant 0 <= i <= |propertyReviews|
      invariant sums.Keys == counts.Keys == CategoryKeys(propertyReviews[..i])
      invariant forall c :: c in sums ==>
        sums[c] == CategorySum(propertyReviews[..i], c) && counts[c] == CategoryCount(propertyReviews[..i], c)
    {
      var sums', counts' := AddCategories(sums, counts, propertyReviews[i]);
      StepCategories(propertyReviews, i);
      forall c | c in sums' && c !in sums
        ensures CategorySum(propertyReviews[..i], c) == 0 && CategoryCount(propertyReviews[..i], c) == 0
      {
        CategoryNotYetSeen(propertyReviews[..i], c);
      }
      sums, counts := sums', counts';
      i := i + 1;
    }
    assert propertyReviews[..i] == propertyReviews;
  }

  /** The second loop: each running sum is replaced by the sum over its own count. */
  method DivideByCounts(sums: map<string, int>, counts: map<string, int>) returns (averages: map<string, real>)
    requires sums.Keys == counts.Keys
    requires forall c :: c in counts ==> counts[c] > 0
    ensures averages.Keys == sums.Keys
    ensures forall c :: c in averages ==> averages[c] == sums[c] as real / counts[c] as real
  {
    averages := map[];
    var keys := sums.Keys;
    while keys != {}
      invariant keys <= sums.Keys
      invariant averages.Keys == sums.Keys - keys
      invariant forall c :: c in averages ==> averages[c] == sums[c] as real / counts[c] as real
      decreases keys
    {
      var category :| category in keys;
      averages := averages[category := sums[category] as real / counts[category] as real];
      keys := keys - {category};
    }
  }

  /**
   * `calculatePropertyStats`: the listing's count, its mean rating (null as 0)
   * rounded to one decimal, and per-category averages over per-category counts.
   */
  method CalculatePropertyStats(reviews: seq<Review>, propertyName: string) returns (stats: PropertyStats)
    ensures stats == ExpectedStats(reviews, propertyName)
  {
    var propertyReviews := ByProperty(reviews, propertyName);
    var totalReviews := |propertyReviews|;
    if totalReviews == 0 {
      return PropertyStats(0, 0.0, map[]);
    }
    var averageRating := RatingTotal(propertyReviews) / totalReviews as real;
    var sums, counts := SumCategories(propertyReviews);
    forall c | c in counts ensures counts[c] > 0 {
      CategoryCountPositive(propertyReviews, c);
    }
    var categoryAverages := DivideByCounts(sums, counts);
    CategoryAveragesKeys(propertyReviews);
    stats := PropertyStats(totalReviews, Numeric.RoundTo1(averageRating), categoryAverages);
  }

  /** A category outside the keys seen so far has no contribution yet. */
  lemma {:induction false} CategoryNotYetSeen(rs: seq<Review>, c: string)
    ensures c !in CategoryKeys(rs) ==> CategorySum(rs, c) == 0 && CategoryCount(rs, c) == 0
  {
    if |rs| > 0 {
      var init := rs[..|rs| - 1];
      assert forall i :: 0 <= i < |init| ==> init[i] == rs[i];
      CategoryNotYetSeen(init, c);
    }
  }

  /** One more review: its contributions are added on top of the prefix's. */
  lemma StepCategories(rs: seq<Review>, i: nat)
    requires i < |rs|
    ensures CategoryKeys(rs[..i + 1]) == CategoryKeys(rs[..i]) + ContributedKeys(rs[i])
    ensures forall c :: CategorySum(rs[..i + 1], c) == CategorySum(rs[..i], c) + Contribution(rs[i], c)
    ensures forall c :: CategoryCount(rs[..i + 1], c) == CategoryCount(rs[..i], c) + (if Contributes(rs[i], c) then 1 else 0)
  {
    assert rs[..i + 1][..i] == rs[..i];
  }

  // Properties of the statistics

  /** `totalReviews` counts the listing's reviews; with none, everything is zero or empty. */
  lemma StatsCount(reviews: seq<Review>, propertyName: string)
    ensures ExpectedStats(reviews, propertyName).totalReviews == |ByProperty(reviews, propertyName)|
    ensures (forall i :: 0 <= i < |reviews| ==> reviews[i].listingName != propertyName) ==>
      ExpectedStats(reviews, propertyName) == PropertyStats(0, 0.0, map[])
  {
  }

  /** With every listing rating (null read as 0) in [0, 10], the rounded average is in [0, 10] too. */
  lemma StatsAverageInRange(reviews: seq<Review>, propertyName: string)
    requires forall i :: 0 <= i < |reviews| ==> 0.0 <= RatingOrZero(reviews[i]) <= 10.0
    ensures 0.0 <= ExpectedStats(reviews, propertyName).averageRating <= 10.0
  {
    var prs := ByProperty(reviews, propertyName);
    if |prs| > 0 {
      MeanRatingBounds(prs, 0.0, 10.0);
      Numeric.RoundTo1Bounds(RatingTotal(prs) / |prs| as real, 0, 10);
    }
  }

  lemma {:induction false} CategorySumBounds(rs: seq<Review>, c: string, lo: real, hi: real)
    requires forall i :: 0 <= i < |rs| && Contributes(rs[i], c) ==> lo <= rs[i].categories[c] as real <= hi
    ensures Numeric.Times(lo, CategoryCount(rs, c)) <= CategorySum(rs, c) as real <= Numeric.Times(hi, CategoryCount(rs, c))
  {
    if |rs| > 0 {
      var init := rs[..|rs| - 1];
      assert forall i :: 0 <= i < |init| ==> init[i] == rs[i];
      CategorySumBounds(init, c, lo, hi);
    }
  }

  /** Each category average lies between bounds its contributing ratings respect (the platform's 0 to 10). */
  lemma CategoryAverageBounds(rs: seq<Review>, c: string, lo: real, hi: real)
    requires c in CategoryAverages(rs)
    requires forall i :: 0 <= i < |rs| && Contributes(rs[i], c) ==> lo <= rs[i].categories[c] as real <= hi
    ensures lo <= CategoryAverages(rs)[c] <= hi
  {
    var n := CategoryCount(rs, c);
    var avg := CategoryAverages(rs)[c];
    assert avg == CategorySum(rs, c) as real / n as real;
    CategorySumBounds(rs, c, lo, hi);
    Numeric.MeanBetween(CategorySum(rs, c) as real, n, lo, hi);
  }

  /** A category rated 9 and 7 on two of three reviews averages 8: its denominator is 2, not 3. */
  lemma PerCategoryDenominatorExample(a: Review, b: Review, c: Review)
    requires a.categories == map["value" := 9] && b.categories == map["value" := 7] && c.categories == map[]
    ensures "value" in CategoryAverages([a, b, c]) && CategoryAverages([a, b, c])["value"] == 8.0
  {
    var rs := [a, b, c];
    assert rs[..2] == [a, b] && rs[..2][..1] == [a] && rs[..2][..1][..0] == [];
    assert CategorySum(rs[..1], "value") == 9 && CategoryCount(rs[..1], "value") == 1;
    assert CategorySum(rs[..2], "value") == 16 && CategoryCount(rs[..2], "value") == 2;
    assert CategorySum(rs, "value") == 16 && CategoryCount(rs, "value") == 2;
    assert Contributes(rs[0], "value") && "value" in rs[0].categories;
  }

  // The fixture list

  /** The seven fixture reviews (five booking-platform, two places). */
  const MockReviews: seq<Review> := [
    Review(IntId(7453), "guest-to-host", "published", Some(9.2),
      "Amazing stay! The property was exactly as described and Shane was very responsive. Would definitely book again.",
      map["cleanliness" := 10, "communication" := 10, "accuracy" := 9, "location" := 8, "value" := 9],
      "2024-08-21T22:45:14Z", "John Smith", Shoreditch, HostawayChannel, true, None),
    Review(IntId(7454), "guest-to-host", "published", Some(9.0),
      "Great location and clean apartment. Check-in was smooth and the host was helpful throughout our stay.",
      map["cleanliness" := 9, "communication" := 8, "accuracy" := 10, "location" := 10, "value" := 8],
      "2024-08-15T14:30:22Z", "Emma Wilson", CamdenLock, HostawayChannel, false, None),
    Review(IntId(7455), "guest-to-host", "published", Some(8.0),
      "The apartment was nice but had some cleanliness issues. The location is excellent though.",
      map["cleanliness" := 6, "communication" := 9, "accuracy" := 8, "location" := 10, "value" := 7],
      "2024-08-10T09:15:33Z", "Michael Johnson", CanaryWharf, HostawayChannel, false, None),
    Review(IntId(7456), "guest-to-host", "published", Some(9.8),
      "Perfect stay! Everything was spotless and the amenities were great. Highly recommend this property.",
      map["cleanliness" := 10, "communication" := 10, "accuracy" := 10, "location" := 9, "value" := 10],
      "2024-08-05T16:20:45Z", "Sarah Davis", Shoreditch, HostawayChannel, true, None),
    Review(IntId(7457), "guest-to-host", "published", Some(8.2),
      "Good value for money. The apartment was comfortable and the host was easy to communicate with.",
      map["cleanliness" := 8, "communication" := 9, "accuracy" := 8, "location" := 7, "value" := 9],
      "2024-07-28T11:45:12Z", "David Brown", CamdenLock, HostawayChannel, true, None),
    Review(IntId(8001), "guest-review", "published", Some(9.5),
      "Fantastic property in the heart of London. The host was incredibly welcoming and the space was immaculate.",
      map["cleanliness" := 10, "communication" := 9, "location" := 10, "value" := 9],
      "2024-08-18T10:20:15Z", "Lisa Anderson", Shoreditch, GoogleChannel, true, None),
    Review(IntId(8002), "guest-review", "published", Some(7.5),
      "Decent place but the noise from the street was quite bothersome at night. Otherwise good location.",
      map["cleanliness" := 8, "communication" := 8, "location" := 9, "value" := 6],
      "2024-08-12T08:30:44Z", "Robert Taylor", CanaryWharf, GoogleChannel, false, None)
  ]

  lemma ListingNamesDiffer()
    ensures Shoreditch != CamdenLock && Shoreditch != CanaryWharf && CamdenLock != CanaryWharf
  {
    assert Shoreditch[0] != CamdenLock[0] && Shoreditch[0] != CanaryWharf[0] && CamdenLock[0] != CanaryWharf[0];
  }

  lemma FixtureFacts()
    ensures |MockReviews| == 7
    ensures MockReviews[0].listingName == Shoreditch && MockReviews[1].listingName == CamdenLock
    ensures MockReviews[2].listingName == CanaryWharf && MockReviews[3].listingName == Shoreditch
    ensures MockReviews[4].listingName == CamdenLock && MockReviews[5].listingName == Shoreditch
    ensures MockReviews[6].listingName == CanaryWharf
    ensures RatingOrZero(MockReviews[0]) == 9.2 && RatingOrZero(MockReviews[1]) == 9.0
    ensures RatingOrZero(MockReviews[3]) == 9.8 && RatingOrZero(MockReviews[4]) == 8.2
    ensures RatingOrZero(MockReviews[2]) == 8.0 && RatingOrZero(MockReviews[5]) == 9.5
    ensures RatingOrZero(MockReviews[6]) == 7.5
  {
  }

  lemma RatingTotalOfThree(a: Review, b: Review, c: Review)
    ensures RatingTotal([a, b, c]) == RatingOrZero(a) + RatingOrZero(b) + RatingOrZero(c)
  {
    var rs := [a, b, c];
    assert rs[..2] == [a, b] && rs[..2][..1] == [a] && rs[..2][..1][..0] == [];
    assert RatingTotal([a]) == RatingOrZero(a);
    assert RatingTotal([a, b]) == RatingOrZero(a) + RatingOrZero(b);
  }

  /** The Shoreditch filter over any seven reviews laid out by listing as the fixtures are. */
  lemma ShoreditchOfSeven(m: seq<Review>)
    requires |m| == 7
    requires m[0].listingName == Shoreditch && m[1].listingName == CamdenLock && m[2].listingName == CanaryWharf
    requires m[3].listingName == Shoreditch && m[4].listingName == CamdenLock && m[5].listingName == Shoreditch
    requires m[6].listingName == CanaryWharf
    ensures ByProperty(m, Shoreditch) == [m[0], m[3], m[5]]
  {
    ListingNamesDiffer();
    var p := (x: Review) => x.listingName == Shoreditch;
    var s1 := [m[0]];
    var s2 := s1 + [m[1]];
    var s3 := s2 + [m[2]];
    var s4 := s3 + [m[3]];
    var s5 := s4 + [m[4]];
    var s6 := s5 + [m[5]];
    var s7 := s6 + [m[6]];
    assert m == s7;
    Seqs.FilterSnoc([], m[0], p);
    assert [] + [m[0]] == s1;
    Seqs.FilterSnoc(s1, m[1], p);
    Seqs.FilterSnoc(s2, m[2], p);
    Seqs.FilterSnoc(s3, m[3], p);
    Seqs.FilterSnoc(s4, m[4], p);
    Seqs.FilterSnoc(s5, m[5], p);
    Seqs.FilterSnoc(s6, m[6], p);
  }

  /** The Camden Lock filter over the same layout. */
  lemma CamdenOfSeven(m: seq<Review>)
    requires |m| == 7
    requires m[0].listingName == Shoreditch && m[1].listingName == CamdenLock && m[2].listingName == CanaryWharf
    requires m[3].listingName == Shoreditch && m[4].listingName == CamdenLock && m[5].listingName == Shoreditch
    requires m[6].listingName == CanaryWharf
    ensures ByProperty(m, CamdenLock) == [m[1], m[4]]
  {
    ListingNamesDiffer();
    var p := (x: Review) => x.listingName == CamdenLock;
    var s1 := [m[0]];
    var s2 := s1 + [m[1]];
    var s3 := s2 + [m[2]];
    var s4 := s3 + [m[3]];
    var s5 := s4 + [m[4]];
    var s6 := s5 + [m[5]];
    var s7 := s6 + [m[6]];
    assert m == s7;
    Seqs.FilterSnoc([], m[0], p);
    assert [] + [m[0]] == s1;
    Seqs.FilterSnoc(s1, m[1], p);
    Seqs.FilterSnoc(s2, m[2], p);
    Seqs.FilterSnoc(s3, m[3], p);
    Seqs.FilterSnoc(s4, m[4], p);
    Seqs.FilterSnoc(s5, m[5], p);
    Seqs.FilterSnoc(s6, m[6], p);
  }

  lemma ShoreditchFixtureReviews()
    ensures ByProperty(MockReviews, Shoreditch) == [MockReviews[0], MockReviews[3], MockReviews[5]]
  {
    FixtureFacts();
    ShoreditchOfSeven(MockReviews);
  }

  lemma CamdenFixtureReviews()
    ensures ByProperty(MockReviews, CamdenLock) == [MockReviews[1], MockReviews[4]]
  {
    FixtureFacts();
    CamdenOfSeven(MockReviews);
  }

  /** On the fixtures the Shoreditch listing has 3 reviews averaging 9.5. */
  lemma FixtureStatsShoreditch()
    ensures ExpectedStats(MockReviews, Shoreditch).totalReviews == 3
    ensures ExpectedStats(MockReviews, Shoreditch).averageRating == 9.5
  {
    var m := MockReviews;
    FixtureFacts();
    ShoreditchFixtureReviews();
    RatingTotalOfThree(m[0], m[3], m[5]);
    assert RatingTotal([m[0], m[3], m[5]]) / 3.0 == 9.5;
    assert Numeric.MathRound(95.0) == 95;
  }

  /** On the fixtures the Camden Lock listing has 2 reviews averaging 8.6. */
  lemma FixtureStatsCamden()
    ensures ExpectedStats(MockReviews, CamdenLock).totalReviews == 2
    ensures ExpectedStats(MockReviews, CamdenLock).averageRating == 8.6
  {
    var m := MockReviews;
    FixtureFacts();
    CamdenFixtureReviews();
    var rs := [m[1], m[4]];
    assert rs[..1] == [m[1]] && rs[..1][..0] == [];
    assert RatingTotal(rs[..1]) == 9.0;
    assert RatingTotal(rs) / 2.0 == 8.6;
    assert Numeric.MathRound(86.0) == 86;
  }
}
