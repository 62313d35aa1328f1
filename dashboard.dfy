/**
 * The dashboard page (src/app/page.tsx): the review filter, the summary
 * statistics, the in-place approval toggle, the per-property cards and the
 * category label.
 */
module Dashboard {
  import opened Reviews
  import Seqs
  import Numeric
  import MockData

  /** The approval filter's three choices: 'all', 'approved', 'pending'. */
  datatype ApprovalStatus = All | ApprovedOnly | PendingOnly

  /** The filter callback: the property check first, then the approval checks. */
  predicate Keep(r: Review, selectedProperty: string, status: ApprovalStatus) {
    if selectedProperty != "all" && r.listingName != selectedProperty then false
    else if status == ApprovedOnly && !r.isApproved then false
    else if status == PendingOnly && r.isApproved then false
    else true
  }

  /** `filteredReviews`. */
  function FilteredReviews(reviews: seq<Review>, selectedProperty: string, status: ApprovalStatus): seq<Review> {
    Seqs.Filter(reviews, (r: Review) => Keep(r, selectedProperty, status))
  }

  /** With property "all" and approval "all" every review is shown, in order. */
  lemma FilterAllKeepsEverything(reviews: seq<Review>)
    ensures FilteredReviews(reviews, "all", All) == reviews
  {
    Seqs.FilterAll(reviews, (r: Review) => Keep(r, "all", All));
  }

  /**
   * A review is shown exactly when it belongs to the selected property (any,
   * for "all") and its approval matches the status ("approved" only approved,
   * "pending" only unapproved).
   */
  lemma FilterShowsExactly(reviews: seq<Review>, selectedProperty: string, status: ApprovalStatus)
    ensures var shown := FilteredReviews(reviews, selectedProperty, status);
      && (forall i :: 0 <= i < |shown| ==>
            && shown[i] in reviews
            && (selectedProperty != "all" ==> shown[i].listingName == selectedProperty)
            && (status == ApprovedOnly ==> shown[i].isApproved)
            && (status == PendingOnly ==> !shown[i].isApproved))
      && (forall i :: 0 <= i < |reviews|
            && (selectedProperty == "all" || reviews[i].listingName == selectedProperty)
            && (status == ApprovedOnly ==> reviews[i].isApproved)
            && (status == PendingOnly ==> !reviews[i].isApproved)
            ==> reviews[i] in shown)
  {
    Seqs.FilterMembers(reviews, (r: Review) => Keep(r, selectedProperty, status));
  }

  /** The shown reviews keep their relative order: the k-th shown is the k-th kept position. */
  lemma FilterKeepsOrder(reviews: seq<Review>, selectedProperty: string, status: ApprovalStatus)
    ensures var idx := Seqs.Selected(reviews, (r: Review) => Keep(r, selectedProperty, status));
      && Seqs.StrictlyIncreasing(idx)
      && |FilteredReviews(reviews, selectedProperty, status)| == |idx|
      && forall k :: 0 <= k < |idx| ==>
           idx[k] < |reviews| && FilteredReviews(reviews, selectedProperty, status)[k] == reviews[idx[k]]
  {
    Seqs.FilterIsSelection(reviews, (r: Review) => Keep(r, selectedProperty, status));
    Seqs.SelectedExact(reviews, (r: Review) => Keep(r, selectedProperty, status));
  }

  // dashboardStats

  datatype DashboardStats = DashboardStats(totalReviews: nat, approvedReviews: nat, pendingReviews: int, averageRating: real)

  /** `dashboardStats` over the filtered list. */
  function ComputeStats(filtered: seq<Review>): DashboardStats {
    var totalReviews := |filtered|;
    var approvedReviews := |MockData.Approved(filtered)|;
    var averageRating := if totalReviews > 0 then RatingTotal(filtered) / totalReviews as real else 0.0;
    DashboardStats(totalReviews, approvedReviews, totalReviews - approvedReviews, Numeric.RoundTo1(averageRating))
  }

  /** The pending figure, computed as a difference, is exactly the number of unapproved reviews. */
  lemma StatsPartition(filtered: seq<Review>)
    ensures var st := ComputeStats(filtered);
      && st.approvedReviews + st.pendingReviews == st.totalReviews
      && st.pendingReviews == |MockData.Pending(filtered)|
      && st.pendingReviews >= 0
  {
    MockData.ApprovedPendingPartition(filtered);
  }

  /** The average is 0 for an empty list, otherwise the one-decimal rounding of the mean with null as 0. */
  lemma StatsAverage(filtered: seq<Review>)
    ensures ComputeStats(filtered).averageRating == Numeric.RoundTo1(MeanRating(filtered))
    ensures |filtered| == 0 ==> ComputeStats(filtered).averageRating == 0.0
  {
    if |filtered| == 0 {
      assert Numeric.MathRound(0.0) == 0;
    }
  }

  /** With ratings in [0, 10] the average stays in [0, 10]. */
  lemma StatsAverageBounds(filtered: seq<Review>)
    requires forall i :: 0 <= i < |filtered| ==> 0.0 <= RatingOrZero(filtered[i]) <= 10.0
    ensures 0.0 <= ComputeStats(filtered).averageRating <= 10.0
  {
    StatsAverage(filtered);
    if |filtered| > 0 {
      MeanRatingBounds(filtered, 0.0, 10.0);
      Numeric.RoundTo1Bounds(MeanRating(filtered), 0, 10);
    }
  }

  // handleApprovalToggle

  /** `findIndex` by id: the first position holding `id`, or -1. */
  function FirstIndexOf(s: seq<Review>, id: ReviewId): (k: int)
    ensures -1 <= k < |s|
    ensures k >= 0 ==> s[k].id == id && forall j :: 0 <= j < k ==> s[j].id != id
    ensures k == -1 ==> forall j :: 0 <= j < |s| ==> s[j].id != id
  {
    if |s| == 0 then -1
    else if s[0].id == id then 0
    else
      var k := FirstIndexOf(s[1..], id);
      if k == -1 then -1 else k + 1
  }

  /** The list after a toggle: the first review with `id` has its approval flipped; no match, no change. */
  function Toggled(s: seq<Review>, id: ReviewId): seq<Review> {
    var k := FirstIndexOf(s, id);
    if k == -1 then s else s[k := s[k].(isApproved := !s[k].isApproved)]
  }

  /** `reviews.findIndex((r) => r.id === reviewId)`. */
  method FindIndex(reviews: array<Review>, reviewId: ReviewId) returns (index: int)
    ensures index == FirstIndexOf(reviews[..], reviewId)
  {
    index := 0;
    while index < reviews.Length
      invariant 0 <= index <= reviews.Length
      invariant forall j :: 0 <= j < index ==> reviews[j].id != reviewId
    {
      if reviews[index].id == reviewId {
        return;
      }
      index := index + 1;
    }
    index := -1;
  }

  /** `handleApprovalToggle`: flips `isApproved` in place on the first review with the id. */
  method ToggleApproval(reviews: array<Review>, reviewId: ReviewId)
    modifies reviews
    ensures reviews[..] == Toggled(old(reviews[..]), reviewId)
  {
    var reviewIndex := FindIndex(reviews, reviewId);
    if reviewIndex != -1 {
      reviews[reviewIndex] := reviews[reviewIndex].(isApproved := !reviews[reviewIndex].isApproved);
    }
  }

  /**
   * A toggle changes one thing: the approval of the first review with the id.
   * The length, every other review and every other field stay as they were.
   */
  lemma ToggleChangesOnlyFirstMatch(s: seq<Review>, id: ReviewId)
    ensures var t := Toggled(s, id);
      && |t| == |s|
      && (forall i :: 0 <= i < |s| ==> t[i].(isApproved := s[i].isApproved) == s[i])
      && (forall i :: 0 <= i < |s| && t[i] != s[i] ==> s[i].id == id && forall j :: 0 <= j < i ==> s[j].id != id)
      && (forall i :: 0 <= i < |s| && s[i].id == id && (forall j :: 0 <= j < i ==> s[j].id != id) ==>
            t[i].isApproved == !s[i].isApproved)
  {
    var k := FirstIndexOf(s, id);
    forall i | 0 <= i < |s| && s[i].id == id && (forall j :: 0 <= j < i ==> s[j].id != id)
      ensures i == k
    {
    }
  }

  /** An id no review has leaves the list untouched. */
  lemma ToggleAbsentId(s: seq<Review>, id: ReviewId)
    requires forall i :: 0 <= i < |s| ==> s[i].id != id
    ensures Toggled(s, id) == s
  {
  }

  /** Toggling the same id twice restores the list. */
  lemma ToggleInvolution(s: seq<Review>, id: ReviewId)
    ensures Toggled(Toggled(s, id), id) == s
  {
    var k := FirstIndexOf(s, id);
    if k >= 0 {
      var t := Toggled(s, id);
      assert forall i :: 0 <= i < |t| ==> t[i].id == s[i].id;
      var k' := FirstIndexOf(t, id);
      assert k' == k;
    }
  }

  // Property cards

  datatype PropertyCard = PropertyCard(reviewCount: nat, averageRating: real, approved: nat, pending: nat)

  /** One card: the listing's reviews, their unrounded mean (0 when none), approved and pending counts. */
  function CardFor(reviews: seq<Review>, propertyName: string): PropertyCard {
    var propertyReviews := MockData.ByProperty(reviews, propertyName);
    PropertyCard(
      |propertyReviews|,
      if |propertyReviews| > 0 then RatingTotal(propertyReviews) / |propertyReviews| as real else 0.0,
      |MockData.Approved(propertyReviews)|,
      |MockData.Pending(propertyReviews)|)
  }

  /** A card's approved and pending counts add up to its review count; its average is the unrounded mean. */
  lemma CardCounts(reviews: seq<Review>, propertyName: string)
    ensures var card := CardFor(reviews, propertyName);
      && card.approved + card.pending == card.reviewCount == |MockData.ByProperty(reviews, propertyName)|
      && card.averageRating == MeanRating(MockData.ByProperty(reviews, propertyName))
  {
    MockData.ApprovedPendingPartition(MockData.ByProperty(reviews, propertyName));
  }

  // Category label

  /** `s.replace(from, to)` with a one-character string pattern: only the first occurrence is replaced. */
  function ReplaceFirst(s: string, from: char, to: char): (r: string)
    ensures |r| == |s|
    ensures forall i :: 0 <= i < |s| && from !in s[..i] && s[i] == from ==> r[i] == to
    ensures forall i :: 0 <= i < |s| && !(from !in s[..i] && s[i] == from) ==> r[i] == s[i]
  {
    if |s| == 0 then ""
    else if s[0] == from then [to] + s[1..]
    else
      var rest := ReplaceFirst(s[1..], from, to);
      assert forall i :: 1 <= i <= |s| ==> s[..i] == [s[0]] + s[1..][..i - 1];
      [s[0]] + rest
  }

  /** The label shown for a category key (the reviews page uses the same rewrite). */
  function CategoryLabel(category: string): string {
    ReplaceFirst(category, '_', ' ')
  }

  /** Splitting at the first occurrence: the part before it is kept, the occurrence replaced, the rest kept. */
  lemma {:induction false} ReplaceFirstSplit(p: string, q: string, from: char, to: char)
    requires from !in p
    ensures ReplaceFirst(p + [from] + q, from, to) == p + [to] + q
  {
    if |p| == 0 {
      assert p + [from] + q == [from] + q;
    } else {
      ReplaceFirstSplit(p[1..], q, from, to);
      assert (p + [from] + q)[1..] == p[1..] + [from] + q;
      assert p + [to] + q == [p[0]] + (p[1..] + [to] + q);
    }
  }

  /** Only the first underscore becomes a space. */
  lemma CategoryLabelExample()
    ensures CategoryLabel("respect_house_rules") == "respect house_rules"
  {
    var before, after := "respect", "house_rules";
    assert forall i :: 0 <= i < |before| ==> before[i] != '_';
    assert "respect_house_rules" == before + ['_'] + after;
    assert "respect house_rules" == before + [' '] + after;
    ReplaceFirstSplit(before, after, '_', ' ');
  }
}
