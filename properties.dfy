/**
 * The properties page (src/app/properties/page.tsx): the reviews of both
 * sources are grouped by listing name in a Map (insertion order), each group
 * counting its reviews and summing their ratings, and the groups become the
 * property list with positional ids and a one-decimal average.
 */
module Properties {
  import opened Wrappers
  import opened Reviews
  import Numeric
  import MockData
  import Seqs

  const FallbackAddress := "London, UK"

  /** The fixed address table of `getAddressForProperty`. */
  const Addresses: map<string, string> := map[
    Shoreditch := "29 Shoreditch High Street, London, E1 6PQ",
    CamdenLock := "15 Camden Lock Place, London, NW1 8AF",
    CanaryWharf := "42 Canary Wharf, London, E14 5AB"]

  /** `addressMap[propertyName] || "London, UK"`: a missing or empty entry falls back. */
  function AddressFor(propertyName: string): string {
    if propertyName in Addresses && Addresses[propertyName] != "" then Addresses[propertyName] else FallbackAddress
  }

  /** The three known listings get their own address; every other name gets the fallback. */
  lemma AddressLookup(propertyName: string)
    ensures propertyName == Shoreditch ==> AddressFor(propertyName) == "29 Shoreditch High Street, London, E1 6PQ"
    ensures propertyName == CamdenLock ==> AddressFor(propertyName) == "15 Camden Lock Place, London, NW1 8AF"
    ensures propertyName == CanaryWharf ==> AddressFor(propertyName) == "42 Canary Wharf, London, E14 5AB"
    ensures AddressFor(propertyName) == FallbackAddress <==>
      propertyName != Shoreditch && propertyName != CamdenLock && propertyName != CanaryWharf
  {
  }

  // Map insertion order

  /** The distinct listing names in order of first appearance: the key order of the grouping Map. */
  function ListingOrder(reviews: seq<Review>): seq<string> {
    if |reviews| == 0 then []
    else
      var names := ListingOrder(reviews[..|reviews| - 1]);
      var name := reviews[|reviews| - 1].listingName;
      if name in names then names else names + [name]
  }

  /** The key order lists each name once, and lists the name of every review. */
  lemma {:induction false} ListingOrderFacts(reviews: seq<Review>)
    ensures var names := ListingOrder(reviews);
      && (forall a, b :: 0 <= a < b < |names| ==> names[a] != names[b])
      && (forall i :: 0 <= i < |reviews| ==> reviews[i].listingName in names)
  {
    if |reviews| > 0 {
      var init := reviews[..|reviews| - 1];
      ListingOrderFacts(init);
      assert forall i :: 0 <= i < |init| ==> reviews[i] == init[i];
    }
  }

  /** The first position whose review has the listing name, or -1. */
  function FirstWith(reviews: seq<Review>, name: string): (k: int)
    ensures -1 <= k < |reviews|
    ensures k >= 0 ==> reviews[k].listingName == name && forall j :: 0 <= j < k ==> reviews[j].listingName != name
    ensures k == -1 ==> forall j :: 0 <= j < |reviews| ==> reviews[j].listingName != name
  {
    if |reviews| == 0 then -1
    else if reviews[0].listingName == name then 0
    else
      var k := FirstWith(reviews[1..], name);
      if k == -1 then -1 else k + 1
  }

  lemma FirstWithAppend(init: seq<Review>, r: Review, name: string)
    ensures FirstWith(init + [r], name) ==
      if FirstWith(init, name) >= 0 then FirstWith(init, name)
      else if r.listingName == name then |init| else -1
  {
    var s := init + [r];
    var k := FirstWith(init, name);
    var k' := FirstWith(s, name);
    assert forall j :: 0 <= j < |init| ==> s[j] == init[j];
    if k >= 0 {
      assert s[k] == init[k];
    } else if r.listingName == name {
      assert s[|init|] == r;
    }
  }

  /** A name is a key of the grouping exactly when some review carries it. */
  lemma {:induction false} FirstWithListed(reviews: seq<Review>, name: string)
    ensures name in ListingOrder(reviews) <==> FirstWith(reviews, name) >= 0
  {
    if |reviews| > 0 {
      var init := reviews[..|reviews| - 1];
      var r := reviews[|reviews| - 1];
      assert reviews == init + [r];
      FirstWithListed(init, name);
      FirstWithAppend(init, r, name);
    }
  }

  /** Each listed name has a first review, and earlier names have earlier first reviews. */
  ghost predicate InFirstAppearanceOrder(reviews: seq<Review>, names: seq<string>) {
    forall a, b :: 0 <= a < b < |names| ==> FirstBefore(reviews, names[a], names[b])
  }

  /** Both names occur, the first one earlier. */
  ghost predicate FirstBefore(reviews: seq<Review>, x: string, y: string) {
    0 <= FirstWith(reviews, x) < FirstWith(reviews, y)
  }

  lemma OrderTransfers(init: seq<Review>, reviews: seq<Review>, names: seq<string>)
    requires InFirstAppearanceOrder(init, names)
    requires forall k :: 0 <= k < |names| ==> FirstWith(reviews, names[k]) == FirstWith(init, names[k])
    ensures InFirstAppearanceOrder(reviews, names)
  {
    forall a, b | 0 <= a < b < |names|
      ensures FirstBefore(reviews, names[a], names[b])
    {
      assert FirstBefore(init, names[a], names[b]);
    }
  }

  lemma OrderExtends(reviews: seq<Review>, names: seq<string>, name: string, bound: int)
    requires InFirstAppearanceOrder(reviews, names)
    requires forall k :: 0 <= k < |names| ==> 0 <= FirstWith(reviews, names[k]) < bound
    requires FirstWith(reviews, name) == bound
    ensures InFirstAppearanceOrder(reviews, names + [name])
  {
    var all := names + [name];
    forall a, b | 0 <= a < b < |all|
      ensures FirstBefore(reviews, all[a], all[b])
    {
      assert all[a] == names[a];
      if b < |names| {
        assert all[b] == names[b];
      } else {
        assert all[b] == name;
      }
    }
  }

  /** The groups come in order of each listing's first review. */
  lemma {:induction false} ListingOrderFirstAppearance(reviews: seq<Review>)
    ensures InFirstAppearanceOrder(reviews, ListingOrder(reviews))
  {
    if |reviews| > 0 {
      var init := reviews[..|reviews| - 1];
      var r := reviews[|reviews| - 1];
      assert reviews == init + [r];
      ListingOrderFirstAppearance(init);
      var names := ListingOrder(init);
      forall k | 0 <= k < |names|
        ensures 0 <= FirstWith(init, names[k]) < |init|
        ensures FirstWith(reviews, names[k]) == FirstWith(init, names[k])
      {
        FirstWithListed(init, names[k]);
        FirstWithAppend(init, r, names[k]);
      }
      OrderTransfers(init, reviews, names);
      if r.listingName !in names {
        FirstWithListed(init, r.listingName);
        FirstWithAppend(init, r, r.listingName);
        OrderExtends(reviews, names, r.listingName, |init|);
      }
    }
  }

  // Grouping

  /** A Map value: the review count, the rating sum (null as 0), the name and the address. */
  datatype PropertyGroup = PropertyGroup(totalReviews: nat, totalRating: real, name: string, address: string)

  /** How many reviews carry the listing name. */
  function ListingCount(reviews: seq<Review>, name: string): nat {
    if |reviews| == 0 then 0
    else ListingCount(reviews[..|reviews| - 1], name) + (if reviews[|reviews| - 1].listingName == name then 1 else 0)
  }

  /** The ratings (null as 0) of the reviews carrying the listing name, summed left to right. */
  function ListingRating(reviews: seq<Review>, name: string): real {
    if |reviews| == 0 then 0.0
    else
      var last := reviews[|reviews| - 1];
      ListingRating(reviews[..|reviews| - 1], name) + (if last.listingName == name then RatingOrZero(last) else 0.0)
  }

  /** The group of one listing name, computed from the whole list. */
  function GroupFor(reviews: seq<Review>, name: string): PropertyGroup {
    PropertyGroup(ListingCount(reviews, name), ListingRating(reviews, name), name, AddressFor(name))
  }

  function Groups(reviews: seq<Review>, names: seq<string>): (gs: seq<PropertyGroup>)
    ensures |gs| == |names|
  {
    seq(|names|, k requires 0 <= k < |names| => GroupFor(reviews, names[k]))
  }

  /** The Map's entries, in key order. */
  function Grouped(reviews: seq<Review>): seq<PropertyGroup> {
    Groups(reviews, ListingOrder(reviews))
  }

  lemma ByPropertyAppend(init: seq<Review>, r: Review, name: string)
    ensures MockData.ByProperty(init + [r], name) ==
      MockData.ByProperty(init, name) + (if r.listingName == name then [r] else [])
  {
    assert (init + [r])[..|init|] == init;
  }

  /** The counters agree with the listing filter: the count is its length, the rating its rating total. */
  lemma {:induction false} ListingCountIsFilter(reviews: seq<Review>, name: string)
    ensures ListingCount(reviews, name) == |MockData.ByProperty(reviews, name)|
    ensures ListingRating(reviews, name) == RatingTotal(MockData.ByProperty(reviews, name))
  {
    if |reviews| > 0 {
      var init := reviews[..|reviews| - 1];
      var r := reviews[|reviews| - 1];
      assert reviews == init + [r];
      ListingCountIsFilter(init, name);
      var before := MockData.ByProperty(init, name);
      var extra := if r.listingName == name then [r] else [];
      ByPropertyAppend(init, r, name);
      assert MockData.ByProperty(reviews, name) == before + extra;
      RatingTotalConcat(before, extra);
      assert RatingTotal(extra) == if r.listingName == name then RatingOrZero(r) else 0.0 by {
        if r.listingName == name {
          assert extra[..0] == [];
        }
      }
    }
  }

  lemma {:induction false} ListingAbsent(reviews: seq<Review>, name: string)
    requires forall i :: 0 <= i < |reviews| ==> reviews[i].listingName != name
    ensures ListingCount(reviews, name) == 0 && ListingRating(reviews, name) == 0.0
  {
    if |reviews| > 0 {
      ListingAbsent(reviews[..|reviews| - 1], name);
    }
  }

  lemma {:induction false} ListingPresent(reviews: seq<Review>, i: nat)
    requires i < |reviews|
    ensures ListingCount(reviews, reviews[i].listingName) >= 1
  {
    if i < |reviews| - 1 {
      ListingPresent(reviews[..|reviews| - 1], i);
    }
  }

  /** A name no review has so far starts from an empty group. */
  lemma GroupForAbsent(reviews: seq<Review>, name: string)
    requires name !in ListingOrder(reviews)
    ensures GroupFor(reviews, name) == PropertyGroup(0, 0.0, name, AddressFor(name))
  {
    ListingOrderFacts(reviews);
    ListingAbsent(reviews, name);
  }

  /** One forEach step on the key order: a new name is appended. */
  lemma ListingOrderStep(pre: seq<Review>, r: Review)
    ensures ListingOrder(pre + [r]) ==
      if r.listingName in ListingOrder(pre) then ListingOrder(pre) else ListingOrder(pre) + [r.listingName]
  {
    assert (pre + [r])[..|pre|] == pre;
  }

  /** One forEach step on the groups: only the review's own group grows, by one review and its rating. */
  lemma GroupStep(pre: seq<Review>, r: Review, name: string)
    ensures GroupFor(pre + [r], name) ==
      if name == r.listingName then
        GroupFor(pre, name).(totalReviews := GroupFor(pre, name).totalReviews + 1,
                             totalRating := GroupFor(pre, name).totalRating + RatingOrZero(r))
      else GroupFor(pre, name)
  {
    assert (pre + [r])[..|pre|] == pre;
  }

  /** The Map update of one review keeps every entry equal to its group over the reviews seen so far. */
  lemma UpdateKeepsGroups(seen: seq<Review>, r: Review, stats: map<string, PropertyGroup>, updated: map<string, PropertyGroup>)
    requires r.listingName in stats
    requires forall name :: name in stats ==> stats[name] == GroupFor(seen, name)
    requires updated == stats[r.listingName := stats[r.listingName].(
      totalReviews := stats[r.listingName].totalReviews + 1,
      totalRating := stats[r.listingName].totalRating + RatingOrZero(r))]
    ensures forall name :: name in updated ==> updated[name] == GroupFor(seen + [r], name)
  {
    forall name | name in stats {
      GroupStep(seen, r, name);
    }
  }

  /** Reading the Map's entries in key order gives the groups. */
  lemma EntriesAreGroups(reviews: seq<Review>, order: seq<string>, stats: map<string, PropertyGroup>, entries: seq<PropertyGroup>)
    requires order == ListingOrder(reviews)
    requires forall name :: name in stats <==> name in order
    requires forall name :: name in stats ==> stats[name] == GroupFor(reviews, name)
    requires |entries| == |order| && forall k :: 0 <= k < |order| ==> entries[k] == stats[order[k]]
    ensures entries == Grouped(reviews)
  {
    forall k | 0 <= k < |order| ensures entries[k] == Grouped(reviews)[k] {
      assert order[k] in stats;
    }
  }

  /** Inserting an empty entry for a name not seen so far keeps every entry equal to its group. */
  lemma InsertKeepsGroups(seen: seq<Review>, name: string, stats: map<string, PropertyGroup>,
                          inserted: map<string, PropertyGroup>)
    requires name !in ListingOrder(seen)
    requires forall n :: n in stats ==> stats[n] == GroupFor(seen, n)
    requires inserted == stats[name := PropertyGroup(0, 0.0, name, AddressFor(name))]
    ensures forall n :: n in inserted ==> inserted[n] == GroupFor(seen, n)
  {
    GroupForAbsent(seen, name);
  }

  /** The Map and its key order hold exactly the groups of the reviews seen so far. */
  ghost predicate Tracks(seen: seq<Review>, order: seq<string>, stats: map<string, PropertyGroup>) {
    && order == ListingOrder(seen)
    && (forall name :: name in stats <==> name in order)
    && (forall name :: name in stats ==> stats[name] == GroupFor(seen, name))
  }

  /** The forEach callback: insert an empty entry for a new name, then count the review and add its rating. */
  method AddReview(ghost seen: seq<Review>, order: seq<string>, stats: map<string, PropertyGroup>, review: Review)
    returns (order': seq<string>, stats': map<string, PropertyGroup>)
    requires Tracks(seen, order, stats)
    ensures Tracks(seen + [review], order', stats')
  {
    order', stats' := order, stats;
    var propertyName := review.listingName;
    ListingOrderStep(seen, review);
    if propertyName !in stats' {
      stats' := stats'[propertyName := PropertyGroup(0, 0.0, propertyName, AddressFor(propertyName))];
      order' := order' + [propertyName];
      InsertKeepsGroups(seen, propertyName, stats, stats');
    }
    assert order' == ListingOrder(seen + [review]);
    assert forall name :: name in stats' <==> name in order';
    var entry := stats'[propertyName];
    ghost var before := stats';
    stats' := stats'[propertyName :=
      entry.(totalReviews := entry.totalReviews + 1, totalRating := entry.totalRating + RatingOrZero(review))];
    UpdateKeepsGroups(seen, review, before, stats');
  }

  /** The forEach over all reviews, then `Array.from(propertyStats.entries())`. */
  method GroupByListing(allReviews: seq<Review>) returns (groups: seq<PropertyGroup>)
    ensures groups == Grouped(allReviews)
  {
    var order: seq<string> := [];
    var propertyStats: map<string, PropertyGroup> := map[];
    var i := 0;
    while i < |allReviews|
      invariant 0 <= i <= |allReviews|
      invariant Tracks(allReviews[..i], order, propertyStats)
    {
      order, propertyStats := AddReview(allReviews[..i], order, propertyStats, allReviews[i]);
      Seqs.PrefixSnoc(allReviews, i);
      i := i + 1;
    }
    assert allReviews[..i] == allReviews;
    groups := seq(|order|, k requires 0 <= k < |order| => propertyStats[order[k]]);
    EntriesAreGroups(allReviews, order, propertyStats, groups);
  }

  /** Every group holds at least one review: the `totalReviews > 0 ? ... : 0` fallback is never taken. */
  lemma GroupsNonEmpty(reviews: seq<Review>)
    ensures forall k :: 0 <= k < |Grouped(reviews)| ==> Grouped(reviews)[k].totalReviews >= 1
  {
    var names := ListingOrder(reviews);
    forall k | 0 <= k < |names| ensures Grouped(reviews)[k].totalReviews >= 1 {
      FirstWithListed(reviews, names[k]);
      ListingPresent(reviews, FirstWith(reviews, names[k]));
    }
  }

  function SumTotals(groups: seq<PropertyGroup>): nat {
    if |groups| == 0 then 0 else SumTotals(groups[..|groups| - 1]) + groups[|groups| - 1].totalReviews
  }

  lemma {:induction false} SumTotalsAppend(init: seq<Review>, r: Review, names: seq<string>)
    requires forall a, b :: 0 <= a < b < |names| ==> names[a] != names[b]
    ensures SumTotals(Groups(init + [r], names)) ==
      SumTotals(Groups(init, names)) + (if r.listingName in names then 1 else 0)
  {
    if |names| > 0 {
      var front := names[..|names| - 1];
      var last := names[|names| - 1];
      SumTotalsAppend(init, r, front);
      assert Groups(init + [r], names)[..|front|] == Groups(init + [r], front);
      assert Groups(init, names)[..|front|] == Groups(init, front);
      assert (init + [r])[..|init|] == init;
      assert r.listingName in names <==> r.listingName in front || r.listingName == last;
    }
  }

  /** A review with a new name opens a group holding just itself. */
  lemma NewGroupTotal(init: seq<Review>, r: Review)
    requires r.listingName !in ListingOrder(init)
    ensures var names := ListingOrder(init);
      SumTotals(Groups(init + [r], names + [r.listingName])) == SumTotals(Groups(init + [r], names)) + 1
  {
    var name := r.listingName;
    var reviews := init + [r];
    var gs := Groups(reviews, ListingOrder(init));
    assert Groups(reviews, ListingOrder(init) + [name]) == gs + [GroupFor(reviews, name)];
    assert (gs + [GroupFor(reviews, name)])[..|gs|] == gs;
    GroupForAbsent(init, name);
    assert reviews[..|init|] == init;
  }

  /** The groups' review counts add up to the number of reviews: every review lands in exactly one group. */
  lemma {:induction false} GroupedTotalsSum(reviews: seq<Review>)
    ensures SumTotals(Grouped(reviews)) == |reviews|
  {
    if |reviews| > 0 {
      var init := reviews[..|reviews| - 1];
      var r := reviews[|reviews| - 1];
      assert reviews == init + [r];
      GroupedTotalsSum(init);
      ListingOrderFacts(init);
      var names := ListingOrder(init);
      SumTotalsAppend(init, r, names);
      ListingOrderStep(init, r);
      if r.listingName !in names {
        NewGroupTotal(init, r);
      }
    }
  }

  /** Each group counts and sums exactly the reviews carrying its name. */
  lemma GroupContents(reviews: seq<Review>)
    ensures var names := ListingOrder(reviews);
      forall k :: 0 <= k < |names| ==>
        && Grouped(reviews)[k].name == names[k]
        && Grouped(reviews)[k].totalReviews == |MockData.ByProperty(reviews, names[k])|
        && Grouped(reviews)[k].totalRating == RatingTotal(MockData.ByProperty(reviews, names[k]))
        && Grouped(reviews)[k].address == AddressFor(names[k])
  {
    var names := ListingOrder(reviews);
    forall k | 0 <= k < |names| {
      ListingCountIsFilter(reviews, names[k]);
    }
  }

  // The property list

  datatype Property = Property(id: string, name: string, address: string, averageRating: real, totalReviews: nat)

  /** `prop_${index + 1}`. */
  function PropertyId(index: nat): string {
    "prop_" + Numeric.NatToString(index + 1)
  }

  lemma PropertyIdsDistinct(a: nat, b: nat)
    requires a != b
    ensures PropertyId(a) != PropertyId(b)
  {
    var sa, sb := Numeric.NatToString(a + 1), Numeric.NatToString(b + 1);
    assert PropertyId(a)[5..] == sa && PropertyId(b)[5..] == sb;
    if sa == sb {
      Numeric.NatToStringInjective(a + 1, b + 1);
    }
  }

  /** The final `.map` over the entries: id by position, average as `Number(avg.toFixed(1))`. */
  function ToProperties(groups: seq<PropertyGroup>): (ps: seq<Property>)
    ensures |ps| == |groups|
    ensures forall k :: 0 <= k < |ps| ==>
      && ps[k].id == PropertyId(k)
      && ps[k].name == groups[k].name
      && ps[k].address == groups[k].address
      && ps[k].totalReviews == groups[k].totalReviews
  {
    seq(|groups|, k requires 0 <= k < |groups| =>
      Property(
        PropertyId(k),
        groups[k].name,
        groups[k].address,
        if groups[k].totalReviews > 0 then Numeric.ToFixed1(groups[k].totalRating / groups[k].totalReviews as real) else 0.0,
        groups[k].totalReviews))
  }

  /** One property per listing, named in first-appearance order, with distinct ids. */
  lemma PropertiesShape(reviews: seq<Review>)
    ensures var ps := ToProperties(Grouped(reviews));
      && |ps| == |ListingOrder(reviews)|
      && (forall k :: 0 <= k < |ps| ==> ps[k].name == ListingOrder(reviews)[k])
      && (forall a, b :: 0 <= a < b < |ps| ==> ps[a].id != ps[b].id && ps[a].name != ps[b].name)
  {
    var ps := ToProperties(Grouped(reviews));
    forall a, b | 0 <= a < b < |ps| ensures ps[a].id != ps[b].id {
      PropertyIdsDistinct(a, b);
    }
  }

  /**
   * With ratings in [0, 10], each property's average is its listing's mean
   * rounded half-up to one decimal, and stays in [0, 10].
   */
  lemma PropertiesAverage(reviews: seq<Review>)
    requires forall i :: 0 <= i < |reviews| ==> 0.0 <= RatingOrZero(reviews[i]) <= 10.0
    ensures var ps := ToProperties(Grouped(reviews));
      forall k :: 0 <= k < |ps| ==>
        && ps[k].averageRating == Numeric.RoundTo1(MeanRating(MockData.ByProperty(reviews, ps[k].name)))
        && 0.0 <= ps[k].averageRating <= 10.0
  {
    var ps := ToProperties(Grouped(reviews));
    GroupsNonEmpty(reviews);
    forall k | 0 <= k < |ps|
      ensures ps[k].averageRating == Numeric.RoundTo1(MeanRating(MockData.ByProperty(reviews, ps[k].name)))
      ensures 0.0 <= ps[k].averageRating <= 10.0
    {
      PropertyAverageAt(reviews, k);
    }
  }

  lemma PropertyAverageAt(reviews: seq<Review>, k: nat)
    requires forall i :: 0 <= i < |reviews| ==> 0.0 <= RatingOrZero(reviews[i]) <= 10.0
    requires k < |ListingOrder(reviews)|
    requires Grouped(reviews)[k].totalReviews >= 1
    ensures var p := ToProperties(Grouped(reviews))[k];
      && p.averageRating == Numeric.RoundTo1(MeanRating(MockData.ByProperty(reviews, p.name)))
      && 0.0 <= p.averageRating <= 10.0
  {
    var name := ListingOrder(reviews)[k];
    var rs := MockData.ByProperty(reviews, name);
    assert Grouped(reviews)[k] == GroupFor(reviews, name);
    ListingCountIsFilter(reviews, name);
    assert forall j :: 0 <= j < |rs| ==> rs[j] in reviews;
    MeanRatingBounds(rs, 0.0, 10.0);
    Numeric.ToFixed1IsRoundTo1(MeanRating(rs));
    Numeric.RoundTo1Bounds(MeanRating(rs), 0, 10);
  }

  // fetchProperties

  /** What the page ends with: the property list and the error message. */
  datatype PropertiesState = PropertiesState(properties: seq<Property>, error: Option<string>)

  /** Both responses successful: group the concatenated data; a failure leaves the list empty; an exception sets the error. */
  function LoadProperties(outcome: FetchOutcome): PropertiesState {
    match outcome
    case Thrown => PropertiesState([], Some("Failed to load properties"))
    case Fetched(hostaway, google) =>
      if hostaway.Success() && google.Success() then
        PropertiesState(ToProperties(Grouped(hostaway.Data() + google.Data())), None)
      else PropertiesState([], None)
  }

  /**
   * A non-empty list needs both responses to succeed; the error is set only on
   * an exception; on success the list holds one property per listing of the
   * concatenated data, in first-appearance order, and the groups cover every
   * review exactly once.
   */
  lemma LoadPropertiesOutcome(outcome: FetchOutcome)
    ensures var st := LoadProperties(outcome);
      && (st.error.Some? <==> outcome.Thrown?)
      && (st.properties != [] ==> outcome.Fetched? && outcome.hostaway.Success() && outcome.google.Success())
      && (outcome.Fetched? && outcome.hostaway.Success() && outcome.google.Success() ==>
            var all := outcome.hostaway.Data() + outcome.google.Data();
            && st.properties == ToProperties(Grouped(all))
            && |st.properties| == |ListingOrder(all)|
            && (forall k :: 0 <= k < |st.properties| ==>
                  st.properties[k].name == ListingOrder(all)[k] && st.properties[k].totalReviews == Grouped(all)[k].totalReviews)
            && SumTotals(Grouped(all)) == |all|)
  {
    if outcome.Fetched? {
      var all := outcome.hostaway.Data() + outcome.google.Data();
      PropertiesShape(all);
      GroupedTotalsSum(all);
    }
  }
}
