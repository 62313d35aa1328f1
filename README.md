# Review dashboard: normalisation and aggregation, in Dafny

This project models the review pipeline of a property-management review dashboard. A Next.js app collects guest reviews from two sources:

- a booking platform, whose route serves its own fixture list when the platform returns nothing;
- a places service, whose route always serves a fixture list.

Each route normalises its raw records into one `Review` shape. The pages then work on the resulting in-memory lists:

- the dashboard filters them, summarises them, toggles approval in place, and shows per-property cards and category labels;
- the reviews page merges the two responses or falls back to the fixture list;
- the properties page groups reviews by listing name into a `Map` and turns the groups into a property list;
- the fixture module holds the seed list and its helpers, including `calculatePropertyStats`.

The model follows the code's own form:

- The normalisers, filters and page computations are functions on datatypes.
- `handleApprovalToggle` is a method on an `array<Review>` that flips one element in place.
- The nested `forEach` loops of `calculatePropertyStats` are methods with loop invariants.
- The group-by-listing `forEach` of the properties page is a method with a loop invariant.

Each method is proved against a specification function. The properties the pages rely on are lemmas about those functions:

- means and their bounds;
- partitions and order preservation;
- the toggle's "only the first match changes" and its involution;
- one group per listing in first-appearance order, with totals adding up;
- a round trip from `toFixed(1)` text back to the rounded number.

Numbers are exact: ratings are `int`, and means are `real`.

- `Math.round(x * 10) / 10` is `Numeric.RoundTo1`: round to the nearest tenth, halves towards +infinity.
- `x.toFixed(1)` is `Numeric.ToFixed1`: round the magnitude half-up, then restore the sign.

Files (one module each):

- `wrappers.dfy`: Option.
- `seqs.dfy`: the order-preserving `filter`, `slice(0, n)` and their lemmas.
- `numeric.dfy`: rounding, means and decimal strings.
- `reviews.dfy`: the unified record and the response envelope.
- `hostaway.dfy`, `google.dfy`: the two routes.
- `mockdata.dfy`: the fixture helpers and `calculatePropertyStats`.
- `dashboard.dfy`, `reviewspage.dfy`, `properties.dfy`: the three pages.

Four behaviours of the code are easy to misread; the model follows the code in each:

- The booking-platform `overallRating` is the unrounded mean of the category ratings. The normaliser rounds nothing.
- When either response reports failure, the properties page leaves its list empty. It does not fall back to fixtures: that call is commented out.
- A property with zero reviews cannot occur on the properties page. Every group is created by a review, so the `: 0` branch is dead (`Properties.GroupsNonEmpty`).
- On the dashboard, the property choice "all" means every listing. A listing literally named "all" therefore cannot be selected on its own: choosing it shows every listing (`Dashboard.Keep`).

## Model

| member | source | states |
|---|---|---|
| Seqs.Filter | src/lib/mockData.ts:168 | `filter` never lengthens its input |
| Seqs.FilterMembers | src/lib/mockData.ts:168 | every kept element is in the input and satisfies the predicate; every input element satisfying it is kept |
| Seqs.FilterIsSelection | src/lib/mockData.ts:168 | the k-th kept element is the input at the k-th position where the predicate holds |
| Seqs.SelectedExact | src/lib/mockData.ts:168 | those positions are strictly increasing and are exactly the positions where the predicate holds |
| Seqs.FilterConcat | src/lib/mockData.ts:168 | filtering a concatenation is concatenating the filtered parts |
| Seqs.FilterSnoc | src/lib/mockData.ts:168 | one more element at the end is kept exactly when it satisfies the predicate |
| Seqs.FilterAll | src/app/page.tsx:31-50 | a predicate true everywhere keeps the whole list |
| Seqs.FilterPartition | src/lib/mockData.ts:175-181 | filtering by p and by not-p gives lengths summing to the input's, and multisets adding up to the input's |
| Seqs.Take | src/app/reviews/page.tsx:171 | `slice(0, n)` has length min(n, length) and is a prefix of the input |
| Numeric.RoundTo1 | src/lib/mockData.ts:216 | `Math.round(10x)/10` is a whole number of tenths within a twentieth of x (above x - 1/20, at most x + 1/20), which pins it to the nearest tenth with halves rounded up |
| Numeric.RoundTo1Bounds | src/lib/mockData.ts:216 | rounding keeps a value inside integer bounds, e.g. [0, 10] |
| Numeric.MathRound | src/lib/mockData.ts:216 | `Math.round`: the integer within a half of its argument, the upper one on a tie |
| Numeric.Tenths | src/app/properties/page.tsx:61 | the tenths count `toFixed(1)` picks is the nearest one, the larger on a tie |
| Numeric.ToFixed1 | src/app/properties/page.tsx:61 | `Number(x.toFixed(1))` lies within a twentieth of x and keeps the sign of non-negative x; `ToFixed1IsRoundTo1` and `NegativeTieDiffers` compare it with `Math.round` |
| Numeric.ToFixed1IsRoundTo1 | src/app/properties/page.tsx:61 | in exact arithmetic, for non-negative values `Number(x.toFixed(1))` equals `Math.round(10x)/10` |
| Numeric.NegativeTieDiffers | src/app/properties/page.tsx:61 | even in exact arithmetic, on a negative tie (-0.25) the two roundings differ: -0.2 versus -0.3 |
| Numeric.MeanBetween | src/lib/mockData.ts:211 | a total between n·lo and n·hi has its mean between lo and hi |
| Numeric.TimesIsProduct | src/lib/mockData.ts:211 | repeated addition of a value n times is its product with n |
| Numeric.NatToString | src/app/properties/page.tsx:57 | the decimal rendering of a count is a non-empty string of digits |
| Numeric.NatToStringRoundTrip | src/app/properties/page.tsx:57 | reading a rendered number back gives the number |
| Numeric.NatToStringInjective | src/app/properties/page.tsx:57 | different counts render to different strings |
| Numeric.IntToString | src/app/api/reviews/google/route.ts:60 | `${time}` is a non-empty string |
| Numeric.IntToStringSign | src/app/api/reviews/google/route.ts:60 | the rendering starts with '-' exactly for negative integers |
| Numeric.IntToStringInjective | src/app/api/reviews/google/route.ts:60 | different integers render to different strings |
| Numeric.ToFixed1String | src/app/reviews/page.tsx:153 | the digits of `x.toFixed(1)`: whole part, a point, one decimal; `ParseToFixed1` reads it back as `ToFixed1(x)` |
| Numeric.ParseTenths | src/app/properties/page.tsx:61 | `Number(s)` on a `<digits>.<digit>` string; `ParseToFixed1` states the round trip with `ToFixed1String` |
| Numeric.ParseToFixed1 | src/app/properties/page.tsx:61 | `Number(x.toFixed(1))` reads back the rounded value for x ≥ 0 |
| Reviews.RatingOrZero | src/lib/mockData.ts:196 | the rating, or 0 when it is null |
| Reviews.RatingTotal | src/lib/mockData.ts:195-196 | the left-to-right null-as-zero rating sum; `RatingTotalConcat` and `RatingTotalBounds` state its properties |
| Reviews.MeanRating | src/app/page.tsx:57-61 | the null-as-zero mean, 0 for an empty list; `MeanRatingBounds` keeps it within the ratings' bounds |
| Reviews.RatingTotalConcat | src/lib/mockData.ts:195-196 | the null-as-zero rating sum of a concatenation is the sum of the parts' sums |
| Reviews.RatingTotalBounds | src/lib/mockData.ts:195-196 | ratings (null as 0) in [lo, hi] sum to between n·lo and n·hi |
| Reviews.MeanRatingBounds | src/app/page.tsx:57-61 | the mean of ratings (null as 0) in [lo, hi] lies in [lo, hi] |
| Hostaway.NormalizeReview | src/app/api/reviews/hostaway/route.ts:139-165 | `normalizeReview`; its contract is stated by `OverallRatingIsMean`, `CategoryMap`, `CategoryMapLastWins`, `NormalizeCopiesFields` and `NormalizeIgnoresRating` |
| Hostaway.RatingSum | src/app/api/reviews/hostaway/route.ts:147-148 | the second `reduce`: all entries' ratings summed, duplicates included; bounded by `RatingSumBetween` |
| Hostaway.AverageRating | src/app/api/reviews/hostaway/route.ts:146-150 | the mean over all entries, null when there are none; `OverallRatingIsMean`, `OverallRatingBounds` and `OverallRatingBetweenEntries` state it |
| Hostaway.CategoryMap | src/app/api/reviews/hostaway/route.ts:141-144 | the category map's keys are exactly the entries' category names, with no zero-fill |
| Hostaway.CategoryMapLastWins | src/app/api/reviews/hostaway/route.ts:141-144 | on duplicate names, the last entry's rating is the one kept |
| Hostaway.DuplicateCategoryExample | src/app/api/reviews/hostaway/route.ts:141-150 | entries value 4 and value 8 give the map {value: 8} but the mean 6 |
| Hostaway.OverallRatingIsMean | src/app/api/reviews/hostaway/route.ts:146-150 | `overallRating` is present iff there is an entry, and then times the entry count equals the ratings' sum |
| Hostaway.RatingSumBetween | src/app/api/reviews/hostaway/route.ts:147-148 | entry ratings in [lo, hi] sum to between count·lo and count·hi |
| Hostaway.OverallRatingBounds | src/app/api/reviews/hostaway/route.ts:146-150 | entry ratings in [lo, hi], e.g. [0, 10], give an overall rating in [lo, hi] |
| Hostaway.MinRating | src/app/api/reviews/hostaway/route.ts:146-149 | the lowest entry rating: at most every rating, and equal to one of them |
| Hostaway.MaxRating | src/app/api/reviews/hostaway/route.ts:146-149 | the highest entry rating: at least every rating, and equal to one of them |
| Hostaway.OverallRatingBetweenEntries | src/app/api/reviews/hostaway/route.ts:146-149 | the overall rating lies between the lowest and the highest entry rating |
| Hostaway.NormalizeIgnoresRating | src/app/api/reviews/hostaway/route.ts:139-165 | the raw record's own `rating` field never affects the normalised record |
| Hostaway.NormalizeCopiesFields | src/app/api/reviews/hostaway/route.ts:152-164 | id, type, status, timestamp, guest and listing names are copied; `publicReview` becomes the text; channel "hostaway"; not approved |
| Hostaway.ReviewsToProcess | src/app/api/reviews/hostaway/route.ts:194-195 | the fetched list when non-empty, else the route's fixtures; `Get` states the choice through `source` |
| Hostaway.Get | src/app/api/reviews/hostaway/route.ts:194-205 | fetched list if non-empty else fixtures; data is the element-wise normalisation; total is its length; source "hostaway" iff the fetched list is non-empty, else "mock" |
| Hostaway.FixtureOverallRatings | src/app/api/reviews/hostaway/route.ts:46-150 | with the platform silent, the five fixtures normalise to 9.2, 9.0, 8.0, 9.8 and 8.2 |
| Hostaway.OverallOfFive | src/app/api/reviews/hostaway/route.ts:146-149 | five entries give a fifth of their summed ratings |
| Hostaway.RatingSumOfFive | src/app/api/reviews/hostaway/route.ts:147-148 | the left-to-right sum of five entries is their plain sum |
| Google.SyntheticId | src/app/api/reviews/google/route.ts:60 | `google_${placeId}_${time}`; `DistinctTimesDistinctIds` shows distinct times give distinct ids |
| Google.NormalizeGoogleReview | src/app/api/reviews/google/route.ts:54-77 | `normalizeGoogleReview`; its contract is stated by `StarsDoubled`, `NormalizeFixedFields` and `DistinctTimesDistinctIds` |
| Google.StarsDoubled | src/app/api/reviews/google/route.ts:63 | any star rating is doubled onto the ten-point scale; 1–5 stars land in 2–10, and 5 becomes 10 |
| Google.NormalizeFixedFields | src/app/api/reviews/google/route.ts:59-76 | empty categories, channel "google", type "guest-review", status "published", not approved; author, text, place name and metadata copied |
| Google.DistinctTimesDistinctIds | src/app/api/reviews/google/route.ts:60 | two reviews of one place with different times get different synthetic ids |
| Google.PlaceName | src/app/api/reviews/google/route.ts:96-99 | the Shoreditch listing iff the place is "demo_place_1", "Unknown Property" otherwise |
| Google.Get | src/app/api/reviews/google/route.ts:83-110 | a missing or empty `placeId` fails with 400 and no data; otherwise success with the element-wise normalisation, total equal to its length |
| Google.GetRecords | src/app/api/reviews/google/route.ts:96-103 | every record returned is under the place's listing name on channel "google" |
| Google.GetRecordsDistinctIds | src/app/api/reviews/google/route.ts:96-103 | reviews with pairwise distinct times get pairwise distinct ids |
| Google.DemoPlaceFixtures | src/app/api/reviews/google/route.ts:35-52 | for "demo_place_1" the two fixtures become Shoreditch reviews rated 10 and 8 |
| MockData.ByProperty | src/lib/mockData.ts:167-169 | exactly the reviews of the listing: each result is an input review of it, and each input review of it is in the result |
| MockData.ByChannel | src/lib/mockData.ts:171-173 | exactly the reviews of the channel, in the same two directions |
| MockData.Approved | src/lib/mockData.ts:175-177 | exactly the approved reviews |
| MockData.Pending | src/lib/mockData.ts:179-181 | exactly the unapproved reviews |
| MockData.ByPropertyInOrder | src/lib/mockData.ts:167-169 | the listing filter keeps the matching positions in their original order |
| MockData.ByChannelInOrder | src/lib/mockData.ts:171-173 | the channel filter keeps the matching positions in their original order |
| MockData.ApprovedPendingPartition | src/lib/mockData.ts:175-181 | approved and pending are disjoint, their lengths add up to the total, and together they are the list |
| MockData.CategorySum | src/lib/mockData.ts:201-208 | the sum of a category's non-zero ratings over the list; `SumCategories` computes it and `CategorySumBounds` bounds it |
| MockData.CategoryCount | src/lib/mockData.ts:201-208 | the number of reviews rating a category non-zero, its own denominator; `CategoryCountPositive` links it to the keys |
| MockData.CategoryAverages | src/lib/mockData.ts:201-212 | per category, sum over own count; `CategoryAveragesKeys`, `CategoryAverageBounds` and `PerCategoryDenominatorExample` state it |
| MockData.ExpectedStats | src/lib/mockData.ts:183-219 | the specification `CalculatePropertyStats` is proved equal to; `StatsCount`, `StatsAverageInRange` and the fixture lemmas state its values |
| MockData.CategoryCountPositive | src/lib/mockData.ts:201-208 | a category has a positive count exactly when some review rates it non-zero |
| MockData.CategoryAveragesKeys | src/lib/mockData.ts:201-212 | the averages' keys are exactly the categories with a non-zero rating |
| MockData.AddCategories | src/lib/mockData.ts:202-207 | one review adds each non-zero rating to its category's sum and one to its count; zero ratings are skipped |
| MockData.SumCategories | src/lib/mockData.ts:201-208 | after the loop, each category's sum and count are those of its non-zero ratings over the listing |
| MockData.DivideByCounts | src/lib/mockData.ts:210-212 | each sum is replaced by sum / count of its own category |
| MockData.CalculatePropertyStats | src/lib/mockData.ts:183-219 | the result is the specification: count; rounded mean with null as 0; per-category averages over per-category counts; zeros and {} when the listing has no reviews |
| MockData.CategoryNotYetSeen | src/lib/mockData.ts:201-208 | a category absent from the keys so far has sum and count 0 |
| MockData.StepCategories | src/lib/mockData.ts:201-208 | one more review adds its own contributions to every category's sum and count |
| MockData.StatsCount | src/lib/mockData.ts:184-193 | `totalReviews` is the listing's review count; with no such review the result is 0, 0 and {} |
| MockData.StatsAverageInRange | src/lib/mockData.ts:195-216 | ratings in [0, 10] give a rounded average in [0, 10] |
| MockData.CategorySumBounds | src/lib/mockData.ts:203-205 | contributing ratings in [lo, hi] sum to between count·lo and count·hi |
| MockData.CategoryAverageBounds | src/lib/mockData.ts:201-212 | each category average lies within bounds its contributing ratings respect |
| MockData.PerCategoryDenominatorExample | src/lib/mockData.ts:201-212 | a category rated 9 and 7 on two of three reviews averages 8: the denominator is its own count |
| MockData.FixtureFacts | src/lib/mockData.ts:4-137 | the seven fixtures' listing names and ratings |
| MockData.ShoreditchOfSeven | src/lib/mockData.ts:167-169 | over the fixture layout the Shoreditch filter picks positions 0, 3 and 5 |
| MockData.CamdenOfSeven | src/lib/mockData.ts:167-169 | over the fixture layout the Camden Lock filter picks positions 1 and 4 |
| MockData.ShoreditchFixtureReviews | src/lib/mockData.ts:167-169 | on the fixtures, Shoreditch's reviews are fixtures 0, 3 and 5 |
| MockData.CamdenFixtureReviews | src/lib/mockData.ts:167-169 | on the fixtures, Camden Lock's reviews are fixtures 1 and 4 |
| MockData.FixtureStatsShoreditch | src/lib/mockData.ts:183-219 | Shoreditch has 3 reviews averaging 9.5 |
| MockData.FixtureStatsCamden | src/lib/mockData.ts:183-219 | Camden Lock has 2 reviews averaging 8.6 |
| Dashboard.Keep | src/app/page.tsx:32-49 | the filter callback: the property check, then the approval checks; `FilterShowsExactly` states both directions |
| Dashboard.FilteredReviews | src/app/page.tsx:31-50 | `filteredReviews`; stated by `FilterAllKeepsEverything`, `FilterShowsExactly` and `FilterKeepsOrder` |
| Dashboard.FilterAllKeepsEverything | src/app/page.tsx:31-50 | property "all" with approval "all" shows every review, in order |
| Dashboard.FilterShowsExactly | src/app/page.tsx:31-50 | a review is shown iff it is of the selected property (any for "all"), approved for "approved", unapproved for "pending" |
| Dashboard.FilterKeepsOrder | src/app/page.tsx:31-50 | shown reviews keep their relative order |
| Dashboard.ComputeStats | src/app/page.tsx:53-69 | `dashboardStats`; stated by `StatsPartition`, `StatsAverage` and `StatsAverageBounds` |
| Dashboard.StatsPartition | src/app/page.tsx:53-56 | approved + pending = total, and the computed pending count is the number of unapproved reviews |
| Dashboard.StatsAverage | src/app/page.tsx:57-67 | average 0 on an empty list, else the rounded mean with null as 0 |
| Dashboard.StatsAverageBounds | src/app/page.tsx:57-67 | for ratings in [0, 10] the average is in [0, 10] |
| Dashboard.Toggled | src/app/page.tsx:71-75 | the list after a toggle; `ToggleApproval` is proved to produce it, and `ToggleChangesOnlyFirstMatch`, `ToggleAbsentId` and `ToggleInvolution` state it |
| Dashboard.FirstIndexOf | src/app/page.tsx:73 | `findIndex`: the first position with the id, or -1 when no review has it |
| Dashboard.FindIndex | src/app/page.tsx:73 | the loop returns the first position with the id, or -1 |
| Dashboard.ToggleApproval | src/app/page.tsx:71-79 | the array afterwards is the toggled list: the first match's approval flipped, or unchanged with no match |
| Dashboard.ToggleChangesOnlyFirstMatch | src/app/page.tsx:71-75 | same length; only `isApproved` can change; only at the first review with the id, where it is negated |
| Dashboard.ToggleAbsentId | src/app/page.tsx:73-74 | an id no review has leaves the list unchanged |
| Dashboard.ToggleInvolution | src/app/page.tsx:71-75 | toggling the same id twice restores the list |
| Dashboard.CardFor | src/app/page.tsx:232-275 | one property card; `CardCounts` states its counts and average |
| Dashboard.CardCounts | src/app/page.tsx:232-275 | a card's approved + pending equals its listing's review count; its average is the unrounded mean (0 when none) |
| Dashboard.ReplaceFirst | src/app/page.tsx:350 | same length; the first occurrence of the character is replaced; every other position is kept |
| Dashboard.CategoryLabel | src/app/page.tsx:350 | `category.replace("_", " ")`, the same on the reviews page; `ReplaceFirst` and `CategoryLabelExample` state it |
| Dashboard.ReplaceFirstSplit | src/app/page.tsx:350 | text before the first occurrence is kept, the occurrence replaced, the rest (later occurrences included) kept |
| Dashboard.CategoryLabelExample | src/app/page.tsx:350 | "respect_house_rules" is labelled "respect house_rules" |
| Properties.AddressFor | src/app/properties/page.tsx:82-89 | the table's address for a name, "London, UK" when missing or empty; `AddressLookup` states all its cases |
| Properties.AddressLookup | src/app/properties/page.tsx:82-89 | the three known listings get their own addresses; every other name gets "London, UK" |
| Properties.ListingOrder | src/app/properties/page.tsx:37-49 | the Map's key order; `ListingOrderFacts`, `FirstWithListed` and `ListingOrderFirstAppearance` state it |
| Properties.ListingOrderFacts | src/app/properties/page.tsx:37-49 | the Map's keys are distinct and include every review's listing name |
| Properties.FirstWith | src/app/properties/page.tsx:39-47 | the first position carrying a listing name, or -1 |
| Properties.FirstWithAppend | src/app/properties/page.tsx:39-47 | appending a review moves no name's first position, and a new name's is the new one |
| Properties.FirstWithListed | src/app/properties/page.tsx:39-48 | a name is a Map key iff some review carries it |
| Properties.OrderTransfers | src/app/properties/page.tsx:39-48 | first-appearance order survives when no listed name's first position changes |
| Properties.OrderExtends | src/app/properties/page.tsx:39-48 | a name first seen after all listed names may be appended keeping the order |
| Properties.ListingOrderFirstAppearance | src/app/properties/page.tsx:37-56 | the Map's keys come in the order of each listing's first review |
| Properties.ByPropertyAppend | src/app/properties/page.tsx:39-53 | one more review adds itself to its own listing's reviews only |
| Properties.GroupFor | src/app/properties/page.tsx:50-52 | one listing's Map entry; `GroupContents` and `GroupsNonEmpty` state its fields |
| Properties.Grouped | src/app/properties/page.tsx:37-56 | the Map's entries in key order; `GroupByListing` is proved to produce it, and `GroupedTotalsSum` and `GroupContents` state it |
| Properties.ListingCountIsFilter | src/app/properties/page.tsx:50-52 | a group's count is its listing's review count; its rating is their null-as-zero sum |
| Properties.ListingAbsent | src/app/properties/page.tsx:50-52 | a name no review carries has count 0 and rating 0 |
| Properties.ListingPresent | src/app/properties/page.tsx:50-51 | a review's own listing has count at least 1 |
| Properties.GroupForAbsent | src/app/properties/page.tsx:41-47 | a name not yet seen starts from the empty entry that the code inserts |
| Properties.ListingOrderStep | src/app/properties/page.tsx:39-48 | one forEach step appends the name iff it is new |
| Properties.GroupStep | src/app/properties/page.tsx:50-52 | one forEach step grows only the review's own group: count by 1, rating by its rating |
| Properties.UpdateKeepsGroups | src/app/properties/page.tsx:50-52 | the increment keeps every Map entry equal to its group over the reviews seen |
| Properties.InsertKeepsGroups | src/app/properties/page.tsx:41-47 | inserting the empty entry for a new name keeps every entry equal to its group |
| Properties.EntriesAreGroups | src/app/properties/page.tsx:56 | reading the Map's entries in key order gives the groups |
| Properties.AddReview | src/app/properties/page.tsx:39-53 | the callback keeps the Map and its key order equal to the groups of the reviews seen so far |
| Properties.GroupByListing | src/app/properties/page.tsx:37-56 | the loop's entries are the groups: one per listing, in first-appearance order, with count and rating sum |
| Properties.GroupsNonEmpty | src/app/properties/page.tsx:41-61 | every group has at least one review |
| Properties.SumTotalsAppend | src/app/properties/page.tsx:50-51 | one more review adds 1 to the groups' total iff its name is listed |
| Properties.NewGroupTotal | src/app/properties/page.tsx:41-51 | a review with a new name opens a group of one |
| Properties.GroupedTotalsSum | src/app/properties/page.tsx:37-53 | the groups' counts add up to the number of reviews |
| Properties.GroupContents | src/app/properties/page.tsx:37-53 | each group has its name and address, and the count and null-as-zero rating sum of exactly its listing's reviews |
| Properties.PropertyId | src/app/properties/page.tsx:57 | `prop_${index + 1}`; `PropertyIdsDistinct` shows positions get distinct ids |
| Properties.PropertyIdsDistinct | src/app/properties/page.tsx:57 | positional ids `prop_${index + 1}` differ for different positions |
| Properties.ToProperties | src/app/properties/page.tsx:56-62 | one property per group, at position k: id `prop_${k + 1}`, and the group's name, address and review count |
| Properties.PropertiesShape | src/app/properties/page.tsx:56-62 | one property per listing, in first-appearance order, with distinct ids and names |
| Properties.PropertiesAverage | src/app/properties/page.tsx:61 | each property's average is its listing's mean rounded half-up to one decimal, in [0, 10] for ratings in [0, 10] |
| Properties.PropertyAverageAt | src/app/properties/page.tsx:61 | the same for one position |
| Properties.LoadProperties | src/app/properties/page.tsx:33-73 | what `fetchProperties` leaves in state; `LoadPropertiesOutcome` states every outcome |
| Properties.LoadPropertiesOutcome | src/app/properties/page.tsx:33-73 | the list is non-empty only when both responses succeed; the error is set iff the fetch threw; on success the list is the properties of the concatenated data's groups, one per listing in first-appearance order, and their review counts add up to the number of reviews |
| ReviewsPage.LoadReviews | src/app/reviews/page.tsx:39-50 | what `fetchReviews` leaves in state; `LoadReviewsOutcome` and `LoadFromRoutes` state it |
| ReviewsPage.LoadReviewsOutcome | src/app/reviews/page.tsx:39-50 | both successful: platform data then places data, each in order; otherwise the fixtures; error iff the fetch threw |
| ReviewsPage.LoadFromRoutes | src/app/reviews/page.tsx:31-41 | with both routes as called, every review is present, platform ones first, places ones at Shoreditch, none approved |
| ReviewsPage.PendingApprovedSplit | src/app/reviews/page.tsx:59-60 | pending and approved are disjoint, their lengths sum to the total, and together they are the list |
| ReviewsPage.PendingShown | src/app/reviews/page.tsx:171 | `pendingReviews.slice(0, 5)`; `PendingShownFirstFive` states it |
| ReviewsPage.PendingShownFirstFive | src/app/reviews/page.tsx:171 | the pending section shows min(5, pending) reviews: the first pending ones, in order, all unapproved |
| ReviewsPage.AverageDisplay | src/app/reviews/page.tsx:153 | the average card's text; `AverageDisplayReadsBack` states what it reads back as |
| ReviewsPage.AverageDisplayReadsBack | src/app/reviews/page.tsx:153 | the displayed text reads back as the mean (null as 0) rounded to one decimal; "0.0" for no reviews; in [0, 10] |

## Left out

- HTTP and I/O are not modelled: the platform call, `fetch`, `Promise.all`, `NextResponse` and console logging. A route's upstream result and a page's pair of responses are parameters (`Option<seq<HostawayReview>>`, `FetchOutcome`).
- The routes' 500 paths are not modelled. Only exceptions reach them, and the model's total functions raise none.
- React state, effects, memoisation, loading and error views, the JSX layout and `renderStars` are presentation only.
- Date handling is left out: `new Date(ms).toISOString()` is the parameter `isoOfMillis`, `toLocaleDateString` is absent, and `meta.timestamp` fields are dropped. Timestamps are opaque strings.
- The places route's `meta.limitations` array (four constant strings, src/app/api/reviews/google/route.ts:112-117) is dropped. Nothing reads it.
- IEEE-754 doubles are not modelled. Means are exact rationals.
- Numeric.ToFixed1IsRoundTo1: holds in exact arithmetic only. On doubles, `toFixed(1)` rounds the stored binary value, while `Math.round(x * 10)` first rounds the product. A mean stored just below a decimal tie can therefore come out one tenth apart. Ratings 8.2 and 8.5 give a mean stored as 8.3499…: the properties and reviews pages show 8.3, the dashboard and `calculatePropertyStats` 8.4. The model gives 8.4 everywhere.
- Numeric.ToFixed1String: does not model `toFixed`'s exponent form, which applies to magnitudes of 10^21 and above. Ratings never reach it.
- Properties.AddressFor: does not model lookups of inherited object keys such as "constructor". An own-property table is assumed.
- Hostaway.CategoryMap: same assumption for the plain object the first `reduce` writes into. A category named "__proto__" is stored as a key here, where JavaScript stores none.
- MockData.AddCategories: same assumption for the `categories` object. Its key order does not affect sums or counts, so the loop takes keys in any order.
- Dashboard.ToggleApproval: does not model aliasing. The source flips a shared record object, which `mockProperties.recentReviews` also references. The model flips an array element that is a value.
- The analytics page and the navigation component are left out. They hold constants and menu state, with no computation over reviews.
- The hard-coded `mockProperties` figures are not modelled. Nor is any agreement between the fixture module's places records and what the places normaliser produces: they disagree on ids, categories and ratings.
- Google.Get: takes the list of places reviews as a parameter. The route always passes its fixture constant, which is `Google.MockReviews`.
