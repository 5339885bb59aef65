/** The derived figures of `Dashboard.tsx`: the positive rating, the
    reputation level, the reviews still needed for verified status, the list
    counts, and the layout of the recent-review list. */
module DashboardScreen {
  import opened Js
  import opened Scoring
  import opened MockData

  /** The "Positive Rating": 0 without reviews, else the rounded percentage.
      It is the platform's trust score of the same counts. */
  function PositiveRating(d: DeveloperProfile): (r: nat)
    ensures r == CalculateTrustScore(d.positiveReviews, d.totalReviews)
  {
    if d.totalReviews > 0 then RoundedPercent(d.positiveReviews, d.totalReviews) else 0
  }

  /** On a consistent profile the rating repeats the stored score and lies
      in [0, 100]. */
  lemma PositiveRatingIsTrustScore(d: DeveloperProfile)
    requires WellFormed(d)
    ensures PositiveRating(d) == d.trustScore <= 100
  {
  }

  datatype ReputationLevel = Beginner | Intermediate | Advanced | Expert

  /** The score a level starts at. */
  function Threshold(l: ReputationLevel): nat {
    match l
    case Beginner => 0
    case Intermediate => 50
    case Advanced => 75
    case Expert => 90
  }

  function Rank(l: ReputationLevel): nat {
    match l
    case Beginner => 0
    case Intermediate => 1
    case Advanced => 2
    case Expert => 3
  }

  /** The "Reputation Level" of a trust score: the highest level whose
      threshold the score reaches. */
  function Reputation(trustScore: nat): (l: ReputationLevel)
    ensures Threshold(l) <= trustScore
    ensures forall m :: Threshold(m) <= trustScore ==> Rank(m) <= Rank(l)
  {
    if trustScore >= 90 then Expert
    else if trustScore >= 75 then Advanced
    else if trustScore >= 50 then Intermediate
    else Beginner
  }

  /** A higher score never gives a lower level. */
  lemma {:induction false} ReputationMonotone(s1: nat, s2: nat)
    requires s1 <= s2
    ensures Rank(Reputation(s1)) <= Rank(Reputation(s2))
  {
    assert Threshold(Reputation(s1)) <= s2;
  }

  /** `Math.max(0, 10 - totalReviews)`: never negative, 0 exactly from ten
      reviews on, and otherwise the shortfall to ten. */
  function ReviewsNeeded(totalReviews: nat): (n: nat)
    ensures n == 0 <==> totalReviews >= 10
    ensures n > 0 ==> totalReviews + n == 10
    ensures n <= 10
  {
    var shortfall := 10 - totalReviews;
    if 0 >= shortfall then 0 else shortfall
  }

  /** The dashboard's ten-review target is not the profile verdict's
      five-review threshold: from 5 to 9 reviews the verdict is already
      given while reviews are still reported as needed. */
  lemma ReviewsNeededOutlastsVerdictThreshold(d: DeveloperProfile)
    requires 5 <= d.totalReviews < 10
    ensures ReviewsNeeded(d.totalReviews) > 0
    ensures GetTrustVerdict(d.totalReviews, Quotient(d.positiveReviews, d.totalReviews)) != InsufficientData
  {
  }

  /** `list?.length || 0` for the Projects and Skills cards. */
  function ListCount(list: Option<seq<string>>): (n: nat)
    ensures list.None? ==> n == 0
    ensures list.Some? ==> n == |list.value|
  {
    match list
    case None => 0
    case Some(items) => if |items| == 0 then 0 else |items|
  }

  /** What the Recent Reviews card draws, top to bottom. */
  datatype Row = ReviewRow(review: Review) | Separator | NoReviewsYet

  /** The fragments for `recentReviews[i..]`: each review, followed by a rule
      unless it is the last one (`index < length - 1`). */
  function FragmentsFrom(reviews: seq<Review>, i: nat): (rows: seq<Row>)
    requires i <= |reviews|
    ensures |rows| == if i == |reviews| then 0 else 2 * (|reviews| - i) - 1
    ensures i < |reviews| ==> rows[0] == ReviewRow(reviews[i])
    decreases |reviews| - i
  {
    if i == |reviews| then []
    else [ReviewRow(reviews[i])] + (if i < |reviews| - 1 then [Separator] else []) + FragmentsFrom(reviews, i + 1)
  }

  /** The card body: the fragments, starting with the newest review and
      ending with the oldest, or the "No reviews yet" notice alone. */
  function RecentActivity(reviews: seq<Review>): (rows: seq<Row>)
    ensures |reviews| == 0 <==> rows == [NoReviewsYet]
    ensures |reviews| > 0 ==>
      && |rows| == 2 * |reviews| - 1
      && rows[0] == ReviewRow(reviews[0])
      && rows[|rows| - 1] == ReviewRow(reviews[|reviews| - 1])
  {
    if |reviews| > 0 then
      FragmentsShape(reviews, 0);
      FragmentsFrom(reviews, 0)
    else [NoReviewsYet]
  }

  function SeparatorCount(rows: seq<Row>): nat {
    if rows == [] then 0 else (if rows[0] == Separator then 1 else 0) + SeparatorCount(rows[1..])
  }

  /** The reviews among the rows, in order. */
  function ReviewsShown(rows: seq<Row>): seq<Review> {
    if rows == [] then []
    else (if rows[0].ReviewRow? then [rows[0].review] else []) + ReviewsShown(rows[1..])
  }

  lemma {:induction false} SeparatorCountAppend(a: seq<Row>, b: seq<Row>)
    ensures SeparatorCount(a + b) == SeparatorCount(a) + SeparatorCount(b)
  {
    if a == [] {
      assert a + b == b;
    } else {
      assert (a + b)[0] == a[0] && (a + b)[1..] == a[1..] + b;
      SeparatorCountAppend(a[1..], b);
    }
  }

  lemma {:induction false} ReviewsShownAppend(a: seq<Row>, b: seq<Row>)
    ensures ReviewsShown(a + b) == ReviewsShown(a) + ReviewsShown(b)
  {
    if a == [] {
      assert a + b == b;
    } else {
      assert (a + b)[0] == a[0] && (a + b)[1..] == a[1..] + b;
      ReviewsShownAppend(a[1..], b);
    }
  }

  /** The fragments alternate review, rule, review, ..., review: every
      review appears once and in order, with one rule fewer than reviews. */
  lemma {:induction false} FragmentsShape(reviews: seq<Review>, i: nat)
    requires i < |reviews|
    ensures var rows := FragmentsFrom(reviews, i);
      && |rows| == 2 * (|reviews| - i) - 1
      && (forall k :: 0 <= k < |rows| ==>
            rows[k] == if k % 2 == 0 then ReviewRow(reviews[i + k / 2]) else Separator)
      && SeparatorCount(rows) == |reviews| - i - 1
      && ReviewsShown(rows) == reviews[i..]
    decreases |reviews| - i
  {
    var rows := FragmentsFrom(reviews, i);
    if i == |reviews| - 1 {
      assert FragmentsFrom(reviews, i + 1) == [];
      assert rows == [ReviewRow(reviews[i])];
      assert reviews[i..] == [reviews[i]];
    } else {
      var rest := FragmentsFrom(reviews, i + 1);
      FragmentsShape(reviews, i + 1);
      var head := [ReviewRow(reviews[i]), Separator];
      assert rows == head + rest;
      forall k | 0 <= k < |rows|
        ensures rows[k] == if k % 2 == 0 then ReviewRow(reviews[i + k / 2]) else Separator
      {
        if k >= 2 {
          assert rows[k] == rest[k - 2];
          assert (k - 2) % 2 == k % 2 && i + 1 + (k - 2) / 2 == i + k / 2;
        }
      }
      SeparatorCountAppend(head, rest);
      ReviewsShownAppend(head, rest);
      assert SeparatorCount(head) == 1 by {
        assert head[1..] == [Separator];
        assert head[1..][1..] == [];
      }
      assert ReviewsShown(head) == [reviews[i]] by {
        assert head[1..] == [Separator];
        assert head[1..][1..] == [];
      }
      assert reviews[i..] == [reviews[i]] + reviews[i + 1..];
    }
  }

  /** n recent reviews are drawn in order with exactly n - 1 rules between
      them; with none the notice is drawn alone. */
  lemma RecentActivityLayout(reviews: seq<Review>)
    ensures |reviews| > 0 ==>
      && SeparatorCount(RecentActivity(reviews)) == |reviews| - 1
      && ReviewsShown(RecentActivity(reviews)) == reviews
    ensures |reviews| == 0 ==> RecentActivity(reviews) == [NoReviewsYet]
  {
    if |reviews| > 0 {
      FragmentsShape(reviews, 0);
    }
  }
}
