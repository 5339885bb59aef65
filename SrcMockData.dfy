/** The developer fixtures and the scoring of `src/data/mockData.ts`: a
    verdict needs at least 10 reviews and a positive ratio strictly above
    0.75. The two scoring policies are kept apart and related by lemmas. */
module SrcMockData {
  import opened Js
  import opened Scoring
  import MockData

  datatype Review = Review(id: string, message: string, date: string, isPositive: bool, reviewer: string)

  datatype DeveloperData = DeveloperData(
    reviews: nat,
    positive: nat,
    negative: nat,
    isOptedIn: bool,
    recentReviews: Option<seq<Review>>)

  /** Reviews needed before a verdict is given. */
  const MinReviews: nat := 10

  /** `calculateTrustScore(positive, total)`: 0 for no reviews, otherwise
      the nearest integer to the positive percentage, never above 100. */
  function CalculateTrustScore(positive: nat, total: nat): (r: nat)
    ensures total == 0 ==> r == 0
    ensures total > 0 ==> 2 * total * r <= 200 * positive + total < 2 * total * (r + 1)
    ensures positive <= total ==> r <= 100
  {
    if total == 0 then 0
    else
      RoundedPercentBounds(if positive <= total then positive else 0, total);
      RoundedPercent(positive, total)
  }

  /** `getTrustVerdict(reviews, positiveRatio)`. */
  function GetTrustVerdict(reviews: nat, positiveRatio: Quotient): (v: Verdict)
    ensures reviews < MinReviews <==> v == InsufficientData
  {
    if reviews < MinReviews then InsufficientData
    else if Exceeds(positiveRatio, 3, 4) then Trusted
    else NotTrusted
  }

  /** Both files compute the same score. */
  lemma {:induction false} ScoresAgree(positive: nat, total: nat)
    ensures CalculateTrustScore(positive, total) == MockData.CalculateTrustScore(positive, total)
  {
  }

  /** Below the sample threshold the ratio is never consulted. */
  lemma VerdictIgnoresRatioBelowThreshold(reviews: nat, q1: Quotient, q2: Quotient)
    requires reviews < MinReviews
    ensures GetTrustVerdict(reviews, q1) == GetTrustVerdict(reviews, q2) == InsufficientData
  {
  }

  /** The verdict of a count pair: trusted exactly when there are at least
      10 reviews and strictly more than 75% of them are positive. */
  lemma {:induction false} VerdictOfCounts(positive: nat, total: nat)
    requires positive <= total
    ensures GetTrustVerdict(total, Quotient(positive, total)) == Trusted
            <==> total >= 10 && positive as real / total as real > 0.75
    ensures GetTrustVerdict(total, Quotient(positive, total)) == NotTrusted
            <==> total >= 10 && positive as real / total as real <= 0.75
  {
    if total >= 10 {
      QuotientComparesAsReal(Quotient(positive, total), 3, 4);
      assert 3 as real / 4 as real == 0.75;
    }
  }

  /** The cutoff is strict: 30 positive out of 40 is exactly 0.75 and is
      not trusted. */
  lemma ThreeQuartersIsNotTrusted()
    ensures GetTrustVerdict(40, Quotient(30, 40)) == NotTrusted
  {
  }

  /** With enough reviews for both policies, a ratio of at least 0.8 is
      trusted under both. */
  lemma {:induction false} BothPoliciesTrust(positive: nat, total: nat)
    requires total >= 10 && 5 * positive >= 4 * total
    ensures GetTrustVerdict(total, Quotient(positive, total)) == Trusted
    ensures MockData.GetTrustVerdict(total, Quotient(positive, total)) == Trusted
  {
    assert 20 * positive >= 16 * total > 15 * total;
  }

  /** The policies are not comparable: 78 of 100 is trusted here and not
      there, and 5 of 5 is trusted there and lacks data here. */
  lemma PoliciesDisagree()
    ensures GetTrustVerdict(100, Quotient(78, 100)) == Trusted
    ensures MockData.GetTrustVerdict(100, Quotient(78, 100)) == NotTrusted
    ensures GetTrustVerdict(5, Quotient(5, 5)) == InsufficientData
    ensures MockData.GetTrustVerdict(5, Quotient(5, 5)) == Trusted
  {
  }

  const TrustedDev := DeveloperData(82, 75, 7, true, Some([
    Review("1", "Excellent smart contract development, clean code!", "2024-01-15", true, "user123.algo"),
    Review("2", "Fast delivery and great communication.", "2024-01-12", true, "dev456.algo"),
    Review("3", "Professional approach to debugging.", "2024-01-10", true, "client789.algo"),
    Review("4", "Could improve documentation.", "2024-01-08", false, "reviewer101.algo")]))

  const RiskyDev := DeveloperData(25, 10, 15, true, Some([
    Review("5", "Code quality issues found.", "2024-01-14", false, "auditor.algo"),
    Review("6", "Missed deadline by a week.", "2024-01-11", false, "project_mgr.algo"),
    Review("7", "Good ideas but poor execution.", "2024-01-09", false, "lead_dev.algo")]))

  const NewDev := DeveloperData(4, 3, 1, true, Some([
    Review("8", "Shows promise as a new developer!", "2024-01-13", true, "mentor.algo"),
    Review("9", "Quick learner and eager to improve.", "2024-01-11", true, "senior_dev.algo")]))

  const UnregisteredDev := DeveloperData(0, 0, 0, false, None)

  /** `mockDeveloperData`. */
  const MockDeveloperData: map<string, DeveloperData> := map[
    "trusted_dev.algo" := TrustedDev,
    "risky_dev.algo" := RiskyDev,
    "new_dev.algo" := NewDev,
    "unregistered_dev.algo" := UnregisteredDev]

  function ReviewsOf(d: DeveloperData): seq<Review> {
    if d.recentReviews.Some? then d.recentReviews.value else []
  }

  function AllReviews(): seq<Review> {
    ReviewsOf(TrustedDev) + ReviewsOf(RiskyDev) + ReviewsOf(NewDev) + ReviewsOf(UnregisteredDev)
  }

  /** Every fixture's review count is the sum of its positives and
      negatives, and the one developer who has not opted in has no reviews
      at all. */
  lemma FixturesConsistent()
    ensures forall k :: k in MockDeveloperData ==>
      MockDeveloperData[k].reviews == MockDeveloperData[k].positive + MockDeveloperData[k].negative
    ensures forall k :: k in MockDeveloperData && !MockDeveloperData[k].isOptedIn ==>
      k == "unregistered_dev.algo"
    ensures UnregisteredDev.reviews == 0 && UnregisteredDev.recentReviews == None
  {
    forall k | k in MockDeveloperData
      ensures MockDeveloperData[k].reviews == MockDeveloperData[k].positive + MockDeveloperData[k].negative
      ensures !MockDeveloperData[k].isOptedIn ==> k == "unregistered_dev.algo"
    {
      assert k in {"trusted_dev.algo", "risky_dev.algo", "new_dev.algo", "unregistered_dev.algo"};
    }
  }

  /** Review ids are unique across all fixtures, not only within one. */
  lemma ReviewIdsUniqueAcrossFixtures()
    ensures forall i, j :: 0 <= i < j < |AllReviews()| ==> AllReviews()[i].id != AllReviews()[j].id
  {
    var all := AllReviews();
    assert all == [all[0], all[1], all[2], all[3], all[4], all[5], all[6], all[7], all[8]];
    assert forall i :: 0 <= i < |all| ==> all[i].id == ["1", "2", "3", "4", "5", "6", "7", "8", "9"][i];
  }
}
