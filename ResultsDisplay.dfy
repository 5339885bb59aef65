/** The logic of `ResultsDisplay.tsx`, which scores a `DeveloperData` record
    with the 10-review policy: the score, the verdict, the verdict label and
    the "needs N more reviews" notice. */
module ResultsDisplay {
  import opened Js
  import opened Scoring
  import opened SrcMockData

  /** `calculateTrustScore(data.positive, data.reviews)`. */
  function TrustScore(d: DeveloperData): (score: nat)
    ensures d.reviews == 0 ==> score == 0
    ensures d.positive <= d.reviews ==> score <= 100
  {
    CalculateTrustScore(d.positive, d.reviews)
  }

  /** `getTrustVerdict(data.reviews, data.positive / data.reviews)`. */
  function ResultVerdict(d: DeveloperData): (v: Verdict)
    ensures d.reviews == 0 ==> v == InsufficientData
  {
    GetTrustVerdict(d.reviews, Quotient(d.positive, d.reviews))
  }

  /** The verdict of a record is decided by integers alone: fewer than 10
      reviews lack data, otherwise `4 * positive > 3 * reviews` is trusted
      and anything less is not. */
  lemma {:induction false} ResultVerdictOfCounts(d: DeveloperData)
    ensures ResultVerdict(d) == InsufficientData <==> d.reviews < 10
    ensures ResultVerdict(d) == Trusted <==> d.reviews >= 10 && 4 * d.positive > 3 * d.reviews
    ensures ResultVerdict(d) == NotTrusted <==> d.reviews >= 10 && 4 * d.positive <= 3 * d.reviews
  {
    if d.reviews >= 10 {
      assert ResultVerdict(d) == Trusted <==> Exceeds(Quotient(d.positive, d.reviews), 3, 4);
    }
  }

  /** `getVerdictConfig().text`. */
  function VerdictText(v: Verdict): (text: string)
    ensures text in {"Trusted", "Not Trusted", "Insufficient Data"}
  {
    match v
    case Trusted => "Trusted"
    case NotTrusted => "Not Trusted"
    case InsufficientData => "Insufficient Data"
  }

  /** Distinct verdicts get distinct labels. */
  lemma VerdictTextInjective(v1: Verdict, v2: Verdict)
    ensures VerdictText(v1) == VerdictText(v2) ==> v1 == v2
  {
  }

  /** The "needs N more reviews" notice, shown only with an
      `insufficient-data` verdict; N is `10 - reviews`. */
  function MoreReviewsNotice(d: DeveloperData): (n: Option<int>)
    ensures n.Some? <==> d.reviews < 10
    ensures n.Some? ==> 1 <= n.value <= 10 && d.reviews + n.value == 10
  {
    if ResultVerdict(d) == InsufficientData then Some(10 - d.reviews) else None
  }

  /** The fixture records: the trusted, risky and new developers get the
      verdicts their names suggest, and the unregistered one scores 0. */
  lemma FixtureResults()
    ensures ResultVerdict(TrustedDev) == Trusted && TrustScore(TrustedDev) == 91
    ensures ResultVerdict(RiskyDev) == NotTrusted && TrustScore(RiskyDev) == 40
    ensures ResultVerdict(NewDev) == InsufficientData && MoreReviewsNotice(NewDev) == Some(6)
    ensures TrustScore(UnregisteredDev) == 0 && MoreReviewsNotice(UnregisteredDev) == Some(10)
  {
  }
}
