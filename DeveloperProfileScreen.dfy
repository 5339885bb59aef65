/** The logic of `DeveloperProfile.tsx`: the verdict shown for a profile and
    its label, the shortened address, and the review form's three pieces of
    state with its submit guard. */
module DeveloperProfileScreen {
  import opened Js
  import opened Scoring
  import opened MockData

  /** `getTrustVerdict(totalReviews, positiveReviews / totalReviews)`. */
  function ProfileVerdict(p: DeveloperProfile): (v: Verdict)
    ensures p.totalReviews == 0 ==> v == InsufficientData
  {
    GetTrustVerdict(p.totalReviews, Quotient(p.positiveReviews, p.totalReviews))
  }

  /** For consistent counts the verdict is decided by integers alone: fewer
      than 5 reviews lack data, otherwise `5 * positive >= 4 * total` is
      trusted and anything less is not. */
  lemma {:induction false} ProfileVerdictOfCounts(p: DeveloperProfile)
    requires WellFormed(p)
    ensures ProfileVerdict(p) == InsufficientData <==> p.totalReviews < 5
    ensures ProfileVerdict(p) == Trusted <==> p.totalReviews >= 5 && 5 * p.positiveReviews >= 4 * p.totalReviews
    ensures ProfileVerdict(p) == NotTrusted <==> p.totalReviews >= 5 && 5 * p.positiveReviews < 4 * p.totalReviews
  {
    var v := ProfileVerdict(p);
    if p.totalReviews >= 5 {
      assert v == Trusted <==> AtLeast(Quotient(p.positiveReviews, p.totalReviews), 4, 5);
    }
  }

  /** `getVerdictConfig().text`. */
  function VerdictText(v: Verdict): (text: string)
    ensures text in {"Trusted Developer", "Needs More Reviews", "New Developer"}
  {
    match v
    case Trusted => "Trusted Developer"
    case NotTrusted => "Needs More Reviews"
    case InsufficientData => "New Developer"
  }

  /** Distinct verdicts get distinct labels, so the label tells the verdict. */
  lemma VerdictTextInjective(v1: Verdict, v2: Verdict)
    ensures VerdictText(v1) == VerdictText(v2) ==> v1 == v2
  {
  }

  /** `address.slice(0, 8) + '...' + address.slice(-8)`: the first and the
      last eight characters around an ellipsis, the whole address twice when
      it is shorter than eight. */
  function ShortAddress(address: string): (r: string)
    ensures |address| >= 8 ==>
      && |r| == 19
      && r[..8] == address[..8]
      && r[8..11] == "..."
      && r[11..] == address[|address| - 8..]
    ensures |address| < 8 ==> r == address + "..." + address
  {
    SliceHead(address, 8) + "..." + SliceTail(address, 8)
  }

  /** The review form of the profile screen. */
  class ReviewForm {
    var showReviewForm: bool
    var reviewMessage: string
    var selectedReviewType: Option<bool>

    constructor ()
      ensures !showReviewForm && reviewMessage == "" && selectedReviewType == None
    {
      showReviewForm := false;
      reviewMessage := "";
      selectedReviewType := None;
    }

    /** The guard of `handleSubmitReview`: a polarity is chosen and the
        message is not blank. */
    predicate CanSubmit()
      reads this
      ensures CanSubmit() <==> selectedReviewType.Some? && !AllWhitespace(reviewMessage)
    {
      TrimEmptyIff(reviewMessage);
      selectedReviewType.Some? && Trim(reviewMessage) != ""
    }

    /** The submit button's `disabled`, written as the button writes it; it
        is disabled exactly when the handler would refuse, which is when no
        polarity is chosen or the message is whitespace only. */
    function SubmitDisabled(): (disabled: bool)
      reads this
      ensures disabled <==> !CanSubmit()
      ensures disabled <==> selectedReviewType == None || AllWhitespace(reviewMessage)
    {
      TrimEmptyIff(reviewMessage);
      selectedReviewType == None || Trim(reviewMessage) == ""
    }

    /** "Write a Review". */
    method Open()
      modifies this
      ensures showReviewForm
      ensures reviewMessage == old(reviewMessage) && selectedReviewType == old(selectedReviewType)
    {
      showReviewForm := true;
    }

    /** The thumbs-up and thumbs-down buttons. */
    method SelectType(isPositive: bool)
      modifies this
      ensures selectedReviewType == Some(isPositive)
      ensures showReviewForm == old(showReviewForm) && reviewMessage == old(reviewMessage)
    {
      selectedReviewType := Some(isPositive);
    }

    /** The message text area. */
    method EditMessage(message: string)
      modifies this
      ensures reviewMessage == message
      ensures showReviewForm == old(showReviewForm) && selectedReviewType == old(selectedReviewType)
    {
      reviewMessage := message;
    }

    /** `handleSubmitReview`: when the guard holds, hand the chosen polarity
        and the trimmed, non-blank message to `onSubmitReview` and reset the
        form; otherwise do nothing. */
    method HandleSubmitReview() returns (submitted: Option<(bool, string)>)
      modifies this
      ensures old(CanSubmit()) ==>
        && submitted == Some((old(selectedReviewType).value, Trim(old(reviewMessage))))
        && !showReviewForm && reviewMessage == "" && selectedReviewType == None
      ensures !old(CanSubmit()) ==>
        && submitted == None
        && showReviewForm == old(showReviewForm)
        && reviewMessage == old(reviewMessage)
        && selectedReviewType == old(selectedReviewType)
      ensures submitted.Some? ==>
        var m := submitted.value.1;
        m != "" && !IsWhitespace(m[0]) && !IsWhitespace(m[|m| - 1])
    {
      if selectedReviewType.Some? && Trim(reviewMessage) != "" {
        TrimEdges(reviewMessage);
        submitted := Some((selectedReviewType.value, Trim(reviewMessage)));
        reviewMessage := "";
        selectedReviewType := None;
        showReviewForm := false;
      } else {
        submitted := None;
      }
    }

    /** The form's Cancel button: the same reset as after a submit. */
    method Cancel()
      modifies this
      ensures !showReviewForm && reviewMessage == "" && selectedReviewType == None
    {
      showReviewForm := false;
      selectedReviewType := None;
      reviewMessage := "";
    }
  }

  /** A filled-in form submits once: the second submit finds the form reset
      and sends nothing. */
  method SubmitOnceScenario()
  {
    var form := new ReviewForm();
    form.Open();
    form.SelectType(false);
    form.EditMessage("late");
    TrimOfTrimmed("late");
    var first := form.HandleSubmitReview();
    assert first == Some((false, "late"));
    var second := form.HandleSubmitReview();
    assert second == None;
  }
}
