/** The two flags of `OptInModal.tsx`, `isOptingIn` and `isSuccess`, driven
    by the confirm click, the end of the awaited `optIn()` call, and the two
    timers that follow a success. Whether the wallet is ready and how the
    call ends are parameters of the events. */
module OptInModal {
  import opened Js

  /** How the awaited `optIn()` ends: it resolves to a boolean or throws. */
  datatype CallOutcome = Resolved(success: bool) | Threw

  /** The parent callbacks the modal makes. */
  datatype Callback = OnOptIn | OnClose

  class Modal {
    var isOptingIn: bool
    var isSuccess: bool

    /** The call is never outstanding once it has succeeded. */
    ghost predicate Valid()
      reads this
    {
      !(isOptingIn && isSuccess)
    }

    constructor ()
      ensures Valid() && !isOptingIn && !isSuccess
    {
      isOptingIn := false;
      isSuccess := false;
    }

    /** The confirm button is part of the dialog only before a success. */
    predicate ConfirmOffered()
      reads this
    {
      !isSuccess
    }

    /** The Cancel button's `disabled`. */
    function CancelDisabled(): (disabled: bool)
      reads this
      ensures disabled <==> isOptingIn
    {
      isOptingIn
    }

    /** The confirm button's `disabled`: a pending call or a wallet that is
        not ready. */
    function ConfirmDisabled(isReady: bool): (disabled: bool)
      reads this
      ensures disabled <==> isOptingIn || !isReady
    {
      isOptingIn || !isReady
    }

    /** The confirm button's caption. */
    function ConfirmCaption(): (caption: string)
      reads this
      ensures caption == "Opting In..." <==> isOptingIn
      ensures caption == "Confirm Opt-In" <==> !isOptingIn
    {
      if isOptingIn then "Opting In..." else "Confirm Opt-In"
    }

    /** `handleOptInClick` up to the `await`: nothing when the wallet is not
        ready, otherwise the call starts and is outstanding. */
    method HandleOptInClick(isReady: bool) returns (started: bool)
      requires Valid() && ConfirmOffered()
      modifies this
      ensures Valid() && started == isReady && isSuccess == old(isSuccess)
      ensures isReady ==> isOptingIn
      ensures !isReady ==> isOptingIn == old(isOptingIn)
    {
      if !isReady {
        return false;
      }
      isOptingIn := true;
      started := true;
    }

    /** `handleOptInClick` after the `await`: the call is over in every
        outcome; a success is recorded and starts the 1.5 s timer, anything
        else leaves `isSuccess` as it was. */
    method OptInSettled(outcome: CallOutcome) returns (successTimerStarted: bool)
      requires Valid() && isOptingIn
      modifies this
      ensures Valid() && !isOptingIn
      ensures successTimerStarted <==> outcome == Resolved(true)
      ensures outcome == Resolved(true) ==> isSuccess
      ensures outcome != Resolved(true) ==> isSuccess == old(isSuccess)
    {
      if outcome == Resolved(true) {
        isOptingIn := false;
        isSuccess := true;
        successTimerStarted := true;
      } else {
        isOptingIn := false;
        successTimerStarted := false;
      }
    }

    /** The 1.5 s timer: tell the parent, then close; the flags stay as
        they are until the 0.5 s reset timer. */
    method SuccessTimerFired() returns (calls: seq<Callback>)
      requires Valid()
      ensures calls == [OnOptIn, OnClose]
    {
      calls := [OnOptIn, OnClose];
    }

    /** The 0.5 s timer: the success state is cleared for next time. */
    method ResetTimerFired()
      requires Valid()
      modifies this
      ensures Valid() && !isSuccess && isOptingIn == old(isOptingIn)
    {
      isSuccess := false;
    }

    /** `handleClose`: the parent's `onClose` is called unless a call is
        outstanding. */
    method HandleClose() returns (closed: bool)
      requires Valid()
      ensures closed <==> !isOptingIn
    {
      closed := !isOptingIn;
    }
  }

  /** `Connected:` line of the dialog: the sender's first eight and last six
      characters, or a notice that no wallet is connected. A sender shorter
      than eight characters is shown whole, then its last six (or all of it). */
  function ConnectedCaption(sender: Option<string>): (caption: string)
    ensures !Truthy(sender) ==> caption == "No wallet connected"
    ensures Truthy(sender) && |sender.value| >= 8 ==>
      && |caption| == 17
      && caption[..8] == sender.value[..8]
      && caption[8..11] == "..."
      && caption[11..] == sender.value[|sender.value| - 6..]
    ensures Truthy(sender) && |sender.value| < 8 ==>
      var s := sender.value;
      caption == s + "..." + (if |s| <= 6 then s else s[|s| - 6..])
  {
    if Truthy(sender) then SliceHead(sender.value, 8) + "..." + SliceTail(sender.value, 6)
    else "No wallet connected"
  }

  /** A full successful round: click, success, both timers. The parent hears
      `onOptIn` then `onClose`, and the modal ends where it started. */
  method SuccessfulRoundScenario()
  {
    var m := new Modal();
    var started := m.HandleOptInClick(true);
    assert started && m.isOptingIn && m.CancelDisabled();
    var closedEarly := m.HandleClose();
    assert !closedEarly;
    var timer := m.OptInSettled(Resolved(true));
    assert timer && m.isSuccess && !m.ConfirmOffered();
    var calls := m.SuccessTimerFired();
    assert calls == [OnOptIn, OnClose];
    m.ResetTimerFired();
    assert !m.isOptingIn && !m.isSuccess;
  }

  /** A failed call re-enables the buttons without a success. */
  method FailedRoundScenario()
  {
    var m := new Modal();
    var started := m.HandleOptInClick(true);
    var timer := m.OptInSettled(Threw);
    assert started && !timer && !m.isOptingIn && !m.isSuccess && !m.ConfirmDisabled(true);
  }
}
