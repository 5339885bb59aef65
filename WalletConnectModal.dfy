/** The logic of `WalletConnectModal.tsx`: how a failed `wallet.connect()` is
    turned into a notification by looking for known phrases in the lowercased
    error message, the `connectingWallet` flag around an attempt, the label a
    wallet is shown and reported under, and which wallet buttons are listed
    and disabled. The awaited `connect()` is split into `BeginConnect` and
    `ConnectSettled`, with its outcome a parameter of the latter. */
module WalletConnectModal {
  import opened Js

  /** The `id` of the local development wallet (`WalletId.KMD`). */
  const KmdId: string := "kmd"

  /** The part of a `use-wallet` wallet the modal looks at. */
  datatype Wallet = Wallet(id: string, name: string)

  predicate IsKmd(w: Wallet) {
    w.id == KmdId
  }

  /** The name shown on a wallet's button and handed to `onWalletSelect`. */
  function WalletLabel(w: Wallet): (shown: string)
    ensures IsKmd(w) ==> shown == "LocalNet Wallet"
    ensures !IsKmd(w) ==> shown == w.name
  {
    if IsKmd(w) then "LocalNet Wallet" else w.name
  }

  /** What a failed `connect()` threw: an `Error` with its message, or any
      other value. */
  datatype Thrown = ErrorValue(message: string) | OtherValue

  /** The toast shown for a failed connection, if any. */
  datatype Notice = Silent | Toast(title: string, description: string)

  /** Phrases that mean the user closed or refused the wallet's own dialog. */
  const CancelPhrases: seq<string> := [
    "connect modal is closed by user", "user rejected", "user cancelled", "user denied", "cancelled by user"]

  /** Phrases that mean the wallet app is not installed. */
  const AppMissingPhrases: seq<string> := [
    "scheme does not have a registered handler", "perawallet-wc", "defly-wc"]

  /** `message.includes(p1) || ... || message.includes(pn)`. */
  predicate MentionsAny(message: string, phrases: seq<string>) {
    exists i :: 0 <= i < |phrases| && Includes(message, phrases[i])
  }

  function AppNotFound(walletName: string): Notice {
    Toast("Wallet app not found",
      "Please install " + walletName + " on your device or try using the browser extension")
  }

  function ConnectionFailed(walletName: string): Notice {
    Toast("Connection failed", "Failed to connect to " + walletName + ". Please try again.")
  }

  /** The `catch` block of `handleWalletConnect`: a cancellation is silent
      and takes priority over a missing app, a missing app and every other
      `Error` get their own toast, and a thrown non-`Error` is silent. */
  function ClassifyFailure(thrown: Thrown, walletName: string): (n: Notice)
    ensures thrown.OtherValue? ==> n == Silent
    ensures thrown.ErrorValue? ==>
      var m := ToLower(thrown.message);
      && (n == Silent <==> MentionsAny(m, CancelPhrases))
      && (n == AppNotFound(walletName) <==> !MentionsAny(m, CancelPhrases) && MentionsAny(m, AppMissingPhrases))
      && (n == ConnectionFailed(walletName) <==> !MentionsAny(m, CancelPhrases) && !MentionsAny(m, AppMissingPhrases))
  {
    match thrown
    case OtherValue => Silent
    case ErrorValue(message) =>
      var errorMessage := ToLower(message);
      if MentionsAny(errorMessage, CancelPhrases) then Silent
      else if MentionsAny(errorMessage, AppMissingPhrases) then AppNotFound(walletName)
      else ConnectionFailed(walletName)
  }

  /** The classification ignores the case of ASCII letters. */
  lemma {:induction false} ClassifyIgnoresCase(message: string, walletName: string)
    ensures ClassifyFailure(ErrorValue(message), walletName) == ClassifyFailure(ErrorValue(ToLower(message)), walletName)
  {
    ToLowerIdempotent(message);
  }

  /** Every phrase is at least eight characters long, so an error message
      shorter than that is always reported as a failed connection. */
  lemma {:induction false} ShortMessageIsConnectionFailure(message: string, walletName: string)
    requires |message| < 8
    ensures ClassifyFailure(ErrorValue(message), walletName) == ConnectionFailed(walletName)
  {
    var m := ToLower(message);
    forall i | 0 <= i < |CancelPhrases| ensures !Includes(m, CancelPhrases[i]) {
      assert |CancelPhrases[i]| >= 8;
    }
    forall i | 0 <= i < |AppMissingPhrases| ensures !Includes(m, AppMissingPhrases[i]) {
      assert |AppMissingPhrases[i]| >= 8;
    }
  }

  /** A message that contains a cancellation phrase, in any letter case, is
      silent even when it also names a missing app. */
  lemma {:induction false} CancelWins(message: string, walletName: string, i: nat, at: nat)
    requires i < |CancelPhrases| && OccursAt(ToLower(message), CancelPhrases[i], at)
    ensures ClassifyFailure(ErrorValue(message), walletName) == Silent
  {
    assert Includes(ToLower(message), CancelPhrases[i]);
  }

  /** A message containing an app-missing phrase but no cancellation phrase
      reports the missing app. */
  lemma {:induction false} AppMissingReported(message: string, walletName: string, i: nat, at: nat)
    requires i < |AppMissingPhrases| && OccursAt(ToLower(message), AppMissingPhrases[i], at)
    requires !MentionsAny(ToLower(message), CancelPhrases)
    ensures ClassifyFailure(ErrorValue(message), walletName) == AppNotFound(walletName)
  {
    assert Includes(ToLower(message), AppMissingPhrases[i]);
  }

  /** The callbacks a successful connection makes, in order. */
  datatype Callback = WalletSelected(walletType: string) | Closed

  /** How the awaited `wallet.connect()` ends. */
  datatype ConnectOutcome = Connected | Failed(thrown: Thrown)

  /** One wallet button: its key, its label and whether it is disabled. */
  datatype WalletButton = WalletButton(id: string, caption: string, disabled: bool)

  class Modal {
    /** The `isOpen` prop, which drives the clearing effect. */
    var isOpen: bool
    var connectingWallet: Option<string>

    /** A closed modal has no attempt recorded. */
    ghost predicate Valid()
      reads this
    {
      !isOpen ==> connectingWallet == None
    }

    constructor (isOpen: bool)
      ensures Valid() && this.isOpen == isOpen && connectingWallet == None
    {
      this.isOpen := isOpen;
      connectingWallet := None;
    }

    /** A new `isOpen` prop; closing runs the effect that clears the attempt. */
    method SetOpen(open: bool)
      requires Valid()
      modifies this
      ensures Valid() && isOpen == open
      ensures !open ==> connectingWallet == None
      ensures open ==> connectingWallet == old(connectingWallet)
    {
      isOpen := open;
      if !open {
        connectingWallet := None;
      }
    }

    /** The buttons listed: one per wallet, only while the modal is open and
        no account is active, each labelled as reported and disabled exactly
        while its wallet is being connected. */
    function Buttons(wallets: seq<Wallet>, activeAddress: Option<string>): (buttons: seq<WalletButton>)
      reads this
      ensures |buttons| == if isOpen && !Truthy(activeAddress) then |wallets| else 0
      ensures forall k :: 0 <= k < |buttons| ==>
        && buttons[k].id == wallets[k].id
        && buttons[k].caption == WalletLabel(wallets[k])
        && (buttons[k].disabled <==> connectingWallet == Some(wallets[k].id))
    {
      var connecting := connectingWallet;
      if isOpen && !Truthy(activeAddress) then
        seq(|wallets|, k requires 0 <= k < |wallets| =>
          WalletButton(wallets[k].id, WalletLabel(wallets[k]), connecting == Some(wallets[k].id)))
      else []
    }

    /** A wallet button's click: the attempt is recorded under the wallet's
        id until it settles. */
    method BeginConnect(w: Wallet)
      requires Valid() && isOpen
      modifies this
      ensures Valid() && isOpen && connectingWallet == Some(w.id)
    {
      connectingWallet := Some(w.id);
    }

    /** The end of `handleWalletConnect`: success reports the wallet's label
        and closes, in that order; a failure makes no callback and shows the
        classified notice; either way the attempt is cleared. */
    method ConnectSettled(w: Wallet, outcome: ConnectOutcome) returns (notice: Notice, calls: seq<Callback>)
      requires Valid()
      modifies this
      ensures Valid() && isOpen == old(isOpen) && connectingWallet == None
      ensures outcome == Connected ==> notice == Silent && calls == [WalletSelected(WalletLabel(w)), Closed]
      ensures outcome.Failed? ==> notice == ClassifyFailure(outcome.thrown, w.name) && calls == []
    {
      match outcome {
        case Connected =>
          notice, calls := Silent, [WalletSelected(WalletLabel(w)), Closed];
        case Failed(thrown) =>
          notice, calls := ClassifyFailure(thrown, w.name), [];
      }
      connectingWallet := None;
    }
  }

  /** With distinct wallet ids at most one button is disabled at a time. */
  lemma AtMostOneDisabled(m: Modal, wallets: seq<Wallet>, activeAddress: Option<string>, j: nat, k: nat)
    requires forall a, b :: 0 <= a < b < |wallets| ==> wallets[a].id != wallets[b].id
    requires j < k < |m.Buttons(wallets, activeAddress)|
    ensures !(m.Buttons(wallets, activeAddress)[j].disabled && m.Buttons(wallets, activeAddress)[k].disabled)
  {
  }

  /** A user who closes the Pera dialog is not told anything, while a Pera
      app that is not installed is reported. */
  lemma PeraExamples()
    ensures ClassifyFailure(ErrorValue("User Rejected"), "Pera") == Silent
    ensures ClassifyFailure(ErrorValue("perawallet-wc://"), "Pera") == AppNotFound("Pera")
  {
    assert ToLower("User Rejected") == "user rejected";
    CancelWins("User Rejected", "Pera", 1, 0);
    var m := ToLower("perawallet-wc://");
    assert m == "perawallet-wc://";
    assert forall j :: 0 <= j < |m| ==> m[j] != 'u';
    forall i | 0 <= i < |CancelPhrases| ensures !Includes(m, CancelPhrases[i]) {
      if i == 0 || i == 4 {
        assert |CancelPhrases[i]| > |m|;
      } else {
        forall at | 0 <= at <= |m| - |CancelPhrases[i]| ensures !OccursAt(m, CancelPhrases[i], at) {
          assert m[at..at + |CancelPhrases[i]|][0] == m[at] != CancelPhrases[i][0];
        }
      }
    }
    AppMissingReported("perawallet-wc://", "Pera", 1, 0);
  }
}
