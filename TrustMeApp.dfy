/** The screen state machine of `TrustMeApp.tsx`: which of the four screens
    is shown and what profile data is carried between them. The wallet's
    `activeAddress` and the outcomes of the awaited `performOptIn` and
    `submitReview` calls are parameters of the handlers; each handler runs
    to completion, its `await` or timer collapsed into the call. */
module TrustMeApp {
  import opened Js
  import opened Scoring
  import opened MockData

  datatype AppState = Home | Profile | DeveloperOnboarding | Dashboard

  datatype UserType = Developer | User

  datatype AppData = AppData(
    currentDeveloper: Option<string>,
    developerProfile: Option<DeveloperProfile>,
    connectedWallet: Option<string>,
    isOptedIn: bool,
    userType: Option<UserType>)

  /** `{ isOptedIn: false }`. */
  const InitialData := AppData(None, None, None, false, None)

  /** How an awaited collaborator call ends: it resolves to a boolean or it
      throws. */
  datatype CallOutcome = Resolved(success: bool) | Threw

  /** The arguments a handler passes to the `performOptIn` collaborator. */
  datatype OptInRequest = OptInRequest(address: string, username: string)

  /** The arguments a handler passes to the `submitReview` collaborator. */
  datatype ReviewRequest = ReviewRequest(developer: string, reviewerAddress: string, isPositive: bool, message: string)

  /** What the main content area renders. */
  datatype View =
    | HomeView
    | ProfileView(profile: DeveloperProfile)
    | OnboardingView(walletAddress: string, isOptedIn: bool)
    | DashboardView(developerName: string, profile: DeveloperProfile)
    | NothingShown

  /** `query.toLowerCase().trim()`: the search key has no upper-case ASCII
      letter, neither starts nor ends with whitespace, and is empty exactly
      when the query is blank. */
  function NormalizeQuery(query: string): (key: string)
    ensures forall j :: 0 <= j < |key| ==> !('A' <= key[j] <= 'Z')
    ensures key != "" ==> !IsWhitespace(key[0]) && !IsWhitespace(key[|key| - 1])
    ensures key == "" <==> AllWhitespace(query)
  {
    var lowered := ToLower(query);
    TrimEdges(lowered);
    TrimEmptyIff(lowered);
    assert AllWhitespace(lowered) <==> AllWhitespace(query) by {
      forall j | 0 <= j < |query| ensures IsWhitespace(lowered[j]) <==> IsWhitespace(query[j]) {
        assert lowered[j] == ToLowerChar(query[j]);
      }
    }
    Trim(lowered)
  }

  /** The `updatedProfile` of a successful review: one more review, of the
      given polarity, and the score recomputed from the new counts. */
  function WithReview(p: DeveloperProfile, isPositive: bool): (r: DeveloperProfile)
    ensures r.totalReviews == p.totalReviews + 1
    ensures r.positiveReviews + r.negativeReviews == p.positiveReviews + p.negativeReviews + 1
    ensures isPositive <==> r.positiveReviews > p.positiveReviews
    ensures r.trustScore == CalculateTrustScore(r.positiveReviews, r.totalReviews)
  {
    var total := p.totalReviews + 1;
    var positive := p.positiveReviews + (if isPositive then 1 else 0);
    p.(totalReviews := total,
       positiveReviews := positive,
       negativeReviews := p.negativeReviews + (if isPositive then 0 else 1),
       trustScore := RoundedPercent(positive, total))
  }

  /** A review adds one to the total and to exactly one of the two counts,
      keeps the counts consistent, scores within [0, 100] and leaves every
      other field, the recent reviews included, as it was. */
  lemma {:induction false} WithReviewKeepsProfileWellFormed(p: DeveloperProfile, isPositive: bool)
    requires WellFormed(p)
    ensures var r := WithReview(p, isPositive);
      && r.totalReviews == p.totalReviews + 1
      && r.positiveReviews == p.positiveReviews + (if isPositive then 1 else 0)
      && r.negativeReviews == p.negativeReviews + (if isPositive then 0 else 1)
      && WellFormed(r)
      && r.trustScore <= 100
      && r.(totalReviews := p.totalReviews, positiveReviews := p.positiveReviews,
            negativeReviews := p.negativeReviews, trustScore := p.trustScore) == p
  {
    var r := WithReview(p, isPositive);
    RoundedPercentBounds(r.positiveReviews, r.totalReviews);
  }

  /** The `newProfile` of a successful opt-in: the stored `taufeeq.algo`
      profile re-addressed, or a fresh profile with no reviews. */
  function OptedInProfile(table: map<string, DeveloperProfile>, username: string, address: string, today: string): (p: DeveloperProfile)
    ensures p.address == address && p.isOptedIn
    ensures username == "taufeeq.algo" && "taufeeq.algo" in table ==>
      p.(address := table["taufeeq.algo"].address, isOptedIn := table["taufeeq.algo"].isOptedIn) == table["taufeeq.algo"]
    ensures !(username == "taufeeq.algo" && "taufeeq.algo" in table) ==>
      && p.username == username && p.joinedDate == today
      && p.totalReviews == p.trustScore == 0 && p.recentReviews == []
  {
    if username == "taufeeq.algo" && "taufeeq.algo" in table then
      table["taufeeq.algo"].(address := address, isOptedIn := true)
    else
      DeveloperProfile(username, address, today, 0, 0, 0, 0, true,
        Some("New developer on the TrustMeBro platform"), Some([]), Some([]), [])
  }

  /** The opted-in profile belongs to the given username and address, is
      opted in and is well-formed; any username other than `taufeeq.algo`
      starts with no reviews and a score of 0. */
  lemma OptedInProfileFacts(table: map<string, DeveloperProfile>, username: string, address: string, today: string)
    requires TableWellFormed(table)
    ensures var p := OptedInProfile(table, username, address, today);
      && p.username == username && p.address == address && p.isOptedIn
      && WellFormed(p)
      && (username != "taufeeq.algo" ==>
            p.totalReviews == p.positiveReviews == p.negativeReviews == p.trustScore == 0
            && p.recentReviews == [])
  {
    if username == "taufeeq.algo" && "taufeeq.algo" in table {
      assert EntryWellFormed("taufeeq.algo", table["taufeeq.algo"]);
    }
  }

  class App {
    /** The profile table searched by `handleSearch` (`mockDeveloperProfiles`). */
    const profiles: map<string, DeveloperProfile>
    var appState: AppState
    var appData: AppData
    var showWalletModal: bool
    var isLoading: bool

    /** Between events no handler is in progress, and a carried profile is
        always consistent. */
    ghost predicate Valid()
      reads this
    {
      && TableWellFormed(profiles)
      && !isLoading
      && (appData.developerProfile.Some? ==> WellFormed(appData.developerProfile.value))
    }

    constructor (profiles: map<string, DeveloperProfile>)
      requires TableWellFormed(profiles)
      ensures Valid() && this.profiles == profiles
      ensures appState == Home && appData == InitialData
      ensures !showWalletModal && !isLoading
    {
      this.profiles := profiles;
      appState := Home;
      appData := InitialData;
      showWalletModal := false;
      isLoading := false;
    }

    /** `handleSearch`: a hit opens the profile of the normalized key as a
        user; a miss changes nothing and reports "Developer not found". */
    method HandleSearch(query: string) returns (notFound: bool)
      requires Valid()
      modifies this
      ensures Valid() && !isLoading && showWalletModal == old(showWalletModal)
      ensures var key := NormalizeQuery(query);
        if key in profiles then
          && !notFound
          && appState == Profile
          && appData == old(appData).(currentDeveloper := Some(key), developerProfile := Some(profiles[key]),
                                      userType := Some(User))
        else
          notFound && appState == old(appState) && appData == old(appData)
    {
      isLoading := true;
      var normalizedQuery := NormalizeQuery(query);
      if normalizedQuery in profiles {
        assert EntryWellFormed(normalizedQuery, profiles[normalizedQuery]);
        appData := appData.(currentDeveloper := Some(normalizedQuery),
                            developerProfile := Some(profiles[normalizedQuery]),
                            userType := Some(User));
        appState := Profile;
        notFound := false;
      } else {
        notFound := true;
      }
      isLoading := false;
    }

    /** `handleDeveloperClick`: without a wallet, open the wallet modal and
        stay; with one, go on to onboarding. */
    method HandleDeveloperClick(activeAddress: Option<string>) returns (promptedToConnect: bool)
      requires Valid()
      modifies this
      ensures Valid() && !isLoading
      ensures promptedToConnect == !Truthy(activeAddress)
      ensures !Truthy(activeAddress) ==>
        showWalletModal && appState == old(appState) && appData == old(appData)
      ensures Truthy(activeAddress) ==>
        && showWalletModal == old(showWalletModal)
        && appState == DeveloperOnboarding
        && appData == old(appData).(userType := Some(Developer), isOptedIn := false)
    {
      if !Truthy(activeAddress) {
        showWalletModal := true;
        promptedToConnect := true;
        return;
      }
      promptedToConnect := false;
      ProceedToDeveloperOnboarding(activeAddress);
    }

    /** `handleConnectWallet`. */
    method HandleConnectWallet()
      modifies this
      ensures showWalletModal
      ensures appState == old(appState) && appData == old(appData) && isLoading == old(isLoading)
    {
      showWalletModal := true;
    }

    /** The wallet modal's `onClose`. */
    method CloseWalletModal()
      modifies this
      ensures !showWalletModal
      ensures appState == old(appState) && appData == old(appData) && isLoading == old(isLoading)
    {
      showWalletModal := false;
    }

    /** `proceedToDeveloperOnboarding`: with a wallet, the developer enters
        onboarding assumed not opted in; no opt-in status is looked up. */
    method ProceedToDeveloperOnboarding(activeAddress: Option<string>)
      requires Valid()
      modifies this
      ensures Valid() && !isLoading && showWalletModal == old(showWalletModal)
      ensures !Truthy(activeAddress) ==> appState == old(appState) && appData == old(appData)
      ensures Truthy(activeAddress) ==>
        appState == DeveloperOnboarding && appData == old(appData).(userType := Some(Developer), isOptedIn := false)
    {
      if !Truthy(activeAddress) {
        return;
      }
      isLoading := true;
      appData := appData.(userType := Some(Developer), isOptedIn := false);
      appState := DeveloperOnboarding;
      isLoading := false;
    }

    /** `handleWalletSelect`: close the modal, remember the wallet's label and
        go on to onboarding with the address the wallet reports. */
    method HandleWalletSelect(walletType: string, activeAddress: Option<string>)
      requires Valid()
      modifies this
      ensures Valid() && !isLoading && !showWalletModal
      ensures !Truthy(activeAddress) ==>
        appState == old(appState) && appData == old(appData).(connectedWallet := Some(walletType))
      ensures Truthy(activeAddress) ==>
        && appState == DeveloperOnboarding
        && appData == old(appData).(connectedWallet := Some(walletType), userType := Some(Developer), isOptedIn := false)
    {
      showWalletModal := false;
      appData := appData.(connectedWallet := Some(walletType));
      ProceedToDeveloperOnboarding(activeAddress);
    }

    /** `handleDeveloperOptIn(username)`: without a wallet nothing happens;
        otherwise `performOptIn(activeAddress, username)` is called, and only
        a `true` result opens the dashboard with the opted-in profile. */
    method HandleDeveloperOptIn(username: string, activeAddress: Option<string>, outcome: CallOutcome, today: string)
      returns (request: Option<OptInRequest>)
      requires Valid()
      modifies this
      ensures Valid() && !isLoading && showWalletModal == old(showWalletModal)
      ensures !Truthy(activeAddress) ==> request == None
      ensures Truthy(activeAddress) ==> request == Some(OptInRequest(activeAddress.value, username))
      ensures Truthy(activeAddress) && outcome == Resolved(true) ==>
        && appState == Dashboard
        && appData == old(appData).(currentDeveloper := Some(username),
                                    developerProfile := Some(OptedInProfile(profiles, username, activeAddress.value, today)),
                                    isOptedIn := true)
      ensures !(Truthy(activeAddress) && outcome == Resolved(true)) ==>
        appState == old(appState) && appData == old(appData)
    {
      if !Truthy(activeAddress) {
        return None;
      }
      isLoading := true;
      request := Some(OptInRequest(activeAddress.value, username));
      if outcome == Resolved(true) {
        var newProfile := OptedInProfile(profiles, username, activeAddress.value, today);
        OptedInProfileFacts(profiles, username, activeAddress.value, today);
        appData := appData.(currentDeveloper := Some(username), developerProfile := Some(newProfile), isOptedIn := true);
        appState := Dashboard;
      }
      isLoading := false;
    }

    /** `handleSubmitReview(isPositive, message)`: without a current
        developer nothing happens; otherwise `submitReview` is called, with
        `'anonymous_user'` standing in for a missing wallet, and a `true`
        result replaces the carried profile by its reviewed copy. */
    method HandleSubmitReview(isPositive: bool, message: string, activeAddress: Option<string>, outcome: CallOutcome)
      returns (request: Option<ReviewRequest>)
      requires Valid()
      modifies this
      ensures Valid() && !isLoading && showWalletModal == old(showWalletModal)
      ensures appState == old(appState)
      ensures !Truthy(old(appData.currentDeveloper)) ==> request == None
      ensures Truthy(old(appData.currentDeveloper)) ==>
        request == Some(ReviewRequest(old(appData.currentDeveloper.value),
                                      if Truthy(activeAddress) then activeAddress.value else "anonymous_user",
                                      isPositive, message))
      ensures Truthy(old(appData.currentDeveloper)) && outcome == Resolved(true) && old(appData.developerProfile.Some?) ==>
        appData == old(appData).(developerProfile := Some(WithReview(old(appData.developerProfile.value), isPositive)))
      ensures !(Truthy(old(appData.currentDeveloper)) && outcome == Resolved(true) && old(appData.developerProfile.Some?)) ==>
        appData == old(appData)
    {
      if !Truthy(appData.currentDeveloper) {
        return None;
      }
      isLoading := true;
      var reviewerAddress := if Truthy(activeAddress) then activeAddress.value else "anonymous_user";
      request := Some(ReviewRequest(appData.currentDeveloper.value, reviewerAddress, isPositive, message));
      if outcome == Resolved(true) && appData.developerProfile.Some? {
        var updatedProfile := WithReview(appData.developerProfile.value, isPositive);
        WithReviewKeepsProfileWellFormed(appData.developerProfile.value, isPositive);
        appData := appData.(developerProfile := Some(updatedProfile));
      }
      isLoading := false;
    }

    /** `handleBackToHome`: back to the initial screen and data. */
    method HandleBackToHome()
      requires Valid()
      modifies this
      ensures Valid()
      ensures appState == Home && appData == InitialData
      ensures showWalletModal == old(showWalletModal)
    {
      appState := Home;
      appData := InitialData;
    }

    /** `handleGoToDashboard`: unguarded; the dashboard only renders if a
        developer and a profile are carried. */
    method HandleGoToDashboard()
      requires Valid()
      modifies this
      ensures Valid()
      ensures appState == Dashboard && appData == old(appData) && showWalletModal == old(showWalletModal)
    {
      appState := Dashboard;
    }

    /** The render guards: the profile and dashboard screens need both a
        truthy current developer and a profile; otherwise nothing renders. */
    function Rendered(activeAddress: Option<string>): (v: View)
      reads this
      ensures v.ProfileView? || v.DashboardView? ==>
        Truthy(appData.currentDeveloper) && appData.developerProfile == Some(v.profile)
      ensures appState == Home ==> v == HomeView
      ensures appState == DeveloperOnboarding ==>
        v == OnboardingView(if Truthy(activeAddress) then activeAddress.value else "", appData.isOptedIn)
      ensures appState == Profile ==> v.ProfileView? || v == NothingShown
      ensures appState == Dashboard ==>
        v == NothingShown || (v.DashboardView? && v.developerName == appData.currentDeveloper.value)
      ensures v == NothingShown <==>
        (appState == Profile || appState == Dashboard)
        && !(Truthy(appData.currentDeveloper) && appData.developerProfile.Some?)
    {
      var carried := Truthy(appData.currentDeveloper) && appData.developerProfile.Some?;
      match appState
      case Home => HomeView
      case Profile => if carried then ProfileView(appData.developerProfile.value) else NothingShown
      case DeveloperOnboarding =>
        OnboardingView(if Truthy(activeAddress) then activeAddress.value else "", appData.isOptedIn)
      case Dashboard =>
        if carried then DashboardView(appData.currentDeveloper.value, appData.developerProfile.value) else NothingShown
    }
  }

  /** Searching for a name the table lacks changes nothing. */
  method SearchMissScenario(profiles: map<string, DeveloperProfile>)
    requires TableWellFormed(profiles) && "unknown.algo" !in profiles
  {
    var app := new App(profiles);
    ToLowerOfLower("unknown.algo");
    TrimOfTrimmed("unknown.algo");
    var missed := app.HandleSearch("unknown.algo");
    assert missed && app.appState == Home && app.appData == InitialData;
  }

  /** A found profile with 3 of 3 positive takes one more positive review:
      4 of 4, still scoring 100, still on the profile screen. */
  method ReviewScenario(profiles: map<string, DeveloperProfile>)
    requires TableWellFormed(profiles) && "new_dev.algo" in profiles
    requires profiles["new_dev.algo"].positiveReviews == profiles["new_dev.algo"].totalReviews == 3
  {
    var app := new App(profiles);
    ToLowerOfLower("new_dev.algo");
    TrimOfTrimmed("new_dev.algo");
    var found := app.HandleSearch("new_dev.algo");
    assert !found && app.appState == Profile;
    var request := app.HandleSubmitReview(true, "great work", None, Resolved(true));
    assert request == Some(ReviewRequest("new_dev.algo", "anonymous_user", true, "great work"));
    var reviewed := app.appData.developerProfile.value;
    assert reviewed == WithReview(profiles["new_dev.algo"], true);
    assert reviewed.positiveReviews == reviewed.totalReviews == 4;
    assert reviewed.trustScore == 100 && app.appState == Profile;
  }

  /** The sessions above run on the fixture table. */
  method FixtureScenarios()
  {
    FixturesWellFormed();
    FixtureKeys();
    var table := MockDeveloperProfiles;
    SearchMissScenario(table);
    ReviewScenario(table);
  }

  /** Back twice is back once; the dashboard reached with nothing carried
      renders nothing. */
  method BackScenario(profiles: map<string, DeveloperProfile>)
    requires TableWellFormed(profiles)
  {
    var app := new App(profiles);
    app.HandleBackToHome();
    app.HandleBackToHome();
    assert app.appState == Home && app.appData == InitialData;
    app.HandleGoToDashboard();
    assert app.Rendered(None) == NothingShown;
  }
}
