# TrustMeBro in Dafny

A model of the logic in the TrustMeBro demo: a front end where anyone can
look up a developer's reputation on Algorand, developers can connect a
wallet and opt in to the network, and reviewers leave positive or negative
reviews. It also models the `TrustMeBro` smart contract. The model covers:

- **Reputation scoring.** The app has two copies of `calculateTrustScore`
  and `getTrustVerdict` with different policies, modelled separately:
  - `data/mockData.ts`: at least 5 reviews and a ratio of at least 0.8;
  - `src/data/mockData.ts`: at least 10 reviews and a ratio above 0.75.

  The fixture tables are also modelled. Scores are exact integers:
  `Math.round(p / t * 100)` is half-up rounding of 100p/t. A ratio is the
  pair of counts. Comparing it follows IEEE rules, so `0 / 0` is NaN and
  compares false.
- **The screen state machine of `TrustMeApp.tsx`.** A class holds the
  screen (`appState`), the carried `appData`, the wallet-modal flag and the
  loading flag, with one method per handler. The wallet's `activeAddress`
  is a parameter of each handler. So are the results of the awaited
  `performOptIn` and `submitReview` calls: resolved true, resolved false,
  or thrown.
- **The screens' derived figures.** The profile verdict and its label, the
  short address, the dashboard's rating, level, reviews needed and review
  layout, and the results screen's score, verdict, label and notice.
- **The small state machines.** The review form, the home-page
  typewriter, the wallet modal's error classifier and `connectingWallet`
  flag, and the opt-in modal's two flags. Timers and awaited calls become
  separate events.
- **The contract.** Its global state (`assetid`, `unitaryprice`) and the
  guards of its four ABI methods. The ledger's asset opt-ins are a set of
  (account, asset) pairs. The submitted inner transfers are a list.

Decisions where the sources are ambiguous:

- **Which scoring policy each screen uses.** `@/data/mockData` resolves
  to either file. `TrustMeApp.tsx`, `DeveloperProfile.tsx` and
  `Dashboard.tsx` import the profile shape and table that only
  `data/mockData.ts` defines, so they follow the 5 / 0.8 policy.
  `ResultsDisplay.tsx` imports `DeveloperData`, which only
  `src/data/mockData.ts` defines, so it follows the 10 / 0.75 policy.
- **What the handlers do not check.** The model keeps these as the code
  has them:
  - `handleGoToDashboard` has no guard (`TrustMeApp.tsx:218-220`);
  - no opt-in status is looked up after a wallet connects; the onboarding
    screen starts with `isOptedIn: false` (`TrustMeApp.tsx:80-93`);
  - a failed opt-in is only logged (`TrustMeApp.tsx:170-171`).
- **JavaScript truthiness.** `!activeAddress` and `!currentDeveloper`
  also reject the empty string. The model's `Truthy` does the same.
- **DeveloperOnboarding.** `DeveloperOnboarding.tsx` declares `onOptIn`
  without arguments, although `TrustMeApp.tsx` passes a handler that takes
  a username. The model gives the opt-in handler a username.
- **The dashboard's target.** It reports reviews needed up to 10, while
  the profile screen's verdict threshold is 5 reviews
  (`DashboardScreen.ReviewsNeededOutlastsVerdictThreshold`).

## Model

| member | source | states |
|---|---|---|
| Js.ToLower | project_name/uwu/projects/uwu-frontend/src/components/TrustMeApp.tsx:41 | lowercasing keeps the length and maps every character through the ASCII letter mapping |
| Js.ToLowerIdempotent | project_name/uwu/projects/uwu-frontend/src/components/TrustMeApp.tsx:41 | lowercasing twice is lowercasing once |
| Js.ToLowerOfLower | project_name/uwu/projects/uwu-frontend/src/components/TrustMeApp.tsx:41 | a string without upper-case ASCII letters is its own lowercase |
| Js.Trim | project_name/uwu/projects/uwu-frontend/src/components/TrustMeApp.tsx:41 | the trimmed string is the infix of the input after its leading whitespace, and all that is cut off on either side is whitespace |
| Js.TrimEdges | project_name/uwu/projects/uwu-frontend/src/components/DeveloperProfile.tsx:89 | a non-empty trimmed string neither starts nor ends with whitespace |
| Js.TrimEmptyIff | project_name/uwu/projects/uwu-frontend/src/components/DeveloperProfile.tsx:89 | `trim()` is falsy exactly when the string is whitespace only |
| Js.TrimOfTrimmed | project_name/uwu/projects/uwu-frontend/src/components/TrustMeApp.tsx:41 | a string with non-whitespace ends is unchanged by `trim` |
| Js.TrimIdempotent | project_name/uwu/projects/uwu-frontend/src/components/HomePage.tsx:54-55 | trimming twice is trimming once |
| Js.SliceHead | project_name/uwu/projects/uwu-frontend/src/components/DeveloperProfile.tsx:115 | `slice(0, n)` is the prefix of length min(n, length) |
| Js.SliceTail | project_name/uwu/projects/uwu-frontend/src/components/DeveloperProfile.tsx:115 | `slice(-n)` is the suffix of length min(n, length) |
| Scoring.RoundedPercent | project_name/uwu/projects/uwu-frontend/data/mockData.ts:149 | `Math.round(p / t * 100)` is the integer r with 2tr <= 200p + t < 2t(r + 1), i.e. 100p/t rounded half up |
| Scoring.RoundedPercentBounds | project_name/uwu/projects/uwu-frontend/data/mockData.ts:149 | for p <= t the percentage is at most 100, and exactly 100 when p = t |
| Scoring.RoundedPercentMonotone | project_name/uwu/projects/uwu-frontend/data/mockData.ts:149 | for a fixed total the percentage never decreases as p grows |
| Scoring.QuotientComparesAsReal | project_name/uwu/projects/uwu-frontend/data/mockData.ts:143 | the cross-multiplied comparisons `p * b >= a * t` and `p * b > a * t` are the comparisons of the real ratio p / t with a / b |
| MockData.GetTrustVerdict | project_name/uwu/projects/uwu-frontend/data/mockData.ts:141-145 | the verdict is insufficient-data exactly when there are fewer than 5 reviews |
| MockData.CalculateTrustScore | project_name/uwu/projects/uwu-frontend/data/mockData.ts:147-150 | the score is 0 with no reviews, otherwise 100p/t rounded half up, and never above 100 when p <= t |
| MockData.VerdictIgnoresRatioBelowThreshold | project_name/uwu/projects/uwu-frontend/data/mockData.ts:142 | below 5 reviews the verdict is insufficient-data whatever the ratio, including the NaN of 0 / 0 |
| MockData.VerdictOfCounts | project_name/uwu/projects/uwu-frontend/data/mockData.ts:142-144 | for p <= t: trusted iff t >= 5 and p / t >= 0.8, not-trusted iff t >= 5 and p / t < 0.8 |
| MockData.FullScore | project_name/uwu/projects/uwu-frontend/data/mockData.ts:149 | all reviews positive scores 100 |
| MockData.ScoreMonotone | project_name/uwu/projects/uwu-frontend/data/mockData.ts:147-149 | more positive reviews out of the same total never lower the score |
| MockData.TaufeeqWellFormed | project_name/uwu/projects/uwu-frontend/data/mockData.ts:27-86 | the `taufeeq.algo` fixture is filed under its username, 42 + 5 = 47, its score 89 is the computed one, and its review ids differ |
| MockData.KautilyaWellFormed | project_name/uwu/projects/uwu-frontend/data/mockData.ts:87-110 | the same for `kautilya.algo` (20 + 3 = 23, score 87) |
| MockData.TrustedDevWellFormed | project_name/uwu/projects/uwu-frontend/data/mockData.ts:111-124 | the same for `trusted_dev.algo` (81 + 8 = 89, score 91) |
| MockData.NewDevWellFormed | project_name/uwu/projects/uwu-frontend/data/mockData.ts:125-138 | the same for `new_dev.algo` (3 + 0 = 3, score 100) |
| MockData.FixturesWellFormed | project_name/uwu/projects/uwu-frontend/data/mockData.ts:26-139 | every entry of `mockDeveloperProfiles` is keyed by its username, has consistent counts and stored score, and distinct review ids |
| MockData.FixtureKeys | project_name/uwu/projects/uwu-frontend/data/mockData.ts:26-139 | the table holds exactly the four fixture usernames |
| MockData.TaufeeqScenario | project_name/uwu/projects/uwu-frontend/data/mockData.ts:141-149 | 42 positive of 47 scores 89 and is trusted |
| SrcMockData.CalculateTrustScore | project_name/uwu/projects/uwu-frontend/src/data/mockData.ts:83-86 | the score is 0 with no reviews, otherwise 100p/t rounded half up, and never above 100 when p <= t |
| SrcMockData.GetTrustVerdict | project_name/uwu/projects/uwu-frontend/src/data/mockData.ts:88-91 | the verdict is insufficient-data exactly when there are fewer than 10 reviews |
| SrcMockData.ScoresAgree | project_name/uwu/projects/uwu-frontend/src/data/mockData.ts:83-86 | this copy of `calculateTrustScore` computes the same score as the one in data/mockData.ts |
| SrcMockData.VerdictIgnoresRatioBelowThreshold | project_name/uwu/projects/uwu-frontend/src/data/mockData.ts:89 | below 10 reviews the verdict is insufficient-data whatever the ratio |
| SrcMockData.VerdictOfCounts | project_name/uwu/projects/uwu-frontend/src/data/mockData.ts:89-90 | for p <= t: trusted iff t >= 10 and p / t > 0.75, not-trusted iff t >= 10 and p / t <= 0.75 |
| SrcMockData.ThreeQuartersIsNotTrusted | project_name/uwu/projects/uwu-frontend/src/data/mockData.ts:90 | the cutoff is strict: 30 of 40 is not trusted |
| SrcMockData.BothPoliciesTrust | project_name/uwu/projects/uwu-frontend/src/data/mockData.ts:89-90 | with t >= 10 and 5p >= 4t both verdict policies say trusted |
| SrcMockData.PoliciesDisagree | project_name/uwu/projects/uwu-frontend/src/data/mockData.ts:89-90 | the policies are incomparable: 78 of 100 is trusted only here, 5 of 5 is trusted only in data/mockData.ts |
| SrcMockData.FixturesConsistent | project_name/uwu/projects/uwu-frontend/src/data/mockData.ts:32-72 | every fixture has reviews = positive + negative, and the only one not opted in is `unregistered_dev.algo`, with no reviews and no review list |
| SrcMockData.ReviewIdsUniqueAcrossFixtures | project_name/uwu/projects/uwu-frontend/src/data/mockData.ts:39-63 | the review ids are distinct across all fixtures |
| TrustMeApp.NormalizeQuery | project_name/uwu/projects/uwu-frontend/src/components/TrustMeApp.tsx:41 | the search key has no upper-case ASCII letter, no whitespace at either end, and is empty exactly when the query is blank |
| TrustMeApp.WithReview | project_name/uwu/projects/uwu-frontend/src/components/TrustMeApp.tsx:189-197 | the updated profile has one more review, one more of the given polarity, and the trust score of its new counts |
| TrustMeApp.WithReviewKeepsProfileWellFormed | project_name/uwu/projects/uwu-frontend/src/components/TrustMeApp.tsx:187-202 | a review adds one to the total and to exactly one of the two counts, keeps counts and score consistent, scores within [0, 100] and changes no other field |
| TrustMeApp.OptedInProfile | project_name/uwu/projects/uwu-frontend/src/components/TrustMeApp.tsx:134-159 | the new profile carries the connected address and is opted in; for `taufeeq.algo` in the table only those two fields differ from the stored profile, otherwise it is a fresh profile of the given username with today's date, no reviews and score 0 |
| TrustMeApp.OptedInProfileFacts | project_name/uwu/projects/uwu-frontend/src/components/TrustMeApp.tsx:133-159 | the opted-in profile has the given username and address, is opted in and consistent; any username but `taufeeq.algo` starts with zero counts, score 0 and no reviews |
| TrustMeApp.App.constructor | project_name/uwu/projects/uwu-frontend/src/components/TrustMeApp.tsx:28-31 | the app starts on the home screen with `{ isOptedIn: false }`, no modal and not loading |
| TrustMeApp.App.HandleSearch | project_name/uwu/projects/uwu-frontend/src/components/TrustMeApp.tsx:36-59 | a hit on the lowercased, trimmed query opens that profile as a user and records the key; a miss changes neither screen nor data; loading is off afterwards |
| TrustMeApp.App.HandleDeveloperClick | project_name/uwu/projects/uwu-frontend/src/components/TrustMeApp.tsx:62-72 | without a truthy address the wallet modal opens and screen and data stay; with one the developer enters onboarding, not opted in |
| TrustMeApp.App.HandleConnectWallet | project_name/uwu/projects/uwu-frontend/src/components/TrustMeApp.tsx:75-77 | opens the wallet modal and changes nothing else |
| TrustMeApp.App.CloseWalletModal | project_name/uwu/projects/uwu-frontend/src/components/TrustMeApp.tsx:289 | closes the wallet modal and changes nothing else |
| TrustMeApp.App.ProceedToDeveloperOnboarding | project_name/uwu/projects/uwu-frontend/src/components/TrustMeApp.tsx:80-106 | with a truthy address: onboarding, user type developer, `isOptedIn` false, no status lookup; without: nothing changes |
| TrustMeApp.App.HandleWalletSelect | project_name/uwu/projects/uwu-frontend/src/components/TrustMeApp.tsx:109-121 | closes the modal, records the wallet label, then proceeds to onboarding as above |
| TrustMeApp.App.HandleDeveloperOptIn | project_name/uwu/projects/uwu-frontend/src/components/TrustMeApp.tsx:124-175 | no call without an address; otherwise `performOptIn(address, username)` is made, and only a `true` result opens the dashboard with the opted-in profile; false or a throw changes nothing |
| TrustMeApp.App.HandleSubmitReview | project_name/uwu/projects/uwu-frontend/src/components/TrustMeApp.tsx:178-209 | no call without a current developer; otherwise `submitReview` gets the developer, the address or anonymous_user, polarity and message, and only success with a carried profile replaces it by its reviewed copy; the screen never changes |
| TrustMeApp.App.HandleBackToHome | project_name/uwu/projects/uwu-frontend/src/components/TrustMeApp.tsx:212-215 | back always yields the initial screen and data, so it is idempotent |
| TrustMeApp.App.HandleGoToDashboard | project_name/uwu/projects/uwu-frontend/src/components/TrustMeApp.tsx:218-220 | switches to the dashboard unguarded and keeps the data |
| TrustMeApp.App.Rendered | project_name/uwu/projects/uwu-frontend/src/components/TrustMeApp.tsx:239-285 | Home draws the home view and onboarding the onboarding view with the active address or ""; profile and dashboard draw their own view only with a truthy current developer and a profile, showing that profile and, on the dashboard, that developer's name; otherwise nothing is shown |
| DeveloperProfileScreen.ProfileVerdict | project_name/uwu/projects/uwu-frontend/src/components/DeveloperProfile.tsx:39 | a profile with no reviews gets insufficient-data before the ratio is looked at |
| DeveloperProfileScreen.ProfileVerdictOfCounts | project_name/uwu/projects/uwu-frontend/src/components/DeveloperProfile.tsx:39 | for a consistent profile: insufficient-data iff fewer than 5 reviews, trusted iff at least 5 and 5p >= 4t, not-trusted iff at least 5 and 5p < 4t |
| DeveloperProfileScreen.VerdictText | project_name/uwu/projects/uwu-frontend/src/components/DeveloperProfile.tsx:56-83 | every verdict gets one of the three labels |
| DeveloperProfileScreen.VerdictTextInjective | project_name/uwu/projects/uwu-frontend/src/components/DeveloperProfile.tsx:56-83 | distinct verdicts get distinct labels |
| DeveloperProfileScreen.ShortAddress | project_name/uwu/projects/uwu-frontend/src/components/DeveloperProfile.tsx:115 | an address of 8 or more characters shows as its first 8, "...", its last 8 (19 characters); a shorter one appears twice around "..." |
| DeveloperProfileScreen.ReviewForm.constructor | project_name/uwu/projects/uwu-frontend/src/components/DeveloperProfile.tsx:35-37 | the form starts hidden, empty and with no polarity |
| DeveloperProfileScreen.ReviewForm.CanSubmit | project_name/uwu/projects/uwu-frontend/src/components/DeveloperProfile.tsx:89 | the submit guard holds exactly when a polarity is chosen and the message is not whitespace only |
| DeveloperProfileScreen.ReviewForm.SubmitDisabled | project_name/uwu/projects/uwu-frontend/src/components/DeveloperProfile.tsx:265 | the button is disabled exactly when the handler guard of line 89 fails, i.e. no polarity or a whitespace-only message |
| DeveloperProfileScreen.ReviewForm.Open | project_name/uwu/projects/uwu-frontend/src/components/DeveloperProfile.tsx:224 | shows the form and keeps its contents |
| DeveloperProfileScreen.ReviewForm.SelectType | project_name/uwu/projects/uwu-frontend/src/components/DeveloperProfile.tsx:231-239 | records the chosen polarity and keeps the rest |
| DeveloperProfileScreen.ReviewForm.EditMessage | project_name/uwu/projects/uwu-frontend/src/components/DeveloperProfile.tsx:250 | records the message and keeps the rest |
| DeveloperProfileScreen.ReviewForm.HandleSubmitReview | project_name/uwu/projects/uwu-frontend/src/components/DeveloperProfile.tsx:88-95 | when a polarity is chosen and the trimmed message is non-empty, submits the polarity and the trimmed message (non-empty, no whitespace at either end) and resets the form; otherwise submits nothing and changes nothing |
| DeveloperProfileScreen.ReviewForm.Cancel | project_name/uwu/projects/uwu-frontend/src/components/DeveloperProfile.tsx:257-261 | resets the form to hidden, empty, no polarity |
| DashboardScreen.PositiveRating | project_name/uwu/projects/uwu-frontend/src/components/Dashboard.tsx:151 | the positive rating is the trust score of the same counts, so 0 with no reviews |
| DashboardScreen.PositiveRatingIsTrustScore | project_name/uwu/projects/uwu-frontend/src/components/Dashboard.tsx:151 | on a consistent profile the rating equals the stored trust score and is at most 100 |
| DashboardScreen.Reputation | project_name/uwu/projects/uwu-frontend/src/components/Dashboard.tsx:160-166 | the level is the highest of Beginner/Intermediate/Advanced/Expert whose threshold 0/50/75/90 the score reaches |
| DashboardScreen.ReputationMonotone | project_name/uwu/projects/uwu-frontend/src/components/Dashboard.tsx:160-166 | a higher score never gives a lower level |
| DashboardScreen.ReviewsNeeded | project_name/uwu/projects/uwu-frontend/src/components/Dashboard.tsx:171 | never negative, 0 iff at least 10 reviews, otherwise exactly the shortfall to 10 |
| DashboardScreen.ReviewsNeededOutlastsVerdictThreshold | project_name/uwu/projects/uwu-frontend/src/components/Dashboard.tsx:171 | from 5 to 9 reviews the profile verdict is given while reviews are still reported as needed |
| DashboardScreen.ListCount | project_name/uwu/projects/uwu-frontend/src/components/Dashboard.tsx:91-92 | the count is the list length, or 0 when the list is absent |
| DashboardScreen.FragmentsFrom | project_name/uwu/projects/uwu-frontend/src/components/Dashboard.tsx:187-207 | the fragments of the reviews from index i number 2(n - i) - 1 and start with review i |
| DashboardScreen.RecentActivity | project_name/uwu/projects/uwu-frontend/src/components/Dashboard.tsx:187-215 | with no reviews the notice alone, otherwise 2n - 1 rows that start with the first review and end with the last |
| DashboardScreen.FragmentsShape | project_name/uwu/projects/uwu-frontend/src/components/Dashboard.tsx:187-207 | the fragments alternate review and rule, starting and ending with a review: 2n - 1 rows, n - 1 rules, the reviews in order |
| DashboardScreen.RecentActivityLayout | project_name/uwu/projects/uwu-frontend/src/components/Dashboard.tsx:187-215 | n > 0 reviews are drawn in order with exactly n - 1 rules; none draws the "No reviews yet" notice alone |
| ResultsDisplay.TrustScore | project_name/uwu/projects/uwu-frontend/src/components/ResultsDisplay.tsx:17 | the score is 0 with no reviews and at most 100 when positive <= reviews |
| ResultsDisplay.ResultVerdict | project_name/uwu/projects/uwu-frontend/src/components/ResultsDisplay.tsx:18 | with no reviews the verdict is insufficient-data before the ratio is looked at |
| ResultsDisplay.ResultVerdictOfCounts | project_name/uwu/projects/uwu-frontend/src/components/ResultsDisplay.tsx:18 | insufficient-data iff fewer than 10 reviews, trusted iff at least 10 and 4p > 3t, not-trusted iff at least 10 and 4p <= 3t |
| ResultsDisplay.VerdictText | project_name/uwu/projects/uwu-frontend/src/components/ResultsDisplay.tsx:35-44 | every verdict gets one of the three labels |
| ResultsDisplay.VerdictTextInjective | project_name/uwu/projects/uwu-frontend/src/components/ResultsDisplay.tsx:35-44 | distinct verdicts get distinct labels |
| ResultsDisplay.MoreReviewsNotice | project_name/uwu/projects/uwu-frontend/src/components/ResultsDisplay.tsx:89-93 | the notice appears iff there are fewer than 10 reviews, and then asks for between 1 and 10 more, exactly enough to reach 10 |
| ResultsDisplay.FixtureResults | project_name/uwu/projects/uwu-frontend/src/components/ResultsDisplay.tsx:17-18 | the trusted, risky, new and unregistered fixtures get trusted/91, not-trusted/40, insufficient-data with 6 more needed, and score 0 with 10 more needed |
| HomePage.Typewriter.constructor | project_name/uwu/projects/uwu-frontend/src/components/HomePage.tsx:20-23 | starts with an empty query, the placeholder "______", index 0, typing |
| HomePage.Typewriter.SetSearchQuery | project_name/uwu/projects/uwu-frontend/src/components/HomePage.tsx:93 | records the query and leaves the typewriter alone |
| HomePage.Typewriter.Type | project_name/uwu/projects/uwu-frontend/src/components/HomePage.tsx:25-50 | no step while the query is non-empty; otherwise the four cases of `type()`; the index stays below 5 and advances only by (i + 1) mod 5; a placeholder that is a prefix of the current name stays one, and any changed placeholder is one |
| HomePage.Typewriter.DeleteTimerFired | project_name/uwu/projects/uwu-frontend/src/components/HomePage.tsx:43 | the delayed switch sets deleting and nothing else |
| HomePage.SubmittedQuery | project_name/uwu/projects/uwu-frontend/src/components/HomePage.tsx:52-57 | a query is forwarded iff it is not whitespace only, and what is forwarded is exactly its `trim()`, with no whitespace at either end |
| WalletConnectModal.WalletLabel | project_name/uwu/projects/uwu-frontend/src/components/WalletConnectModal.tsx:137 | the KMD wallet is labelled "LocalNet Wallet", every other wallet by its metadata name |
| WalletConnectModal.ClassifyFailure | project_name/uwu/projects/uwu-frontend/src/components/WalletConnectModal.tsx:42-73 | a non-Error throw is silent; for an Error the lowercased message is silent iff it has a cancel phrase, shows "Wallet app not found" iff it has an app-missing phrase and no cancel phrase, and "Connection failed" otherwise |
| WalletConnectModal.ClassifyIgnoresCase | project_name/uwu/projects/uwu-frontend/src/components/WalletConnectModal.tsx:45 | the classification does not depend on the case of ASCII letters |
| WalletConnectModal.ShortMessageIsConnectionFailure | project_name/uwu/projects/uwu-frontend/src/components/WalletConnectModal.tsx:47-72 | every phrase has at least 8 characters, so a shorter message is always "Connection failed" |
| WalletConnectModal.CancelWins | project_name/uwu/projects/uwu-frontend/src/components/WalletConnectModal.tsx:48-56 | a message containing a cancel phrase is silent, even if it also names a missing app |
| WalletConnectModal.AppMissingReported | project_name/uwu/projects/uwu-frontend/src/components/WalletConnectModal.tsx:57-65 | a message with an app-missing phrase and no cancel phrase reports the missing app |
| WalletConnectModal.PeraExamples | project_name/uwu/projects/uwu-frontend/src/components/WalletConnectModal.tsx:44-65 | "User Rejected" is silent, "perawallet-wc://" reports a missing app |
| WalletConnectModal.Modal.constructor | project_name/uwu/projects/uwu-frontend/src/components/WalletConnectModal.tsx:21 | no attempt is recorded at first |
| WalletConnectModal.Modal.SetOpen | project_name/uwu/projects/uwu-frontend/src/components/WalletConnectModal.tsx:26-30 | closing the modal clears the attempt; opening keeps it |
| WalletConnectModal.Modal.Buttons | project_name/uwu/projects/uwu-frontend/src/components/WalletConnectModal.tsx:112-139 | one button per wallet only while open with no active address, labelled as reported, disabled exactly while that wallet is connecting |
| WalletConnectModal.Modal.BeginConnect | project_name/uwu/projects/uwu-frontend/src/components/WalletConnectModal.tsx:34 | the attempt is recorded under the wallet id |
| WalletConnectModal.Modal.ConnectSettled | project_name/uwu/projects/uwu-frontend/src/components/WalletConnectModal.tsx:37-77 | success calls `onWalletSelect(label)` then `onClose` silently; failure calls neither and shows the classified notice; the attempt is cleared in every outcome |
| WalletConnectModal.AtMostOneDisabled | project_name/uwu/projects/uwu-frontend/src/components/WalletConnectModal.tsx:119 | with distinct wallet ids at most one button is disabled |
| OptInModal.Modal.constructor | project_name/uwu/projects/uwu-frontend/src/components/OptInModal.tsx:19-20 | both flags start false |
| OptInModal.Modal.CancelDisabled | project_name/uwu/projects/uwu-frontend/src/components/OptInModal.tsx:90 | Cancel is disabled exactly while opting in |
| OptInModal.Modal.ConfirmDisabled | project_name/uwu/projects/uwu-frontend/src/components/OptInModal.tsx:93 | confirm is disabled exactly while opting in or when the wallet is not ready |
| OptInModal.Modal.ConfirmCaption | project_name/uwu/projects/uwu-frontend/src/components/OptInModal.tsx:95 | the confirm caption says "Opting In..." exactly while opting in |
| OptInModal.Modal.HandleOptInClick | project_name/uwu/projects/uwu-frontend/src/components/OptInModal.tsx:23-26 | a click when not ready does nothing; otherwise the call is outstanding; `isOptingIn && isSuccess` never holds |
| OptInModal.Modal.OptInSettled | project_name/uwu/projects/uwu-frontend/src/components/OptInModal.tsx:28-51 | the call ends in every outcome; only a `true` result sets success and starts the timer, a false result or a throw keeps `isSuccess` |
| OptInModal.Modal.SuccessTimerFired | project_name/uwu/projects/uwu-frontend/src/components/OptInModal.tsx:36-39 | the success timer calls `onOptIn` then `onClose` |
| OptInModal.Modal.ResetTimerFired | project_name/uwu/projects/uwu-frontend/src/components/OptInModal.tsx:40-42 | the reset timer clears `isSuccess` |
| OptInModal.Modal.HandleClose | project_name/uwu/projects/uwu-frontend/src/components/OptInModal.tsx:54-58 | `onClose` is called exactly when no call is outstanding |
| OptInModal.ConnectedCaption | project_name/uwu/projects/uwu-frontend/src/components/OptInModal.tsx:86 | a sender of 8 or more characters shows as its first 8 characters, "...", its last 6; a shorter one as itself, "...", and its last 6 or all of it; without a sender "No wallet connected" |
| TrustMeBroContract.OptInToAssetGuard | project_name/uwu/projects/uwu-contracts/smart_contracts/trsut_me_bro/contract.py:25-30 | a payment that passes the guards covers each of the two minimum balances on its own |
| TrustMeBroContract.SecondOptInRefused | project_name/uwu/projects/uwu-contracts/smart_contracts/trsut_me_bro/contract.py:26 | once the application is opted in to its asset no further opt-in passes the guards |
| TrustMeBroContract.OptInAmountIsExact | project_name/uwu/projects/uwu-contracts/smart_contracts/trsut_me_bro/contract.py:28-30 | the guards accept one receiver and one amount only, and none when the two minimum balances overflow 64 bits |
| TrustMeBroContract.TrustMeBro.CreateApplication | project_name/uwu/projects/uwu-contracts/smart_contracts/trsut_me_bro/contract.py:10-13 | stores the asset id and the price; nothing is sent |
| TrustMeBroContract.TrustMeBro.SetPrice | project_name/uwu/projects/uwu-contracts/smart_contracts/trsut_me_bro/contract.py:17-20 | approved iff the creator calls; then only the price changes, otherwise nothing does |
| TrustMeBroContract.TrustMeBro.OptInToAsset | project_name/uwu/projects/uwu-contracts/smart_contracts/trsut_me_bro/contract.py:23-36 | approved iff the creator calls, the app is not opted in to `assetid`, the payment goes to the app and equals the two minimum balances; then a zero transfer to itself opts the app in; otherwise nothing changes; the global fields never change |
| TrustMeBroContract.TrustMeBro.UserOptIn | project_name/uwu/projects/uwu-contracts/smart_contracts/trsut_me_bro/contract.py:39-45 | unguarded; submits a zero transfer of `assetid` to the caller and writes no global field |

## Left out

- Rendering is not modelled: JSX, styling, icons, dialogs, and the framer-motion animations, the animated score counters included.
- Wallet and chain SDK calls become parameters or outcomes: `useWallet`, `wallet.connect`/`disconnect`, `algorand.send.assetOptIn` and the algod client. `performOptIn` and `submitReview` are imported from `utils/methods.ts`, which does not define them; they are outcome parameters here.
- `components/hooks/useOptInAsset.ts` is not part of this model; it is a thin SDK wrapper, and its `isReady` is a parameter of the opt-in modal.
- `utils/methods.ts` is not part of this model; it only generates keys and recovers mnemonics with algosdk.
- Browser side effects are left out: the logout path with `localStorage` and `window.location.reload`, the clipboard, console logging. Toasts appear only where they carry the logic: the `notFound` result of a search and the wallet modal's `Notice`.
- Timer delays and cancellation are left out. Each `setTimeout` callback is an event the caller triggers, except the 1000 ms delay of `handleSearch` (`TrustMeApp.tsx:40`): `TrustMeApp.App.HandleSearch` runs the lookup in the same step, so the loading state in between is not observable.
- Stale closures are left out: each handler receives the `activeAddress` its caller passes. In the app, `handleWalletSelect` sees the address from before the connection, which the caller models by passing that value.
- Floating point is left out: scores and ratio comparisons are exact integer arithmetic.
- Record lookups are plain map lookups. JavaScript's inherited object keys (a query of "constructor", say) are not modelled.
- `toLowerCase` lowers ASCII letters only; `trim` removes the ECMAScript whitespace and line terminators listed in `Js.IsWhitespace`.
- `WalletId.KMD` is taken to be the id "kmd".
- The `wallets` and `typewriterTexts` constants of `src/data/mockData.ts` are not modelled; nothing in the modelled files reads them.
- `DeveloperOnboarding.tsx` and `WalletDisplay.tsx` are not part of this model beyond the opt-in signature noted above; their address helpers have the shape of `DeveloperProfileScreen.ShortAddress`.
- `pages/HomePage.tsx`, `routes.tsx`, `main.tsx` and `Pages.tsx` are pure wiring and are left out.
- The contract test file tests a `hello` method the contract does not have and is left out.
- TrustMeBroContract.TrustMeBro.OptInToAsset: assumes that once the guards pass, the inner zero-amount transfer to the application is accepted and opts it in; a rejection by the AVM, for instance when `assetid` names no existing asset, is not modelled.
- TrustMeBroContract.TrustMeBro.UserOptIn: does not model whether the AVM accepts the inner transfer, because that depends on ledger rules outside the contract; it records the transfer and leaves the opt-in set as it was.
- TrustMeBroContract.TrustMeBro.CreateApplication: ignores the `return asset_id` of a method declared to return nothing, which is an AVM compilation detail.
- Group-transaction validity and fees are left out; the payment is a record of its receiver and amount.
