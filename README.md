# AthLine core in Dafny

AthLine is an athlete-lifecycle web application: a React client and a small
edge-function server backed by an identity provider and a key-value store.
This project models the parts of it that make decisions. Each part is
modelled as the source writes it.

- The application shell (`src/App.tsx`):
  - the session check on load and the auth listener;
  - the login, sign-up and logout handlers;
  - the choice between the loading screen, the two auth pages and the main view;
  - the profile built from a session user's metadata;
  - the tab bar.
- The sign-up page (`src/components/auth/SignUpPage.tsx`):
  - field-by-field form editing;
  - the first-failure validator;
  - the request body it sends;
  - the outcome handling of its submit handler.
- The server (`src/supabase/functions/server/index.tsx`):
  - `POST /signup`;
  - `GET /profile/:userId` and `PUT /profile/:userId`;
  - the bearer-token check.

  The store is a `map` from key to record. The identity provider's answers
  and the clock are parameters.
- The onboarding wizard (`src/components/SmartOnboarding.tsx`):
  - the six-step navigator;
  - the sectioned form and its update;
  - the merge that completes the profile;
  - the risk cards and badges, the step chips and the progress read-out.
- The two simulated monitors (`CrisisMonitoring.tsx` and `HealthGuardian.tsx`):
  - the interval ticks, as functions from the previous state and the
    `Math.random()` draws to the next state;
  - the band, badge, marker and glow rules;
  - the contact gating of the response team.
- The two read-only views (`MentalPerformance.tsx` and `TransitionCenter.tsx`):
  - their threshold classifiers;
  - the inverted stress metric;
  - the filtered readiness overview;
  - mentor gating.

Components whose state changes in place are classes with `modifies` frames:
the shell (`AppShell.App`), the sign-up page (`SignUpPage.Page`), the
server's store (`ProfileServer.Server`), the wizard
(`SmartOnboarding.Wizard`) and the two monitors. Each method's `ensures`
ties the new state to a specification function, or gives the new value
directly. The lemmas prove the
promised properties about those functions. Render-time expressions are pure
functions.

The shared modules model JavaScript behaviour:
- `Values`: JSON values, object spread (later operand wins), truthiness,
  `a || b` and `Object.entries(..).filter(..)`.
- `Text`: `split(' ')`.
- `Numeric`: `Math.max(lo, Math.min(hi, x))`, the random drift and
  `Math.round`.
- `Severity`: the three-level bands.

Numbers are `real`.

## Model

| member | source | states |
|---|---|---|
| Values.Spread | src/components/SmartOnboarding.tsx:104-110 | an object spread has every key of both operands, and the later operand wins on each shared key |
| Values.WithoutKey | src/components/HealthGuardian.tsx:116 | filtering entries by key keeps every entry with another key, drops every entry with that key, and never grows the list |
| Values.WithoutKeyKeys | src/components/TransitionCenter.tsx:240 | the keys left after filtering are the original keys, in order, with the removed key deleted |
| Text.Words | src/supabase/functions/server/index.tsx:97 | `split(' ')` returns at least one piece, and no piece contains a space |
| Text.JoinWords | src/supabase/functions/server/index.tsx:97 | joining the pieces of a split with single spaces gives back the original text |
| Text.WordsJoin | src/supabase/functions/server/index.tsx:97 | splitting a space-joined list of space-free pieces gives back the list |
| Text.FirstWord | src/App.tsx:334 | the first piece is a space-free prefix that ends at the first space, or the whole text when there is no space |
| Numeric.Clamp | src/components/CrisisMonitoring.tsx:76-81 | the clamp lies in [lo, hi], leaves in-range values unchanged, and sends values below or above the range to the nearest bound |
| Numeric.Round | src/components/SmartOnboarding.tsx:349 | `Math.round` is the integer within half a unit of x, with halves rounded up |
| Severity.BandOfMonotone | src/components/CrisisMonitoring.tsx:355-360 | with ordered cut points, a higher level never gets a less severe band |
| Severity.BandOfIntervals | src/components/CrisisMonitoring.tsx:355-360 | each band is a half-open interval that includes its lower edge |
| CrisisMonitoring.Tick | src/components/CrisisMonitoring.tsx:70-88 | a tick clamps mental into [5, 50] and financial into [5, 40], sets both lastCheck values to "just now", and leaves health, legal and both trends unchanged |
| CrisisMonitoring.DriftRanges | src/components/CrisisMonitoring.tsx:76-81 | the random drifts lie in [-3, 3) for mental and [-2, 2) for financial |
| CrisisMonitoring.TickStep | src/components/CrisisMonitoring.tsx:70-88 | from an in-range state, one tick moves mental at most 3 down and less than 3 up, and financial at most 2 down and less than 2 up |
| CrisisMonitoring.RunKeepsUntouched | src/components/CrisisMonitoring.tsx:70-88 | after any number of ticks, health, legal and both trends are unchanged and both simulated levels are in range |
| CrisisMonitoring.RunDriftBound | src/components/CrisisMonitoring.tsx:70-88 | after n ticks, mental has moved by at most 3n and financial by at most 2n |
| CrisisMonitoring.DisplaysFollowBand | src/components/CrisisMonitoring.tsx:136 | the badge text, the badge hue and the ring colour show the same band: below 20 Low, below 40 Medium, else High |
| CrisisMonitoring.RiskBandMonotone | src/components/CrisisMonitoring.tsx:327-331 | a higher risk level never shows a less severe band |
| CrisisMonitoring.PulseByBand | src/components/CrisisMonitoring.tsx:333-338 | every High level pulses and no Low level does; a Medium level pulses exactly in (30, 40) |
| CrisisMonitoring.ContactGating | src/components/CrisisMonitoring.tsx:446-473 | Call and Chat are offered exactly to available members, and the members without them are the ones labelled On Call |
| CrisisMonitoring.Monitor.OnInterval | src/components/CrisisMonitoring.tsx:70-88 | the interval callback replaces the metrics with one tick of the old metrics |
| HealthGuardian.Tick | src/components/HealthGuardian.tsx:40-52 | after a tick, movement is in [60, 100], recovery in [50, 100] and stress in [10, 80] |
| HealthGuardian.HeartRateStep | src/components/HealthGuardian.tsx:44 | each tick moves the heart rate by a drift in [-2, 2) |
| HealthGuardian.HeartRateRunBound | src/components/HealthGuardian.tsx:40-52 | after n ticks, the heart rate is within 2n of its start |
| HealthGuardian.HeartRateUnbounded | src/components/HealthGuardian.tsx:44 | the heart rate is never clamped: draws of 0.75 raise it by exactly 1 per tick, without limit |
| HealthGuardian.OverallBadgeFollowsBand | src/components/HealthGuardian.tsx:173-182 | the overall badge's text and hue show one band (below 30 Low, below 60 Medium, else High), and the band grows with the risk |
| HealthGuardian.MarkerIntervals | src/components/HealthGuardian.tsx:129-131 | a body-part marker is red above 30, yellow in (20, 30] and green at or below 20 |
| HealthGuardian.MarkerEdgesDifferFromBand | src/components/HealthGuardian.tsx:129-131 | the marker agrees with a lower-inclusive band at the same cut points everywhere except at 20 and 30 |
| HealthGuardian.LegGlowMatchesKneeMarker | src/components/HealthGuardian.tsx:94-112 | the legs glow red exactly when the knee marker is red |
| HealthGuardian.BodyPartsAreAllButOverall | src/components/HealthGuardian.tsx:116 | the body-part lists are knee, shoulder, ankle and back, in that order, without the overall score |
| HealthGuardian.Guardian.OnInterval | src/components/HealthGuardian.tsx:40-52 | the interval callback replaces the vitals with one tick and leaves the injury risks unchanged |
| SmartOnboarding.Steps | src/components/SmartOnboarding.tsx:73-80 | there are six steps, with ids 1 to 6 in order |
| SmartOnboarding.MovesStayInRange | src/components/SmartOnboarding.tsx:92-102 | Next and Previous keep the step in [1, 6]; Next does nothing exactly on the last step, and Previous does nothing exactly on the first |
| SmartOnboarding.MovesUndoEachOther | src/components/SmartOnboarding.tsx:92-102 | Previous undoes Next except on the last step, and Next undoes Previous except on the first |
| SmartOnboarding.NavigateStaysInRange | src/components/SmartOnboarding.tsx:92-102 | no sequence of presses leaves [1, 6], and each press moves at most one step |
| SmartOnboarding.ForwardPresses | src/components/SmartOnboarding.tsx:92-96 | n presses of Next from step s end at min(s + n, 6) |
| SmartOnboarding.UpdateFormChangesOneField | src/components/SmartOnboarding.tsx:82-90 | an update sets the named field, creates the section if it is missing, and leaves every other field and section unchanged |
| SmartOnboarding.CompletedProfilePrecedence | src/components/SmartOnboarding.tsx:104-111 | in the completed profile, riskLevel wins over athletic fields, athletic fields over personal fields, and personal fields over the old profile; the other sections are left out |
| SmartOnboarding.UneditedFormPrefills | src/components/SmartOnboarding.tsx:29-44 | completing an unedited form writes back name, sport and position as the truthy profile values, or as empty strings |
| SmartOnboarding.RiskCardsAreScores | src/components/SmartOnboarding.tsx:256 | the risk cards are the four numeric scores in order, without the textual overall level |
| SmartOnboarding.RiskBadgeFollowsBand | src/components/SmartOnboarding.tsx:266-275 | a risk badge's text and hue show one band (below 30 Low, below 60 Medium, else High), and the band grows with the score |
| SmartOnboarding.ExactlyOneCurrentChip | src/components/SmartOnboarding.tsx:363-374 | exactly the current step's chip is current, and the chips before it are the completed ones |
| SmartOnboarding.ProgressReachesHundredOnlyAtLastStep | src/components/SmartOnboarding.tsx:349-351 | the progress read-out is positive, is 100% only on the last step, and the Complete button shows exactly when it reads 100% |
| SmartOnboarding.PreviousDisabledWhereNoOp | src/components/SmartOnboarding.tsx:414-416 | the Previous button is disabled exactly where pressing it would do nothing |
| SmartOnboarding.Wizard.NextStep | src/components/SmartOnboarding.tsx:92-96 | the step advances by Next, and the step invariant is kept |
| SmartOnboarding.Wizard.PrevStep | src/components/SmartOnboarding.tsx:98-102 | the step goes back by Previous, and the step invariant is kept |
| SmartOnboarding.Wizard.UpdateFormData | src/components/SmartOnboarding.tsx:82-90 | the form becomes the update of the old form |
| SmartOnboarding.Wizard.CompleteOnboarding | src/components/SmartOnboarding.tsx:104-111 | the profile handed back is the completed profile, with riskLevel set to the assessment's overall level |
| ProfileServer.UserKeyInjective | src/supabase/functions/server/index.tsx:68 | two users share a store key exactly when they are the same user |
| ProfileServer.BearerTokenOfHeader | src/supabase/functions/server/index.tsx:97 | a header `<scheme> <token>` with space-free parts yields the token |
| ProfileServer.NoBearerTokenWithoutSpace | src/supabase/functions/server/index.tsx:97 | a header without a space yields no token |
| ProfileServer.SignupRecordFields | src/supabase/functions/server/index.tsx:66-75 | the stored record has id, email, both timestamps and every metadata key; the timestamps are always the server's; metadata wins over id and email |
| ProfileServer.MetadataCanOverrideId | src/supabase/functions/server/index.tsx:68-74 | metadata carrying an id puts a foreign id in the record stored under the user's own key |
| ProfileServer.MergedProfileFields | src/supabase/functions/server/index.tsx:133-141 | the merged record takes every update, keeps every other old key, and always carries the server's lastUpdated |
| ProfileServer.OtherUsersUntouched | src/supabase/functions/server/index.tsx:143 | writing one user's record leaves every other user's record as it was |
| ProfileServer.Server.Signup | src/supabase/functions/server/index.tsx:40-91 | a body that is not JSON gives 500, missing credentials give 400, a throwing createUser gives 500, its error gives 400 with its message; otherwise the store gains the user's record only when a user came back |
| ProfileServer.Server.GetProfile | src/supabase/functions/server/index.tsx:94-118 | a throwing token check gives 500; a token that does not belong to the path's user gives 401; a throwing store read gives 500; a missing record gives 404; a stored record is returned unchanged |
| ProfileServer.Server.UpdateProfile | src/supabase/functions/server/index.tsx:121-155 | a body that is not JSON or a throwing token check gives 500; a wrong user gives 401; a throwing store read or write gives 500; all three leave the store unchanged; otherwise exactly the user's key is set to the merged record |
| SignUpPage.WithFieldChangesOneField | src/components/auth/SignUpPage.tsx:55-60 | an input change sets its own field and no other |
| SignUpPage.ValidateAcceptsExactly | src/components/auth/SignUpPage.tsx:62-84 | a form is accepted exactly when the four required fields are filled, the passwords match, the password has at least 6 characters and the terms are accepted |
| SignUpPage.ValidateReportsFirstFailure | src/components/auth/SignUpPage.tsx:62-84 | each error is reported exactly when every earlier check passes and its own check fails |
| SignUpPage.OptionalFieldsIgnored | src/components/auth/SignUpPage.tsx:62-84 | sport, position and experience never change the validation result |
| SignUpPage.MetadataShape | src/components/auth/SignUpPage.tsx:106-114 | neither password is sent as metadata; fullName is the first name, a space and the last name; onboardingComplete is false |
| SignUpPage.AcceptedFormPassesServerCheck | src/components/auth/SignUpPage.tsx:103-115 | an accepted form always passes the server's credential check, and the record the server stores carries its full name |
| SignUpPage.Page.HandleInputChange | src/components/auth/SignUpPage.tsx:55-60 | the form becomes the old form with the one field set |
| SignUpPage.Page.SetAcceptTerms | src/components/auth/SignUpPage.tsx:412 | the terms flag becomes the checkbox's new state, and nothing else changes |
| SignUpPage.Page.ValidateForm | src/components/auth/SignUpPage.tsx:62-84 | the result is true exactly when the form is accepted; otherwise the error shows the first failing check's message |
| SignUpPage.Page.HandleSignUp | src/components/auth/SignUpPage.tsx:86-134 | an invalid form sends nothing and leaves loading and success alone; a valid one sends the request and ends not loading, with success text, the server's error or the fallback text, or the unexpected-error text |
| AppShell.ViewSelection | src/App.tsx:114-166 | loading hides everything; with no user, the sign-up page shows only in sign-up mode and the login page in every other mode; with a user, the main view shows |
| AppShell.ProfileFromMetadataFields | src/App.tsx:59-65 | for any metadata, the profile has the five default keys; name, sport, position and careerStage each take their own metadata field (fullName, sport, position, experience) when it is truthy and their default otherwise, independently of the other fields; riskLevel is always Optimized |
| AppShell.EmptyMetadataGivesDefaults | src/App.tsx:37-43 | metadata with none of the four fields truthy gives the default profile |
| AppShell.SignUpMetadataProfile | src/App.tsx:58-65 | a profile loaded from sign-up metadata shows the full name, and shows sport, position and experience when filled, else the defaults; riskLevel is always Optimized |
| AppShell.CheckSessionEndsLoading | src/App.tsx:52-76 | the session check always ends loading; with no user yet, it leads to the main view exactly when the session had a user, and to the login page otherwise |
| AppShell.AuthEventView | src/App.tsx:81-89 | after loading, an auth event shows the main view exactly when it carries a user, and the login page otherwise |
| AppShell.LoginLogoutViews | src/App.tsx:94-112 | login and sign-up lead to the main view; a successful logout leads to the login page; a throwing one changes nothing |
| AppShell.TabValuesDistinct | src/App.tsx:168-217 | the tab values are seven distinct strings: the dashboard, then the six feature ids in order |
| AppShell.TabLabels | src/App.tsx:327-336 | the feature tabs read Smart, Health, Financial, Mental, Transition and Crisis |
| AppShell.App.CheckSession | src/App.tsx:52-76 | the auth state follows the session check, and the profile is replaced only when the session user has metadata |
| AppShell.App.OnAuthStateChange | src/App.tsx:81-89 | the auth state follows the auth event |
| AppShell.App.HandleLogin | src/App.tsx:94-97 | the user is set and the mode is cleared |
| AppShell.App.HandleSignUp | src/App.tsx:99-102 | the user is set and the mode is cleared |
| AppShell.App.HandleLogout | src/App.tsx:104-112 | only a sign-out that does not throw clears the user and picks the login mode |
| AppShell.App.SwitchToLogin | src/App.tsx:156 | the mode becomes login, and with no user and loading over the login page shows |
| AppShell.App.SelectTab | src/App.tsx:312-346 | the active tab becomes the value chosen on the tab bar or on a dashboard card |
| AppShell.App.OnProfileUpdate | src/App.tsx:353 | the profile becomes the one the onboarding wizard hands back |
| AppShell.App.SwitchToSignUp | src/App.tsx:160-164 | with no user and loading over, switching shows the sign-up page |
| MentalPerformance.CheckInDisplaysAgree | src/components/MentalPerformance.tsx:256-271 | a check-in's text and indicator show one rating (at least 7 Excellent, at least 5 Good), and a higher value never rates worse |
| MentalPerformance.CheckInProgressBounds | src/components/MentalPerformance.tsx:268 | a value on the 0-10 scale fills the progress bar between 0 and 100, in order |
| MentalPerformance.InitialCheckInRatings | src/components/MentalPerformance.tsx:35-40 | the initial check-in rates mood and energy Excellent, motivation Good and pressure Needs attention |
| MentalPerformance.MetricBadgeAgrees | src/components/MentalPerformance.tsx:310-322 | a metric badge's text and hue always show the same grade |
| MentalPerformance.MetricGradeIntervals | src/components/MentalPerformance.tsx:313-321 | an ordinary metric is Good above 75 and Fair in (50, 75]; an inverted one is Good below 30 and Fair in [30, 50) |
| MentalPerformance.MetricGradeOrder | src/components/MentalPerformance.tsx:294-321 | a higher value never grades worse on an ordinary metric, and never grades better on the inverted stress metric |
| MentalPerformance.InitialMetricGrades | src/components/MentalPerformance.tsx:294-297 | initially stress and confidence are Good and identity is Fair; read without inversion, a stress of 23 would need work |
| MentalPerformance.SpotMatchesOrdinaryBadge | src/components/MentalPerformance.tsx:105-141 | a brain-map spot has the colour of the grade the same value gets on an ordinary badge |
| MentalPerformance.InitialSpotsGreen | src/components/MentalPerformance.tsx:26-33 | with the initial stats, all three spots are green |
| TransitionCenter.OverviewIsAllButOverall | src/components/TransitionCenter.tsx:240 | the readiness cards are skills, education, network and planning, in order, without the overall score |
| TransitionCenter.ReadinessDisplaysAgree | src/components/TransitionCenter.tsx:253-262 | a card's text and hue show one stage (above 70 Ready, above 40 Developing), and the stage grows with the value |
| TransitionCenter.InitialStages | src/components/TransitionCenter.tsx:28-34 | initially skills, network and planning are Developing, only education Needs Work, and none is Ready |
| TransitionCenter.StricterCutoffsDemote | src/components/TransitionCenter.tsx:384-386 | raising both cut-offs of a match badge can only demote it |
| TransitionCenter.ProgramStricterThanCareer | src/components/TransitionCenter.tsx:613-615 | a programme badge is never greener than a career badge at the same match, and at 83 they differ |
| TransitionCenter.InitialMatchBadges | src/components/TransitionCenter.tsx:569-596 | the initial career badges are green, yellow, green, yellow; the programme badges are yellow, green, yellow, and the programme at exactly 85 is yellow |
| TransitionCenter.MentorButtonGating | src/components/TransitionCenter.tsx:718-724 | the Connect button is disabled exactly for unavailable mentors, and then reads Unavailable |
| TransitionCenter.InitialMentorButtons | src/components/TransitionCenter.tsx:679-700 | of the three listed mentors, only the third cannot be contacted |

## Left out

- Timers. Each `setInterval` callback is a method called once per tick, and the `Math.random()` draws are its parameters. Scheduling, clean-up on unmount and the 2 s redirect after sign-up are not modelled.
- Network and platform calls: fetch, OAuth sign-up (`handleSocialSignUp`), CORS, the logger, the environment, `console.error`, and the health-check route. Their outcomes are parameters where a decision depends on them.
- Presentation: animation, layout, icons and gradient colours. Only the decisions that pick a colour family or a text are kept.
- The two monitors only drift their simulated levels at random and clamp them. They compute no aggregate score and raise no alerts, and the model does the same.
- LoginPage, FinancialFortress and DashboardOverview are not part of this model.
- JavaScript numbers are reals. NaN, infinities and floating-point rounding are not modelled.
- String lengths count Dafny characters, not UTF-16 code units.
- ProfileServer.Server.UpdateProfile, Signup: each request is one atomic step. Interleaved requests are not modelled. This covers the lost update between `kv.get` and `kv.set`, where two concurrent PUTs for one user both read the old record and the later write drops the earlier update. It also covers a PUT landing between `createUser` and the sign-up's own `kv.set`, which that write then overwrites. So the other-keys-survive property of the merge holds only for requests that run one after another.
- ProfileServer.Server.Signup: if the store write throws after the account was created, the real server answers 500 and leaves the account in place. The model assumes store writes succeed.
- ProfileServer.Server.Signup: `createdAt`, added to the identity provider's copy of the metadata, is not modelled, because the model never reads it back.
- ProfileServer.Server.Signup: the two `new Date()` calls are modelled as one clock reading, so createdAt and lastActive are equal.
- Sign-up bodies: a body that parses but is not an object, or metadata that is not an object, is outside the types used here. A body that cannot be read at all is `None`.
- ProfileServer.Server.UpdateProfile: updates are records, so array or string bodies, whose spread gives index keys, are not modelled.
- Token checks: the identity provider is a map from accepted tokens to user ids. Token expiry and errors it returns appear only as a missing entry. A provider or store call that throws is a flag that leads to 500. The model does not say which call threw.
- SignUpPage.Page.HandleInputChange: only the eight known field names are modelled. The source would also add an unknown key to the form.
- SignUpPage.Page.HandleSignUp: the awaited request is collapsed into one step. So the in-flight state, with isLoading true and the submit and social buttons disabled, is never observable in the model.
- SignUpPage.Page.HandleSignUp: when the form is invalid, the model still returns `None` for the request, and a response body that is not JSON counts as a throw. The page's `onSignUp` callback is never called by the source, and it is not modelled either.
- The shell's auth listener: subscription and unsubscription, and the dark-theme class, are left out.
- The password and confirm-password visibility toggles of the sign-up page are presentation only, and they are left out.
- The health monitor's `Math.round` of the displayed vitals is presentation, and it is left out.
