# Mobile session model

A Dafny model of `MobileSession`, the in-process stand-in for a mobile app
driver that an end-to-end suite uses to exercise a login-then-livestream
flow. The session keeps an app-launched flag, a current screen (`welcome`,
`login` or `live_stream`) and a form record (email, password, terms box,
stream status). A fixed table says which platform-qualified element ids each
screen shows. Clicks navigate and submit the login form against two
hard-coded allow-lists. `type`, `set_checkbox` and `get_text` check
visibility first and the kind of element second.

Layout:

- `elements.dfy` (module `Elements`): screens, platforms, widgets and their
  ios/android ids, the id groups the operations dispatch on, and the
  screen-to-visible-ids table.
- `session_model.dfy` (module `SessionModel`): the session state as a value,
  one function per operation giving its error or its next state, `Step`/`Run`
  over sequences of calls, and the lemmas: the consistency invariant of every
  reachable state, relaunch resets everything, the login outcome, closed
  sessions reject every element call, ios and android ids are interchangeable.
- `mobile_session.dfy` (module `Session`): the class `MobileSession`. Its fields
  are updated in place as in the source. The lifecycle methods (`Open`,
  `Close`, `LaunchApp`, `CloseApp`) and the element methods (`Click`, `Type`,
  `SetCheckbox`, `GetText`, `WaitForVisibility`) are proved to produce exactly
  the outcome and state that the matching `SessionModel` function gives; the
  state-changing ones also keep the class invariant `Valid()`. The internal
  helpers `ResetState` and `AttemptLogin` state their effect on the fields
  directly (`AttemptLogin` against `SessionModel.AttemptLogin`).
- `scenarios.dfy` (module `Scenarios`): the page objects as the calls they
  make, the suite's login flow as an all-inputs lemma, and client methods that
  drive the class the way the tests do.

Errors are values. `UnsupportedPlatform` stands for the construction
`ValueError`. `NotVisible`, `VisibilityTimeout`, `UnsupportedInput`,
`UnsupportedCheckbox` and `UnsupportedLabel` stand for the `AssertionError`s the
source raises, each with the element or screen named in its message. An
operation that fails leaves the state unchanged, as in the source, where every
check comes before any assignment.

## Modelling notes

- the source raises one exception class, `AssertionError`, for all interaction
  failures and tells them apart only by the message text; the model separates
  them as distinct `Error` constructors;
- `get_text` returns `stream_status or ""`, and in the code the status is
  always a string (reset to `""`), so the model returns the status as is;
- a login attempt leaves the screen where it was on failure; it is only ever
  made from the login screen.

## Model

| member | source | states |
|---|---|---|
| `Elements.ScreenName` | infra/mobile_session.py:25 | the three screen names, each naming exactly one screen |
| `Elements.Id` | infra/mobile_session.py:84-100 | each widget id is a known id, lies in the dispatch group of its own widget only, and is shown on exactly the screens that show the widget |
| `Elements.VisibleOn` | infra/mobile_session.py:83-101 | the fixed screen-to-ids table; every listed id is a known one |
| `Elements.PlatformName` | infra/mobile_session.py:8 | each platform's name is one of the two supported names, and the two names differ |
| `SessionModel.LoginAccepted` | infra/mobile_session.py:167-171 | any one of an unset or unlisted email, an unset or unlisted password, or unticked terms refuses the login |
| `SessionModel.IsVisible` | infra/mobile_session.py:81-103 | an element is visible only when the app is launched, and an unknown id never is |
| `SessionModel.VisibleExactly` | infra/mobile_session.py:103 | with the app launched, the visible elements are exactly the table entry of the current screen |
| `SessionModel.PlatformsInterchangeable` | infra/mobile_session.py:81-153 | ios and android ids of a widget have the same visibility and the same effect under click, type, set_checkbox and get_text, whatever the session's platform |
| `SessionModel.CloseApp` | infra/mobile_session.py:72-73 | closing clears only the launched flag, after which no element is visible |
| `SessionModel.AttemptLogin` | infra/mobile_session.py:166-176 | live stream and "streaming" iff email and password are in the allow-lists and terms are ticked; otherwise screen unchanged and "login_failed"; credentials and terms never modified |
| `SessionModel.Click` | infra/mobile_session.py:117-125 | fails with not-visible iff the element is not visible; only a login button off the live stream changes anything; launched flag and credentials never change; on welcome the form is untouched |
| `SessionModel.Type` | infra/mobile_session.py:127-136 | not-visible before unsupported-input; a visible email or password input always succeeds, writing exactly the email or exactly the password and nothing else; success only on the login screen |
| `SessionModel.SetCheckbox` | infra/mobile_session.py:138-145 | not-visible before unsupported-checkbox; a visible terms checkbox always succeeds, writing only the terms flag; success only on the login screen |
| `SessionModel.GetText` | infra/mobile_session.py:147-153 | not-visible before unsupported-label; a visible status label always returns the stream status; success only on the live stream |
| `SessionModel.WaitForVisibility` | infra/mobile_session.py:105-115 | succeeds, returning true, iff there is at least one poll and the element is visible; otherwise a timeout naming the screen and element |
| `SessionModel.StepPreservesConsistency` | infra/mobile_session.py:117-176 | every operation keeps the invariant: empty form on welcome, status "" or "login_failed" on login, "streaming" and accepted credentials on the live stream |
| `SessionModel.RunPreservesConsistency` | infra/mobile_session.py:117-176 | the invariant holds after any sequence of calls |
| `SessionModel.ReachableStates` | infra/mobile_session.py:158-176 | from a new session, the status is "", "streaming" or "login_failed", it is "streaming" exactly on the live stream, and that screen is reached only with accepted credentials |
| `SessionModel.RunAppend` | infra/mobile_session.py:117-153 | calls made one after another compose: running two sequences in turn is running their concatenation, and the first error stops the run |
| `SessionModel.RelaunchResets` | infra/mobile_session.py:67-73 | launch, any calls, close, launch ends on the welcome screen with an empty form whatever was reached before |
| `SessionModel.ClosedSessionRejects` | infra/mobile_session.py:103-153 | with the app closed every element call fails and only open and close succeed; closing again changes nothing |
| `SessionModel.WelcomeLoginNavigates` | infra/mobile_session.py:122-123 | a login button of either platform on welcome moves to login, form untouched |
| `SessionModel.LoginOutcome` | infra/mobile_session.py:124-125 | a login button on the login screen yields the live stream with "streaming" for accepted credentials and terms, else the login screen with "login_failed" |
| `Session.MobileSession.constructor` | infra/mobile_session.py:28-39 | a session for a supported platform starts closed, on welcome, with an empty form |
| `Session.MobileSession.Create` | infra/mobile_session.py:37-38 | creation fails iff the platform is not "ios" or "android", naming the platform |
| `Session.MobileSession.DumpState` | infra/mobile_session.py:52-62 | the snapshot reports session type "mobile", env, platform, launched flag, screen name, form and metadata |
| `Session.MobileSession.Open` | infra/mobile_session.py:44-46 | opening launches the app |
| `Session.MobileSession.Close` | infra/mobile_session.py:48-50 | closing closes the app |
| `Session.MobileSession.LaunchApp` | infra/mobile_session.py:67-70 | launched, welcome screen and empty form whatever the prior state |
| `Session.MobileSession.CloseApp` | infra/mobile_session.py:72-73 | only the launched flag is cleared |
| `Session.MobileSession.IsVisible` | infra/mobile_session.py:81-103 | on the object: nothing is visible while the app is closed, unknown ids never are, and with the app open exactly the current screen's ids are |
| `Session.MobileSession.WaitForVisibility` | infra/mobile_session.py:105-115 | the polling loop returns the model's wait outcome and changes nothing |
| `Session.MobileSession.Click` | infra/mobile_session.py:117-125 | outcome and new state are those of the model's click; the state is unchanged on failure |
| `Session.MobileSession.Type` | infra/mobile_session.py:127-136 | outcome and new state are those of the model's type; the state is unchanged on failure |
| `Session.MobileSession.SetCheckbox` | infra/mobile_session.py:138-145 | outcome and new state are those of the model's set_checkbox; the state is unchanged on failure |
| `Session.MobileSession.GetText` | infra/mobile_session.py:147-153 | returns the model's get_text result and changes nothing |
| `Session.MobileSession.ResetState` | infra/mobile_session.py:158-164 | the form becomes nothing typed, terms unticked, empty status; screen and flag kept |
| `Session.MobileSession.AttemptLogin` | infra/mobile_session.py:166-176 | the new state is the model's login evaluation of the old one |
| `Scenarios.TapLogin` | mobile_pages/android_pages/android_login_page.py:18-19 | the page's tap is a click on a login button, which both the welcome and the login screen show |
| `Scenarios.EnterEmail` | mobile_pages/android_pages/android_login_page.py:9-10 | types the given text into an email input of the login screen |
| `Scenarios.EnterPassword` | mobile_pages/android_pages/android_login_page.py:12-13 | types the given text into a password input of the login screen |
| `Scenarios.AcceptTerms` | mobile_pages/android_pages/android_login_page.py:15-16 | ticks a terms checkbox of the login screen |
| `Scenarios.WaitUntilVisible` | mobile_pages/base_page.py:12-13 | waits, for the given number of polls, on a known id of the page's widget |
| `Scenarios.LoginFlow` | tests/test_mobile_login_and_stream_multi_screen.py:36-51 | the tests' call sequence: open once, then only calls on login-screen elements, ending with a login-button click |
| `Scenarios.LoginFlowOutcome` | tests/test_mobile_login_and_stream_multi_screen.py:36-58 | from any state, open, tap login, enter credentials, accept terms, tap login never raises; live stream with "streaming" iff the credentials are accepted, else login with "login_failed" and no visible status label |
| `Scenarios.AndroidDemoLoginStreams` | mobile_pages/android_pages/android_login_page.py:8-20 | the android flow with the first demo account and password reads "streaming" |
| `Scenarios.WrongPasswordFails` | infra/mobile_session.py:174-176 | the same flow with a wrong password stays on login with "login_failed" |
| `Scenarios.StatusFromEmailInputUnsupported` | infra/mobile_session.py:151-153 | reading text from a visible email input fails as an unsupported label |
| `Scenarios.WaitsTimeOut` | mobile_pages/base_page.py:12-13 | a wait for an element not on the screen times out, so does a wait with no polls, and a wait with polls for a shown element succeeds |
| `Scenarios.DeviceLoginFlow` | tests/test_mobile_login_and_stream_multi_screen.py:36-59 | the suite's flow on a session object: the final status read is "streaming" iff the credentials are accepted, otherwise the label is not visible on login |
| `Scenarios.TypeBeforeLaunch` | infra/mobile_session.py:127-129 | typing into the email input of a session whose app is not launched fails as not visible on welcome |
| `Scenarios.CloseHidesAll` | infra/mobile_session.py:72-73 | after closing, no element is visible and screen and form are as before |

## Left out

- Wall-clock time: `wait_for_visibility` takes a number of polls instead of a timeout and an interval; a non-positive count stands for a non-positive timeout. Sleeping is not modelled.
- The timeout value in the timeout error message, and the wording of all error messages; errors carry only their kind and the element or screen.
- `metadata` is modelled as a map from strings to strings (the source allows any values); it and `env` are only stored and echoed by `dump_state`.
- Snapshot copying: `dump_state` copies dictionaries so callers cannot alias session internals; snapshots here are immutable values, so there is nothing to alias.
- `BaseSession` and `StreamingValidator` are not part of this model; the session only stores the validator, which is left out.
- The unused `_id` helper (infra/mobile_session.py:78-79).
- Page objects and the test suite appear only as call sequences in `Scenarios`; the fixture that opens the session is not part of this model, so the flows start with an explicit open. Test-data loading, reporting and the backend status comparison are left out.
