# Goal-locked code keeper, modelled in Dafny

This project models the client-side logic of a small goal-commitment web app.
A user enters a Gemini API key and signs in to a mock account held in
localStorage. They set a goal and a future deadline, then photograph a
combination lock. The lock image stays hidden until a vision model, shown a
proof photo, answers "YES". The model covers:

- the countdown arithmetic (`calculateTimeLeft`) and the two-digit display;
- the data-URI split and the YES test of the verification client;
- the screen state machine of `App`, with its handlers and its render;
- the mock account store of the login form;
- the handlers of the goal, lock, key and tracking screens.

Each React component with state becomes a Dafny `class` whose fields are its
`useState` variables. Each event handler becomes a method whose `ensures`
gives the new state. An `await` splits a handler into a method for the part
before it and one for the part after it. The awaited services are inputs of
the model: the vision model, `verifyApiKey` and `fileToBase64`. The same
goes for "now" and the build-time API key. Pure logic is written as functions. Lemmas
relate several steps: round trips, invariants and the state machine's
reachable states.

Modules, one per source file, plus three shared ones:

- `Wrappers`: `Option` and JavaScript truthiness of `string | null`.
- `Text`: the string built-ins the code calls, over `seq<char>`. These are
  `trim`, `toUpperCase`, `split`, `startsWith`, `padStart` and `String(n)`.
- `Browser`: localStorage reduced to its three keys, 'apiKey', 'sessionToken'
  and 'user', as a record held by one shared `LocalStorage` object; also a
  picked file and the outcome of encoding it.
- `Types` (types.ts), `Countdown` (hooks/useCountdown.ts), `Gemini`
  (services/geminiService.ts), `AppRoot` (App.tsx), `LoginComponent`,
  `GoalSetupComponent`, `LockSetupComponent`, `GoalTrackerComponent`,
  `ApiKeySetupComponent` (components/*.tsx).

Results worth knowing:

- `AppRoot.SafeguardUnreachable`: the "Should not happen" resets in
  `renderContent` (App.tsx:89-99) never fire as long as each callback
  arrives while the screen that offered it is shown.
- `AppRoot.LateGoalSuccessResets` and `AppRoot.LateLockSetResets`: a
  callback that settles after the user logged out can still make them fire.
  Examples are a verification that resolves after Logout
  (components/GoalTracker.tsx:36-40) or an encoding that does
  (components/LockSetup.tsx:24-25). After the user signs in again the state
  lacks its data and the safeguard resets.
- `AppRoot.SafeguardCondition`: the `!apiKey` part of the TRACKING guard
  (App.tsx:90) never decides anything. `renderApp` shows the key screen
  first whenever the key is missing (App.tsx:111).
- `Gemini.AffirmativeShape` and `Gemini.PaddedYesIsAffirmative`: a reply is
  accepted iff it is `yes` in any letter case with only whitespace around it.
  The letter U+017F (long s) also counts as an `s`, because its capital
  is `S`.
- The payload is the text between the first and the second ','. The MIME
  type is the text after the first ':' of the part before the first ';', up
  to any further ':'. The screens are driven by `appState` and localStorage.

## Model

| member | source | states |
|---|---|---|
| `Text.TrimStart` | services/geminiService.ts:42 | the result is the suffix left after a prefix of whitespace only, and does not itself start with whitespace |
| `Text.TrimEnd` | services/geminiService.ts:42 | the result is the prefix left before a suffix of whitespace only, and does not itself end with whitespace |
| `Text.TrimStartSkips` | services/geminiService.ts:42 | a whitespace prefix is removed in full and nothing after it is |
| `Text.TrimEndSkips` | services/geminiService.ts:42 | a whitespace suffix is removed in full and nothing before it is |
| `Text.TrimPadded` | services/geminiService.ts:42 | trimming a word padded with whitespace gives back exactly the word |
| `Text.TrimCuts` | services/geminiService.ts:42 | `trim` cuts a string into whitespace, a core neither starting nor ending with whitespace, and whitespace |
| `Text.Trim` | services/geminiService.ts:42 | `trim` never lengthens a string, and its result neither starts nor ends with whitespace |
| `Text.TrimEmptyIff` | components/Login.tsx:18 | `!s.trim()` holds exactly when the string is all whitespace (the empty string included) |
| `Text.ToUpper` | services/geminiService.ts:42 | `toUpperCase` keeps the length and maps each code point by itself |
| `Text.Split` | services/geminiService.ts:20-21 | `split` gives at least one piece, no piece holds the separator, and the first piece is a prefix of the input |
| `Text.JoinSplit` | services/geminiService.ts:20-21 | joining the pieces with the separator gives back the input |
| `Text.SplitJoin` | services/geminiService.ts:20-21 | pieces free of the separator come back unchanged from splitting their join |
| `Text.SplitNoSeparator` | services/geminiService.ts:21 | a string without the separator splits into itself alone |
| `Text.SplitAfterPiece` | services/geminiService.ts:20 | the first separator ends the first piece |
| `Text.DecimalString` | components/GoalTracker.tsx:17 | `String(n)` is one or more digits with no leading zero, two or more exactly when n is 10 or more |
| `Text.DecimalStringValue` | components/GoalTracker.tsx:17 | the digits of `String(n)` read back as n |
| `Text.LeadingZeroValue` | components/GoalTracker.tsx:17 | a leading '0' does not change the value of a digit string |
| `Text.PadStart` | components/GoalTracker.tsx:17 | `padStart` puts fill characters on the left up to the width and never shortens the string |
| `Countdown.CalculateTimeLeft` | hooks/useCountdown.ts:12-27 | over iff target - now <= 0, and then all fields are zero; hours < 24, minutes and seconds < 60, none negative |
| `Countdown.Reconstruct` | hooks/useCountdown.ts:18-21 | days*86400 + hours*3600 + minutes*60 + seconds is (target - now) div 1000, and 0 once over |
| `Countdown.LastSecond` | hooks/useCountdown.ts:16-23 | under a second before the target all fields are 0 and isOver is still false |
| `Countdown.OnlyDifferenceMatters` | hooks/useCountdown.ts:13 | equal differences target - now give equal results |
| `Countdown.RoundTrip` | hooks/useCountdown.ts:16-23 | in-range fields plus a sub-second rest decompose back to the same fields |
| `Countdown.CountdownHook.constructor` | hooks/useCountdown.ts:30 | the hook's first state is `calculateTimeLeft(target)` at mount time |
| `Gemini.Prompt` | services/geminiService.ts:30 | the prompt quotes the goal verbatim at a fixed position |
| `Gemini.PromptDeterminesGoal` | services/geminiService.ts:30 | two goals with the same prompt are the same goal |
| `Gemini.VerifyGoal` | services/geminiService.ts:9-49 | no key: false and no model call; otherwise one request with the key, the model, the split MIME type and payload and the prompt, and true iff the reply settles to an affirmative text; an exception gives false |
| `Gemini.MimeType` | services/geminiService.ts:20 | a MIME type is found only when the string holds a ':', and it holds no ':' itself |
| `Gemini.Payload` | services/geminiService.ts:21 | a payload is found only when the string holds a ',', and it holds no ',' itself |
| `Gemini.MimeTypeOfDataUri` | services/geminiService.ts:20 | the MIME type of `data:M;base64,P` is M when M has no ';' or ':' |
| `Gemini.MimeTypeMissing` | services/geminiService.ts:20 | a string without ':' has no MIME type (undefined) |
| `Gemini.PayloadOfDataUri` | services/geminiService.ts:21 | the payload of `data:M;base64,P` is P when M and P have no ',' |
| `Gemini.PayloadMissing` | services/geminiService.ts:21 | a string without ',' has no payload (undefined) |
| `Gemini.IsAffirmative` | services/geminiService.ts:42-44 | a reply is accepted iff its trimmed text is y/Y, e/E, s/S/U+017F |
| `Gemini.UpperIsYes` | services/geminiService.ts:42-44 | exactly those three-letter words upper-case to "YES" |
| `Gemini.AffirmativeShape` | services/geminiService.ts:42-44 | an accepted reply is y/Y, e/E, s/S/U+017F with only whitespace before and after |
| `Gemini.PaddedYesIsAffirmative` | services/geminiService.ts:42-44 | every such whitespace-padded "yes" is accepted |
| `Gemini.AcceptedReplies` | services/geminiService.ts:42-44 | "yes ", " YES\n" and "Yes" are accepted |
| `Gemini.RejectedReplies` | services/geminiService.ts:42-44 | "YES.", "yes please", "no" and "" are refused |
| `AppRoot.RenderContent` | App.tsx:79-104 | signed out: the login screen; the tracker is shown only with goal, deadline and key, the success screen only with a lock image; the safeguard's null only in TRACKING or SUCCESS |
| `AppRoot.RenderApp` | App.tsx:106-129 | nothing before the key check; with no key the key screen whatever else holds; signed out, the login screen whatever the appState; Logout shown iff key and session |
| `AppRoot.SafeguardCondition` | App.tsx:89-99 | the safeguard resets exactly for TRACKING without goal or deadline and SUCCESS without lock image, once key and session are there |
| `AppRoot.SafeguardRecovers` | App.tsx:72-77 | after the safeguard's reset the state is SETUP_GOAL and the goal form shows |
| `AppRoot.ResetIdempotent` | App.tsx:72-77 | reset clears goal, deadline and lock image, and a second reset changes nothing |
| `AppRoot.MountedConsistent` | App.tsx:19-34 | the state after the two mount effects is consistent |
| `AppRoot.StepKeepsConsistent` | App.tsx:36-77 | each callback offered by the screen on show keeps every screen's data present |
| `AppRoot.ConsistentNeverResets` | App.tsx:89-99 | in a consistent state the safeguard does not fire |
| `AppRoot.RunKeepsConsistent` | App.tsx:36-77 | any run of offered callbacks keeps a consistent state consistent |
| `AppRoot.SafeguardUnreachable` | App.tsx:79-104 | from any stored keys, after any run of callbacks each arriving while its screen is shown, the safeguard does not fire |
| `AppRoot.LateGoalSuccessResets` | App.tsx:68-99 | from TRACKING, Logout, then a late `onGoalSuccess` (no longer offered), then login: the safeguard fires |
| `AppRoot.LateLockSetResets` | App.tsx:50-93 | from SETUP_LOCK, Logout, then a late `onLockSet` (no longer offered), then login: the safeguard fires |
| `AppRoot.GoalLifecycle` | App.tsx:46-77 | login, set goal, lock, success, reset walk through the login, goal, lock, tracker, success and goal screens, each step offered by the screen before it |
| `AppRoot.App.constructor` | App.tsx:11-17 | the initial state: no key, signed out, SETUP_GOAL, empty goal, no deadline or image, key not checked |
| `AppRoot.App.CheckStoredKey` | App.tsx:19-26 | a non-empty stored key is taken over; the key is marked as checked |
| `AppRoot.App.CheckSession` | App.tsx:28-34 | a non-empty stored session token signs the user in |
| `AppRoot.App.HandleApiKeyVerified` | App.tsx:36-39 | the key is written to storage and to state; nothing else changes |
| `AppRoot.App.HandleInvalidApiKey` | App.tsx:41-44 | the key is removed from storage and from state |
| `AppRoot.App.HandleLoginSuccess` | App.tsx:46-48 | only isAuthenticated changes, to true |
| `AppRoot.App.HandleLogout` | App.tsx:50-55 | 'sessionToken' is removed, the user is signed out and the goal state is reset |
| `AppRoot.App.HandleGoalSet` | App.tsx:57-61 | goal and deadline are stored and the state is SETUP_LOCK; the lock image is untouched |
| `AppRoot.App.HandleLockSet` | App.tsx:63-66 | the lock image is stored and the state is TRACKING; goal and deadline are untouched |
| `AppRoot.App.HandleGoalSuccess` | App.tsx:68-70 | the state is SUCCESS and nothing else changes |
| `AppRoot.App.HandleReset` | App.tsx:72-77 | goal '', deadline and lock image null, state SETUP_GOAL |
| `AppRoot.App.Render` | App.tsx:106-129 | returns the frame `RenderApp` selects; the only state change is the safeguard's reset |
| `AppRoot.App.RenderContentNow` | App.tsx:79-104 | returns the screen for a signed-in user or null after calling the reset |
| `LoginComponent.Submit` | components/Login.tsx:14-52 | blank email or password: error, storage unchanged, no callback; success iff (login) the stored account equals the untrimmed input exactly or (sign-up) the stored account has another email; failure leaves storage unchanged; success sets the session token, and sign-up overwrites the one account |
| `LoginComponent.SignUpThenLogIn` | components/Login.tsx:31-50 | after a successful sign-up with (e, p), logging in with (e, p) succeeds |
| `LoginComponent.SignUpEvictsOtherAccount` | components/Login.tsx:39-50 | sign-up with another email succeeds and the old account's credentials then fail |
| `LoginComponent.Login.constructor` | components/Login.tsx:9-12 | login view, empty fields, no error |
| `LoginComponent.Login.HandleSubmit` | components/Login.tsx:14-52 | the error, the new storage and the callback are those of `Submit` |
| `LoginComponent.Login.ToggleView` | components/Login.tsx:54-59 | the view flips (so two toggles restore it) and email, password and error are cleared |
| `GoalSetupComponent.CheckGoal` | components/GoalSetup.tsx:14-27 | accepted iff the goal is not all whitespace and the deadline is set and later than now; the emptiness error wins over the past-deadline error; acceptance passes the untrimmed goal |
| `GoalSetupComponent.DeadlineBoundary` | components/GoalSetup.tsx:20-24 | a deadline equal to now is refused, one a second later accepted |
| `GoalSetupComponent.GoalSetup.constructor` | components/GoalSetup.tsx:10-12 | both inputs and the error start empty |
| `GoalSetupComponent.GoalSetup.HandleSubmit` | components/GoalSetup.tsx:14-27 | on acceptance the error is cleared and `onGoalSet` gets goal and deadline once; otherwise the check's error and no call |
| `LockSetupComponent.IsImageType` | components/LockSetup.tsx:18 | a type passes iff it is "image/" followed by a subtype |
| `LockSetupComponent.ImageSubtypes` | components/LockSetup.tsx:18 | every "image/" + subtype passes |
| `LockSetupComponent.NotImageTypes` | components/LockSetup.tsx:18 | the test is case-sensitive and needs the slash: "Image/png", "IMAGE/JPEG", "image" and "text/plain" are refused |
| `LockSetupComponent.LockSetup.constructor` | components/LockSetup.tsx:11 | no error at first |
| `LockSetupComponent.LockSetup.SelectFile` | components/LockSetup.tsx:14-22 | no file: nothing changes; non-image: error; image: error cleared before encoding starts |
| `LockSetupComponent.LockSetup.FinishEncoding` | components/LockSetup.tsx:23-29 | an encoded image goes to `onLockSet`; a failed encode sets the error and calls nothing |
| `LockSetupComponent.LockSetup.HandleFileChange` | components/LockSetup.tsx:14-30 | the four branches: no file, non-image, encoded (exactly one `onLockSet` with the data URI), failed |
| `GoalTrackerComponent.SegmentPadding` | components/GoalTracker.tsx:17 | a segment has at least two digits, values of 10 or more unchanged, smaller ones behind '0', and reads back as the value |
| `GoalTrackerComponent.ExpiredTracker` | components/GoalTracker.tsx:73-108 | from the deadline on, "Time's Up!" replaces the segments and the prove button is disabled |
| `GoalTrackerComponent.RunningTracker` | components/GoalTracker.tsx:73-108 | before the deadline the button is enabled and the segments show the countdown fields |
| `GoalTrackerComponent.RunningClock` | components/GoalTracker.tsx:73-82 | for in-range fields the clock's hours, minutes and seconds are two digits each and every segment reads back as its field |
| `GoalTrackerComponent.ClockSegment` | components/GoalTracker.tsx:17 | a field below 60 is shown as exactly two digits that read back as the field |
| `GoalTrackerComponent.GoalTracker.constructor` | components/GoalTracker.tsx:24-29 | the countdown starts at `calculateTimeLeft(deadline)`; not loading, no error |
| `GoalTrackerComponent.GoalTracker.BeginVerification` | components/GoalTracker.tsx:33-35 | loading, error cleared, while verification runs |
| `GoalTrackerComponent.GoalTracker.SettleVerification` | components/GoalTracker.tsx:37-44 | loading over; success calls `onGoalSuccess`, failure sets the failure message |
| `GoalTrackerComponent.GoalTracker.HandleVerificationSubmit` | components/GoalTracker.tsx:33-45 | `onGoalSuccess` is called iff the client confirms; then the error is empty, otherwise the failure message; not loading afterwards |
| `GoalTrackerComponent.GoalTracker.HandleFileChange` | components/GoalTracker.tsx:47-58 | no file: nothing changes; read failure: read error, not loading, no verification; otherwise the submission |
| `GoalTrackerComponent.GoalTracker.HandleVerifyClick` | components/GoalTracker.tsx:60-64 | the error is cleared |
| `ApiKeySetupComponent.ApiKeySetup.constructor` | components/ApiKeySetup.tsx:10-12 | empty key, not loading, no error |
| `ApiKeySetupComponent.ApiKeySetup.BeginVerify` | components/ApiKeySetup.tsx:14-20 | a blank key sets the error and stops; otherwise loading (input and button disabled) with the error cleared |
| `ApiKeySetupComponent.ApiKeySetup.SettleVerify` | components/ApiKeySetup.tsx:24-29 | loading over; a valid key goes to `onApiKeyVerified` as typed, an invalid one sets the error |
| `ApiKeySetupComponent.ApiKeySetup.HandleVerify` | components/ApiKeySetup.tsx:14-30 | blank: error, no check, no callback; otherwise not loading afterwards, and the callback with the untrimmed key iff it is valid |
| `ApiKeySetupComponent.ApiKeySetup.HandleKeyDown` | components/ApiKeySetup.tsx:32-36 | Enter runs `handleVerify`; any other key changes nothing |

## Left out

- Timers and scheduling: the `setTimeout` re-render of `useCountdown` (hooks/useCountdown.ts:32-38) and the delayed click in GoalTracker (components/GoalTracker.tsx:63). Overlapping verifications are not modelled, and neither are React's batching and re-rendering; a handler's state updates take effect together.
- Floating point: `Math.floor` of JavaScript numbers is integer division on integer milliseconds. Rounding for differences beyond 2^53 ms is not modelled.
- Dates: `new Date(string)` parsing, an Invalid Date, and the default-deadline text (components/GoalSetup.tsx:29-32). A deadline is an integer instant, and an empty deadline input is None.
- JSON: the stored 'user' is a record; `JSON.parse` of a corrupted 'user' value, which would throw, is not modelled.
- Unicode: `toUpperCase` is modelled for ASCII letters and U+017F only; case mappings that change length (such as 'ß' to "SS") are not. `trim` uses the full ECMAScript whitespace set.
- `String(n)` for numbers of 10^21 or more, which JavaScript writes in exponent notation.
- Late callbacks: `AppRoot.Offered` takes a callback to arrive while the screen that offered it is still shown. A late `onGoalSuccess` or `onLockSet` that settles after Logout is outside `SafeguardUnreachable`; `LateGoalSuccessResets` and `LateLockSetResets` show what it does.
- `AppRoot.Offered` takes it that `fileToBase64` never yields the empty string (a data URI starts with "data:").
- `ApiKeySetupComponent.ApiKeySetup.HandleVerify`: `verifyApiKey` is a total function that yields true or false. A rejected promise is not modelled; `handleVerify` (components/ApiKeySetup.tsx:22) has no catch, so `isLoading` would stay true.
- `Gemini.VerifyGoal`: a reply whose `response.text` is undefined makes `.trim()` throw inside the try (services/geminiService.ts:42). The model gives it as `Threw`, which yields false.
- Foreign calls are inputs of the model: the `generateContent` request (services/geminiService.ts:37-40), `verifyApiKey` (imported at components/ApiKeySetup.tsx:3; services/geminiService.ts does not export it) and `fileToBase64`. utils/imageUtils is not part of this model.
- The API key of services/geminiService.ts:12 is a parameter, as the build environment is not modelled; console logging is left out.
- The `default:` branch of `renderContent` (App.tsx:101-102) cannot be reached with four AppState values and has no counterpart.
- Props: App.tsx passes `goal`, `deadline` and `apiKey` props that GoalTracker no longer declares; each file is modelled as written, and the App and GoalTracker models are not joined.
- Markup and styling: SuccessScreen, the icons, tailwind.config.js, and the hidden file inputs' `click()` (components/LockSetup.tsx:33-35). firebase/config.ts only initialises an SDK. types.ts contributes the `Goal` record only; no document-store persistence is modelled.
