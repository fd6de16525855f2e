# FnCash core, modelled in Dafny

FnCash is a mobile and web expense tracker. This project models its
authentication token lifecycle:

- **Credential store** (`utils/authToken.ts`): one token under the key `auth_token`.
  - The web uses a single plain store.
  - Mobile writes to a secure store and mirrors the write into the plain store.
- **HTTP client** (`infra/http.ts`): the request interceptor attaches `Authorization: Bearer <token>`. The response interceptor removes the token and rejects with `SESSION_EXPIRED` on a 401.
- **Session provider** (`hooks/useAuth.tsx`): the `token`, `user` and `isLoading` cells, `initialize`, `signIn`, `signOut` and `isAuthenticated`.
- **Login mapping** (`services/authService.ts`): maps a login outcome to data or an error message.

It also models the secondary cores:

- Transaction arithmetic (`utils/calculations.ts`).
- `formatTime` and `groupByRelativeDate` (`utils/formatting.ts`).
- The list state of `hooks/useTransactions.ts`.
- The reply validator, the mock and the mock switch of `services/aiService.ts`.
- The recording state machines of `services/audioService.ts` and `hooks/useAudioRecorder.ts`.

One Dafny module models each source file:

| file | module | source |
|---|---|---|
| `common.dfy` | `Common` | shared `Option`/`Result`/`Outcome`, thrown values, JS string truthiness |
| `transaction_types.dfy` | `TransactionTypes` | `types/transaction.ts`; JS numbers with `NaN` and infinities |
| `auth_token.dfy` | `AuthToken` | `utils/authToken.ts` |
| `http.dfy` | `Http` | `infra/http.ts`, `constants/api.ts` |
| `auth_service.dfy` | `AuthService` | `services/authService.ts` |
| `use_auth.dfy` | `UseAuth` | `hooks/useAuth.tsx` |
| `calculations.dfy` | `Calculations` | `utils/calculations.ts` |
| `formatting.dfy` | `Formatting` | `utils/formatting.ts` |
| `use_transactions.dfy` | `UseTransactions` | `hooks/useTransactions.ts` |
| `ai_service.dfy` | `AiService` | `services/aiService.ts` |
| `audio_service.dfy` | `AudioServiceModel` | `services/audioService.ts` |
| `use_audio_recorder.dfy` | `UseAudioRecorder` | `hooks/useAudioRecorder.ts` |

The model takes the source's own form:

- Objects whose fields change become classes with `modifies` clauses. This covers the token stores, the request config, the provider, the transactions state, the AI service, the audio service, the recorder and the two singleton holders.
- Two loops become methods with invariants: the per-category reduce and the grouping reduce. The other folds are recursive functions.
- Pure computations become functions and lemmas.

Foreign calls are not executed, so each operation that awaits one takes a parameter:

- The storage and expo-av calls take `fails`, the set of calls that throw during that operation. A throwing write or delete leaves its store unchanged.
- A backend answer, or a service call's result, is passed in as a `Result`.

Behaviours of the code that the model keeps as written:

- **`get` on mobile.** A throwing secure read makes `get` return null, even when the plain store holds a token.
- **Session expiry.** After a 401 the stored token is removed, but the provider keeps its cached `token`. `isAuthenticated` stays true until sign-out or a fresh provider (a remount or a restart). `initialize` does not end it, because it only ever sets a truthy token (`UseAuth.ExpiryIsNotObserved`, `UseAuth.ExpirySurvivesInitialize`).
- **Authentication test.** `isAuthenticated` is `!!token`, so an empty token is not authenticated.
- **Rejected login.** Through the response interceptor, every rejected login, a 401 included, reaches `signIn` as "Erro ao realizar login" (see Findings).
- **Invalid-credentials text.** The invalid-credentials message in `services/authService.ts` is spelled "Credenciais inv√°lidas": its "á" was saved through a wrong encoding. `AuthService.InvalidCredentials` keeps that spelling.
- **When `set` fails.** `set` rejects only when the plain write inside its `catch` throws. A failed secure write alone is absorbed.
- **Zero average.** `average = 0` does not mean the list is empty. A non-empty list whose amounts sum to 0 also gives 0 (`Calculations.ZeroAverageOfNonEmptyList`). The model proves the exact condition instead.

## Model

| member | source | states |
|---|---|---|
| Common.MessageOf | hooks/useTransactions.ts:57 | an `Error` yields its message, any other thrown value the operation's fallback text |
| TransactionTypes.Add | utils/calculations.ts:31 | JS `+`: finite operands add, `NaN` is absorbing, opposite infinities give `NaN` |
| AuthToken.TokenStorage.Current | utils/authToken.ts:11-23 | what `get` returns when no call throws: the plain store's token on the web; on mobile the secure token when it is non-empty, else the plain store's |
| AuthToken.TokenStorage.Read | utils/authToken.ts:8-28 | null whenever a call `get` makes throws, otherwise `Current()`; a token it returns is the one stored under `auth_token` |
| AuthToken.TokenStorage.Get | utils/authToken.ts:8-28 | returns `Read(fails)`: null whenever a call throws; otherwise on mobile the secure token if non-empty, else the plain store's; never rejects |
| AuthToken.TokenStorage.Set | utils/authToken.ts:30-48 | writes the token under `auth_token` only; mobile writes both stores; a failed secure write still leaves the plain copy; rejects only if the catch's write throws; when it resolves the plain store holds the token, and `Current()` is the token unless the mobile secure write threw |
| AuthToken.TokenStorage.Remove | utils/authToken.ts:50-63 | deletes `auth_token` only; the plain store is cleared whenever `remove` resolves; a failed secure delete leaves the secure token readable |
| AuthToken.SetThenGet | utils/authToken.ts:8-23 | `set(c)` then `get()` returns `c` on either platform |
| AuthToken.DegradedSetThenGet | utils/authToken.ts:41-47 | a throwing secure write still resolves, and `get()` returns the token when the secure store holds no other |
| AuthToken.SetRemoveGet | utils/authToken.ts:50-63 | after `remove()` with no throws, `get()` returns null |
| AuthToken.FailedSecureDeleteKeepsToken | utils/authToken.ts:57-62 | when the secure delete throws, the plain store is cleared but `get()` still returns the secure token |
| Http.AttachToken | infra/http.ts:14-25 | sets `Authorization: Bearer <token>` exactly when the stored token is truthy and headers exist; no other header, url or body changes |
| Http.ScreenResponse | infra/http.ts:28-43 | success and non-401 errors pass unchanged with storage untouched; a 401 removes the token, then rejects with `SESSION_EXPIRED`, or with the store's error if the removal rejects; no rejection carries status 401 |
| Http.Send | infra/http.ts:1-43 | one call through both interceptors: the request gets `Authorization: Bearer <token>` exactly when the token stored at sending is truthy and headers exist; after a 401 whose removal resolves and whose secure delete (on mobile) did not throw, the store holds no token |
| AuthService.LoginResult | services/authService.ts:16-31 | success returns the data unchanged; an error is the invalid-credentials message iff it carries status 401, otherwise the generic message |
| AuthService.LoginResultCorrected | services/authService.ts:24-30 | as `LoginResult`, and `SESSION_EXPIRED` also maps to invalid credentials |
| AuthService.LoginAsWritten | services/authService.ts:16-31 | through the client, every failed login yields the generic message, and a 401 clears the stored token |
| AuthService.LoginCorrected | services/authService.ts:16-31 | the corrected `login` through the client: a 401 yields the invalid-credentials message when the token removal resolves; other errors yield the generic message |
| UseAuth.AuthProvider.constructor | hooks/useAuth.tsx:23-26 | initial state: no user, no token, loading, not authenticated |
| UseAuth.AuthProvider.IsAuthenticated | hooks/useAuth.tsx:65 | true iff the token is present and non-empty |
| UseAuth.AuthProvider.Initialize | hooks/useAuth.tsx:32-42 | loading ends; the token is set exactly when the stored token is truthy; the user is never set |
| UseAuth.AuthProvider.Persist | hooks/useAuth.tsx:47-50 | writes the token as `set` does; only when the write resolves are token and user set |
| UseAuth.AuthProvider.SignIn | hooks/useAuth.tsx:44-51 | over `login` as written: succeeds iff login and persistence succeed, and then sets token and user; every rejected login fails with "Erro ao realizar login" and changes neither cell; a 401 has had the stored token removed; other failures change no store |
| UseAuth.AuthProvider.SignInCorrected | hooks/useAuth.tsx:44-51 | the same over the corrected `login`: a 401 whose removal resolves fails with the invalid-credentials message |
| UseAuth.AuthProvider.SignOut | hooks/useAuth.tsx:53-58 | removes the stored token; clears token and user when the removal resolves |
| UseAuth.UseAuthContext | hooks/useAuth.tsx:76-84 | outside a provider it fails with the fixed message; inside, it returns the provider |
| UseAuth.SignInSurvivesRestart | hooks/useAuth.tsx:32-51 | a signed-in token is picked up by a fresh provider over the same store |
| UseAuth.RejectedSignIn | hooks/useAuth.tsx:44-51 | a rejected sign-in leaves the provider unauthenticated, fails with the generic message whatever the status, and writes no token; after a 401 the store is empty |
| UseAuth.SignOutTwice | hooks/useAuth.tsx:53-58 | signing out twice leaves the same state as once |
| UseAuth.ExpiryIsNotObserved | infra/http.ts:31-38 | after a 401 the store is empty, yet the provider's authentication flag is unchanged |
| UseAuth.ExpirySurvivesInitialize | hooks/useAuth.tsx:32-42 | after a 401 and a fresh `initialize` over the emptied store, a signed-in provider still reports a session |
| Calculations.OfType | utils/calculations.ts:23 | keeps exactly the transactions of the given type |
| Calculations.OfTypeAppend | utils/calculations.ts:23 | the filter distributes over concatenation, so order is kept |
| Calculations.SumFinite | utils/calculations.ts:24-32 | the reducer starts from 0 and skips a non-finite amount |
| Calculations.SumFiniteAppend | utils/calculations.ts:24-32 | the skipping sum distributes over concatenation |
| Calculations.TotalAppend | utils/calculations.ts:18-33 | the total of a concatenation is the sum of the totals |
| Calculations.Total | utils/calculations.ts:18-33 | `calculateTotal` equals an independent per-transaction sum of the finite amounts of that type |
| Calculations.FilteredSumIsSumOfContributions | utils/calculations.ts:22-32 | the filter then the skipping fold sum exactly the finite amounts of that type |
| Calculations.TotalSingleton | utils/calculations.ts:22-32 | one transaction contributes its finite amount if of the type, else 0 |
| Calculations.TotalIgnores | utils/calculations.ts:27-29 | other-type or non-finite amounts never change a total; the empty total is 0 |
| Calculations.Balance | utils/calculations.ts:42-46 | the balance is the sum of the signed finite amounts |
| Calculations.SignedSumSplits | utils/calculations.ts:42-46 | the signed sum is the income contributions minus the expense contributions |
| Calculations.BalanceAppend | utils/calculations.ts:42-46 | the balance of a concatenation is the sum of the balances |
| Calculations.CalculateStats | utils/calculations.ts:80-94 | count is the length; income and expenses are the totals; balance is income minus expenses; the record is `StatsOf` the totals and the length; average is 0 iff the list is empty or the sum is 0 |
| Calculations.StatsOf | utils/calculations.ts:83-93 | the record of the totals: balance is income minus expenses; with count > 0, average times count is income plus expenses |
| Calculations.Average | utils/calculations.ts:85 | the quotient when count > 0, else 0; 0 iff count or sum is 0 |
| Calculations.ZeroAverageOfNonEmptyList | utils/calculations.ts:85 | a one-element list of amount 0 has average 0 |
| Calculations.Selected | utils/calculations.ts:61 | no type keeps every transaction; a type keeps exactly that type's |
| Calculations.Accumulate | utils/calculations.ts:64-67 | one reducer step adds the transaction's category as a key and leaves every other key's value alone |
| Calculations.CategoryTotals | utils/calculations.ts:63-69 | the reduce's keys are exactly the categories present |
| Calculations.CategoryTotalsAreSums | utils/calculations.ts:63-69 | with finite amounts, each category maps to its amount sum |
| Calculations.CategorySumAbsent | utils/calculations.ts:63-69 | an absent category sums to 0 |
| Calculations.SumOverCategoriesStep | utils/calculations.ts:63-69 | adding a transaction adds its amount once per listing of its category |
| Calculations.SumOverCategoriesOfEmpty | utils/calculations.ts:63-69 | over no transactions every category sums to 0 |
| Calculations.CategorySumsAddUp | utils/calculations.ts:63-69 | the five category sums add up to the sum of finite amounts |
| Calculations.SumOfValuesMatches | utils/calculations.ts:63-69 | with finite amounts, the result's values read over the categories equal the category sums |
| Calculations.ByCategorySums | utils/calculations.ts:57-70 | with finite amounts, each category of the selection maps to its sum, and the values add up to the type total, or to income plus expenses without a type |
| Calculations.CalculateByCategory | utils/calculations.ts:57-70 | the reduce loop computes the per-category totals of the selection; with finite amounts the values add up to the type total, or to income plus expenses without a type |
| Calculations.SumFiniteSplits | utils/calculations.ts:22-32 | the finite-amount sum is income total plus expense total |
| Formatting.DecimalString | utils/formatting.ts:91 | `String(n)` is non-empty decimal digits, one digit below 10, two below 100 |
| Formatting.DecimalStringRoundTrip | utils/formatting.ts:91 | the digits of `String(n)` denote `n` |
| Formatting.LeadingZero | utils/formatting.ts:91 | a leading '0' does not change the value of a digit string |
| Formatting.Pad | utils/formatting.ts:91 | at least two digits, exactly two below 100, denoting `n`, with no leading zero beyond the padding |
| Formatting.FormatTime | utils/formatting.ts:86-98 | `MM:SS` (five characters) exactly under an hour, `H..H:MM:SS` from an hour on; the fields read back as `s % 60`, `(s % 3600) / 60` and, in the long form, `s / 3600` |
| Formatting.Field | utils/formatting.ts:91 | a clock field reads back iff it is digits |
| Formatting.TimeSplit | utils/formatting.ts:87-89 | hours, minutes and seconds recombine into the input |
| Formatting.ParseShort | utils/formatting.ts:97 | `MM:SS` with both fields below 60 reads back to minutes and seconds |
| Formatting.ParseLong | utils/formatting.ts:93-95 | `H..H:MM:SS` with positive hours and minutes and seconds below 60 reads back to hours, minutes and seconds |
| Formatting.FormatTimeRoundTrip | utils/formatting.ts:86-98 | the canonical parse (fields below 60, positive unpadded hours) of `formatTime(s)` gives `s` back |
| Formatting.FormatTimeExample | utils/formatting.ts:84 | `formatTime(3665) = "01:01:05"` |
| Formatting.WithKey | utils/formatting.ts:142-152 | the selection by key has only items of that key |
| Formatting.Grouped | utils/formatting.ts:142-152 | the reduce creates a group for exactly the keys present, and no group is empty |
| Formatting.GroupedIsSelection | utils/formatting.ts:142-152 | groups exist for exactly the keys present, and each group is the in-order selection of its key |
| Formatting.WithKeyAbsent | utils/formatting.ts:142-152 | an absent key selects nothing |
| Formatting.TotalSizeWithout | utils/formatting.ts:142-152 | the size total splits off any one group |
| Formatting.TotalSizeUpdate | utils/formatting.ts:145-148 | replacing a group changes the size total by the difference |
| Formatting.GroupSizesAddUp | utils/formatting.ts:142-152 | group sizes sum to the input length |
| Formatting.FirstIndex | utils/formatting.ts:145-147 | the index of the first item with a key, or the length when there is none |
| Formatting.FirstIndexSnoc | utils/formatting.ts:145-147 | appending an item keeps the first index of known keys and makes a new key first met there |
| Formatting.KeyOrderIsFirstAppearance | utils/formatting.ts:142-152 | groups are created once per key, exactly for the keys present, in the order of their first item |
| Formatting.GroupByRelativeDate | utils/formatting.ts:139-153 | the reduce loop builds the groups: keys present, order-preserving selections, sizes summing to the input length; the key order (what `Object.keys` gives for date-label keys) has no repeats, matches the groups and follows first appearance |
| UseTransactions.WithoutId | hooks/useTransactions.ts:105 | keeps exactly the entries whose id differs |
| UseTransactions.WithoutIdAppend | hooks/useTransactions.ts:105 | the filter distributes over concatenation, so kept entries keep their order |
| UseTransactions.WithoutIdSingleton | hooks/useTransactions.ts:105 | one entry is kept iff its id differs |
| UseTransactions.WithoutIdIdempotent | hooks/useTransactions.ts:105 | deleting twice equals deleting once |
| UseTransactions.WithoutAbsentId | hooks/useTransactions.ts:105 | deleting an absent id changes nothing |
| UseTransactions.CreateThenDelete | hooks/useTransactions.ts:81-105 | deleting a freshly prepended transaction restores the list |
| UseTransactions.TransactionsState.constructor | hooks/useTransactions.ts:31-35 | empty list, not loading, no error |
| UseTransactions.TransactionsState.BeginLoad | hooks/useTransactions.ts:49 | loading set, error cleared, list kept |
| UseTransactions.TransactionsState.EndLoad | hooks/useTransactions.ts:50-62 | success replaces the list; failure records the message and keeps the list; loading ends |
| UseTransactions.TransactionsState.LoadTransactions | hooks/useTransactions.ts:42-66 | both updates: the list replaced with no error, or kept with the error; loading ends |
| UseTransactions.TransactionsState.CreateTransaction | hooks/useTransactions.ts:73-90 | success prepends and returns the transaction; failure keeps the list, records the error, returns null |
| UseTransactions.TransactionsState.DeleteTransaction | hooks/useTransactions.ts:97-114 | success filters out the id and returns true; failure keeps the list, records the error, returns false |
| UseTransactions.CreateThenDeleteRestores | hooks/useTransactions.ts:73-114 | create then delete of a fresh id restores the list |
| AiService.FirstMissing | services/aiService.ts:116-120 | finds the first required field absent from the reply, in order |
| AiService.ToNumber | services/aiService.ts:135 | `Number(v)` as `Math.max` applies it: a number is itself, `true` 1, `false` and `null` 0, `undefined` NaN |
| AiService.MaxZero | services/aiService.ts:135 | `Math.max(0, x)`: NaN iff `x` is NaN, never below 0 |
| AiService.MinOne | services/aiService.ts:135 | `Math.min(1, x)`: NaN iff `x` is NaN, never above 1 |
| AiService.ClampAsWritten | services/aiService.ts:135 | the clamp lands in [0, 1] unless the confidence converts to NaN, and then it is NaN |
| AiService.Clamp | services/aiService.ts:135 | always a finite value in [0, 1], and equal to the written clamp on numbers |
| AiService.KindOf | services/aiService.ts:126-128 | accepts exactly the strings "expense" and "income" |
| AiService.ValidateResponseAsWritten | services/aiService.ts:107-137 | rejects the first missing field, a non-number or `<= 0` amount, then an unknown type, each with its message; otherwise copies the fields and clamps the confidence |
| AiService.ValidateResponse | services/aiService.ts:107-137 | the same checks with only finite positive amounts accepted; the confidence is always in [0, 1] |
| AiService.ValidatorsAgree | services/aiService.ts:122-135 | both validators agree on finite amounts and numeric confidences |
| AiService.Encode | services/aiService.ts:14-20 | the reply form of a categorization has every required field |
| AiService.ValidateEncoded | services/aiService.ts:107-137 | a well-formed categorization passes both validators unchanged |
| AiService.NaNConfidenceEscapesClamp | services/aiService.ts:135 | a textual confidence is accepted with a NaN confidence |
| AiService.NonFiniteAmountAccepted | services/aiService.ts:122-124 | a NaN or infinite amount passes the written check |
| AiService.MockResponse | services/aiService.ts:142-150 | the mock has a positive amount, a confidence in [0, 1] and type expense |
| AiService.MockIsValid | services/aiService.ts:142-150 | the mock passes the validator |
| AiService.AIService.constructor | services/aiService.ts:46 | the mock switch starts off |
| AiService.AIService.SetUseMock | services/aiService.ts:152-154 | the switch takes the given value |
| AiService.AIService.CategorizeAudio | services/aiService.ts:58-68 | with the switch on it returns the mock without the backend; otherwise the backend's outcome, unvalidated |
| AiService.AIServiceHolder.GetInstance | services/aiService.ts:48-53 | creates one service on first use and returns it ever after |
| AiService.MockModeIgnoresBackend | services/aiService.ts:58-68 | in mock mode the answer is the validated mock whatever the backend does |
| AudioServiceModel.AudioService.constructor | services/audioService.ts:24-29 | nothing held, no uri, both flags down |
| AudioServiceModel.AudioService.GetStatus | services/audioService.ts:283-289 | reports exactly the two flags and the uri |
| AudioServiceModel.AudioService.StartRecording | services/audioService.ts:68-110 | succeeds iff the unload, prepare and start calls all succeed, then recording, not paused, no uri; a recording object is held afterwards; failure keeps the flags |
| AudioServiceModel.AudioService.PauseRecording | services/audioService.ts:117-129 | fails without a recording; on success sets paused; on failure keeps the flag |
| AudioServiceModel.AudioService.ResumeRecording | services/audioService.ts:136-148 | fails unless a recording exists and is paused; on success clears paused |
| AudioServiceModel.AudioService.StopRecording | services/audioService.ts:155-177 | fails without a recording; once unloaded, clears both flags and keeps the uri or null; a missing uri then fails with the state already cleared |
| AudioServiceModel.AudioService.PlayAudio | services/audioService.ts:185-199 | unloads any held sound, then loads and plays a new one; fails with its message if a call throws |
| AudioServiceModel.AudioService.StopAudio | services/audioService.ts:206-215 | fails only when a held sound's pause throws |
| AudioServiceModel.AudioService.Cleanup | services/audioService.ts:260-277 | releases recording then sound then drops both flags; a throwing call ends it silently with earlier steps kept; the uri is kept |
| AudioServiceModel.AudioServiceHolder.GetInstance | services/audioService.ts:35-40 | creates one service on first use and returns it ever after |
| AudioServiceModel.RecordOnce | services/audioService.ts:68-177 | start, pause, resume and stop succeed in turn and leave the uri with both flags down |
| AudioServiceModel.CleanupCanLeaveStaleFlags | services/audioService.ts:260-277 | a failed sound unload after the recording is released leaves `isRecording` set with no recording held |
| UseAudioRecorder.AudioRecorder.constructor | hooks/useAudioRecorder.ts:31-37 | both flags down, time 0, no uri, no error |
| UseAudioRecorder.AudioRecorder.Tick | hooks/useAudioRecorder.ts:40-53 | adds exactly one second, and only while recording and not paused |
| UseAudioRecorder.AudioRecorder.StartRecording | hooks/useAudioRecorder.ts:59-74 | success: hook and service recording, not paused, time 0, no uri, no error; failure: only the hook's error changes, and the service's flags and uri stay |
| UseAudioRecorder.AudioRecorder.PauseRecording | hooks/useAudioRecorder.ts:80-89 | success pauses hook and service with no error; failure keeps both paused flags and records the error; the service keeps its recording |
| UseAudioRecorder.AudioRecorder.ResumeRecording | hooks/useAudioRecorder.ts:95-104 | success, decided by the service's paused flag, unpauses hook and service with no error; failure keeps both paused flags and records the error; the service keeps its recording |
| UseAudioRecorder.AudioRecorder.StopRecording | hooks/useAudioRecorder.ts:110-126 | success stores and returns the uri with both flags down; failure records the error, drops recording, returns null; a successful unload releases the service's recording and drops its flags, a failed one leaves the service as it was |
| UseAudioRecorder.AudioRecorder.ClearRecording | hooks/useAudioRecorder.ts:132-140 | back to exactly the initial state |
| UseAudioRecorder.CountWhileRecording | hooks/useAudioRecorder.ts:40-53 | ticks count while recording and stop counting once paused |
| UseAudioRecorder.RecordPauseResumeStop | hooks/useAudioRecorder.ts:59-126 | start, pause, resume and stop through the hook: the pause reaches the service, so the resume succeeds, and the stop returns the uri (or null with the stop error) with hook and service stopped |
| UseAudioRecorder.FailedStopDesynchronises | hooks/useAudioRecorder.ts:121-125 | a failed unload leaves the hook stopped while the service still records |

## Left out

- Network, storage and expo-av calls are not modelled. Only whether each one throws is modelled, through the `fails` sets and the `Result` parameters.
- The outer shape of JSON replies and of axios errors is not modelled. An error is reduced to its message and its optional status.
- Console logging is not modelled.
- Concurrency is not modelled: each asynchronous operation is one atomic step. Interleaved requests, React batching and the order of effects are not captured.
- The React effects that call `initialize` on mount and `loadTransactions` when `userId` changes are not modelled as automatic triggers. They are the ordinary operations.
- Screens, components, navigation and the route guard are not modelled, because they only render.
- `services/transactionService.ts`, `utils/fetchWithTimeout.ts` and `utils/AppendAudio.ts` are not part of this model. They are network and platform I/O.
- `sendToBackend` in `services/aiService.ts` is not modelled, because it uploads over the network. Its outcome is the `backend` parameter of `CategorizeAudio`.
- `setupAudioSession`, `audioToBase64` and `getAudioFileSize` are not modelled, because they are permission and file-system I/O. Playback appears only as `PlayAudio` and `StopAudio` on the sound flag.
- The recording options and the audio file contents are not modelled.
- `formatCurrency`, `formatNumber`, `formatDate`, `formatDateShort` and `getRelativeDate` are not modelled, because they depend on the locale and the clock. The date key of `groupByRelativeDate` is a function parameter.
- The date filters of `utils/calculations.ts` are not modelled, because they depend on `Date` and the clock.
- Formatting.GroupByRelativeDate: the key order is `Object.keys` order only for keys that are neither array indices (listed numerically first) nor `Object.prototype` names (where `acc[key].push` throws); `getRelativeDate` produces neither, and the key function is a parameter.
- Formatting.FormatTime: covers only whole, non-negative seconds. Fractions and negative inputs, which the source accepts, are out of scope.
- TransactionTypes.Add: finite amounts are exact reals, so floating-point rounding and overflow to infinity are not modelled.
- Calculations.CalculateStats: its sums use exact reals, so floating-point rounding is not modelled.
- `Number(t.amount)` on non-number amounts is not modelled. Amounts are already numbers in the model.
- AiService.ToNumber: string and object conversion is given with the value rather than computed from its text.
- `ENDPOINTS.LOGIN` is undefined in `constants/api.ts`, so the model posts to the empty path.
- The form validation in `app/add.tsx` is not modelled, because it is tied to screen state and timers.
- The `user` cell is never restored by `initialize`, since the source keeps no user cache.

## Findings

| source | as written | input that shows it | evidently intended | confidence | as-written member | corrected member |
|---|---|---|---|---|---|---|
| services/authService.ts:25-29 | the 401 check reads `error.response.status`, but the response interceptor (infra/http.ts:31-38) has already replaced a 401 with `new Error("SESSION_EXPIRED")`, which has no response | a login the backend answers with 401 | a rejected password reports the invalid-credentials message | not executed; high | AuthService.LoginAsWritten | AuthService.LoginCorrected |
| services/aiService.ts:135 | `Math.min(1, Math.max(0, c))` propagates NaN, so a confidence that is not a number passes unclamped | a reply with `confidence: "high"` | the confidence always lies in [0, 1] | not executed; high | AiService.NaNConfidenceEscapesClamp | AiService.ValidateResponse |
| services/aiService.ts:122-124 | `data.amount <= 0` is false for NaN, so NaN and Infinity pass as amounts | a reply with `amount: NaN` (or `Infinity`) | only finite positive amounts are accepted | not executed; medium | AiService.NonFiniteAmountAccepted | AiService.ValidateResponse |

`validateResponse` is never called: `categorizeAudio` returns the backend reply unvalidated. `AiService.CategorizeAudio` models it that way.
