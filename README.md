# Aware India client: session, API and view logic in Dafny

Aware India is a web client for scanning packaged-food labels. A signed-in
user uploads a photo of a product, or two photos to compare products. The
backend answers with an ingredient analysis: a health score from 0 to 10,
nutrition estimates, allergy warnings and advice. The client keeps a
history of past scans.

This project models the client's core:

- **Session.** The token store (`AuthTokenService`) keeps the access token
  and its expiry in memory. It keeps the refresh token and the user id in
  durable storage.
- **Authenticated dispatcher** (`Dispatch`). It attaches the bearer token.
  On a 401 or 403 it refreshes the session once, through a shared refresh
  mutex, and re-issues the request.
- **API calls** (`Api`). Each call turns a response, a timeout or a failed
  connection into a value or an `ApiError` with a message, a status and a
  code. This covers the upload route choice and the progress reporting of
  a comparison.
- **Session provider** (`AuthContext`). It covers the error-message
  classifier, the user derived from the token's claims, and the login,
  signup, logout and start-up flows.
- **Pages as state machines.** The scan page (`ScanPage`), the compare page
  (`ComparePage`) and the confirmation page (`ConfirmPage`). Their handlers
  are methods over the page's fields.
- **Pure view logic.** This covers the health-score bands and their
  colours, the ingredient card, the nutrition chips, the comparison card,
  the history page's search and statistics, the loading overlay and the
  navigation bar.

The network, the clock, the JWT decoder, the image-compression library and
the ImageKit SDK are parameters. A request's outcome is a value of
`Api.Outcome` or of `Result<Reply, Exception>`. Time is an integer `now` in
milliseconds. A pending promise is represented by the value it settles to.
Durable storage (`localStorage`) is a `map<string, string>` field of the
token store.

## Model

| member | source | states |
|---|---|---|
| AuthTokenService.ExpiryAt | src/lib/authTokenService.ts:33-35 | The recorded expiry is the server lifetime in ms minus the 60 s buffer. A lifetime of at least 60 s never expires before `now`. |
| AuthTokenService.TokenStore.constructor | src/lib/authTokenService.ts:20-23 | A fresh instance holds no access token and counts as expired. The refresh token and user id come from storage. |
| AuthTokenService.TokenStore.AccessToken | src/lib/authTokenService.ts:45-47 | The in-memory token only, never storage (after a reload it is absent, see `ReloadAfterSetTokens`). It is truthy exactly when the token data reports one. |
| AuthTokenService.TokenStore.RefreshToken | src/lib/authTokenService.ts:52-54 | Storage only: present exactly when storage holds the refresh-token key, with its stored value. |
| AuthTokenService.TokenStore.UserId | src/lib/authTokenService.ts:59-61 | The in-memory id when non-empty, otherwise the stored one. |
| AuthTokenService.TokenStore.IsAccessTokenExpired | src/lib/authTokenService.ts:66-71 | Not expired exactly when a non-empty token and a non-zero expiry are held and `now` is before the expiry. |
| AuthTokenService.TokenStore.HasRefreshToken | src/lib/authTokenService.ts:76-78 | True exactly when storage holds a non-empty refresh token. |
| AuthTokenService.TokenStore.GetTokenData | src/lib/authTokenService.ts:94-101 | Each field is present exactly when its source is truthy, and then equals it. |
| AuthTokenService.TokenStore.SetTokens | src/lib/authTokenService.ts:28-40 | Overwrites the whole session and both storage keys and keeps every other storage key. The getters return the new values. Expiry holds exactly from the computed timestamp on. |
| AuthTokenService.TokenStore.ClearTokens | src/lib/authTokenService.ts:83-89 | Wipes memory and the two storage keys and nothing else. Every getter is then empty and the token counts as expired. |
| AuthTokenService.SetTokensForgetsPriorSession | src/lib/authTokenService.ts:28-40 | Two stores given the same `setTokens` call end in the same session whatever they held before. |
| AuthTokenService.ClearTokensTwice | src/lib/authTokenService.ts:83-89 | Clearing twice equals clearing once. |
| AuthTokenService.ReloadAfterSetTokens | src/lib/authTokenService.ts:21-23 | After a page reload only the refresh token and user id survive, so the session counts as expired. |
| Api.Settle | src/lib/api.ts:55-74 | A request resolves exactly when a response arrives. It rejects with an `AbortError` exactly on timeout. |
| Api.Login | src/lib/api.ts:149-174 | Succeeds exactly on a 2xx, with the body. Otherwise the error carries the detail or "Login failed" and the status, with AUTH_FAILED exactly for 401. A transport failure gives NETWORK_ERROR with the connectivity message. |
| Api.Signup | src/lib/api.ts:179-204 | As login, with "Signup failed". |
| Api.LoginAgreesWithSignup | src/lib/api.ts:149-204 | Login and signup agree on success, status and code. They differ only in the default message. |
| Api.Refresh | src/lib/api.ts:209-230 | Succeeds exactly on a 2xx. Errors carry no code. A status is present exactly when a response arrived. |
| Api.Confirm | src/lib/api.ts:235-262 | Never throws. Every failure is `success: false` with a non-empty message. |
| Api.Logout | src/lib/api.ts:267-292 | Never throws. Every failure is `success: false`. |
| Api.GetImageKitAuth | src/lib/api.ts:297-314 | Succeeds exactly on a 2xx. Otherwise it fails with the detail or the default text and the status, or with the network message. |
| Api.WrapException | src/lib/api.ts:407-413 | An `ApiError` is rethrown unchanged. An abort becomes TIMEOUT only when the call has a timeout message. Code TIMEOUT never comes from another error. |
| Api.MockUpload | src/lib/api.ts:392-414 | Succeeds exactly on a 2xx. A non-ok status gives "Failed to upload image". A rejection is wrapped with the upload timeout text. |
| Api.StatusMessage | src/lib/api.ts:430-439 | The detail wins. Without one, 417 is a processing failure and any other status a plain failure. |
| Api.Scan | src/lib/api.ts:419-458 | Succeeds exactly on a 2xx. The result keeps the response's url, or the request's url when that one is empty. Failures follow `StatusMessage` and `WrapException`. |
| Api.GetHistory | src/lib/api.ts:463-478 | Succeeds exactly on a 2xx. It throws on every failure and has no timeout message. |
| Api.TimeoutOnlyFromAbort | src/lib/api.ts:451-477 | A scan fails with TIMEOUT only after an abort. History never reports an abort as a timeout. |
| Api.Route | src/lib/api.ts:328-361 | The backend path is taken exactly in mock mode or with no SDK keys at all. "Missing parameters" happens exactly otherwise when token, signature or expire is falsy. |
| Api.UploadImage | src/lib/api.ts:319-387 | An auth failure propagates. The backend route returns the mock url. The SDK route reports 10 then 100 on success. A missing parameter or an SDK error reports 10 and fails with its message. |
| Api.UploadShare | src/lib/api.ts:496-501 | An upload's 0..100 progress maps into 10..45 of the comparison. |
| Api.CompareRequestOf | src/lib/api.ts:507-513 | The urls and category are passed through. A missing allergy or use-case text becomes "". |
| Api.Compare | src/lib/api.ts:483-546 | The request is posted exactly when both uploads succeed, to "/comapre", with both urls. The first failing upload's error is returned. Progress is 10, both uploads' scaled reports, 50 once posted and 100 on success. |
| Api.CompareProgressInRange | src/lib/api.ts:492-535 | When every upload report lies in 0..100, every progress value of a comparison lies in 10..100. |
| Dispatch.WithBearer | src/lib/api.ts:86-92 | An `Authorization: Bearer` header is set exactly when a non-empty token is held. Every other header is kept. |
| Dispatch.RefreshMutex.Acquire | src/lib/api.ts:103-109 | A refresh request starts only when none is pending; otherwise the pending one is joined. |
| Dispatch.RefreshMutex.Release | src/lib/api.ts:119-126 | The flag and the promise are cleared together. |
| Dispatch.Joined | src/lib/api.ts:103-109 | What the awaited refresh settles to: the pending one, or a new refresh of this token. |
| Dispatch.FetchWithAuth | src/lib/api.ts:79-140 | The first request carries the held token. Without an auth failure, retry flag and refresh token the response is returned and nothing changes. Otherwise, on refresh success the tokens are stored and the request is re-issued once with the new token. On refresh failure the session is cleared, `auth:token-expired` fires and a 401 "Session expired" is thrown. |
| Dispatch.RefreshAndRetry | src/lib/api.ts:100-136 | The refresh branch alone. The mutex is always released, and the retry has no further retries. |
| Dispatch.SecondAuthFailureIsReturned | src/lib/api.ts:122-123 | A 401 after a successful refresh reaches the caller as a response, not another refresh. |
| AuthContext.FirstRuleSound | src/contexts/AuthContext.tsx:28-39 | The rule table answers some rule's message. It answers nothing exactly when no phrase of any rule occurs. |
| AuthContext.MapAuthError | src/contexts/AuthContext.tsx:20-45 | Never empty. A network error gives the connectivity message. A non-auth error gives its message or "Operation failed". |
| AuthContext.MapAuthErrorFollowsRules | src/contexts/AuthContext.tsx:25-41 | On an auth failure the first matching phrase rule in source order wins. With none, the message itself or "Invalid credentials". |
| AuthContext.ErrorText | src/contexts/AuthContext.tsx:159-161 | The mapped message, never empty. |
| AuthContext.WrongPasswordIsReported | src/contexts/AuthContext.tsx:25-30 | A 401 with detail "Invalid credentials" is shown as "Invalid email or password". |
| AuthContext.UnreachableIsReported | src/contexts/AuthContext.tsx:20-23 | A failed connection during login or signup shows the connectivity message. |
| AuthContext.BeforeAt | src/contexts/AuthContext.tsx:66 | `split('@')[0]`: the longest '@'-free prefix. |
| AuthContext.Username | src/contexts/AuthContext.tsx:60-66 | The username claim, else the e-mail's local part, else "User". It is never empty. |
| AuthContext.UserFromToken | src/contexts/AuthContext.tsx:55-74 | A user exactly when the token decodes, with the given id, the e-mail or "", the username, the name or "User", and the decoding time as `createdAt`. |
| AuthContext.LocalPartUsername | src/contexts/AuthContext.tsx:60-66 | With no username claim, `local@domain` yields the username `local`. |
| AuthContext.AuthProvider.constructor | src/contexts/AuthContext.tsx:48-52 | The provider mounts loading with nobody signed in. |
| AuthContext.AuthProvider.InitAuth | src/contexts/AuthContext.tsx:78-122 | Without both a refresh token and a user id: signed out and the store untouched. Otherwise exactly one refresh; failure clears the store; success stores the tokens and signs in only if the token decodes. Loading always ends. |
| AuthContext.AuthProvider.HandleTokenExpiry | src/contexts/AuthContext.tsx:126-132 | Signs out. |
| AuthContext.AuthProvider.Login | src/contexts/AuthContext.tsx:138-163 | Succeeds exactly when the call does, storing the tokens and marking the session authenticated. A failure returns the mapped message and changes nothing. |
| AuthContext.AuthProvider.Signup | src/contexts/AuthContext.tsx:165-178 | Reports success or the mapped, non-empty message. It creates no session. |
| AuthContext.AuthProvider.Logout | src/contexts/AuthContext.tsx:180-194 | Notifies the backend only when a token is held, then always clears the store and signs out. |
| AuthContext.AuthProvider.DeleteAccount | src/contexts/AuthContext.tsx:196-199 | Always refused with the same message. |
| Image.ValidateImageFile | src/lib/image.ts:41-60 | Valid exactly for an accepted type at most 10 MiB, with no error. The type is checked before the size. |
| Image.SizeLimitIsInclusive | src/lib/image.ts:43-57 | Exactly 10 MiB is accepted, one byte more is not. |
| Image.MergeOptions | src/lib/image.ts:9-22 | Each option the caller gives wins, each missing one takes its default. |
| Image.NoOptionsMeansDefaults | src/lib/image.ts:9-22 | No options give the defaults. |
| Image.CompressImage | src/lib/image.ts:18-36 | The library's output, or the original file when compression fails. |
| HealthScoreBadge.BandOf | src/components/HealthScoreBadge.tsx:16-26 | Good from 7, Fair from 4, Poor below. |
| HealthScoreBadge.BandIsMonotone | src/components/HealthScoreBadge.tsx:16-26 | A higher score never falls into a lower band. |
| HealthScoreBadge.ScoreColor | src/components/HealthScoreBadge.tsx:16-20 | The badge colour agrees with the band. |
| HealthScoreBadge.ScoreLabel | src/components/HealthScoreBadge.tsx:22-26 | The label names the band. |
| HealthScoreBadge.LabelTone | src/components/HealthScoreBadge.tsx:50 | The label's tone agrees with the band. |
| HealthScoreBadge.Gradient | src/components/HealthScoreBadge.tsx:68-72 | The meter gradient agrees with the band. |
| HealthScoreBadge.RadialColor | src/components/HealthScoreBadge.tsx:117-121 | The gauge colour agrees with the band. |
| HealthScoreBadge.RadialLabel | src/components/HealthScoreBadge.tsx:123-127 | The gauge label agrees with the badge label. |
| HealthScoreBadge.MeterPercentage | src/components/HealthScoreBadge.tsx:66 | Scores 0..10 fill 0..100 per cent. |
| IngredientCard.TypeClass | src/components/IngredientCard.tsx:15-24 | The mapped class of a known type, the neutral class otherwise. It is never empty. |
| IngredientCard.Spaced | src/components/IngredientCard.tsx:27 | Every underscore becomes a space and nothing else changes. |
| IngredientCard.CapitalizeWords | src/components/IngredientCard.tsx:27 | Exactly the characters where `\b\w` matches are upper-cased. |
| IngredientCard.FormatType | src/components/IngredientCard.tsx:26-28 | The same length, no underscore left, and word starts upper-cased. |
| IngredientCard.FormatTypeIdempotent | src/components/IngredientCard.tsx:26-28 | Formatting a formatted label changes nothing. |
| IngredientCard.FormatSingleWord | src/components/IngredientCard.tsx:26-28 | A single word gets only its first letter upper-cased. |
| IngredientCard.DisplayDescription | src/components/IngredientCard.tsx:30-33 | Expanded or short: the whole text. Otherwise the first 100 characters and "...". |
| IngredientCard.Insert | src/components/IngredientCard.tsx:105 | Adds exactly one element, keeping the others. |
| IngredientCard.InsertSorted | src/components/IngredientCard.tsx:105 | Inserting into a sorted list keeps it sorted. |
| IngredientCard.SortByScore | src/components/IngredientCard.tsx:105 | Sorted ascending by score, and a permutation of the input. |
| IngredientCard.SortByScoreKeepsSorted | src/components/IngredientCard.tsx:105 | An already sorted list keeps its order. |
| IngredientCard.IngredientList | src/components/IngredientCard.tsx:95-105 | The "no information" notice exactly for an empty list; otherwise the ingredients worst first. |
| NutritionChips.AvailableItems | src/components/NutritionChips.tsx:18-30 | In list order, exactly the items whose value is present. |
| NutritionChips.ZeroIsShown | src/components/NutritionChips.tsx:28-30 | A zero value is shown. |
| NutritionChips.SodiumIsNeverShown | src/components/NutritionChips.tsx:18-25 | The sodium value never changes what is shown. |
| NutritionChips.NothingAvailable | src/components/NutritionChips.tsx:28-34 | Nothing is shown exactly when all six values are missing. |
| NutritionChips.Rendered | src/components/NutritionChips.tsx:68-75 | Nothing is rendered when nothing is available. Otherwise each available item is rendered with its own value. |
| CompareResultCard.BestBadges | src/components/CompareResultCard.tsx:16-17 | Exactly one product is crowned. The first is crowned exactly when it is named best or scores higher. |
| CompareResultCard.TieGoesToSecond | src/components/CompareResultCard.tsx:16-17 | On equal scores the second wins unless the first is named. |
| CompareResultCard.SafetyLabel | src/components/CompareResultCard.tsx:100 | "Safe" exactly for a safe product, else "Caution". |
| HistoryPage.LoadedHistory | src/pages/History.tsx:30-40 | A failed fetch leaves an empty history. |
| HistoryPage.FilteredHistory | src/pages/History.tsx:48-50 | An in-order subsequence holding exactly the items whose lower-cased name contains the lower-cased query. |
| HistoryPage.EmptyQueryKeepsAll | src/pages/History.tsx:48-50 | An empty query shows the whole history. |
| HistoryPage.SearchIgnoresCase | src/pages/History.tsx:48-50 | Queries differing only in letter case filter alike. |
| Common.Round | src/pages/History.tsx:63 | `Math.round`: the nearest integer, halves up. |
| HistoryPage.Stats | src/pages/History.tsx:61-64 | The scan count, and the average rounded to the nearest integer (0 for an empty history). |
| HistoryPage.AverageWithin | src/pages/History.tsx:62-64 | The rounded average of scores between two integers lies between them. |
| HistoryPage.AvgToneAsWritten | src/pages/History.tsx:108 | The average's colour as written: above 70 safe, above 40 warning, else danger. |
| HistoryPage.AsWrittenAverageIsAlwaysDanger | src/pages/History.tsx:108 | With scores on the 0..10 scale, the average as written is always coloured danger. |
| HistoryPage.AsWrittenCounterexample | src/pages/History.tsx:108 | A single scan scoring 9, a Good badge, gets a danger-coloured average. |
| HistoryPage.AvgTone | src/components/HealthScoreBadge.tsx:50 | The average's colour on the badge scale: the badge label's tone. |
| HistoryPage.GoodHistoryIsSafe | src/pages/History.tsx:108 | With the badge scale, an all-Good history shows a safe average. |
| HistoryPage.FairHistoryIsNotDanger | src/pages/History.tsx:108 | With the badge scale, a history with no Poor score never shows danger. |
| Spinner.JsRem | src/components/Spinner.tsx:104 | JavaScript `%`: the remainder takes the sign of the dividend. |
| Spinner.MessageIndex | src/components/Spinner.tsx:104 | The message index is always in range. It is 0 without progress, and the number of whole quarters modulo 4 for a progress of at least 0. A negative progress whose JavaScript remainder is negative has no index, since the overlay would read `messages[-k]`. |
| Spinner.Message | src/components/Spinner.tsx:62-67 | One of the four messages, at that index. |
| Spinner.MessagesFollowProgress | src/components/Spinner.tsx:104 | For every progress p of at least 0, p + 25 shows the message after p's, cyclically. Without a progress the first message shows. |
| Spinner.ProgressHasMessage | src/components/Spinner.tsx:104 | Every progress from 0 to 100 has a message. |
| Spinner.ProgressBar | src/components/Spinner.tsx:109-117 | The bar is shown exactly when a progress is given, at that width. Its label `Math.round(progress)%` is within half a point of the progress, and within 0..100 for a progress in 0..100. |
| NavBar.VisibleLinks | src/components/NavBar.tsx:26-33 | In order, exactly the unprotected links and, when signed in, the protected ones. |
| NavBar.VisibleLinksBySession | src/components/NavBar.tsx:26-33 | Signed out only Home shows; signed in all four. |
| NavBar.AtMostOneActive | src/components/NavBar.tsx:59 | At most one visible link is highlighted. |
| NavBar.DisplayName | src/components/NavBar.tsx:75 | The user's name, or "User". It is never empty. |
| ScanPage.FailureMessage | src/pages/Scan.tsx:146-160 | A 401 reads "Session expired". Any other API error shows its own message. |
| ScanPage.NextScanProgress | src/pages/Scan.tsx:129-131 | Each timer firing adds 5, capped at 90. |
| ScanPage.ProgressFromZero | src/pages/Scan.tsx:129-131 | From 0, n firings give 5n up to 90. |
| ScanPage.ProgressAfterBounded | src/pages/Scan.tsx:129-131 | The timer never takes progress past 90, nor back. |
| ScanPage.ScanView.constructor | src/pages/Scan.tsx:63-71 | The initial page state. |
| ScanPage.ScanView.HandleFileSelect | src/pages/Scan.tsx:82-89 | A new file clears the result and the error and returns to idle. |
| ScanPage.ScanView.HandleClearFile | src/pages/Scan.tsx:91-98 | Clears the file, the result and the error. Scanning is then impossible. |
| ScanPage.ScanView.HandleScanAgain | src/pages/Scan.tsx:164-168 | Back to an empty form with the default category. |
| ScanPage.ScanView.Tick | src/pages/Scan.tsx:129-131 | One timer firing; nothing else changes. |
| ScanPage.ScanView.RunTimer | src/pages/Scan.tsx:129-131 | n firings of the timer. |
| ScanPage.ScanView.HandleScan | src/pages/Scan.tsx:100-162 | No file: nothing changes. An upload failure ends in Error with the upload's progress. An upload success posts exactly one request, and the page ends Complete with the result at 100, or in Error with the timer's progress. |
| ScanPage.BusyPageCannotScan | src/pages/Scan.tsx:170 | A running scan disables the button. |
| ComparePage.CompareView.constructor | src/pages/Compare.tsx:40-56 | The initial page state. |
| ComparePage.CompareView.HandleFileSelect | src/pages/Compare.tsx:66-82 | Only that slot changes. The result and the error are dropped. |
| ComparePage.CompareView.HandleClearFile | src/pages/Compare.tsx:84-100 | Only that slot is cleared, with the result and the error. |
| ComparePage.CannotCompare | src/pages/Compare.tsx:172 | A page missing either file or the category, or not idle, cannot compare. |
| ComparePage.CompareView.HandleCompareAgain | src/pages/Compare.tsx:164-170 | Back to an empty form. |
| ComparePage.CompareView.TryAgain | src/pages/Compare.tsx:243-246 | Back to idle with no error; files and form kept. |
| ComparePage.CompareView.HandleCompare | src/pages/Compare.tsx:102-162 | Missing a file: nothing changes. Otherwise both compressed files go to `Api.Compare`. The page ends Complete with the result at 100, or in Error with the mapped message and the last reported progress. |
| ConfirmPage.ConfirmView.constructor | src/pages/Confirm.tsx:13-14 | The page mounts confirming. |
| ConfirmPage.ConfirmView.ConfirmEmail | src/pages/Confirm.tsx:17-40 | No token: an error and no request. Otherwise one request, then success or the failure message. The page never stays confirming, and an error always has text. |
| ConfirmPage.UnreachableConfirmation | src/pages/Confirm.tsx:28-38 | A network failure shows the client's own message. |

## Left out

- **Network, timers and storage.** These are parameters or abstract
  outcomes. `fetchWithTimeout` is an `Outcome`, and the 60 s
  `REQUEST_TIMEOUT` is not a number in the model.
- **Progress timer.** The scan page's timer is a count of firings before
  the scan request settles. The model does not show that the timer is left
  running when the scan fails.
- **Concurrency.** There is no interleaving. A pending refresh is modelled
  by the value it settles to. The two uploads of a comparison (run with
  `Promise.all`) are two independent runs. On a failure, `compare` reports
  the first upload's error; the order of rejection is not modelled.
- **Intermediate page states.** The handlers `handleScan` and
  `handleCompare` write each field once per settled step. The page states
  passed through are returned as a trace. Intermediate progress values and
  the live upload-progress callbacks are not page fields in the model.
- **Strings.** Case mapping and `\w` / `\b` are ASCII-only. Strings are
  sequences of code points, not UTF-16 units.
- **Numbers.** Numbers are mathematical reals and integers. The 0.35 share
  of an upload is exact, and NaN and the infinities are not modelled.
- **JSON bodies.** An error body that fails to parse, or that has no
  `detail`, is an absent detail. A success body is the decoded record; a
  success body that fails to parse is not modelled. A `detail` that is not
  a string, such as an array of validation errors, would become a message
  like "[object Object]"; the model takes every detail to be a string.
- **Compression options.** Options given explicitly as `undefined`, which
  the spread would copy over a default, are treated as missing.
- **Foreign code.** The JWT decoder and the compression library are
  parameters. The ImageKit SDK is a settled result.
- **Not modelled at all.**
  - `computeImageHash`: hashing with the browser's crypto is outside the
    core.
  - Preview URLs, date formatting and the radial gauge's geometry: they are
    rendering only.
  - Toasts and navigation: they are side effects with no state in the
    model.
  - Animations: rendering only.
  - The size classes of the badge, the meter and the spinner: they are
    CSS class tables, rendering only.
- IngredientCard.TypeClass: inherited object keys such as `constructor`,
  which `typeMap[type]` would also find, are not modelled.
- IngredientCard.SortByScore: the sort's stability is stated only for
  input that is already sorted (`SortByScoreKeepsSorted`). It is not
  stated for ties in general.
- AuthContext.AuthProvider.InitAuth: the module-level `isRefreshing` mutex
  is not shared with `initAuth`, which calls `refresh` directly, as the
  client does.
- Dispatch.FetchWithAuth: a `refresh` that is still pending when a second
  caller joins it is represented by its settled value. The model does not
  show callers interleaving while it is pending.
- AuthContext.UserFromToken: `createdAt` is the decoding time as a
  number of milliseconds, not its ISO-8601 text. A sign-in uses one `now`
  for the stored expiry and for `createdAt`.
- AuthContext.AuthProvider.Consistent: it holds after every handler of the
  provider. Between the dispatcher clearing the store and the
  `auth:token-expired` listener running, the provider can still claim a
  session. `HandleTokenExpiry` restores it from any state.
- **Upload retry.** The client does not retry or fall back to the backend
  after an SDK upload error, and the model follows the client.
- **Expired upload credentials.** The client does not check whether the
  upload credentials have expired before using them, and the model follows
  the client.
- **History errors.** `getHistory` throws rather than returning an empty
  list. The page turns the failure into an empty list.
- **Compare path.** The compare request is posted to the path as spelled
  in the client, `/comapre`.

## Findings

| source | as written | input that shows it | evidently intended | confidence | as-written member | corrected member |
|---|---|---|---|---|---|---|
| src/pages/History.tsx:108 | The average score is coloured safe above 70, warning above 40, and danger otherwise. Scores and their rounded average lie between 0 and 10. | A history with one scan scoring 9.0: its badge reads Good, but the average 9 is coloured danger | The badge thresholds on the 0..10 scale: safe from 7, warning from 4 | not executed | HistoryPage.AsWrittenAverageIsAlwaysDanger | HistoryPage.GoodHistoryIsSafe |
