# Expense app client — a Dafny model of its decision logic

This project models the client side of a React Native expense-sharing app: the HTTP
request wrapper and its error normalisation, the authentication service and the
credential store behind it, the shared sign-in state, the input handlers of the amount
keypad, the PIN pad and the sign-up form, the transaction list's paging rules, the
leaderboard's picks, and the query builders of every service module. Everything is
immutable data and total functions; the asynchronous work (the `fetch`, the secure-store
reads and writes, the server's reply) is an input to the function that models what the
code does with it.

Modules follow the source files:

| module | source file |
|---|---|
| `Base` | JavaScript string and number operations the code relies on (`trim`, `toLowerCase`, `split`, `String(n)`) |
| `Json` | the decoded-JSON values and JavaScript truthiness |
| `Query` | the shared "copy a field only when truthy" query builder and the query string |
| `Api` | `src/services/api.ts` |
| `Storage` | `app/services/storage.ts` |
| `Auth` | `src/services/auth.ts` |
| `AuthSession` | `app/contexts/AuthContext.tsx` |
| `Keypad` | `app/add-contribution.tsx` (the amount keypad) |
| `PinPad` | `app/pin.tsx` |
| `Signup` | `app/signup.tsx` |
| `TransactionService`, `TransactionList` | `src/services/transactions.ts`, `app/transactions.tsx` |
| `PartnerService`, `Leaderboard` | `src/services/partners.ts`, `app/leaderboard.tsx` |
| `UploadService`, `SaleService`, `CostEntryService`, `AllocationService` | `src/services/uploads.ts`, `sales.ts`, `costEntries.ts`, `allocations.ts` |

A service call is modelled as the `Api.Call` it issues (which member of `api`, the
endpoint, the payload and the options) and, where it touches the store, as the store
afterwards together with how its promise settles. Library code that is not visible here
(`JSON.stringify`/`JSON.parse`, the percent-encoding of `URLSearchParams`) is a function
parameter, with the properties a lemma needs stated as a predicate on it
(`Storage.Codec`, `Query.SafeEscape`). The secure store is a `map<string, string>`, and
its failures are inputs: the keys whose write rejects, and the keys whose read or delete
fails.

Behaviour of the code worth knowing:
- There is no offline-queue engine (no enqueue, replay, retry, backoff or identifier
  reconciliation). `syncOfflineQueue` is a single pass-through `POST`.
- No request is retried after a 401.
- Sign-out in the session provider clears the store and the state without calling the
  server.
- The PIN is four digits long.
- The sign-up screen submits through the session's `login`, so a new account is posted
  to `/auth/login`. `CreateUser` models the `/auth/register` call, which that screen
  does not use.
- `handleAuthError` classifies only `ApiError` values. A plain `Error` that carries a
  `status` is reported with every flag false.
- The sign-up handler checks the terms before validating, so a form without agreement
  shows no field errors.
- `api` defines only `get`, `post`, `put` and `delete`. `updateTransaction` and
  `updateCurrentUser` call `api.patch`, and `uploadReceipt` calls `api.upload`. Those
  calls reject before any request is sent.
- The cached profile carries `avatar_url` even though the `UserData` interface does not
  declare it, because `JSON.stringify` keeps it.

## Model

| member | source | states |
|---|---|---|
| Base.TrimEmptyIffAllSpace | app/signup.tsx:38-43 | `trim()` yields the empty string exactly when every character is white space. |
| Base.TrimIdempotent | app/signup.tsx:76-77 | Trimming an already trimmed string changes nothing. |
| Base.ToLower | app/transactions.tsx:89 | `toLowerCase` keeps the length and maps each character on its own, turning `A`-`Z` into `a`-`z`. |
| Base.JsLength | app/signup.tsx:50 | `.length` counts UTF-16 code units: between one and two per character, and exactly one per character iff none lies outside the Basic Multilingual Plane. |
| Base.AfterLastIsLastPart | src/services/auth.ts:147 | The text after the last separator is the last element of `split` on that separator. |
| Api.Url | src/services/api.ts:27-31 | The URL is the base followed by the endpoint. A `?` and the encoded query follow whenever a params object is given, so an empty one leaves a bare `?`. |
| Api.UrlCarriesQuery | src/services/api.ts:27-31 | With a form-encoding escape that never produces `&` or `=`, the text after the `?` decodes back to the escaped parameters, in order. |
| Api.MergeHeaders | src/services/api.ts:33-36 | The headers are the caller's keys plus `Content-Type`. Each caller value wins, and the JSON default survives only when the caller does not set it. |
| Api.Prepare | src/services/api.ts:25-49 | `fetch` receives the verb and the body unchanged. The URL starts with the base and the endpoint, and is exactly that iff no params object is given. The headers always carry `Content-Type` and keep every header the caller set. |
| Api.ReadBody | src/services/api.ts:55-64 | The body is read as JSON exactly when the content type contains `application/json`, and as text otherwise. |
| Api.HttpFailure | src/services/api.ts:66-76 | A non-2xx response becomes an `ApiError` with the HTTP status, `code` from the body, the body as data and no timeout flag. The message is the body's truthy `message`, else exactly `Request failed with status N`. |
| Api.Recover | src/services/api.ts:79-95 | An abort becomes the fixed timeout error and an `ApiError` is rethrown unchanged. Anything else becomes status 0 with the `Error`'s message or `Network request failed`, with no timeout flag. |
| Api.Attempt | src/services/api.ts:41-78 | The `try` block returns exactly on a readable 2xx response. The only `ApiError` it throws comes from a readable non-2xx response, and carries that response's status. A rejected fetch, or a body read that fails, is thrown unchanged. |
| Api.Request | src/services/api.ts:21-96 | The call resolves exactly on a readable 2xx response, with the body unchanged. A readable non-2xx response fails with its own status. The timeout flag is set exactly on aborts. Every failure without a response has status 0. Any such failure that is not an abort carries the `Error`'s message or `Network request failed`, with no timeout flag and no data. |
| Api.WithBody | src/services/api.ts:102-114 | `post` and `put` send a body exactly when the payload is truthy, as its serialisation. |
| Api.PostBodyPresence | src/services/api.ts:102-107 | An object payload is always sent, and a falsy one (`null`, `false`, `0`, `''`) is silently dropped. |
| Api.Dispatch | src/services/api.ts:98-117 | `api` has only `get`, `post`, `put` and `delete`, so a `patch` or `upload` call builds no request at all. The options pass unchanged. A body is sent iff the verb is `post` or `put` and a payload is given, and it is the payload's serialisation. |
| Api.GetSendsQuery | src/services/api.ts:21-100 | A `get` with a params object goes out as `GET` of base, endpoint, `?` and the encoded query, with the merged headers and no body. With a safe escape, the text after the `?` decodes back to the escaped parameters. |
| Api.PostSendsPayload | src/services/api.ts:21-107 | A `post` with an object payload goes out as `POST` of base and endpoint, with the merged headers and the payload's serialisation as body. With a serialiser that `JSON.parse` inverts, the server reads back exactly the encoded payload. |
| Api.FindPart | src/services/auth.ts:142-153 | `formData.get(name)` is the first part appended under that name, and is absent exactly when no part has it. |
| Api.FindPartAppend | src/services/auth.ts:142-153 | A later `append` is seen under a name only when no earlier part had that name. |
| Query.BuildCopies | src/services/transactions.ts:48-58 | For distinct field names, each field reaches the query exactly when it is truthy (so `0`, `''` and `false` are dropped), rendered as a string. |
| Query.BuildKeys | src/services/transactions.ts:48-58 | No query key other than the listed field names ever appears. |
| Query.BuildSpec | src/services/partners.ts:39-46 | Both halves of the builder's promise at once: each field is copied iff truthy, and every key is within the given set. |
| Query.BuildAllFalsy | src/services/allocations.ts:57-64 | A record with every field unset or falsy builds the empty query. |
| Query.DecodeEncode | src/services/api.ts:29-30 | The query string reads back to the escaped parameters in order. |
| Storage.SetItem | app/services/storage.ts:22-29 | A write either lands, or leaves the store as it was and rejects with the store's error. |
| Storage.GetItem | app/services/storage.ts:31-38 | A failed read reads as `null`; otherwise the stored value or `null`. |
| Storage.RemoveItem | app/services/storage.ts:40-46 | A delete removes the key, and a failed delete is swallowed. |
| Storage.SetTokens | app/services/storage.ts:49-54 | Only the two token keys are written, each independently. The call fails iff a write fails, and a failed key keeps its old value. |
| Storage.GetTokens | app/services/storage.ts:56-67 | A pair is returned iff both tokens are readable and non-empty, and then it is exactly the stored pair. |
| Storage.ClearTokens | app/services/storage.ts:69-74 | Only the token keys are removed, and it never fails. |
| Storage.SetUser | app/services/storage.ts:76-78 | Only the profile key is written, with the serialised profile. A failed write leaves the store unchanged and propagates. |
| Storage.GetUser | app/services/storage.ts:80-89 | A missing, empty, unreadable or undecodable profile reads as `null`; otherwise it is the decoded value. Decoding is abstracted to "a profile or nothing": a stored text that parses to a non-object counts as nothing. |
| Storage.ClearUser | app/services/storage.ts:91-93 | Only the profile key is removed, and it never fails. |
| Storage.ClearAll | app/services/storage.ts:95-100 | Every own key whose delete succeeds is gone, and every other key is kept. |
| Storage.SetTokensGetTokens | app/services/storage.ts:49-67 | Writing a non-empty pair and reading it back yields that pair. |
| Storage.SetUserGetUser | app/services/storage.ts:76-89 | With a codec that round-trips, writing a profile and reading it back yields that profile. |
| Storage.ClearAllLogsOut | app/services/storage.ts:56-100 | After a `clearAll` whose deletes succeed, neither tokens nor a profile can be read. |
| Storage.SetTokensKeepsUser | app/services/storage.ts:49-54 | Writing tokens leaves the profile exactly as readable as before. |
| Storage.SetUserKeepsTokens | app/services/storage.ts:76-78 | Writing a profile leaves the tokens exactly as readable as before. |
| Storage.PartialSetTokensMixesPairs | app/services/storage.ts:49-54 | There is no rollback: when only the refresh write fails, the call rejects, yet the store yields the new access token paired with the old refresh token. |
| Auth.KeepFieldErrors | src/services/auth.ts:40-46 | The loop keeps at most one error per entry. With no well-formed entries it keeps none; with all entries well-formed it keeps each one converted, in order. |
| Auth.KeepFieldErrorsAppend | src/services/auth.ts:40-46 | Each entry is judged on its own, so the filter distributes over concatenation and keeps the order. |
| Auth.ParseValidationErrors | src/services/auth.ts:34-49 | The result is `[]` unless the data is JSON whose `errors` is an array, and then it is that array filtered. |
| Auth.HandleAuthError | src/services/auth.ts:228-261 | For an `ApiError`: duplicate iff 409, rate-limited iff 429, timeout iff the flag is set, field errors only for 400, and the error's message. Anything else gives all flags false, no field errors, and the `Error`'s message or `An unexpected error occurred`. |
| Auth.TimeoutClassified | src/services/auth.ts:237-252 | Every abort the transport reports is classified as a timeout with the message `Request timed out`. |
| Auth.PersistSession | src/services/auth.ts:58-62 | After the reply, the tokens are written first and then the profile. The call succeeds iff both writes do, and returns the reply unchanged. A failed request writes nothing, and no key outside the store's own is touched. |
| Auth.PersistSessionReadsBack | src/services/auth.ts:51-77 | After a successful register or login, the store yields exactly the returned token pair and profile. |
| Auth.CreateUser | src/services/auth.ts:51-63 | The payload is posted unchanged to `/auth/register`, and then the session is persisted. |
| Auth.LoginUser | src/services/auth.ts:65-77 | The payload is posted unchanged to `/auth/login`, and then the session is persisted. |
| Auth.RefreshToken | src/services/auth.ts:85-101 | `{refresh_token}` is posted to `/auth/refresh`, and exactly the returned pair is stored. A failed request stores nothing. |
| Auth.RefreshTokenReadsBack | src/services/auth.ts:85-101 | After a successful refresh the store yields the new pair, and the cached profile is untouched. |
| Auth.LogoutUser | src/services/auth.ts:103-113 | The server call carries `all=true` only for a global sign-out. The store is cleared only after the server call resolves. |
| Auth.LogoutUserEndsSession | src/services/auth.ts:103-113 | A sign-out the server accepts leaves no readable session. One it rejects leaves the store as it was. |
| Auth.AvatarFileName | src/services/auth.ts:147 | The file name is the given name if any. Otherwise, when the URI is non-empty and does not end in `/`, it is the last element of `uri.split('/')`: a suffix of the URI, free of `/`, and preceded by a `/` unless it is the whole URI. Otherwise it is `avatar.jpg`. It is never empty. |
| Auth.ProfileFormFields | src/services/auth.ts:142-153 | `name`, `phone` and `company` reach the form exactly when truthy. The avatar part is present exactly when an avatar is given, with the derived file name and a JPEG default type. |
| Auth.UpdateCurrentUserSendsNothing | src/services/auth.ts:155 | The profile form is handed to `api.patch`, which does not exist, so no request ever leaves the client and the call rejects. |
| Auth.CachedProfile | src/services/auth.ts:214-223 | The cached profile copies the identity and contact fields, and takes both `createdAt` and `updatedAt` from `created_at`. |
| Auth.GetCurrentUser | src/services/auth.ts:206-226 | The call is a `GET` of `/users/me`. The profile is cached and the response is returned as is. A failed request caches nothing. |
| Auth.GetCurrentUserCaches | src/services/auth.ts:206-226 | After `getCurrentUser` the cached profile reads back with `updatedAt` equal to `createdAt`. |
| AuthSession.LoadStoredAuth | app/contexts/AuthContext.tsx:28-48 | A session is restored with the stored profile iff both the token pair and the profile read back. Otherwise only loading ends. Loading ends in every case. |
| AuthSession.ClearError | app/contexts/AuthContext.tsx:50-53 | The error and the field errors are emptied, and nothing else changes. |
| AuthSession.Login | app/contexts/AuthContext.tsx:55-79 | On success: signed in with the returned user, errors cleared, `{success: true}`. On failure: the error and field errors come from `handleAuthError`, the sign-in state is untouched, and the same message and errors are returned. |
| AuthSession.Logout | app/contexts/AuthContext.tsx:81-90 | Sign-out always ends with no user and not signed in, whatever the store does. The error fields are untouched. |
| AuthSession.StepConsistent | app/contexts/AuthContext.tsx:28-90 | Each event the provider handles (load, sign-in settling, sign-out, clearing the error) keeps "signed in" and "a profile is held" equivalent. |
| AuthSession.RunConsistent | app/contexts/AuthContext.tsx:22-90 | Under any sequence of events, "signed in" and "a profile is held" stay equivalent. |
| AuthSession.InitialConsistent | app/contexts/AuthContext.tsx:22-26 | The provider starts signed out, loading, with no user and no errors. |
| AuthSession.LoginSurvivesRestart | app/contexts/AuthContext.tsx:28-64 | After a successful sign-in, a fresh provider loading the written store comes up signed in with the same profile. |
| AuthSession.LogoutSurvivesRestart | app/contexts/AuthContext.tsx:28-48 | After a sign-out whose deletes succeed, a restart comes up signed out. |
| Keypad.Press | app/add-contribution.tsx:42-62 | Backspace drops the last character, and turns an amount of length at most one into `0`. `.` appends a `.` iff none is present, and changes nothing otherwise. A digit replaces `0` and `0.00`. On any other amount it is appended, unless two decimals are already present, in which case nothing changes. The amount never becomes empty. |
| Keypad.DecimalsFullIff | app/add-contribution.tsx:57-58 | With at most one `.`, the split-based test refuses a digit exactly when two characters already follow the `.`. |
| Keypad.DigitIgnoredIff | app/add-contribution.tsx:54-59 | On a well-formed amount other than `0` and `0.00`, a digit is ignored iff two decimals are present, and appended otherwise. |
| Keypad.PressWellFormed | app/add-contribution.tsx:42-62 | Every on-screen key keeps the amount non-empty and digits-only with one optional `.`. There are at most two decimals and no redundant leading zero. |
| Keypad.ReachableFromInitial | app/add-contribution.tsx:25-62 | Every amount reachable from `0.00` through the screen's keys is well formed. |
| Keypad.BackspaceUndoes | app/add-contribution.tsx:42-62 | Whenever a key lengthens a non-empty amount by one character, backspace restores the amount exactly. |
| PinPad.Press | app/pin.tsx:25-35 | A digit is appended only while the PIN is shorter than four. The press completes the PIN exactly when it takes the length from 3 to 4. |
| PinPad.Backspace | app/pin.tsx:41-43 | Backspace removes the last digit, and an empty PIN stays empty. |
| PinPad.Clear | app/pin.tsx:37-39 | Clear empties the PIN. |
| PinPad.RunBounded | app/pin.tsx:6-43 | Whatever keys are pressed, the PIN never exceeds four digits. |
| PinPad.TypingDigits | app/pin.tsx:25-35 | Typing digits keeps the first ones up to four, and completes exactly once, on the press that reaches four. |
| Signup.IsEmailIffPattern | app/signup.tsx:44 | The e-mail regex holds iff the input has no white space and exactly one `@`, not first, followed by a `.` that is neither right after the `@` nor last. |
| Signup.ValidateForm | app/signup.tsx:35-56 | Gives the name error iff the trimmed name is empty. The e-mail is required when it is blank after trimming, and otherwise invalid when the untrimmed value fails the regex. The password is required when empty, and too short when it has fewer than 8 UTF-16 code units. |
| Signup.ValidIff | app/signup.tsx:35-56 | The form is valid iff the name is not blank, the e-mail matches the regex, and the password has at least 8 UTF-16 code units. |
| Signup.PasswordLengthInCodeUnits | app/signup.tsx:48-52 | Length is counted as JavaScript counts it: four emoji pass the 8-character rule, while four ASCII letters do not. |
| Signup.HandleSignup | app/signup.tsx:58-80 | The terms check runs first and short-circuits validation. A valid form submits the trimmed name, the trimmed lower-cased e-mail and the verbatim password. |
| Signup.PayloadNormalised | app/signup.tsx:75-79 | The submitted name and e-mail are already normalised: trimming or lower-casing them again changes nothing. |
| Signup.FoldFieldErrorsLastWins | app/signup.tsx:84-90 | Server field errors are folded in order, so each field shows its last entry's message and other fields keep their values. |
| Signup.AfterLogin | app/signup.tsx:82-104 | Success navigates and shows no errors. Failure shows the folded field errors and the returned message. |
| Signup.RejectedSignupShowsServerErrors | app/signup.tsx:82-98 | A rejected sign-up shows exactly `handleAuthError`'s message, with an error for a field iff the server sent one. |
| TransactionService.TransactionsQuery | src/services/transactions.ts:48-60 | Each of the nine filters is copied iff truthy, with numbers as decimal text, and no other key appears. |
| TransactionService.CsvVariantOnlyAddsAccept | src/services/transactions.ts:67-90 | The CSV call has the JSON call's endpoint and query. On the wire it differs only by `Accept: text/csv`. |
| TransactionService.PathsInjective | src/services/transactions.ts:96-158 | Different transactions never share a detail, update or undo URL. |
| TransactionService.GetTransactionsSends | src/services/transactions.ts:45-65 | `GET` of `/transactions` with the filter query and the JSON headers. The query decodes back to the escaped filters. |
| TransactionService.GetTransactionsCsvSends | src/services/transactions.ts:67-90 | The same `GET` and query, with `Accept: text/csv` beside the JSON content type. |
| TransactionService.GetTransactionSends | src/services/transactions.ts:96-104 | `GET` of `/transactions/<id>`, with no query and no body. |
| TransactionService.UpdateTransactionSendsNothing | src/services/transactions.ts:120-131 | The update goes through `api.patch`, which does not exist, so no request leaves the client. |
| TransactionService.UndoTransactionSends | src/services/transactions.ts:147-158 | `POST` to `/transactions/<id>/undo` with the JSON headers. A body is sent iff a payload is given, and then it reads back as the encoded payload. |
| TransactionList.FetchRequest | app/transactions.tsx:37-46 | The list query carries the page, `per_page=20` and `sort_by=date_desc`. The search text and category appear exactly when non-empty, and no other filter appears. |
| TransactionList.CeilDivIsCeiling | app/transactions.tsx:53 | The integer ceiling is the least `r` with `a <= r*b` for a positive divisor. |
| TransactionList.TotalPages | app/transactions.tsx:53 | For a positive `per_page`, the page count is the least count of pages that holds the total. A zero `per_page` yields an infinity or `NaN` exactly as JavaScript does. |
| TransactionList.CompleteFetch | app/transactions.tsx:46-61 | On success the page replaces the list or follows it in order, and the page number and count come from the response. On failure the list, page and count stay and the error is set. Both loading flags always drop. |
| TransactionList.MissingMetaHalfSettles | app/transactions.tsx:46-61 | A response without `meta` throws after the list is set: the items are set as on success, while the page, count and message are those of a failure. After such an append the guard asks for the same page again. |
| TransactionList.LoadMore | app/transactions.tsx:73-77 | The next page is requested iff the page is below the count and nothing is loading, and the request is then for page + 1. |
| TransactionList.Refresh | app/transactions.tsx:68-71 | Pull-to-refresh raises both flags and clears the error. |
| TransactionList.RefreshReplacesList | app/transactions.tsx:48-71 | A successful refresh shows exactly the first page. |
| TransactionList.StartFetch | app/transactions.tsx:34-35 | As written, the start of a fetch clears the error, and only a replacing fetch raises the loading flag. |
| TransactionList.AppendInFlightKeepsGuardOpen | app/transactions.tsx:32-77 | As written, while an append is in flight the guard still admits the same next page. |
| TransactionList.DoubleLoadMoreDuplicatesPage | app/transactions.tsx:32-77 | As written, two triggers before the first append settles fetch the same page, and both appends list it. |
| TransactionList.DoubleLoadMoreExample | app/transactions.tsx:32-77 | Concretely: on page 1 of 3 with one row, two triggers both request page 2, and its row is listed twice. |
| TransactionList.StartFetchGuarded | app/transactions.tsx:34 | Intended: every fetch raises the loading flag, appends included. |
| TransactionList.GuardedFetchClosesGuard | app/transactions.tsx:73-77 | With the intended start, no load-more can begin while a fetch is in flight. |
| TransactionList.GuardedFetchSameScreen | app/transactions.tsx:32-61 | The correction leaves replacing fetches unchanged, and never shows the full-screen spinner (shown while loading with an empty list) over a non-empty list. |
| TransactionList.LoadMoreTap | app/transactions.tsx:73-77 | A trigger requests what the guard admits. The in-flight state then admits nothing, and nothing happens when the guard is closed. |
| TransactionList.CategoryIcon | app/transactions.tsx:88-96 | By the lower-cased category: `monthly` gives `calendar`, `food` gives `restaurant`, `travel` gives `airplane`, `supplies` gives `bag-handle`, and anything else gives `cash`. |
| TransactionList.CategoryIconIgnoresCase | app/transactions.tsx:88-96 | A category and its lower-cased form have the same icon. |
| PartnerService.PartnersQuery | src/services/partners.ts:39-46 | `sort_by`, `limit`, `offset`, `page` and `per_page` are copied iff truthy, with numbers as decimal text. `include_transactions=true` is copied iff the flag is set, and no other key appears. |
| PartnerService.GetPartnersSends | src/services/partners.ts:36-53 | `GET` of `/partners` with the partner query and the JSON headers. The query decodes back to the escaped filters. |
| PartnerService.GetPartnersWithTransactions | src/services/partners.ts:59-80 | `include_transactions=true` is always sent. |
| PartnerService.WithTransactionsIgnoresFlag | src/services/partners.ts:64-71 | The caller's flag makes no difference, and the other filters are copied as in `getPartners`. |
| PartnerService.LeaderboardQuery | src/services/partners.ts:107-110 | Only `limit` (iff non-zero) and `include_recent_transactions=true` (iff set) appear. |
| PartnerService.GetLeaderboardSends | src/services/partners.ts:104-117 | `GET` of `/partners/leaderboard` with the leaderboard query and the JSON headers. The query decodes back to the escaped parameters. |
| PartnerService.LeaderboardDefaultUrl | src/services/partners.ts:104-112 | Called without parameters, the leaderboard URL ends in a bare `?`. |
| PartnerService.PartnerDetailQuery | src/services/partners.ts:158-165 | `from`, `to`, `category` and `search` are copied verbatim, and `page` and `per_page` as decimal text, each only when truthy. No other key appears. |
| PartnerService.GetPartnerDetailSends | src/services/partners.ts:155-172 | `GET` of `/partners/<id>` with the ledger query and the JSON headers. The query decodes back to the escaped filters. |
| PartnerService.PartnerPathNamesPartner | src/services/partners.ts:167 | The ledger URL is `/partners/` followed by the id, so different partners never share one. |
| PartnerService.ContributionHeaders | src/services/partners.ts:202-205 | `Idempotency-Key` is present iff a non-empty key is given, and then it equals the key. |
| PartnerService.CreateContributionSends | src/services/partners.ts:199-212 | `POST` to `/partners` with the contribution headers merged in. The body is the payload's serialisation and reads back as the encoded payload. |
| PartnerService.ContributionWireHeaders | src/services/partners.ts:202-207 | On the wire a contribution keeps the JSON content type, and carries the idempotency key iff one was given and non-empty. |
| Leaderboard.LeaderboardRequest | app/leaderboard.tsx:31 | The screen asks for the leaderboard with `limit=10` and nothing else. |
| Leaderboard.FindIndex | app/leaderboard.tsx:48-49 | `find` stops at the first matching index, and finds nothing iff no entry matches. |
| Leaderboard.TopPartner | app/leaderboard.tsx:48 | The top partner is the first flagged row, else the first row. There is none iff the list is empty. |
| Leaderboard.SecondPartner | app/leaderboard.tsx:49 | The runner-up is the first unflagged row of rank 2. There is none iff no row qualifies. |
| Leaderboard.TopAndSecondDiffer | app/leaderboard.tsx:48-49 | When some row is flagged, the top partner and the runner-up are different rows. |
| Leaderboard.UnflaggedRunnerUpIsAlsoTop | app/leaderboard.tsx:48-49 | Without a flagged row, the fallback can make the runner-up the top partner too. |
| Leaderboard.TotalPool | app/leaderboard.tsx:50 | The pool is the left-fold sum of the contributions, and is non-negative when every contribution is. |
| Leaderboard.TotalPoolAppend | app/leaderboard.tsx:50 | The pool of two lists back to back is the sum of their pools. |
| Leaderboard.TotalPoolCoversEach | app/leaderboard.tsx:50 | With no negative contributions, the pool is at least any one partner's total. |
| Leaderboard.FirstFive | app/leaderboard.tsx:184 | The list shows the first `min(5, n)` rows in their original order. |
| Leaderboard.TopPartnerListed | app/leaderboard.tsx:184 | The top partner is listed among the five whenever the first flagged row is among the first five, and always when it is the fallback first row. |
| Leaderboard.Settle | app/leaderboard.tsx:27-39 | A success replaces the rows. Any failure keeps them and sets `Failed to load leaderboard`. Loading always ends. |
| UploadService.ReceiptForm | src/services/uploads.ts:21-25 | The form always starts with `file`, and has `transaction_id` exactly when a non-empty id is given. |
| UploadService.UploadReceiptSendsNothing | src/services/uploads.ts:27 | The form goes to `api.upload`, which does not exist, so no request leaves the client. |
| UploadService.ExportQuery | src/services/uploads.ts:44-49 | The four filters are copied verbatim iff non-empty, and no other key appears. |
| UploadService.ExportTransactionsCsvSends | src/services/uploads.ts:41-59 | `GET` of `/exports/transactions` with the export query, the JSON content type and `Accept: text/csv`. The query decodes back to the escaped filters. |
| UploadService.ExportWithoutFilters | src/services/uploads.ts:44-54 | With no filters, the export URL ends in a bare `?` and still asks for CSV. |
| UploadService.SyncOfflineQueueSends | src/services/uploads.ts:99-107 | One `POST` to `/sync/queue` with the JSON headers, whose body reads back as the encoded request, the queue in its given order. |
| SaleService.SalesQuery | src/services/sales.ts:65-73 | `page` and `per_page` are copied as decimal text, and the texts verbatim, each iff truthy. The payment method goes by name, and no other key appears. |
| SaleService.GetSalesSends | src/services/sales.ts:54-80 | `GET` of `/sales` with the sales query and the JSON headers. The query decodes back to the escaped filters. |
| SaleService.CreateSaleSends | src/services/sales.ts:35-43 | `POST` to `/sales` with the JSON headers. The body reads back as the encoded payload. |
| SaleService.SaleCallsNameTheSale | src/services/sales.ts:126-185 | The detail is a `GET` of `/sales/<id>` with no query. The refund is a `POST` to `/sales/<id>/refund` with no body. Different sales never share either URL. |
| SaleService.SummaryQuery | src/services/sales.ts:163-165 | `from` and `to` are both always sent. |
| SaleService.GetSalesSummarySends | src/services/sales.ts:160-170 | `GET` of `/sales/summary?from=<from>&to=<to>`, escaped, with the JSON headers. |
| SaleService.SummaryKeepsEmptyBounds | src/services/sales.ts:160-170 | The summary sends an empty `from` that `getSales` would drop. |
| CostEntryService.CostEntriesQuery | src/services/costEntries.ts:57-65 | The seven fields are copied iff truthy, with numbers as decimal text, and no other key appears. |
| CostEntryService.GetCostEntriesSends | src/services/costEntries.ts:46-72 | `GET` of `/cost-entries` with that query and the JSON headers. The query decodes back to the escaped filters. |
| CostEntryService.CreateCostEntrySends | src/services/costEntries.ts:27-35 | `POST` to `/cost-entries` with the JSON headers. The body reads back as the encoded payload. |
| AllocationService.AllocationsQuery | src/services/allocations.ts:59-64 | The ids are copied verbatim iff non-empty, and the page numbers as decimal text iff non-zero. No other key appears. |
| AllocationService.FalsyInputEmptyQuery | src/services/allocations.ts:57-64 | Empty or all-falsy input yields an empty query. |
| AllocationService.CreateAllocationSends | src/services/allocations.ts:32-40 | `POST` to `/allocations` with the JSON headers. The body reads back as the encoded payload. |
| AllocationService.GetAllocationsSends | src/services/allocations.ts:51-71 | `GET` of `/allocations` with that query and the JSON headers. The query decodes back to the escaped filters. |

## Left out

- Rendering, styles, navigation timers and every screen not named above, because they hold no decision logic.
- `fetch`, `AbortController` and the 10-second timer, because they are time- and I/O-driven. How the fetch settled is an input (`Api.FetchOutcome`).
- `console.log`/`console.error` side effects and `api.healthCheck`, because they are diagnostics and a direct fetch.
- `getUserSettings`, `updateUserSettings` and `getBanks`, because they are plain calls with no parameters or logic to model.
- Percent-encoding, `JSON.stringify`/`JSON.parse` and `FormData`, because they are library code. They are function parameters, or plain sequences of parts.
- Response shapes, which are taken as the TypeScript interfaces declare them. The client never checks them.
- The exact `TypeError` that `updateCurrentUser`, `updateTransaction` and `uploadReceipt` reject with. They call `api.patch` and `api.upload`, which do not exist. The model shows only that no request is built (`Api.Dispatch`).
- Base.ToLower: `toLowerCase` is modelled for ASCII letters only, because Unicode case mapping is not available here.
- Numbers are integers throughout. JavaScript floats, the exponent form of `String(n)`, `NaN` inputs and currency rounding are not modelled; `total_contributed` is a float in the app.
- Storage.SetTokens: when both token writes fail, `Promise.all` rejects with whichever failure comes first. The model reports the access-token write's failure, because which one settles first is timing.
- Responses whose `data` is missing or not an array, because the response is taken as its interface declares it. A response without `meta` is modelled (`TransactionList.CompleteFetchWithoutMeta`).
- Storage.GetUser: `JSON.parse` of a stored text that is valid JSON but not an object (such as `5`) returns that value, and the app would hold it as a profile. The model's `decode` yields a profile or nothing, because the profile's shape is taken as its interface declares it.
- AuthSession.LoadStoredAuth: the `catch` branch is unreachable, because neither read rejects. It is not modelled separately.
- The integration and unit test files, which import from paths that do not match the source and contradict it in places. The model follows the code.
- `app/login.tsx`'s `handleLogin`, which calls `login()` without a payload and navigates unconditionally. It has no decision logic.

## Findings

| source | as written | input that shows it | evidently intended | confidence | as-written member | corrected member |
|---|---|---|---|---|---|---|
| app/transactions.tsx:32-77 | `if (!append) setLoading(true)`: an append fetch never raises `loading`, and it is the only thing `handleLoadMore` checks besides the page. | On page 1 of 3, with one row listed and nothing loading, the scroll end fires and the button is tapped before page 2 arrives. Both requests ask for page 2, and its rows are appended twice. | A load-more in flight closes the guard, so each page is requested once. The full-screen spinner only shows over an empty list, so raising `loading` for appends changes nothing else on screen. | medium, not executed | TransactionList.DoubleLoadMoreDuplicatesPage | TransactionList.LoadMoreTap |
