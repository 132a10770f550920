# Payment-App core, modelled in Dafny

This project models the logic of the Payment-App repository. The repository
has an Express/SQLite payment backend and the client-side state machines of
its two React Native apps. The model covers these parts:

- **Payments.** There are two implementations of "send a payment", and the
  model has both.
  - `TransactionController.createTransaction` inserts a `pending` row, runs a
    simulated processing step, marks the row `completed` and fires the
    webhook. Any failure after the row exists rewrites the row to `failed`
    and rethrows.
  - The mounted route `POST /send` validates its body, inserts through the
    store, which always writes `completed`, and swallows webhook failures.
  - `TransactionRoutes.WebhookFailurePolicies` shows the two paths disagree
    about the same webhook failure. The controller fails the payment; the
    route answers 201 and leaves the row `completed`.
- **The store** (`DatabaseService`) is a class holding the `users` and
  `transactions` tables as sequences. It has auto-increment ids, a unique
  email and a `statusWrites` log of status updates.
  - bcrypt is symbolic: a stored password is `Digest(source, rounds)`, and
    `compare` holds only for a digest of the same plain text.
  - Store faults are boolean inputs.
- **Credentials.** The model covers the signup and login routes, the unused
  `AuthController`, and the bearer-token middleware. JWT signing and
  verification are function parameters.
- **Errors and health.** The error handler reassigns status, message and
  errors through a series of rules, and the last matching rule wins. The
  health route aggregates two service states and keeps a 30-second cache.
- **In-memory controllers.**
  - Notifications: visibility, filter, newest-first sort, page, mark read,
    delete.
  - Search: filter pipeline, relevance, sort, page and suggestions.
  - Profile: template fallback, IP masking, whitelisted merge, preferences
    and security settings.
- **Client state.**
  - The transaction reducer (`app/`) and the auth reducer (`mobile/`), each
    a class whose reducers are methods.
  - The mobile search screen's filter pipeline and recent-search list.
  - The notification screen's list transforms.
  - The onboarding pager.

Representation choices:

- Amounts are integer cents. `Text.CentsText` writes them the way
  JavaScript's `Number.prototype.toString` writes the decimal amount, which
  is what the text searches match against.
- Timestamps are natural numbers of milliseconds.
- The clock, `Math.random`, the network, the JWT library, `parseFloat` and
  the health probes are parameters of the operations that use them.
- The `limit` and `offset` of the notification and search listings go
  through JavaScript's `parseInt` (`JsNumber.ParseInt`): text after the
  digits is ignored, text without digits is `NaN`, and a `NaN` page is
  empty and reported with a `null` limit or offset.

Where the descriptions of the repository and its code disagree, the model
follows the code:

- The store's `createTransaction` hard-codes `completed`, although the
  schema defaults to `pending`.
- The controller calls an object-form `createTransaction` and an
  `updateTransactionStatus` that `DatabaseService.ts` does not define. They
  are modelled as `Store.Database.InsertTransaction` and
  `Store.Database.UpdateTransactionStatus`, with the behaviour those calls
  need: insert with the given status, and update one row by id.
- The mobile transactions have no `type` field, so any type filter other
  than `all` empties the search screen's list
  (`SearchScreen.TypeFilterEmpties`).
- The mobile text search does not search the status, unlike the backend's
  (`SearchScreen.StatusNotSearched`).
- The health router (backend/src/routes/health.ts) is modelled as written,
  but backend/src/app.ts:46-51 does not mount it: the running server
  answers `GET /health` inline (backend/src/app.ts:54-68) with 200 and
  `status: 'OK'`, and that inline handler is not part of this model. In the
  module as written, the probes call `db.runHealthCheck()`
  (backend/src/routes/health.ts:58) and `WebhookService.checkHealth()`
  (backend/src/routes/health.ts:78), which `DatabaseService.ts` and
  `WebhookService.ts` do not define. Were the router mounted, both calls
  would throw "... is not a function", both services would report `down`,
  and its `/health` would always answer 503 `error`
  (`Health.UndefinedProbesAlwaysDown`). The probes are modelled as inputs
  that resolve or throw, so the model also covers the intended probes
  (`Health.ResolvingProbesUp`).
- `errorHandler` tests the UNIQUE message after the name rules. A 404 from
  `notFound` whose URL contains "UNIQUE constraint failed" would therefore
  answer 409 (`ErrorHandler.NotFoundStatus`). This is a statement about the
  middleware module as written: backend/src/app.ts:89 mounts only
  `errorHandler`, and `notFound` is never mounted, so the running server
  does not reach it.

## Model

| member | source | states |
|---|---|---|
| Store.FirstUser | backend/src/services/DatabaseService.ts:95-119 | `db.get` of a `WHERE` query: a row found satisfies the test; none is found exactly when no row does |
| Store.UserWithEmail | backend/src/services/DatabaseService.ts:95-106 | a found user is a row with that email; none is found exactly when no row has it |
| Store.UserWithId | backend/src/services/DatabaseService.ts:108-119 | a found user is a row with that id; none is found exactly when no row has it |
| Store.LookupByEmailFinds | backend/src/services/DatabaseService.ts:41-49 | with unique emails, looking up a stored user's email finds exactly that user |
| Store.LookupByIdFinds | backend/src/services/DatabaseService.ts:43 | with increasing auto-increment ids, looking up a stored user's id finds exactly that user |
| Store.RowOf | backend/src/services/DatabaseService.ts:52-62 | the position of the row with an id; none exactly when no row has it |
| Store.History | backend/src/services/DatabaseService.ts:152-153 | the history is at most 50 rows; `HistoryIsNewestOwnRows` says which |
| Store.HistoryIsNewestOwnRows | backend/src/services/DatabaseService.ts:150-161 | the history holds only the user's rows, newest first, min(own rows, 50) of them, and no omitted own row is newer than a shown one |
| Store.Database.constructor | backend/src/services/DatabaseService.ts:37-68 | after `initialize` both tables are empty, both auto-increment counters are 0, and the table invariants hold |
| Store.Database.CreateUser | backend/src/services/DatabaseService.ts:72-93 | a fault or a duplicate email (UNIQUE violation on users.email) leaves the table unchanged; otherwise one row is appended with the next id and a cost-12 digest of the given password, never the password itself |
| Store.Database.FindUserByEmail | backend/src/services/DatabaseService.ts:95-106 | rejects exactly on a fault; otherwise the lookup by email, null when no row matches |
| Store.Database.FindUserById | backend/src/services/DatabaseService.ts:108-119 | rejects exactly on a fault; otherwise the lookup by id, null when no row matches |
| Store.Database.CreateTransaction | backend/src/services/DatabaseService.ts:122-148 | on success one row with the next id and status `completed` whatever the input; on a fault nothing changes |
| Store.Database.InsertTransaction | backend/src/controllers/TransactionController.ts:31-36 | the object-form insert the controller calls: one row with the next id and the given fields and status |
| Store.Database.UpdateTransactionStatus | backend/src/controllers/TransactionController.ts:55 | changes the status of exactly the row with that id and logs the write; a missing id or a fault changes no row |
| Store.Database.GetUserTransactions | backend/src/services/DatabaseService.ts:150-161 | rejects exactly on a fault; otherwise the user's history |
| Store.Registry.GetInstance | backend/src/services/DatabaseService.ts:30-35 | the first call creates an empty store; every later call returns that same instance |
| Store.GetInstanceIsShared | backend/src/services/DatabaseService.ts:30-35 | two calls return the same instance |
| Store.DuplicateEmailRejected | backend/src/services/DatabaseService.ts:41-49 | a second user with the same email is rejected as a UNIQUE violation and only one row exists |
| Webhook.BuildPayload | backend/src/services/WebhookService.ts:20-32 | the event is always `payment.sent` with status `completed` and the current time, and its data are the caller's fields unchanged |
| Webhook.PayloadInjective | backend/src/services/WebhookService.ts:20-32 | two payloads are equal exactly when they were built from equal data |
| Webhook.WebhookClient.TriggerPaymentWebhook | backend/src/services/WebhookService.ts:34-49 | exactly one POST of that payload to the fixed URL with the 5000 ms timeout, and the network's outcome, failure included, goes back to the caller |
| TransactionController.MapToTransactionResponse | backend/src/controllers/TransactionController.ts:81-92 | the response carries id, recipient, amount, currency, status and timestamp of the row |
| TransactionController.ResponseForgetsOwner | backend/src/controllers/TransactionController.ts:81-92 | the response never depends on user_id, and it determines every other field of the row |
| TransactionController.MapAll | backend/src/controllers/TransactionController.ts:16-21 | one response per row, in order |
| TransactionController.AsError | backend/src/controllers/TransactionController.ts:60-62 | the rethrown value is always an `Error`, and an `Error` passes through unchanged |
| TransactionController.GetUserTransactions | backend/src/controllers/TransactionController.ts:16-21 | fails exactly on a store error; otherwise one response per history row, in store order |
| TransactionController.ProcessPayment | backend/src/controllers/TransactionController.ts:66-79 | a decline throws "Payment processing failed" and writes nothing; an approval writes `completed` on the row and returns it |
| TransactionController.WebhookFailureIsFatal | backend/src/controllers/TransactionController.ts:42-63 | a webhook failure after a completed payment leaves the row `failed` and rethrows the webhook's error |
| TransactionController.CreateTransaction | backend/src/controllers/TransactionController.ts:23-64 | a failed insert attempts nothing more; otherwise one new pending row with the caller's fields. The webhook fires only after processing succeeds. Success holds exactly when processing and the webhook both succeed. Any later failure writes `failed` once and rethrows |
| TransactionController.SettlePayment | backend/src/controllers/TransactionController.ts:39-63 | from a pending row: only that row's status changes, to its final status, with the webhook and status writes described above |
| TransactionController.RowOfSameIds | backend/src/controllers/TransactionController.ts:55 | a status update does not move any row, since rows with the same ids are found at the same positions |
| TransactionController.RowOfLast | backend/src/services/DatabaseService.ts:52-54 | a freshly inserted row, whose id exceeds every earlier one, is found at the end of the table |
| TransactionRoutes.InvalidFields | backend/src/routes/transactions.ts:31-41 | no field is reported exactly when the recipient is non-empty, the amount is a number above 0 and the currency has 3 characters |
| TransactionRoutes.GetTransactions | backend/src/routes/transactions.ts:11-28 | 500 on a store error; otherwise 200 with the mapped history in store order |
| TransactionRoutes.SendPayment | backend/src/routes/transactions.ts:31-83 | 400 with no write and no webhook for invalid input; 500 "Payment failed" with no write on a store error; otherwise one `completed` row with the upper-cased currency, one webhook POST, and 201 with that row whatever the webhook does |
| TransactionRoutes.WebhookFailurePolicies | backend/src/routes/transactions.ts:53-78 | for the same webhook failure the controller fails and leaves the row `failed`, while the route answers 201 and leaves it `completed` |
| AuthMiddleware.BearerToken | backend/src/middleware/auth.ts:30-31 | a token found is non-empty and holds no space |
| AuthMiddleware.BearerTokenOfHeader | backend/src/middleware/auth.ts:30-31 | "scheme token" yields exactly the token |
| AuthMiddleware.NoSpaceNoToken | backend/src/middleware/auth.ts:30-36 | a header without a space yields no token |
| AuthMiddleware.Authenticate | backend/src/middleware/auth.ts:24-56 | 401 "Access token required" without a token; 403 "Invalid token" when verification at the request time or the lookup throws; 401 "Invalid token" for an unknown user; otherwise `next` with exactly the stored id, email and role |
| AuthMiddleware.GenerateToken | backend/src/middleware/auth.ts:61-63 | the token signs the user id, the issue time in whole seconds and a seven-day expiry |
| AuthMiddleware.TokenRoundTrip | backend/src/middleware/auth.ts:24-63 | with sound keys, an issued token sent as `Bearer <token>` before its seven days are up is read back from the header and verifies to the user it was issued for |
| AuthMiddleware.IssuedTokenAdmits | backend/src/middleware/auth.ts:24-63 | a token issued for a stored user and presented before it expires passes the middleware as that user |
| AuthMiddleware.TokenExpires | backend/src/middleware/auth.ts:24-63 | with sound keys, an issued token presented seven days or more after issue is still read from the header but no longer verifies |
| AuthMiddleware.ExpiredTokenRefused | backend/src/middleware/auth.ts:24-63 | an expired token is refused with 403 "Invalid token", whoever it was issued for and whatever the store does |
| AuthRoutes.SignupInvalidFields | backend/src/routes/auth.ts:11-15 | no field is reported exactly when the email is valid, the password has at least 6 characters and the role is psp or dev |
| AuthRoutes.LoginInvalidFields | backend/src/routes/auth.ts:50-53 | no field is reported exactly when the email is valid and a password is present |
| AuthRoutes.Signup | backend/src/routes/auth.ts:11-48 | 400 with no write for invalid input; 409 for an existing email; 500 on a store error; otherwise one new user holding a digest of the password, and 201 with a token for its id and its id, email and role |
| AuthRoutes.Login | backend/src/routes/auth.ts:50-89 | an unknown email and a wrong password give the same 401 "Invalid credentials"; 200 with a token holds exactly when the input is valid, the store works and the password matches the stored digest |
| AuthRoutes.SignupThenLogin | backend/src/routes/auth.ts:30-84 | a login after signup answers 200 as the user signup reported (same id, normalised email and role); each token is issued at its own request's time, so the two tokens agree when both fall in the same second |
| AuthController.ResponseOf | backend/src/controllers/AuthController.ts:31-41 | the returned user has id, email, role and created_at |
| AuthController.ResponseForgetsPassword | backend/src/controllers/AuthController.ts:31-41 | the returned user never depends on the stored password |
| AuthController.Signup | backend/src/controllers/AuthController.ts:15-42 | an existing email throws "User already exists" before any insert; otherwise the stored password is a cost-12 digest of a cost-10 digest of the password |
| AuthController.SignupHashingOnce | backend/src/controllers/AuthController.ts:15-42 | the same signup with the password hashed once, by the store |
| AuthController.Login | backend/src/controllers/AuthController.ts:48-58 | an unknown email and a wrong password throw the same "Invalid credentials"; success holds exactly when a user with that email matches the password |
| AuthController.DoubleDigestMatchesNothing | backend/src/controllers/AuthController.ts:22-30 | no password a user can know matches a digest of a digest, the signup password included; only the never-shown text of the inner digest would |
| AuthController.SignupLocksOut | backend/src/controllers/AuthController.ts:22-58 | as written, signup succeeds and then a login with the same password is refused |
| AuthController.SignupHashingOnceThenLogin | backend/src/controllers/AuthController.ts:15-58 | with one hash, login after signup succeeds as the same user (id, email, role); each token is issued at its own call's time, so the two agree within the same second |
| ErrorHandler.Classify | backend/src/middleware/errorHandler.ts:8-54 | the status is one a rule sets or the error's own, defaulting to 500; `errors` appears only when non-empty |
| ErrorHandler.HandleError | backend/src/middleware/errorHandler.ts:8-54 | the rule-by-rule reassignment gives the classification |
| ErrorHandler.UnmatchedKeepsOwnFields | backend/src/middleware/errorHandler.ts:17-19 | an error no rule matches keeps its status or 500, its message or "Internal Server Error", and its non-empty errors |
| ErrorHandler.UniqueOverridesNames | backend/src/middleware/errorHandler.ts:22-47 | a UNIQUE message gives 409 "Resource already exists" whatever the name, and a validation error keeps its field list |
| ErrorHandler.StackOnlyInDevelopment | backend/src/middleware/errorHandler.ts:49-53 | the stack is sent exactly in development when there is one |
| ErrorHandler.UniqueViolationIsConflict | backend/src/middleware/errorHandler.ts:44-47 | the store's duplicate-email error answers 409 |
| ErrorHandler.NotFound | backend/src/middleware/errorHandler.ts:56-64 | status 404 and message "Not Found - " followed by the URL |
| ErrorHandler.NotFoundStatus | backend/src/middleware/errorHandler.ts:44-64 | the `notFound` middleware (which backend/src/app.ts does not mount) answers 404 with its message, unless the URL contains the UNIQUE text, which gives 409 |
| Health.CheckService | backend/src/routes/health.ts:54-93 | `up` exactly when the probe resolves; an error message exactly when it throws, "Unknown error" for a non-`Error` |
| Health.Aggregate | backend/src/routes/health.ts:115-121 | `ok` iff both up, `error` iff both down, `degraded` iff they differ |
| Health.AggregateSymmetric | backend/src/routes/health.ts:115-121 | swapping the two services does not change the overall status |
| Health.StatusCode | backend/src/routes/health.ts:152-157 | 503 exactly for `error`, 200 otherwise |
| Health.Report | backend/src/routes/health.ts:95-147 | the overall status aggregates the two checks, each up exactly when its probe resolves, stamped now |
| Health.UndefinedProbesAlwaysDown | backend/src/routes/health.ts:54-93 | when both probes throw, as the undefined `runHealthCheck` and `checkHealth` do, the report is `error` with both messages and the answer is 503 |
| Health.ResolvingProbesUp | backend/src/routes/health.ts:54-121 | when both probes resolve the report is `ok` and the answer is 200 |
| Health.HealthCache.constructor | backend/src/routes/health.ts:13-17 | the cache starts empty with `lastUpdate` 0 |
| Health.HealthCache.GetHealthStatus | backend/src/routes/health.ts:95-147 | a fresh cache entry under 30000 ms old is returned unchanged; otherwise a new report is computed and cached with `lastUpdate = now` |
| Health.PublicEndpoint | backend/src/routes/health.ts:95-172 | only status and timestamp with the mapped code; an exception while a new report is built answers 500 `error` and keeps the cache, and a fresh cached report is answered whatever would have failed |
| Health.CachedWithinTtl | backend/src/routes/health.ts:13-17 | a second call within 30 s returns the first report although the probes changed |
| Health.RefreshAfterTtl | backend/src/routes/health.ts:97-143 | a call 30 s or later reflects the new probes |
| Notifications.NarrowedSelection | backend/src/controllers/notificationsController.ts:78-87 | filtering the caller's notifications by the tab gives the selection |
| Notifications.FirstTarget | backend/src/controllers/notificationsController.ts:127-130 | the first notification with that id visible to the caller; none exactly when there is no such one |
| Notifications.ReadAll | backend/src/controllers/notificationsController.ts:156-162 | the list keeps its length |
| Notifications.ReadAllClearsUnread | backend/src/controllers/notificationsController.ts:156-162 | no visible notification stays unread, others are untouched, and only `read` changes |
| Notifications.NotificationStore.constructor | backend/src/controllers/notificationsController.ts:16-67 | five shared notifications, newest first |
| Notifications.NotificationStore.GetNotifications | backend/src/controllers/notificationsController.ts:69-116 | 401 without a user; otherwise the visible, filtered notifications newest first, paged by `parseInt` of the query's offset and limit (0 and 50 when absent), with total, the parsed limit and offset, and the unread count ignoring the filter; without both parameters the page is the newest 50 |
| Notifications.DefaultPage | backend/src/controllers/notificationsController.ts:72-109 | the default offset and limit give the first 50 entries, with `hasMore` iff more than 50 exist |
| Notifications.NotificationStore.FindTarget | backend/src/controllers/notificationsController.ts:127-130 | the first visible match |
| Notifications.NotificationStore.MarkAsRead | backend/src/controllers/notificationsController.ts:118-146 | marks only the first visible match read and returns it; 404 and no change without one |
| Notifications.NotificationStore.MarkAllAsRead | backend/src/controllers/notificationsController.ts:148-173 | every visible notification becomes read, and the count of visible ones is returned |
| Notifications.NotificationStore.DeleteNotification | backend/src/controllers/notificationsController.ts:175-203 | removes exactly the first visible match and returns it; 404 and no change without one |
| Notifications.MarkOneUnreadCount | backend/src/controllers/notificationsController.ts:127-135 | marking one read lowers the unread count by one if it was unread, else not at all |
| Notifications.DeleteRemovesOne | backend/src/controllers/notificationsController.ts:184-198 | a delete shortens the list by one and keeps every other entry |
| Search.AllStagesPass | backend/src/controllers/searchController.ts:91-150 | passing all six filter steps is passing the whole filter |
| Search.Narrow | backend/src/controllers/searchController.ts:105-150 | applying one more filter step to the survivors gives the survivors of one more step |
| Search.Skip | backend/src/controllers/searchController.ts:105-150 | a filter that is not set keeps the survivors as they are |
| Search.Relevance | backend/src/controllers/searchController.ts:311-331 | in tenths: 10 for a blank query, at least 1 and at most 300, and at least 100 for an exact recipient |
| Search.ExactRecipientOutranks | backend/src/controllers/searchController.ts:318-319 | with everything else equal, an exact recipient outranks a non-matching one |
| Search.Title | backend/src/controllers/searchController.ts:153-160 | "Payment to" for sent, "Payment from" otherwise, followed by the recipient |
| Search.Results | backend/src/controllers/searchController.ts:153-160 | one result per surviving transaction, in order |
| Search.Ordered | backend/src/controllers/searchController.ts:163-177 | a permutation of the results, by relevance descending, or by date or amount descending for `desc` and ascending otherwise; other keys keep the order |
| Search.OrderedStable | backend/src/controllers/searchController.ts:163-177 | the sort is stable: results with the same relevance, date or amount (whichever is sorted on) keep their input order, in both directions (the ascending orders as sorts by the negated key) |
| Seqs.SortDescStable | backend/src/controllers/searchController.ts:164 | `sort` with a numeric comparator is stable: for every key value the elements with that key come out in their input order |
| Seqs.SortDescEqualKeys | backend/src/controllers/searchController.ts:164 | a sequence whose keys are all equal is returned unchanged |
| Search.NarrowIf | backend/src/controllers/searchController.ts:105-150 | one step of the pipeline keeps the transactions that pass one more stage |
| Search.FilterTransactions | backend/src/controllers/searchController.ts:91-150 | the survivors are exactly the transactions passing query and filters, in order |
| Search.Search | backend/src/controllers/searchController.ts:71-200 | 401 without a user; otherwise the ordered results paged by `parseInt` of the body's offset and limit (0 and 20 when absent), with total and the parsed limit and offset; without both the page is the first 20 |
| JsNumber.ParseIntNatText | backend/src/controllers/searchController.ts:180-181 | `parseInt` reads back the decimal text of a number, also when text not starting with a digit follows ("10px", "2.5") |
| JsNumber.ParseIntNoDigits | backend/src/controllers/searchController.ts:180-181 | text without a decimal digit, the empty text included, parses to `NaN` |
| JsNumber.Paginate | backend/src/controllers/searchController.ts:180-190 | total is the length; a `NaN` offset or limit gives an empty page with no more; two numbers page as `slice(offset, offset + limit)` with `hasMore` iff offset+limit < total |
| JsNumber.DefaultOffsetPage | backend/src/controllers/searchController.ts:180-190 | offset "0" and the decimal text of n as limit give the first n elements, with `hasMore` iff more than n exist |
| Search.DefaultPage | backend/src/controllers/searchController.ts:74-190 | the default offset and limit give the first 20 results, with `hasMore` iff more than 20 exist |
| Search.ResultsAreTheMatches | backend/src/controllers/searchController.ts:91-177 | every result is a matching transaction scored for the query, and every matching transaction has a result |
| Search.BlankSearchKeepsAll | backend/src/controllers/searchController.ts:94-115 | a blank query without filters keeps every transaction |
| Search.Matching | backend/src/controllers/searchController.ts:218-237 | exactly the entries whose lower-case text contains the query, in order |
| Search.JoinedMatches | backend/src/controllers/searchController.ts:215-240 | concatenating and truncating matching lists keeps only matching entries |
| Search.Suggestions | backend/src/controllers/searchController.ts:203-253 | 401 without a user; the 5 popular searches for an empty query; otherwise at most 3 distinct recipients, then currencies and statuses, all matching the query, capped at 8 |
| Profile.KeyIsNotTemplate | backend/src/controllers/profileController.ts:37-39 | no signed-in user's key is the template's `user1` |
| Profile.TrailingDigits | backend/src/controllers/profileController.ts:103 | the length of the final run of digits |
| Profile.MaskIp | backend/src/controllers/profileController.ts:103 | a changed IP is the original with its final digits replaced by "***" after a "."; it is unchanged exactly when it does not end in "." and digits |
| Profile.MaskIpIdempotent | backend/src/controllers/profileController.ts:103 | masking twice is masking once |
| Profile.MaskIpExamples | backend/src/controllers/profileController.ts:60-73 | the template's 192.168.1.100 shows as 192.168.1.*** |
| Profile.Sanitize | backend/src/controllers/profileController.ts:94-105 | every login activity keeps all fields but its IP, which is masked; the flags and last login are kept |
| Profile.SanitizeIdempotent | backend/src/controllers/profileController.ts:94-105 | sanitising twice is sanitising once |
| Profile.Shown | backend/src/controllers/profileController.ts:86-91 | a stored profile as it is; otherwise the template with the caller's own id, email and role |
| Profile.Current | backend/src/controllers/profileController.ts:140 | the stored profile, or the template unchanged |
| Profile.Merged | backend/src/controllers/profileController.ts:140-147 | each whitelisted field present takes the new value, every other field is kept, and `updatedAt` is now |
| Profile.FilterUpdates | backend/src/controllers/profileController.ts:130-137 | exactly the keys among firstName, lastName, phone, company, website and bio, with their values |
| Profile.OtherKeysIgnored | backend/src/controllers/profileController.ts:130-147 | updates that agree on the whitelisted keys give the same profile, so email, role or security in the body change nothing |
| Profile.MergePreferences | backend/src/controllers/profileController.ts:172-180 | the keys of both maps; the body's values win and other existing values stay |
| Profile.PatchSecurityIdempotent | backend/src/controllers/profileController.ts:204-214 | the same settings sent twice equal once, and an empty body changes nothing |
| Profile.ProfileStore.constructor | backend/src/controllers/profileController.ts:37-76 | only the `user1` template is stored |
| Profile.ProfileStore.GetProfile | backend/src/controllers/profileController.ts:78-118 | 401 without a user; otherwise the shown profile with sanitised security |
| Profile.ProfileStore.UpdateProfile | backend/src/controllers/profileController.ts:120-161 | 401 without a user; otherwise the merged details are stored under the caller's key with security kept, and returned without security |
| Profile.ProfileStore.UpdatePreferences | backend/src/controllers/profileController.ts:163-193 | 401 without a user; otherwise the merged preferences are stored and returned |
| Profile.ProfileStore.UpdateSecuritySettings | backend/src/controllers/profileController.ts:195-231 | 401 without a user; otherwise the patched settings are stored and only the two flags are returned, equal to the sent ones |
| Profile.UpdateReplacesIdentity | backend/src/controllers/profileController.ts:86-147 | as written: an unknown caller's profile shows their email before an update and the template's after it |
| Profile.CurrentAsShown | backend/src/controllers/profileController.ts:86-91 | the starting point getProfile shows: an unknown caller gets their own id, email and role |
| Profile.UpdateAsShownKeepsIdentity | backend/src/controllers/profileController.ts:140-147 | merging from that starting point keeps the caller's id, email and role |
| TransactionSlice.TransactionState.constructor | app/src/store/transactionSlice.ts:5-9 | empty list, not loading, no error |
| TransactionSlice.TransactionState.ClearError | app/src/store/transactionSlice.ts:39-41 | only the error is cleared |
| TransactionSlice.TransactionState.Pending | app/src/store/transactionSlice.ts:45-61 | loading, no error, list unchanged |
| TransactionSlice.TransactionState.FetchFulfilled | app/src/store/transactionSlice.ts:49-53 | the list is the payload; not loading; no error |
| TransactionSlice.TransactionState.SendFulfilled | app/src/store/transactionSlice.ts:62-66 | the payload is put in front of the old list |
| TransactionSlice.TransactionState.Rejected | app/src/store/transactionSlice.ts:54-70 | not loading, list unchanged, error the message or the fixed default |
| TransactionSlice.SendRoundTrip | app/src/store/transactionSlice.ts:58-66 | pending then fulfilled leaves the sent payment first and the old list after it |
| TransactionSlice.SendFails | app/src/store/transactionSlice.ts:58-70 | pending then rejected leaves the list unchanged with a non-empty error |
| AuthSlice.AuthState.constructor | mobile/src/store/authSlice.ts:6-11 | no user, no token, not loading, no error |
| AuthSlice.AuthState.ClearError | mobile/src/store/authSlice.ts:40-42 | only the error is cleared |
| AuthSlice.AuthState.Pending | mobile/src/store/authSlice.ts:47-65 | loading, no error, user and token unchanged |
| AuthSlice.AuthState.Fulfilled | mobile/src/store/authSlice.ts:51-71 | user and token from the payload; not loading; no error |
| AuthSlice.AuthState.Rejected | mobile/src/store/authSlice.ts:57-75 | user and token unchanged, not loading, error the message or "Signup failed"/"Login failed" |
| AuthSlice.AuthState.LogoutFulfilled | mobile/src/store/authSlice.ts:77-81 | user, token and error cleared; loading untouched |
| AuthSlice.LoginRoundTrip | mobile/src/store/authSlice.ts:62-71 | pending then fulfilled signs the user in with the payload |
| AuthSlice.LoginFails | mobile/src/store/authSlice.ts:62-75 | pending then rejected keeps user and token and sets a non-empty error |
| SearchScreen.MaxBound | mobile/src/screens/SearchScreen.tsx:113-121 | an upper bound exists exactly when the text parses to a non-zero number |
| SearchScreen.Step | mobile/src/screens/SearchScreen.tsx:54-123 | one `filtered = filtered.filter(...)` step, or none, keeps the transactions of the next predicate |
| SearchScreen.FilterTransactions | mobile/src/screens/SearchScreen.tsx:54-123 | the list is exactly the transactions that pass text, type, status, currency, date and amount, in order |
| SearchScreen.ListingIsSubsequence | mobile/src/screens/SearchScreen.tsx:54-123 | the listing is an order-preserving subsequence of the transactions |
| SearchScreen.StatusNotSearched | mobile/src/screens/SearchScreen.tsx:58-65 | the screen's text search misses a status the backend's search finds |
| SearchScreen.TypeFilterEmpties | mobile/src/screens/SearchScreen.tsx:67-72 | any type filter but `all` empties the list |
| SearchScreen.ClearedListsAll | mobile/src/screens/SearchScreen.tsx:133-145 | with cleared filters and a blank query every transaction is listed |
| SearchScreen.SearchState.constructor | mobile/src/screens/SearchScreen.tsx:32-48 | empty query, the four initial recent searches, every filter `all` |
| SearchScreen.SearchState.HandleSearch | mobile/src/screens/SearchScreen.tsx:126-131 | the query is always set; a new non-blank query goes first and the list stays at most 5 long and duplicate-free; otherwise it is unchanged |
| SearchScreen.SearchState.RemoveRecentSearch | mobile/src/screens/SearchScreen.tsx:307 | exactly the entry at that index goes |
| SearchScreen.SearchState.ClearFilters | mobile/src/screens/SearchScreen.tsx:133-145 | every filter back to `all` and both amount bounds empty; nothing else changes |
| SearchScreen.SearchState.Refresh | mobile/src/screens/SearchScreen.tsx:54-123 | the listing is recomputed from the current query and filters |
| NotificationsScreen.MarkAsRead | mobile/src/screens/NotificationsScreen.tsx:138-144 | the entries with that id become read; all others and the order are kept |
| NotificationsScreen.MarkAllAsRead | mobile/src/screens/NotificationsScreen.tsx:146-151 | every entry becomes read, same length |
| NotificationsScreen.Delete | mobile/src/screens/NotificationsScreen.tsx:153-156 | an order-preserving subsequence with no entry of that id and every other entry |
| NotificationsScreen.Filtered | mobile/src/screens/NotificationsScreen.tsx:158-169 | an order-preserving subsequence of exactly the entries that pass the tab, as many as pass it |
| NotificationsScreen.FilteredTabs | mobile/src/screens/NotificationsScreen.tsx:158-171 | the `unread` tab lists exactly as many entries as the unread count; `all` and any unknown tab list everything in order |
| NotificationsScreen.UnreadCount | mobile/src/screens/NotificationsScreen.tsx:171 | at most the number of entries, and 0 exactly when every entry is read |
| NotificationsScreen.NothingUnread | mobile/src/screens/NotificationsScreen.tsx:171 | the count of unread entries is at most the length, and 0 exactly when every entry is read |
| NotificationsScreen.MarkAllDisabled | mobile/src/screens/NotificationsScreen.tsx:274 | "Mark All Read" is disabled exactly when every entry is read |
| NotificationsScreen.MarkAllDisables | mobile/src/screens/NotificationsScreen.tsx:146-151 | after marking all read, "Mark All Read" is disabled |
| NotificationsScreen.MarkAsReadKeepsOrder | mobile/src/screens/NotificationsScreen.tsx:138-144 | ids keep their positions and marking twice equals once |
| NotificationsScreen.MarkAsReadCount | mobile/src/screens/NotificationsScreen.tsx:138-171 | the unread count never grows and no entry with that id stays unread |
| NotificationsScreen.DeleteCount | mobile/src/screens/NotificationsScreen.tsx:153-156 | the length drops by exactly the number of entries with that id |
| NotificationsScreen.Icon | mobile/src/screens/NotificationsScreen.tsx:76-91 | the generic icon exactly for a type outside payment, security, system and promotion |
| NotificationsScreen.KindColor | mobile/src/screens/NotificationsScreen.tsx:93-106 | the primary colour exactly for an unknown type |
| NotificationsScreen.PriorityColor | mobile/src/screens/NotificationsScreen.tsx:108-119 | the secondary text colour exactly for an unknown priority |
| Onboarding.Pager.constructor | mobile/src/screens/OnboardingScreen.tsx:20-69 | starts on slide 0 of 4 |
| Onboarding.Pager.ButtonTitle | mobile/src/screens/OnboardingScreen.tsx:248 | "Get Started" exactly on the last slide, "Next" otherwise |
| Onboarding.Pager.ShowsPrevious | mobile/src/screens/OnboardingScreen.tsx:237 | on a valid pager, Previous is shown exactly off the first slide, so always on the last one |
| Onboarding.Pager.HandleNext | mobile/src/screens/OnboardingScreen.tsx:80-88 | below the last slide one step on; on the last slide `onComplete` once and the index stays; the index stays within 0..3 |
| Onboarding.Pager.HandlePrevious | mobile/src/screens/OnboardingScreen.tsx:94-100 | one step back above 0, nothing at 0 |
| Onboarding.Pager.HandleSkip | mobile/src/screens/OnboardingScreen.tsx:90-92 | `onComplete` from any slide |
| Onboarding.Pager.OnViewableItemsChanged | mobile/src/screens/OnboardingScreen.tsx:102-106 | a swipe makes the first visible slide current |
| Onboarding.NextUntilComplete | mobile/src/screens/OnboardingScreen.tsx:80-88 | from any slide, Next reaches the last slide and completes once after exactly (3 - index + 1) presses |

## Left out

- sqlite3 I/O, bcrypt, jsonwebtoken, axios, express-validator and express-rate-limit are not modelled inside. They appear as symbolic digests, function parameters (`sign`, `verify`, `isEmail`, `normalize`), fault booleans and delivery outcomes.
- `Math.random` in `processPayment` is the `approved` input.
- The search `executionTime`, the `filters` echo in the search response (backend/src/controllers/searchController.ts:194), the lower-cased `query` the suggestions return (backend/src/controllers/searchController.ts:253) and the `toFixed` in the search description are not modelled.
- Date arithmetic is not modelled: the date-range cutoffs (`setMonth`/`setFullYear`) and the clock are inputs, and recency uses whole days in milliseconds.
- `formatTimestamp` is not modelled.
- `parseFloat` is the `parse` parameter of the search screen. NaN is modelled as a failed parse.
- Amounts are integer cents, so fractions below a cent are not modelled.
- `Promise.all` in the health route is modelled sequentially.
- The health route's uptime, memory, version and `/health/detailed` metrics are left out.
- Every health timestamp uses the same `now`, and each response time is an input.
- The `new Date().toISOString()` values that `createUser` and `createTransaction` return (backend/src/services/DatabaseService.ts:86,142) and the `CURRENT_TIMESTAMP` the table stores for the same row are both the insert's `now`; the model does not tell the returned ISO text from the stored SQLite text.
- AuthController.SignupHashingOnceThenLogin: does not promise that login returns signup's `created_at`, because signup returns `toISOString()` of the insert time and login the stored `CURRENT_TIMESTAMP` text, which differ in format.
- AuthRoutes.SignupThenLogin: promises equal tokens only within one second, because `jwt.sign` stamps each token with its own `iat`; a login in a later second gets a different token for the same user.
- `toLowerCase` and `toUpperCase` fold ASCII letters only (`Text.Lower`, `Text.Upper`); JavaScript also folds other letters, some into two characters (`"ß".toUpperCase()` is `"SS"`). This affects the currency of `TransactionRoutes.SendPayment`, the text match of `Search.MatchesQuery` and `Search.Suggestions`, and `SearchScreen.TextMatch`. `trim` uses JavaScript's full white-space set.
- JsNumber.ParseInt: a JSON number in the search body is given by its JavaScript text (`String(2.5)` is "2.5"); array-valued query parameters and integers beyond 2^53, where JavaScript numbers lose precision, are not modelled.
- Validators may report one field more than once; the model reports each failing field once, in declaration order.
- Profile request bodies are typed, as string maps and optional fields. Non-string values and extra keys in the security body are not modelled, so the 500 catch paths of the profile routes cannot occur.
- Store.History: the table's `timestamp` is `DEFAULT CURRENT_TIMESTAMP`, whole seconds (backend/src/services/DatabaseService.ts:60), and `ORDER BY timestamp DESC LIMIT 50` (backend/src/services/DatabaseService.ts:153) has no tie-breaker, so SQLite leaves open the order of rows from the same second and which of them fall inside the 50. The model stores the millisecond `now` and orders ties by table order; that order, and with it the exact lists of `Store.Database.GetUserTransactions`, `TransactionController.GetUserTransactions` and `TransactionRoutes.GetTransactions`, is the model's choice. `Store.HistoryIsNewestOwnRows` states the properties that do not depend on the tie order: only the user's rows, newest first, as many as the limit allows, and no newer own row left out.
- Search.Search: the body's `query` is typed as text. A non-string query (a number, say) makes `query.trim()` throw (backend/src/controllers/searchController.ts:94), which answers 500 "Search failed" (:197-199); that path is not modelled.
- TransactionRoutes.SendPayment: `currency` is typed as text. A number of three digits passes `isLength` (backend/src/routes/transactions.ts:35), then `currency.toUpperCase()` throws (:50), which answers 500 "Payment failed" (:79-81); that path is not modelled.
- AuthRoutes.Login and AuthRoutes.Signup: `password` is typed as text. A non-string password passes `exists()` or `isLength` (backend/src/routes/auth.ts:13 and :52), then `bcrypt.compare` (:69) or `bcrypt.hash` (backend/src/services/DatabaseService.ts:73) throws, which answers 500 "Internal server error"; that path is not modelled.
- `uploadAvatar`, `exportUserData` and `deleteAccount` are stubs and are not modelled. The same holds for the notification-settings endpoints, `getRecentSearches`, `saveSearch` and the analytics controller.
- Presentation and plumbing are not modelled: screens other than the three modelled ones, components, theming, toasts, list scrolling, AsyncStorage, navigation, the HTTP client and the app wiring.
- The async thunks behind the two reducers are not modelled; each reducer case is a method.
- `Search.Search` and `Search.Suggestions` take the transaction list as a parameter. `Search.MockTransactions` holds the demo list the controller uses.
- Search.Relevance: the contract bounds the score and fixes the blank and exact-recipient cases; the full weighting (10/5, 8, 6, 4, 2/1, floor 0.1, scaled to tenths) is its definition rather than its contract.
- SearchScreen.FilterTransactions: `KindMatch` is `kind == "all"`, because the mobile transaction has no `type` field to compare against.
- Notifications.NotificationStore.constructor: the seed timestamps are taken relative to a load time passed in, not to the server's clock.
- Store.Database.CreateUser: the role CHECK constraint holds by typing (`Role` is psp or dev), so no insert can violate it.

## Findings

| source | as written | input that shows it | evidently intended | confidence | as-written member | corrected member |
|---|---|---|---|---|---|---|
| backend/src/controllers/AuthController.ts:22-30 | signup hashes the password with 10 rounds and passes the digest to `createUser`, which hashes it again (backend/src/services/DatabaseService.ts:73) | signup with any email and password, then login with the same email and password: login throws "Invalid credentials" | the password is hashed once, so the signup password logs in | not executed | AuthController.SignupLocksOut | AuthController.SignupHashingOnceThenLogin |
| backend/src/routes/health.ts:58-78 | the probes call `db.runHealthCheck()` and `WebhookService.checkHealth()`, which the two services do not define | were the router mounted (backend/src/app.ts:46-51 does not mount it), any `GET /health` with an empty or stale cache: both calls throw "... is not a function" and the answer is 503 `error` | each probe resolves when its service works, so `/health` answers 200 `ok` | not executed | Health.UndefinedProbesAlwaysDown | Health.ResolvingProbesUp |
| backend/src/controllers/profileController.ts:140 | `updateProfile` starts an unknown caller from the `user1` template and keeps its id, email and role | a signed-in user with no stored profile updates `firstName`; their next `getProfile` shows `john.doe@example.com` and id `user1` | start from the profile `getProfile` shows (profileController.ts:86-91), with the caller's id, email and role | not executed | Profile.UpdateReplacesIdentity | Profile.UpdateAsShownKeepsIdentity |
