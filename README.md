# Admin moderation console: cache, session and HTTP client, in Dafny

This project models the client-side core of an admin console for a
skill-exchange platform's backend.

- **Moderation cache** (`Moderation`, `ModerationDerived`). It bulk-loads users
  and reports and enhances each report with a derived status and target type.
  It computes per-user report statistics. It joins reports to users through a
  reference that is either a bare id or an embedded user.
- **Moderation actions.** Resolve, reject and delete a report, hide or unhide a
  message, and set a user's status. Resolve, reject, hide or unhide, and set a
  status each record an audit entry; delete records none. Setting a status also
  reloads the users.
- **Selectors.** The filtered report list and the dashboard summary.
- **Session manager** (`Session`). Admin-only login, logout, restoring a session
  from the cookie or local storage, and access-token refresh.
- **HTTP client** (`Api`). The bearer token, header merging, how an HTTP
  exchange becomes an `ApiResponse`, and the endpoint table.
- **URL builder** (`Config`) and **route guard** (`RouteGuard`).
- **Shared datatypes** (`Types`), with helper modules `Wrappers`, `Strings` and
  `Seqs`.

The two stores and the client become classes. Their fields are the source's
state: maps, a sequence of audit entries, flags, and the optional blobs that
stand for the cookie and the local-storage entry. Each action is a method with
a `modifies` clause. Its contract states every field's new value as a function
of the old state and the backend's reply.

Backend replies are parameters: `Reply<T>` (`Ok(data)` or `Err(message)`) and
`Outcome` (`Success` or `Failure(message)`). So are the clock readings (`now`,
and `logTime` for an audit entry) and the audit-entry id (`logId`). The `forEach` loops that build the cache are `while`
loops, proved equal to the pure functions `Keyed`, `ReportsMap` and
`StatsMap`. The facts the source relies on are proved about those functions.

The selectors read `Array.from(map.values())`, whose order is the map's
insertion order, and that order is not modelled. The selectors are therefore
read-only methods over a nondeterministic enumeration of the values. Their
contracts are order-independent:
- the result as a multiset;
- its sortedness;
- the top-10 property.

Timestamps are integers.

`lib/apiClient.ts` has no refresh-and-retry logic for HTTP 401 and no
`setRefreshTokenCallback` method. `stores/sessionStore.ts:265` calls that method anyway. The retry is not
modelled.

## Model

| member | source | states |
|---|---|---|
| Strings.ContainsAt | stores/moderationStore.ts:451-454 | `includes` holds iff the query occurs at some position of the text |
| Strings.Lower | stores/moderationStore.ts:440 | lowering keeps the length and lowers each character on its own (ASCII letters only) |
| Strings.LowerIdempotent | stores/moderationStore.ts:440-454 | lowering an already lowered string changes nothing, so lowering both sides of `includes` is consistent |
| Seqs.FilterMultiset | stores/moderationStore.ts:120-126 | `filter` keeps exactly the elements that pass, each as often as in the input |
| Seqs.FilterFilter | stores/moderationStore.ts:126 | filtering twice equals filtering once by the conjunction |
| Seqs.FilterCount | stores/moderationStore.ts:131-132 | the length of a filtered list is the number of positions whose element passes |
| Seqs.SortDesc | stores/moderationStore.ts:459-462 | sorting by a descending comparator gives a non-increasing permutation of the input |
| Seqs.Take | stores/moderationStore.ts:408 | `slice(0, n)` is the prefix of length `min(n, len)` |
| Seqs.TakeSortedIsTop | stores/moderationStore.ts:405-415 | the first `n` of a sorted list are sorted, and nothing left out has a larger key than the last one kept |
| Seqs.FilterOfSet | stores/moderationStore.ts:399-403 | filtering an enumeration of a map's values gives each passing value exactly once |
| Seqs.TopOfSet | stores/moderationStore.ts:405-415 | filter, sort and slice keep at most `n` passing values, sorted, and nothing left out outranks the last one kept |
| Seqs.Keyed | stores/moderationStore.ts:100-101 | the map built by `forEach(x => m.set(x._id, x))` has exactly the ids of the list as keys, each holding an element with that id |
| Seqs.KeyedLastWins | stores/moderationStore.ts:101 | the entry kept for an id is the last element with that id |
| Seqs.KeyedUnique | stores/moderationStore.ts:101 | with distinct ids, every element is kept under its id |
| Types.AllReportStatuses | types/index.ts:2-7 | `ReportStatus` has exactly four distinct values |
| Types.ReportStatusListed | types/index.ts:2-7 | every `ReportStatus` is one of the four |
| Types.AllTargetTypes | types/index.ts:9-12 | `TargetType` has exactly two distinct values |
| Types.TargetTypeListed | types/index.ts:9-12 | every `TargetType` is one of the two |
| Types.AllReasonCodes | types/index.ts:14-21 | `ReasonCode` has exactly six distinct values |
| Types.ReasonCodeListed | types/index.ts:14-21 | every `ReasonCode` is one of the six |
| Types.AllUserStatuses | types/index.ts:23-28 | `UserStatus` has exactly four distinct values |
| Types.UserStatusListed | types/index.ts:23-28 | every `UserStatus` is one of the four |
| Types.AllModerationStatuses | types/index.ts:30-34 | `ModerationStatus` has exactly three distinct values |
| Types.ModerationStatusListed | types/index.ts:30-34 | every `ModerationStatus` is one of the three |
| Types.UserStatusNameRoundTrip | types/index.ts:23-28 | each `UserStatus` is read back from its string value |
| Types.RefFormsAgree | types/index.ts:85-86 | a bare id and an embedded user with that id normalise to the same id |
| Types.AdmitsMeaning | types/index.ts:131-136 | an absent filter field or `"ALL"` admits every value; a concrete value admits exactly itself |
| Config.BuildApiUrl | lib/config.ts:1-8 | the URL is the fixed base URL and `/api/v1` followed by the endpoint |
| Config.EndpointRoundTrip | lib/config.ts:7 | stripping the prefix recovers the endpoint |
| Config.BuildApiUrlInjective | lib/config.ts:7 | distinct endpoints give distinct URLs |
| RouteGuard.Middleware | middleware.ts:4-24 | `/admin/login` passes; paths outside `/admin` pass; an `/admin` path is redirected to the login page iff the session cookie is absent |
| RouteGuard.NoRedirectLoop | middleware.ts:8-19 | the redirect target is always let through |
| RouteGuard.CookieValueIgnored | middleware.ts:13-17 | any cookie value gives the same decision |
| Api.RequestHeaders | lib/apiClient.ts:24-31 | `Content-Type` defaults to JSON and the caller may override it; caller headers are kept; `Authorization` is `Bearer <token>` iff a non-empty token is held, replacing the caller's |
| Api.HeldTokenOverridesRefreshBearer | lib/apiClient.ts:83-90 | while an access token is held, the refresh call carries it instead of the refresh token |
| Api.NoTokenNoAuthorization | lib/apiClient.ts:14-31 | with no token, or an empty one, no `Authorization` header is added |
| Api.ErrorValue | lib/apiClient.ts:41-46 | the error is `message`, else `error`, else "An error occurred", and is always truthy |
| Api.ShapeResponse | lib/apiClient.ts:33-62 | error iff no data; thrown failures become their message or "Network error"; non-ok bodies give the error precedence; ok bodies with both tokens pass whole, else a truthy `data` is unwrapped, else the body is the data |
| Api.FailureIsTruthy | lib/apiClient.ts:41-61 | every failed request carries a truthy error unless an exception had an empty message |
| Api.RouteRoundTrip | lib/apiClient.ts:65-173 | the endpoint table is one-to-one: method and path identify the endpoint and its id |
| Api.ApiClient.constructor | lib/apiClient.ts:11-12 | a new client holds no token |
| Api.ApiClient.SetToken | lib/apiClient.ts:14-16 | the client holds exactly the given token |
| Api.ApiClient.Request | lib/apiClient.ts:18-63 | a request goes to the endpoint's method and URL, with the merged headers, and resolves to the shaped response |
| Session.LoginRefusal | stores/sessionStore.ts:54-87 | a login is refused with the reply's error, "Login failed", the no-user text or the access-denied text, in that order; it is accepted iff a user flagged admin came back |
| Session.NonAdminRefused | stores/sessionStore.ts:81-87 | a user not flagged admin is refused with the access-denied text, whatever the tokens |
| Session.HydrationSource | stores/sessionStore.ts:161-217 | a parseable cookie wins; otherwise parseable storage; otherwise nothing |
| Session.SessionStore.constructor | stores/sessionStore.ts:34-43 | a new store is logged out, with no error |
| Session.SessionStore.Login | stores/sessionStore.ts:46-128 | on refusal, only `error` (and `loading`) change. On success, the session fields and the client token come from the reply, and the cookie is always written (seven days iff remembered). Storage is written iff remembered. |
| Session.SessionStore.Logout | stores/sessionStore.ts:130-159 | the backend is called iff a refresh token is held; afterwards the client token, cookie, storage and every session field are cleared |
| Session.SessionStore.Restore | stores/sessionStore.ts:173-182 | the session and the client token come from the persisted data; `rememberMe` defaults to false |
| Session.SessionStore.HydrateFromCookieOrStorage | stores/sessionStore.ts:161-217 | the session is restored from the chosen source; storage is copied back into a seven-day cookie; with no source nothing changes |
| Session.SessionStore.RefreshAccessToken | stores/sessionStore.ts:219-259 | with no refresh token nothing happens. A failed or empty reply, or a cookie that no longer parses, logs out. Otherwise the new token replaces the old in the store, the client and an existing cookie (and in storage iff remembered). |
| Session.SessionStore.ClearError | stores/sessionStore.ts:261 | only the error is cleared |
| ModerationDerived.Enhance | stores/moderationStore.ts:106-112 | status is `RESOLVED` iff resolved, else `OPEN`; target type is `USER`; every other field is kept |
| ModerationDerived.ReportsMapDerived | stores/moderationStore.ts:99-114 | the cached reports are keyed by id over exactly the fetched ids; each is an enhanced fetched report with the derived status and target type |
| ModerationDerived.StatsFor | stores/moderationStore.ts:128-146 | statistics are about the user; status is `DELETED` iff the user is flagged deleted, else `ACTIVE`; message and toxicity counts are 0 |
| ModerationDerived.StatsReceived | stores/moderationStore.ts:119-131 | `reportsReceived` is the number of reports whose normalised target is the user |
| ModerationDerived.StatsOpen | stores/moderationStore.ts:126-132 | `openReports` is the number of those not resolved, so it never exceeds `reportsReceived` |
| ModerationDerived.StatsLastReported | stores/moderationStore.ts:134-141 | `lastReportedAt` is absent iff there is no report about the user, and is otherwise the latest creation time among them |
| ModerationDerived.StatsMap | stores/moderationStore.ts:117-147 | one statistics entry per loaded user id, computed for the user the user map keeps under that id |
| ModerationDerived.StatsIgnoreReferenceForm | stores/moderationStore.ts:120-124 | statistics depend on a target only through its normalised id, so bare-id and embedded-user references agree |
| ModerationDerived.UnreportedUserStats | stores/moderationStore.ts:119-141 | a user with no reports has zero counts and no last-report time |
| ModerationDerived.OpenStatsMatchCache | stores/moderationStore.ts:99-147 | right after a load with distinct report ids, a user's open count equals the number of cached reports about the user that the dashboard counts as open |
| ModerationDerived.ReasonCodeIgnored | stores/moderationStore.ts:424-463 | the reason-code filter never changes which reports are listed |
| ModerationDerived.EmptyFiltersKeepAll | stores/moderationStore.ts:428-439 | with no filter and no search, every report is kept |
| ModerationDerived.MarkResolved | stores/moderationStore.ts:225-231 | a resolved report is resolved, `RESOLVED`, not open, and carries the note and time; nothing else changes |
| ModerationDerived.MarkRejected | stores/moderationStore.ts:262-267 | a rejected report is `REJECTED` and not open, keeps `isResolved`, and carries the note and time; nothing else changes |
| ModerationDerived.RejectionUndoneByReload | stores/moderationStore.ts:255-270 | a rejection is local only: the next load shows an unresolved rejected report as `OPEN` again |
| ModerationDerived.ClosingLowersOpenCount | stores/moderationStore.ts:397-403 | replacing an open report by a resolved or rejected one lowers the dashboard's open count by exactly one |
| ModerationDerived.RemovingLowersOpenCount | stores/moderationStore.ts:299-302 | deleting an open report lowers the dashboard's open count by exactly one |
| ModerationDerived.MessageAction | stores/moderationStore.ts:331 | the action is `HIDE_MESSAGE` iff the status is `HIDDEN_ADMIN`, else `UNHIDE_MESSAGE` |
| ModerationDerived.UserStatusAction | stores/moderationStore.ts:378 | the action is `SET_USER_STATUS_` followed by a value that reads back as the status |
| ModerationDerived.UserStatusActionInjective | stores/moderationStore.ts:378 | different statuses are recorded as different actions |
| Moderation.BuildUsersMap | stores/moderationStore.ts:100-101 | the loop builds exactly `Keyed(users, _id)` |
| Moderation.BuildReportsMap | stores/moderationStore.ts:103-114 | the loop builds exactly the map of enhanced reports |
| Moderation.BuildStats | stores/moderationStore.ts:117-147 | the loop builds exactly the statistics map |
| Moderation.ValuesOf | stores/moderationStore.ts:399 | enumerating a map's values gives each value exactly once |
| Moderation.ModerationStore.constructor | stores/moderationStore.ts:66-75 | a new store is empty, with no error and nothing loaded |
| Moderation.ModerationStore.LoadData | stores/moderationStore.ts:78-161 | a users error, then a reports error, is stored and leaves the cache and `dataLoaded` as they were; on success the users, enhanced reports and statistics are replaced and `dataLoaded` is set; `loading` ends false |
| Moderation.ModerationStore.RefreshReports | stores/moderationStore.ts:163-189 | on success only the report map is replaced (statistics are not recomputed); failures change nothing |
| Moderation.ModerationStore.RefreshUsers | stores/moderationStore.ts:191-208 | on success only the user map is replaced; failures change nothing |
| Moderation.ModerationStore.AddAuditLog | stores/moderationStore.ts:475-485 | exactly one entry is put at the head of the audit trail |
| Moderation.ModerationStore.ResolveReport | stores/moderationStore.ts:211-253 | on failure only `error` changes. On success only the cached entry for the id (if any) is marked resolved, and one `RESOLVE_REPORT` entry is prepended, even for an uncached id. |
| Moderation.ModerationStore.RejectReport | stores/moderationStore.ts:255-288 | always succeeds; only the cached entry (if any) is marked rejected, `isResolved` is untouched, and one `REJECT_REPORT` entry is prepended |
| Moderation.ModerationStore.DeleteReport | stores/moderationStore.ts:290-311 | on success exactly the key is removed and nothing is logged; on failure only `error` changes |
| Moderation.ModerationStore.SetMessageModeration | stores/moderationStore.ts:313-343 | always succeeds; only the cached message (if any) takes the status, and one hide/unhide entry is prepended |
| Moderation.ModerationStore.SetUserStatus | stores/moderationStore.ts:345-394 | `DELETED` calls the delete endpoint, any other status the update endpoint; on success only the user's statistics status changes, one `SET_USER_STATUS_<status>` entry is prepended and the users are refreshed |
| Moderation.ModerationStore.ClearError | stores/moderationStore.ts:473 | only the error is cleared |
| Moderation.ModerationStore.ResetStore | stores/moderationStore.ts:487-498 | every field is back to its initial value |
| Moderation.ModerationStore.GetUserModeration | stores/moderationStore.ts:465-467 | the cached statistics of the user, which are about that user, or none |
| Moderation.ModerationStore.GetReportById | stores/moderationStore.ts:469-471 | the cached report with that id, or none |
| Moderation.ModerationStore.GetFilteredReports | stores/moderationStore.ts:424-463 | exactly the cached reports the status, target-type and search filters keep, each once, newest first |
| Moderation.ModerationStore.GetDashboardSummary | stores/moderationStore.ts:397-422 | the open count is the number of `OPEN`/`UNDER_REVIEW` reports; up to ten reported users, most reports first; up to ten open reports, newest first; nothing left out outranks the last one shown |

## Left out

- Refresh-and-retry on HTTP 401: the client has no such logic, and the `setRefreshTokenCallback` call at stores/sessionStore.ts:265 names a method the client does not define.
- Network transport, `response.json()`, request bodies (the login credentials, the empty `updateUser` body, the logout token) and the concurrency of the two fetches in `loadData`. Each backend call is a reply parameter; both `loadData` replies arrive together.
- The JavaScript runtime's exceptions inside the stores' `try` blocks (for example a `null` `targetID`). The `catch` branches would store the exception's own message, since such an exception is an `Error`. The model's data has no `null` references, so those branches do not occur.
- A truthy `error` that is not a string: `Reply.Err` carries the error text.
- Browser persistence mechanics (js-cookie, `localStorage`, `JSON.parse`): the cookie and storage entry are optional blobs that parse or do not.
- Clock and randomness: `now`, `logTime` and `logId` are parameters. `ResolveReport` and `RejectReport` take two clock readings, one for the report's `updatedAt` and one for the audit entry, as the source reads the clock twice. The `log-<time>-<random>` shape of audit ids and ISO date strings are not modelled.
- Date parsing: timestamps are integers, so an unparseable date (`NaN` in a comparator) is not modelled.
- Unicode case mapping: `Lower` maps ASCII letters only.
- The optional profile fields of `User`, and message fields the core never reads.
- Console logging.
- Moderation.ValuesOf: the map's insertion order is not modelled; only the values as a multiset are specified.
- Moderation.ModerationStore.GetFilteredReports: because of that, the order among reports with equal `createdAt` (which the stable sort takes from insertion order) is not specified.
- Moderation.ModerationStore.GetDashboardSummary: likewise, which of several users or reports tied at the tenth place are shown, and their order among equals, is not specified.
- Messages are never loaded by the store, so the message map starts and stays empty. `SetMessageModeration` only updates an entry that is already there.
