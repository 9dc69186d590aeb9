# young: the record dashboards and the login page, modelled in Dafny

The `young` front end serves a neighbourhood office. Staff record citizens'
requests ("murojatlar"); each request is tracked as *jarayonda* (in
progress) or *bajarilgan* (done). This project models three parts of it:

- **the login page** (`Login`): two credential forms. The employee submit
  stores `employeeToken` and `userData` in `localStorage`; the admin submit
  stores `adminToken` and `adminData`.
- **the employee dashboard** (`UserDashboard`):
  - a record cache and a session guard that needs both `employeeToken` and
    a parsable `userData`;
  - create and update, which always send the signed-in employee as the
    assignee `biriktirilganXodim`;
  - delete;
  - an image gallery per record, which uploads the base64 part of a data
    URL.
- **the admin dashboard** (`Dashboard`): the same table. Every request is
  guarded by the unscoped `token` key, and a 401/403 reply removes that key.

Both dashboards compute the same table view. Their two filter expressions
are copies of each other, so one Dafny definition (`RecordFilter`) models
both. A record is shown when all three tests pass:

1. its status matches the selected card;
2. its full name `ismFamilya` contains the search text, ignoring case;
3. its `createdAt` (`DD.MM.YYYY`) passes the chosen bucket (today / this
   month / this year). Once both ends of the date range are set, the range
   replaces the bucket: it is inclusive at both ends and applies to every
   record that has a `createdAt`. A range end that is not a calendar date
   hides every dated record.

The summary cards count the unfiltered cache.

Module layout:

- Foundations:
  - `Wrappers` holds `Option`.
  - `Seqs` holds subsequences, `split`/`join` and substring search.
  - `Calendar` holds Gregorian dates, day numbers, and the parsing and
    printing of `DD.MM.YYYY`.
  - `Records` holds the record and image entities, HTTP replies and
    requests, and the by-id replace and remove operations.
  - `Session` holds `localStorage` as a map, the JSON text of the stored
    user, and both session guards.
- Pages: `RecordFilter`, `UserDashboardPage`, `DashboardPage` and
  `LoginPage`.
- Stateful components are classes whose fields are the component's
  `useState` values. Each handler is a method: it takes the server's reply
  as a parameter and returns the requests it sent.

The model shows that the admin login and the admin dashboard do not share a
key. The login writes `adminToken`; the dashboard reads only `token`
(`LoginPage.AdminLoginLeavesDashboardTokenAlone`). An admin login alone
therefore never gets past the admin dashboard's guard. The model keeps this
as the code has it.

## Model

| member | source | states |
|---|---|---|
| RecordFilter.Lower | src/UserDashboard.jsx:263 | ASCII lowercasing keeps the length, leaves no capital letter, turns each capital into the small letter at the same alphabet position and keeps every other character |
| RecordFilter.LowerIdempotent | src/UserDashboard.jsx:263 | lowercasing an already lowercased text changes nothing |
| RecordFilter.LowerConcat | src/UserDashboard.jsx:263 | lowercasing two joined texts is joining their lowercased forms |
| RecordFilter.LowerSlice | src/UserDashboard.jsx:263 | a piece of the lowercased name is the lowercased piece of the name, which is why a verbatim occurrence of the query survives lowercasing |
| RecordFilter.StatusMatch | src/UserDashboard.jsx:259 | the status test: the card `all` is selected, or the record's status equals the selected card |
| RecordFilter.SearchMatch | src/UserDashboard.jsx:262-263 | the search test: the query is empty, or the lowercased full name contains the lowercased query |
| RecordFilter.BucketMatch | src/UserDashboard.jsx:266-289 | the bucket test: passes for bucket `all` or a missing `createdAt`; a malformed date fails; otherwise compares day, month and year with today as the bucket says |
| RecordFilter.InRange | src/UserDashboard.jsx:292-298 | the range test: the record's day number lies after the day before the start and before the day after the end; false for a malformed record date or a range end that is not a calendar date |
| RecordFilter.DateMatch | src/Dashboard.jsx:281-313 | the date test: the range test when both ends are set and `createdAt` is present, the bucket test otherwise |
| RecordFilter.Matches | src/UserDashboard.jsx:300 | a record is shown when it passes the status, search and date tests together |
| RecordFilter.FilterRecords | src/UserDashboard.jsx:257-301 | the view is never longer than the cache |
| RecordFilter.FilterIsSubsequence | src/UserDashboard.jsx:257-301 | the view is the cache with some rows left out, order kept |
| RecordFilter.FilterMembership | src/Dashboard.jsx:272-316 | a record is in the view if and only if it is in the cache and passes the status, search and date tests |
| RecordFilter.FilterMultiset | src/UserDashboard.jsx:257-301 | each passing record appears in the view as often as in the cache; each failing record does not appear |
| RecordFilter.FilterKeepsAllPassing | src/UserDashboard.jsx:257-301 | when every cached row passes, the view equals the cache |
| RecordFilter.NeutralFilterShowsAll | src/UserDashboard.jsx:259-263 | status `all`, an empty search, bucket `all` and no full range show the whole cache on any day |
| RecordFilter.UnfilteredShowsAll | src/UserDashboard.jsx:257-301 | the initial filter state shows the whole cache on any day |
| RecordFilter.SearchFindsSubstring | src/UserDashboard.jsx:262-263 | a name that contains the query at some position is found |
| RecordFilter.SearchIgnoresCase | src/Dashboard.jsx:277-278 | two queries that differ only in letter case give the same result |
| RecordFilter.SearchExample | src/UserDashboard.jsx:262-263 | "Ali Valiyev" is found by "ali", "VALIYEV" and the empty query |
| RecordFilter.BucketSemantics | src/UserDashboard.jsx:266-289 | for a dated record with no full range: `day` needs the same day, month and year as today; `month` the same month and year; `year` the same year; `all` passes |
| RecordFilter.YesterdayIsNotToday | src/UserDashboard.jsx:273-277 | a record dated the day before today is not in the `day` bucket |
| RecordFilter.MissingDatePasses | src/UserDashboard.jsx:266-298 | a record without `createdAt` passes the date test under every bucket and range |
| RecordFilter.MalformedDateFails | src/Dashboard.jsx:283-313 | a present but unparsable `createdAt` fails once a bucket or a full range is active |
| RecordFilter.RangeIsInclusive | src/UserDashboard.jsx:292-298 | with both ends set, a dated record passes if and only if start <= date <= end, ends included, whatever the bucket |
| RecordFilter.InvalidRangeEndHidesDated | src/Dashboard.jsx:307-313 | with both ends set and one not a calendar date, every dated record fails whatever the bucket, and an undated one passes |
| RecordFilter.PartialRangeIgnored | src/Dashboard.jsx:307-313 | under every configuration, a range with one end missing leaves the bucket in charge |
| RecordFilter.RangeExample | src/UserDashboard.jsx:292-298 | the range 10-20 January 2024 shows records of the 10th, 15th and 20th and hides the 25th |
| RecordFilter.CountStatus | src/UserDashboard.jsx:618-626 | a card's count never exceeds the number of cached records |
| RecordFilter.StatusCountsDisjoint | src/Dashboard.jsx:394-405 | the two status cards of different statuses add up to at most the total |
| RecordFilter.CardIsStatusView | src/UserDashboard.jsx:610-628 | a status card's count is the length of the view that clicking the card selects with no other filter set |
| RecordFilter.CardBoundsView | src/Dashboard.jsx:387-405 | any view filtered to one status is no longer than that status's card |
| RecordFilter.CardCounts | src/UserDashboard.jsx:610-628 | total is the cache length; the two status counts add up to at most the total; each equals its status-only view and bounds every view of its status |
| RecordFilter.TableTitle | src/UserDashboard.jsx:303-312 | the heading is JARAYONDA exactly for `jarayonda`, BAJARILGAN exactly for `bajarilgan`, MUROJATLAR otherwise |
| Session.GetItem | src/UserDashboard.jsx:59 | reading a key gives its stored text, or nothing when the key is absent |
| Session.BearerHeader | src/UserDashboard.jsx:69 | the `Authorization` value: `Bearer ` followed by the token, spelled `null` when there is none |
| Session.EncodeUser | src/Login.jsx:62 | the stored text of a user: `{"name":"..."}` with the name's quotes and backslashes escaped |
| Session.DecodeUser | src/UserDashboard.jsx:60 | a decoded user is one whose stored text is exactly the text read (inverse direction of `DecodeEncodeUser`) |
| Session.EscapeUnescape | src/UserDashboard.jsx:60 | text that reads back as a string is exactly that string's escaped form |
| Session.UnescapeEscape | src/Login.jsx:62 | reading back the escaped text of a string returns that string |
| Session.DecodeEncodeUser | src/Login.jsx:62 | the `userData` text the login stores parses back to the same user |
| Session.ResolveEmployeeSession | src/UserDashboard.jsx:58-66 | the employee guard passes if and only if `employeeToken` is non-empty and `userData` is the user text the login writes, and then yields exactly that token and user (narrower than the source; see Left out) |
| Session.ResolveAdminToken | src/Dashboard.jsx:41-47 | the admin guard passes if and only if `token` is present and non-empty, and yields it |
| Records.Response.Ok | src/Dashboard.jsx:142 | a reply is ok when its status is from 200 to 299; a network error is never ok |
| Records.Response.Rejected | src/Dashboard.jsx:137 | a reply ends the session when its status is 401 or 403, which is never an ok status |
| Records.ReplaceById | src/UserDashboard.jsx:212-215 | the row count is kept; each row with the returned id becomes the returned record, the others stay |
| Records.RemoveById | src/UserDashboard.jsx:240 | a record stays if and only if it was cached and its id differs from the deleted one, and each kept record stays as often as it was cached |
| Records.RemoveByIdIsSubsequence | src/Dashboard.jsx:241 | deletion keeps the remaining rows in order |
| Records.RemoveAbsentId | src/Dashboard.jsx:241 | deleting an id no row carries changes nothing |
| Records.ReplaceAbsentId | src/Dashboard.jsx:195 | an update whose id no row carries inserts nothing |
| Calendar.DayNumber | src/UserDashboard.jsx:294-297 | a date's position in the calendar, the day count that the `dayjs` comparisons compare |
| Calendar.FormatDate | src/UserDashboard.jsx:267-268 | the `DD.MM.YYYY` text of a date, with two-digit day and month and a four-digit year |
| Calendar.DayNumberOrder | src/UserDashboard.jsx:292-297 | on valid dates, day-number order is calendar order, and equal day numbers mean equal dates |
| Calendar.ParseCreatedAt | src/UserDashboard.jsx:268-270 | a parsed `createdAt` is a valid calendar date with a year from 100 to 9999 |
| Calendar.ParseFormatRoundTrip | src/UserDashboard.jsx:293-294 | every valid date with a year from 100 to 9999, written `DD.MM.YYYY`, reads back as itself |
| Seqs.Split | src/UserDashboard.jsx:268 | `split` on one character: at least one piece, and no piece contains the separator |
| Seqs.Contains | src/UserDashboard.jsx:263 | `includes`: the text holds the other text at some position |
| Seqs.JoinSplit | src/UserDashboard.jsx:293 | joining the pieces of a split with the separator gives back the text |
| Seqs.SplitAfterFirst | src/UserDashboard.jsx:360 | splitting a text at its first separator yields the part before it, then the split of the rest |
| UserDashboardPage.UploadPayload | src/UserDashboard.jsx:360 | the payload is missing if and only if the data URL has no comma, and it never contains a comma |
| UserDashboardPage.UploadPayloadAfterComma | src/UserDashboard.jsx:360 | for a data URL `header,data` the payload is exactly `data` |
| UserDashboardPage.AssignToSelf | src/UserDashboard.jsx:150-156 | the sent record names the signed-in employee as assignee and equals the draft in every other field |
| UserDashboardPage.UserDashboard.constructor | src/UserDashboard.jsx:26-55 | the employee dashboard opens with an empty cache, no selected record, no images, no chosen file and no upload in flight, over the given storage |
| UserDashboardPage.UserDashboard.View | src/UserDashboard.jsx:257-301 | the view keeps the cache order, holds exactly the cached rows that pass the filter, and holds each passing row as often as the cache does |
| UserDashboardPage.UserDashboard.Cards | src/UserDashboard.jsx:610-628 | the total is the cache length; each status card shows the length of its status-only view; the two status cards add up to at most the total; each bounds every view of its status |
| UserDashboardPage.UserDashboard.Load | src/UserDashboard.jsx:58-88 | with no session there is no request and a redirect to `/user/login`; otherwise a GET with the bearer token; 401/403 removes both keys and goes to `/user/login`; a list body replaces the cache |
| UserDashboardPage.UserDashboard.Create | src/UserDashboard.jsx:136-182 | the guard; a POST of the draft with the employee as assignee; an ok record is appended, anything else changes nothing |
| UserDashboardPage.UserDashboard.Update | src/UserDashboard.jsx:184-222 | the guard; a PUT of the edit with the employee as assignee; an ok record replaces the rows with its id |
| UserDashboardPage.UserDashboard.SelectRecord | src/UserDashboard.jsx:116-119 | the chosen record becomes the selected one |
| UserDashboardPage.UserDashboard.DeleteRecord | src/UserDashboard.jsx:224-247 | no guard; without a selection, no request and a failure; otherwise a DELETE, and on ok the rows with that id go and the selection clears |
| UserDashboardPage.UserDashboard.FetchImages | src/UserDashboard.jsx:328-344 | a GET of the record's images; only an ok list replaces the gallery |
| UserDashboardPage.UserDashboard.OpenGallery | src/UserDashboard.jsx:315-319 | the record is selected and its images fetched |
| UserDashboardPage.UserDashboard.CloseGallery | src/UserDashboard.jsx:321-326 | selection, gallery and chosen file are cleared |
| UserDashboardPage.UserDashboard.SelectFile | src/UserDashboard.jsx:346-351 | choosing no file keeps the previous one |
| UserDashboardPage.UserDashboard.UploadImage | src/UserDashboard.jsx:353-389 | nothing without a file and a record; otherwise a POST of the payload after the comma; on ok a refetch and the file clears; `uploading` is down on every exit |
| UserDashboardPage.UserDashboard.DeleteImage | src/UserDashboard.jsx:391-411 | a DELETE of the image; on ok with a selected record, a refetch; otherwise a failure |
| UserDashboardPage.ExpiredSessionStaysClosed | src/UserDashboard.jsx:73-76 | after the 401/403 cleanup the employee guard refuses |
| DashboardPage.Classify | src/Dashboard.jsx:136-148 | 401/403 expires the session; only an ok record is applied, and it is the reply's record |
| DashboardPage.Dashboard.constructor | src/Dashboard.jsx:22-23 | the admin dashboard opens with an empty cache and no selected record, over the given storage |
| DashboardPage.Dashboard.View | src/Dashboard.jsx:272-316 | the view keeps the cache order, holds exactly the cached rows that pass the filter, and holds each passing row as often as the cache does |
| DashboardPage.Dashboard.Cards | src/Dashboard.jsx:387-405 | the total is the cache length; each status card shows the length of its status-only view; the two status cards add up to at most the total; each bounds every view of its status |
| DashboardPage.Dashboard.Load | src/Dashboard.jsx:41-72 | no token: no request and a redirect to `/admin/login`; otherwise a GET; 401/403 removes `token` and goes to `/admin/login`; a list body replaces the cache |
| DashboardPage.Dashboard.Create | src/Dashboard.jsx:120-167 | the guard; a POST of the unchanged form; expire, fail or append as `Classify` says |
| DashboardPage.Dashboard.Update | src/Dashboard.jsx:169-216 | the guard; a PUT of the unchanged edit; expire, fail or replace by id as `Classify` says |
| DashboardPage.Dashboard.SelectRecord | src/Dashboard.jsx:100-103 | the chosen record becomes the selected one |
| DashboardPage.Dashboard.DeleteRecord | src/Dashboard.jsx:218-262 | without a selection nothing happens; then the guard; 401/403 removes `token`; on ok the rows with that id go and the selection clears |
| LoginPage.Accepted | src/Login.jsx:54-59 | a login writes to storage exactly when the reply is ok and its body is JSON |
| LoginPage.StoredToken | src/Login.jsx:61 | the stored token: the reply's `token`, or the text `undefined` when the JSON has no `{ token, user }` |
| LoginPage.StoredUser | src/Login.jsx:62 | the stored user text: the encoded user, or the text `undefined` when the JSON has no `{ token, user }` |
| LoginPage.EmployeeLoginStore | src/Login.jsx:42-71 | only an ok JSON reply writes `employeeToken` and `userData`; no other key changes; a failure writes nothing |
| LoginPage.AdminLoginStore | src/Login.jsx:73-98 | only an ok JSON reply writes `adminToken` and `adminData`; no other key changes; a failure writes nothing |
| LoginPage.EmployeeLoginResult | src/Login.jsx:54-69 | navigation to `/user/dashboard` if and only if the reply is ok and JSON; a failure shows the server's `error`, else `Login failed`, else the platform's message |
| LoginPage.AdminLoginResult | src/Login.jsx:85-96 | navigation to `/admin/dashboard` if and only if the reply is ok and JSON; a failure shows the server's `error`, else the admin fallback text, else the platform's message |
| LoginPage.Login.constructor | src/Login.jsx:15-24 | the page opens with the employee form `{login, password}` and the admin form `{username, password}`, every field empty, over the given storage |
| LoginPage.Login.EmployeeInputChange | src/Login.jsx:26-32 | only the named field of the employee form changes |
| LoginPage.Login.AdminInputChange | src/Login.jsx:34-40 | only the named field of the admin form changes |
| LoginPage.Login.EmployeeSubmit | src/Login.jsx:42-71 | a POST of the employee form with no token; the store and the outcome follow `EmployeeLoginStore` and `EmployeeLoginResult` |
| LoginPage.Login.AdminSubmit | src/Login.jsx:73-98 | a POST of the admin form with no token; the store and the outcome follow `AdminLoginStore` and `AdminLoginResult` |
| LoginPage.EmployeeLoginOpensDashboard | src/Login.jsx:59-62 | an ok login with a non-empty token passes the employee dashboard's guard, which yields that token and user |
| LoginPage.UndefinedLoginStaysClosed | src/Login.jsx:59-62 | an ok reply that is not `{ token, user }` still navigates, but the guard then refuses the stored `undefined` |
| LoginPage.AdminLoginLeavesDashboardTokenAlone | src/Login.jsx:89-90 | the admin login never changes `token`, so the admin dashboard's guard decides as before |
| LoginPage.LoginsKeepRolesApart | src/Login.jsx:61-90 | neither login changes the other role's guard |

## Left out

- The network, `toast`, `navigate`, `console` and `process.env.REACT_APP_API_URL` are not modelled. A reply is a parameter of each handler. Paths are written without the API base URL. A redirect or a message is an `Outcome` value.
- Asynchrony is not modelled: a handler runs to its end in one step. Stale closures and interleaved handlers are left out.
- Modal visibility flags, form resets, tab switching, the carousel and the JSX rendering are left out. They hold no logic beyond setting flags.
- The filter setters `handleFilterClick` and `handleDateFilter` are not methods. The filter state is the `FilterConfig` argument of `View`.
- The employee directory handlers in src/UserDashboard.jsx:425-550 are left out: the page renders no part of that directory.
- src/HomePage.jsx and src/App.js are not part of this model.
- `FileReader` is left out. A chosen file is given directly as the data URL it would be read into.
- `toLowerCase` is modelled on ASCII letters only; Unicode case mapping is left out.
- The `Date` and `dayjs` normalisation is left out. Examples are 31.02 rolling over into March and two-digit years mapping into the 1900s. Such `createdAt` values count as malformed and match no active bucket or range.
- Time of day is left out: `today` is a date, and the range compares whole days.
- If `userData` is not JSON, `JSON.parse` throws in the source. The model treats that text as no user, so the guard redirects.
- Session.ResolveEmployeeSession: is stronger than the source's guard. The source accepts any `userData` whose JSON value is truthy, such as `{}`, `[]`, `1`, a user object with more fields or one with extra whitespace, and for a value without `name` sends the record with no assignee. The model accepts only the exact text `{"name":"..."}` that the login writes, and redirects on anything else.
- `JSON.stringify` of a user escapes only the quote and the backslash here, and a user is reduced to its `name`. Control-character escapes and the other user fields are left out.
- A reply body that is JSON but not a list is left out for both `Load`s and `FetchImages`. The source would store that object as the table or gallery; the model keeps the cache and reports a failure.
- An ok create reply whose body is not a record is left out. The source would append that body as a row; the model reports a failure. For an ok update the source maps the rows by the body's `id`: an `{ error }` body matches no row and changes nothing, which the model reports as a failure with the cache unchanged.
- A record without `ismFamilya` would make the source's search throw. The model's records always carry the field.
