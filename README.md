# Lead-generation dashboard: a verified Dafny model

This project models the core of a lead-generation dashboard. The dashboard has two
generations of front end. One backend serves both.

- **Backend (`backend/server.js`).** An Express server that:
  - logs users in against a SQLite user table with bcrypt password checks;
  - keeps the user in a session;
  - mints a development token (`dev_<time>_<random>`) valid for 24 hours;
  - answers an authentication-status query from the session, or else from that token;
  - creates users through a setup endpoint.
- **Newer front end (`bolt/src`).**
  - An authentication context that checks, logs in and logs out.
  - The lead record types and a six-lead fixture.
  - The Google-Sheets import, which turns rows into leads and guesses the industry.
  - A lead-data provider: statistics with industry and status breakdowns, a fallback to
    the fixture, and an optimistic status update.
  - Two lead tables (search and status filters, status badges, a location guess and a
    status menu).
  - The conversion funnel of the funnel card and of the analytics page.
- **Older front end (`src`).**
  - A Google-Sheets service. It builds header-keyed objects from rows and maps them to
    leads. It also counts statuses, industries and titles, and derives outreach and
    template figures.
  - A data hook with loading and error bookkeeping.
  - A lead table that keeps a local copy of the leads.

## How the model is built

Each source file becomes a module:

| module | source file |
|---|---|
| `AuthBackend` | `backend/server.js` |
| `AuthClient` | `bolt/src/contexts/AuthContext.tsx` |
| `LeadTypes` | `bolt/src/types/index.ts` |
| `SheetsApi` | `bolt/src/data/googleSheetsApi.ts` |
| `MockData` | `bolt/src/data/mockData.ts` |
| `LeadData` | `bolt/src/contexts/LeadDataContext.tsx` |
| `LeadTables` | both `LeadTable` files of `bolt` |
| `Funnels` | `ConversionFunnel.tsx` and `Analytics.tsx` |
| `SheetsService` | `src/services/googleSheetsService.js` |
| `SheetsHook` | `src/hooks/useGoogleSheetsData.js` |
| `LeadTableView` | `src/components/LeadTable.jsx` |

Shared helpers:

- `Text` models the JavaScript string built-ins used: `toLowerCase`, `includes`,
  `replace` with a string pattern (first occurrence only), `trim`, `split(c)[0]`, the
  `\s+` replacement and number-to-decimal.
- `Seqs` models `map` followed by `filter(Boolean)`.
- `Tallies` models a counter object filled by `forEach`, as an association list in
  insertion order. That is the order `Object.keys` reports for keys that are not array
  indices; see "## Left out" for the keys where the object and the list differ.
- `Keywords` models an ordered list of substring rules where the first rule that fires
  wins.
- `Wrappers` holds `Option` and `Result`.

Code that updates state step by step is modelled as classes whose methods state the
whole new state:

- the server's user table, id counter and token map;
- the session;
- the client's authentication state;
- the lead-data provider;
- the data hook;
- the older table's local copy.

The counting loops are methods with loop invariants, proved equal to a specification
function. The functions' properties are proved as lemmas.

### Conventions

- **Falsy values.** A JavaScript value that may be missing or falsy is `""` for a
  string. A session's user id is 0 when it is unset; SQLite ids start at 1.
- **Rounding.** The source computes `Math.round((a / b) * 100)` and
  `Math.ceil((a / b) * 100)` in floating point. The model computes them on exact rationals:
  `(200a + b) / (2b)` rounds halves upward like JavaScript, and `(100a + b - 1) / b` is the
  exact ceiling. The two differ on some inputs; see "## Left out".
- **Percentages without a guard.** The analytics page has no guard, so there `0 / 0` is
  the `NaN` case of a `Percent` datatype.
- **Parameters.**
  - bcrypt's hash and compare are function-valued parameters.
  - The database's failure paths are boolean parameters.
  - The clock is a parameter: `now` in milliseconds, and `today` for the date stamp.
  - The random part of a token is a parameter.
  - What a `fetch` resolved to is an input.

### Behaviour modelled as written

The following behaviours come from the code and are proved as such:

- **Status path.** The client asks for `/api/status`, which the server does not serve.
  The server's endpoint is `/api/auth/status` (`AuthClient.StatusPathNotServed`). So the
  session check never signs in on its own.
- **Login token.** The client stores `data.token`, but the server names the token
  `devToken`. A stored token therefore never comes from a login
  (`AuthClient.ReadLoginResponse`).
- **Empty import.** A configured import that succeeds with no non-blank rows yields an
  empty list. The provider keeps that empty list; it does not fall back to the fixture.
- **Two industry detectors.**
  - `detectIndustry` on the newer dashboard reads name and website. Its default is
    Healthcare.
  - `deriveIndustry` in the service reads the lower-cased name only. Its default is
    Other.
  - The two disagree on the same input (`SheetsService.DetectorsDiverge`).
- **Response figures can be negative.** The response rate and the funnel's response count
  can be negative, because a lead can need a follow-up without being emailed.
- **Spaced keys.** The service looks up `lead['company name']` and
  `lead['company website']`. Those keys can never exist, because the row-to-object step
  turns spaces into `_`.

## Model

| member | source | states |
|---|---|---|
| AuthBackend.ServerRoute | backend/server.js:79-202 | the status endpoint is exactly GET `/api/auth/status` and the login endpoint exactly POST `/api/login` |
| AuthBackend.DecideLogin | backend/server.js:82-101 | missing email or password is the 400; a lookup failure is the 500; login is accepted iff the email is registered and the password checks against its hash; an unknown email and a wrong password give the identical 401 "Invalid email or password" |
| AuthBackend.DevToken | backend/server.js:115 | a token starts with `dev_` and is never empty |
| AuthBackend.ExtractToken | backend/server.js:173 | a query token wins over the Authorization header; with neither there is no token |
| AuthBackend.ExtractTokenBearer | backend/server.js:173 | for a `Bearer ` header the token is the query token when one is given and the header's token otherwise |
| AuthBackend.TokenLookup | backend/server.js:174-184 | a token is accepted iff it is present and its expiry is later than now, and expired iff present and not later |
| AuthBackend.TokenLifetime | backend/server.js:116-121 | a token minted at time t is accepted before t + 86 400 000 ms and expired from then on |
| AuthBackend.ExpiryIsFinal | backend/server.js:176-186 | an expired token stays expired at any later time, and after eviction it is unknown |
| AuthBackend.TokenResponse | backend/server.js:174-186 | the fallback always answers 200, and reports authenticated iff the token was accepted |
| AuthBackend.DecideSetup | backend/server.js:205-219 | a missing field is the 400; a lookup failure is the 500; an existing email is the 400 "User already exists"; an insert happens iff all fields are present and the email is new |
| AuthBackend.SetupThenLogin | backend/server.js:202-236 | a user created by setup can then log in with the password it was created with |
| AuthBackend.RequireAuth | backend/server.js:65-71 | the middleware passes iff the session holds a user id |
| AuthBackend.Protected | backend/server.js:190-199 | the protected route answers 200 with the session's user iff authenticated, else 401 "Authentication required" |
| AuthBackend.Server.Login | backend/server.js:79-132 | a rejected login changes nothing; an accepted one sets the session to the user and stores a 24-hour token for that user; the user table is never touched and the state invariant is kept |
| AuthBackend.Server.Logout | backend/server.js:140-148 | logout clears only the session (never the token map); a failed destroy answers 500 "Could not log out" |
| AuthBackend.Server.AuthStatus | backend/server.js:151-187 | with a session user the session answers and the token map is unchanged; otherwise the token verdict answers and an expired token is deleted |
| AuthBackend.Server.SetupAdmin | backend/server.js:202-238 | a rejection or a failed insert leaves the users unchanged; a successful insert adds exactly that user with the next id, and the token map is never touched |
| AuthClient.Check | bolt/src/contexts/AuthContext.tsx:37-84 | the session answer decides first; the token is tried only when one is stored; the result is signed in iff one of the two answers signs in; the token path sets the token answer's user; otherwise user and stored token are cleared |
| AuthClient.LoginOutcome | bolt/src/contexts/AuthContext.tsx:86-116 | success iff the response is ok and reports success; a network error, the server's error or "Login failed" otherwise |
| AuthClient.ReadLoginResponse | bolt/src/contexts/AuthContext.tsx:97-106 | the token the client reads from any server login response is empty; ok-and-success iff a 2xx login success |
| AuthClient.ServerLoginSeenByClient | bolt/src/contexts/AuthContext.tsx:97-110 | a successful server login is a client success, and a rejected one shows the server's own message |
| AuthClient.StatusPathNotServed | bolt/src/contexts/AuthContext.tsx:40 | the client's status path is not a server endpoint, and with no stored token the check cannot sign in |
| AuthClient.AuthState.CheckAuthStatus | bolt/src/contexts/AuthContext.tsx:37-84 | the state becomes the result of `Check`, with the requests issued in order, and loading ends false on every path |
| AuthClient.AuthState.Login | bolt/src/contexts/AuthContext.tsx:86-116 | a success signs in with the reply's user and stores the reply's token when it has one (the server's reply never does); a failure changes nothing |
| AuthClient.AuthState.Logout | bolt/src/contexts/AuthContext.tsx:118-133 | signed out with no stored token, whether or not the request went through |
| LeadTypes.StatusOfLabel | bolt/src/types/index.ts:15 | a label names a status iff it is one of the five labels |
| LeadTypes.StatusLabelsRoundTrip | bolt/src/types/index.ts:15 | the five statuses and five labels correspond one to one, in order |
| LeadTypes.StatusLabelsDistinct | bolt/src/types/index.ts:15 | the five labels are pairwise distinct |
| LeadTypes.CountsFollowFlags | bolt/src/data/mockData.ts:92-93 | the sent and follow-up counts depend only on the sent and follow-up flags |
| MockData.RoundPercent | bolt/src/data/mockData.ts:94-95 | the result is `100a/b` rounded half up, as `Math.round` does |
| MockData.RoundPercentBounded | bolt/src/data/mockData.ts:94 | a share of at most the whole rounds to 0..100 |
| MockData.CalculateStats | bolt/src/data/mockData.ts:90-104 | the total, sent and follow-up counts are the list's, the conversion rate is within 0..100, and no breakdown is set |
| MockData.CalculateStatsRates | bolt/src/data/mockData.ts:94-95 | each rate is 0 when its denominator is 0, and otherwise the rounded percentage of its numerator |
| MockData.ResponseRateNegative | bolt/src/data/mockData.ts:95 | the response rate is negative exactly when follow-ups exceed sent emails by more than half a percent |
| MockData.MockLeadsShape | bolt/src/data/mockData.ts:3-88 | the fixture has six leads with ids "1".."6", no status and no industry, and lead 5 needs a follow-up without having been emailed |
| MockData.MockSentCount | bolt/src/data/mockData.ts:3-93 | four of the six fixture leads have been emailed |
| MockData.MockFollowUpCount | bolt/src/data/mockData.ts:3-93 | three of the six fixture leads need a follow-up |
| MockData.MockStats | bolt/src/data/mockData.ts:3-104 | the fixture's statistics are 6 leads, 4 sent, 3 follow-ups, 67 % conversion, 25 % response |
| Keywords.Classify | bolt/src/data/googleSheetsApi.ts:12-24 | the result is one of the rule categories or the default |
| Keywords.ClassifyFirstMatch | bolt/src/data/googleSheetsApi.ts:16-23 | the category of the first rule that fires is chosen, and the default when none fires |
| SheetsApi.DetectIndustry | bolt/src/data/googleSheetsApi.ts:12-24 | the industry is one of the five labels |
| SheetsApi.DetectIndustryFirstMatch | bolt/src/data/googleSheetsApi.ts:13-23 | the first rule whose pattern occurs in the lower-cased name-space-website decides |
| SheetsApi.RowToLeadFields | bolt/src/data/googleSheetsApi.ts:104-124 | each field is read from its column or "" when absent; sent and follow-up hold iff the cell is TRUE, true or 1; status is "Not Contacted"; id is the row's 1-based position |
| SheetsApi.FirstNameOnlyRow | bolt/src/data/googleSheetsApi.ts:97-124 | a row with only a first name is kept, with every other text field empty and both flags false |
| SheetsApi.NormalizeRowsSpec | bolt/src/data/googleSheetsApi.ts:95-127 | one lead per non-blank row, in row order, each built from its row and numbered by its position; every non-blank row is among them |
| SheetsApi.NormalizedIdsDiffer | bolt/src/data/googleSheetsApi.ts:108 | two imported leads at different positions have different ids |
| SheetsApi.NormalizedIdsDistinct | bolt/src/data/googleSheetsApi.ts:108 | the ids of the imported leads are pairwise distinct |
| SheetsApi.BlankRowsNormalizeToNothing | bolt/src/data/googleSheetsApi.ts:97-99 | rows that are all blank give no lead |
| SheetsApi.FetchLeads | bolt/src/data/googleSheetsApi.ts:29-32 | unconfigured is the "Missing API key or Spreadsheet ID" error; no values is "No data found in any sheet tab"; success has fewer leads than rows; with rows, the result is the normalisation of every row after the header |
| SheetsApi.HeaderIgnored | bolt/src/data/googleSheetsApi.ts:95 | the first row never influences the result |
| SheetsApi.RemoteUpdateStatus | bolt/src/data/googleSheetsApi.ts:141-148 | the placeholder update always reports success |
| Seqs.KeptIndicesSpec | bolt/src/data/googleSheetsApi.ts:95-127 | the kept positions are exactly the non-dropped ones, increasing |
| Seqs.MapKeptSpec | bolt/src/data/googleSheetsApi.ts:95-127 | `map` then `filter(Boolean)` gives the mapped kept elements in order |
| Tallies.TallyOfSpec | bolt/src/contexts/LeadDataContext.tsx:37-48 | a counter filled key by key sums to the number of keys, lists each key once, and holds for every key its number of occurrences |
| LeadData.IndustryBreakdown | bolt/src/contexts/LeadDataContext.tsx:37-41 | the loop's counter is the tally of the industry keys ("Unknown" when missing); it sums to the number of leads with distinct keys |
| LeadData.StatusBreakdown | bolt/src/contexts/LeadDataContext.tsx:44-48 | the loop's counter is the tally of the status keys ("Not Contacted" when missing); it sums to the number of leads with distinct keys |
| LeadData.StatsOf | bolt/src/contexts/LeadDataContext.tsx:31-55 | no leads gives the base statistics alone; otherwise the base statistics with both breakdowns |
| LeadData.ComputeStats | bolt/src/contexts/LeadDataContext.tsx:31-55 | the two counting loops produce `StatsOf` |
| LeadData.BreakdownsCountLeads | bolt/src/contexts/LeadDataContext.tsx:31-55 | both breakdowns sum to the number of leads, list each key once and count, per key, the leads carrying it |
| LeadData.StatusKeysAreLabels | bolt/src/contexts/LeadDataContext.tsx:46 | every status key is one of the five labels |
| LeadData.WithStatus | bolt/src/contexts/LeadDataContext.tsx:95-101 | the leads with that id get the new status and every other lead is unchanged |
| LeadData.WithStatusUnknownId | bolt/src/contexts/LeadDataContext.tsx:95-101 | an id no lead has changes nothing |
| LeadData.WithStatusIdempotent | bolt/src/contexts/LeadDataContext.tsx:95-101 | setting the same status twice is setting it once |
| LeadData.WithStatusKeepsFigures | bolt/src/contexts/LeadDataContext.tsx:95-101 | the base statistics and the industry keys are unaffected by a status change |
| LeadData.WithStatusStatuses | bolt/src/contexts/LeadDataContext.tsx:95-101 | after the update the status key of matching leads is the new label and the others' are unchanged |
| LeadData.LeadStore.FetchData | bolt/src/contexts/LeadDataContext.tsx:57-79 | unconfigured uses the fixture; a failed import uses the fixture and sets the load error; a successful import is used as it is; loading ends false |
| LeadData.LeadStore.UpdateStatus | bolt/src/contexts/LeadDataContext.tsx:87-106 | if the remote call throws the leads are kept and the error is set; otherwise the status update is applied and the error is kept |
| LeadTables.Filter | bolt/src/components/ModernLeadTable.tsx:19 | the result is no longer than the input and every element is kept |
| LeadTables.FilterMembership | bolt/src/components/ModernLeadTable.tsx:19-37 | a lead is in the result iff it is in the input and is kept |
| LeadTables.FilterAppend | bolt/src/components/ModernLeadTable.tsx:19-37 | filtering keeps order: the filter of a concatenation is the concatenation of the filters |
| LeadTables.ModernFilterMembership | bolt/src/components/ModernLeadTable.tsx:18-38 | a lead is shown iff it matches the search term and the status filter |
| LeadTables.ModernFilterShowsAll | bolt/src/components/ModernLeadTable.tsx:18-38 | an empty term with "all" keeps every lead |
| LeadTables.ModernFilterSentPendingSplit | bolt/src/components/ModernLeadTable.tsx:18-38 | under one term, the "sent" and "pending" filters split the leads between them |
| LeadTables.TitleNotSearched | bolt/src/components/ModernLeadTable.tsx:18-38 | changing a lead's title never changes whether it matches the search |
| LeadTables.TablesAgree | bolt/src/components/LeadTable.tsx:15-29 | the older table's filter equals the modern one on the four filters they share, including the empty search term |
| LeadTables.EmptyMessage | bolt/src/components/ModernLeadTable.tsx:376-380 | "No leads found matching your criteria" shows iff nothing passed the filter |
| LeadTables.ModernBadge | bolt/src/components/ModernLeadTable.tsx:53-166 | the badge names the status when one is set, and is Recording, Online or Away otherwise |
| LeadTables.LegacyBadge | bolt/src/components/LeadTable.tsx:31-54 | Follow-up iff a follow-up is needed; Sent iff sent without follow-up; Pending otherwise |
| LeadTables.BadgesCorrespond | bolt/src/components/ModernLeadTable.tsx:125-165 | without a status the modern badge follows the older badge's precedence |
| LeadTables.Location | bolt/src/components/ModernLeadTable.tsx:169-177 | "Unknown" without a website, otherwise one of the five cities or Boston |
| LeadTables.LocationFirstMatch | bolt/src/components/ModernLeadTable.tsx:171-176 | "techcorp" wins over later substrings; no substring gives Boston |
| LeadTables.MenuClick | bolt/src/components/ModernLeadTable.tsx:329 | clicking the open row closes the menu, any other row opens it on that row |
| LeadTables.MenuClickTwice | bolt/src/components/ModernLeadTable.tsx:329 | two clicks on a row leave the menu as it was for that row |
| LeadTables.MenuListsEveryStatus | bolt/src/components/ModernLeadTable.tsx:350 | the menu offers the five statuses in the fixed order |
| Funnels.ConversionFunnel | bolt/src/components/ConversionFunnel.tsx:12-38 | three stages: all leads at 100, the emailed leads and the responses with their rounded shares, 0 when there are no leads |
| Funnels.FunnelMatchesStats | bolt/src/components/ConversionFunnel.tsx:14-28 | the emailed stage's share is the conversion rate of the statistics |
| Funnels.FunnelNegativeResponses | bolt/src/components/ConversionFunnel.tsx:14-16 | the response count is negative for a list holding only fixture lead 5 |
| Funnels.AnalyticsFunnel | bolt/src/components/Analytics.tsx:10-19 | the same stages, where a list with no leads gives not-a-number shares |
| Funnels.FunnelsAgree | bolt/src/components/Analytics.tsx:15-19 | with leads both funnels show the same stages; without leads the analytics page shows not-a-number where the card shows 0 |
| Funnels.MaxActivity | bolt/src/components/Analytics.tsx:32 | the maximum bounds every lead and email figure and is attained by one |
| Funnels.DailyActivityMax | bolt/src/components/Analytics.tsx:22-32 | the chart is scaled to 18 |
| SheetsService.NormalizeKey | src/services/googleSheetsService.js:37 | a header key holds no whitespace and no upper-case letter |
| SheetsService.SpaceRunsKeepLowerCase | src/services/googleSheetsService.js:37 | replacing whitespace runs in lower-cased text leaves no upper-case letter, so every key is lower-case |
| SheetsService.ObjectOfSpec | src/services/googleSheetsService.js:33-39 | each header's key maps to that column's cell ("" when absent), the last header with a key winning |
| SheetsService.ObjectOfKeys | src/services/googleSheetsService.js:36-38 | every key of an object comes from some header |
| SheetsService.ObjectKeysHaveNoSpace | src/services/googleSheetsService.js:37 | no key of an object contains whitespace |
| SheetsService.SpacedKeyAbsent | src/services/googleSheetsService.js:51-63 | the keys "company name" and "company website" never occur |
| SheetsService.RowToObject | src/services/googleSheetsService.js:35-39 | the header loop builds exactly `ObjectOf` |
| SheetsService.ObjectsOf | src/services/googleSheetsService.js:30-41 | fewer than two rows give nothing; otherwise one object per row after the header, keyed by the header |
| SheetsService.RowsToObjects | src/services/googleSheetsService.js:30-41 | the row loop builds exactly `ObjectsOf` |
| SheetsService.DeriveIndustry | src/services/googleSheetsService.js:71-79 | the industry is one of five labels or Other |
| SheetsService.DetectorsDiverge | src/services/googleSheetsService.js:71-79 | for an unnamed company without a website the newer detector says Healthcare and this one Other |
| SheetsService.LeadOfObject | src/services/googleSheetsService.js:49-64 | the id is the position plus one; the name is the trimmed first and last name; the status is never empty; a contact date is present iff the cell is non-empty |
| SheetsService.GetLeads | src/services/googleSheetsService.js:44-69 | a failed fetch gives no leads; otherwise one lead per row object, numbered 1..n, and the lead at position i is the mapping of the i-th row object |
| SheetsService.LeadOfRowFields | src/services/googleSheetsService.js:50-63 | the company and website come from the underscore columns only, the industry is derived from the company, and a missing status is "Not Contacted" |
| SheetsService.StatusTallyShape | src/services/googleSheetsService.js:137-156 | the status count lists the five labels in order and sums to the number of leads |
| SheetsService.StatusTallyGet | src/services/googleSheetsService.js:142-151 | each label's count is its number of occurrences among the status keys |
| SheetsService.StatusCounts | src/services/googleSheetsService.js:137-157 | the loop's counter has the five labels in order, sums to the number of leads, and counts each label's leads, an unknown status counting as "Not Contacted" |
| SheetsService.IndustryCounts | src/services/googleSheetsService.js:160-166 | the loop's counter sums to the number of leads, lists each industry once and counts its leads |
| SheetsService.TitleCounts | src/services/googleSheetsService.js:269-276 | the same for lower-cased titles, whose keys contain no upper-case letter |
| SheetsService.CountIfMonotone | src/services/googleSheetsService.js:175-176 | a weaker predicate counts at least as many leads (replied leads are contacted) |
| SheetsService.OutreachOf | src/services/googleSheetsService.js:169-187 | one workflow; three emails per contacted lead; replies never exceed contacted leads, which never exceed all leads |
| SheetsService.CeilPercent | src/services/googleSheetsService.js:243-245 | the result is the least integer not below `100a/b` |
| SheetsService.TemplateOf | src/services/googleSheetsService.js:237-247 | open is the ceiling share of contacted leads among all, reply of replied among contacted, booked of booked calls among replied; each is 0 when its denominator count is 0 and at most 100 |
| SheetsService.ServiceUpdateStatus | src/services/googleSheetsService.js:290-295 | the placeholder update always reports success |
| SheetsService.SetStatus | src/hooks/useGoogleSheetsData.js:87-92 | the leads with that id get the new status and every other lead is unchanged |
| SheetsService.SetStatusProperties | src/hooks/useGoogleSheetsData.js:87-92 | an unknown id changes nothing, the update is idempotent and ids are kept |
| SheetsHook.SheetsData.FetchAllStart | src/hooks/useGoogleSheetsData.js:30 | all four loading flags are set and nothing else changes |
| SheetsHook.SheetsData.FetchAllSettle | src/hooks/useGoogleSheetsData.js:32-46 | success replaces all four data slots and clears every error; failure sets only the general error and keeps the data; all flags end false |
| SheetsHook.SheetsData.FetchLeads | src/hooks/useGoogleSheetsData.js:50-63 | only the leads slot, its flag and its error change; the flag ends false |
| SheetsHook.SheetsData.FetchStats | src/hooks/useGoogleSheetsData.js:66-79 | only the statistics slot, its flag and its error change; the flag ends false |
| SheetsHook.SheetsData.UpdateLeadStatus | src/hooks/useGoogleSheetsData.js:82-99 | success applies the status to the matching leads and returns success; a throw keeps the data and returns the message |
| LeadTableView.RenderState | src/components/LeadTable.jsx:24-54 | skeleton iff loading; error panel iff not loading with an error; "No leads data available" iff neither and no leads; the table otherwise |
| LeadTableView.DisplayHost | src/components/LeadTable.jsx:80 | the host shown contains no '/' |
| LeadTableView.SchemeAfterHost | src/components/LeadTable.jsx:80 | a scheme found in a host followed by a path starts after the host |
| LeadTableView.SchemeRemovalKeepsHost | src/components/LeadTable.jsx:80 | removing a scheme from a host followed by a path leaves the host in front |
| LeadTableView.DisplayHostWithScheme | src/components/LeadTable.jsx:80 | an `https://` website shows its host |
| LeadTableView.HttpsAfterHost | src/components/LeadTable.jsx:80 | in an `http://` website, an `https://` can only occur after the host |
| LeadTableView.DisplayHostWithHttpScheme | src/components/LeadTable.jsx:80 | an `http://` website shows its host |
| LeadTableView.DisplayHostWithoutScheme | src/components/LeadTable.jsx:80 | a website without a scheme shows its host |
| LeadTableView.LeadTableState.SyncFromProps | src/components/LeadTable.jsx:7-11 | a present data prop replaces the local copy; a null one does not |
| LeadTableView.LeadTableState.HandleStatusChange | src/components/LeadTable.jsx:13-22 | the copy changes only when a handler exists and reports success, and then only the matching leads' status |
| LeadTableView.StatusChangeThroughHook | src/App.jsx:13-60 | with the hook's update as the handler, the table's copy and the hook's leads stay equal, whether the update succeeds or throws |

## Left out

- **Network plumbing.** `fetchSheetData`, the sheet-name and range retry loop of the Sheets
  import, and every `fetch` of the client are left out. Their outcomes are inputs.
- **Foreign libraries.**
  - bcrypt hashing and comparison are function parameters.
  - The SQLite database is a map from email to user, with failure flags.
  - express-session is a `Session` object.
  - CORS and server start and shutdown are not modelled.
  - The bcrypt promise rejections and the outer `try/catch` 500 paths of the login and
    setup routes are not modelled. Only the asynchronous database callbacks can fail here.
- **Clock and randomness.**
  - The time and the random part of a token are parameters.
  - `created_at` is the `today` parameter.
  - The random `deriveCompanySize` (`size`) is not part of a service lead.
  - The random minutes of `calculateAvgResponseTime` are not modelled.
  - `getNextBatchTime` is not modelled.
- **Simulated figures.**
  - `getStats`'s weekly, monthly and source figures are not modelled.
  - `getOutreachData`'s bounces and warning, which use floating-point percentages, are not
    modelled.
  - `getInsights`' top industry, top titles and average response time are not modelled;
    its template percentages are.
  - The hook keeps statistics and insights as abstract values.
- **Service catch paths.** The catch branches of `getStats`, `getOutreachData` and
  `getInsights`, which return fixed defaults, are not modelled.
- **Health endpoint.** The `/api/health` endpoint's body is not modelled; its route is.
- **Case folding.** Lower-casing is ASCII only; Unicode case folding is not modelled.
- **JavaScript's `\s`.** `\s` is modelled by the space, tab, newline, carriage-return,
  vertical-tab and form-feed characters.
- SheetsService.CeilPercent: the exact ceiling of `100a/b`, where the source's
  floating-point `Math.ceil((a / b) * 100)` overshoots on some quotients. For 11 of 20 the
  source shows 56 and the model 55; for 7 of 100 the source shows 8 and the model 7. Among
  0 <= a <= b <= 100 there are 16 such pairs.
- SheetsService.TemplateOf: its open, reply and booked figures are `CeilPercent` values, so
  they differ from the source's on the same quotients.
- MockData.RoundPercent: exact half-up rounding of `100a/b`, where the source's
  floating-point `Math.round((a / b) * 100)` rounds down on some half-way cases. For 23 of
  40 the source shows 57 and the model 58; 46 of 80 is the other such pair up to 100. The
  funnels use the same function.
- SheetsService.TitleCounts: the counter is a plain object keyed by free-text titles, and
  the association list does not model its inherited properties. A title "constructor"
  starts from the inherited function, so its entry is a string rather than 1. A title
  "__proto__" is never stored, so the total falls short of the number of leads. Titles that
  are array indices, such as "2", come first in `Object.keys`, in ascending order, where
  the list keeps insertion order.
- **LeadData.LeadStore.UpdateStatus:** the new status is one of the five statuses. The
  source casts any string (`newStatus as Lead['status']`).
- **LeadTables.MenuClick:** the menu also closes after a status is chosen (`setShowStatusMenu(null)`
  in `handleStatusUpdate`). That step and the call to the provider's update are not a
  separate member.
- **Older data hooks.** The `useLeads` and `useStats` hooks repeat the bookkeeping of
  `FetchLeads` and `FetchStats` and are not modelled separately.
- **Presentation.** Markup, styles, theme and the older table's status `select`, whose
  options are the five labels, are not modelled.
- **Aliasing.** React state setters are modelled as plain field assignments. Updates
  queued in one render are applied in program order.
