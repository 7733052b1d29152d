# Employee roster: filter and edit state, session token, bearer gate

A Dafny model of the authenticated record-edit path of the UAE_pay roster application:

- the Employees page with filters (`client/src/pages/Employees.js`), as a class holding the last full load (`allRows`), the visible and editable rows (`rows`), the project list, the three filter inputs and the status line, with `applyFilters`, the filter handlers, Clear Filters, the two cell edits, `load`, `update` and `logout`;
- the two earlier tag-only Employees pages (`src/pages/Employees.js`, `server/client/Employees.js`), as one class whose `Variant` selects the status texts;
- the login form (`client/Login.js`) and the shared browser state: the stored token and the current route, including the `PrivateRoute` rule of `server/client/src/App.js`;
- the API server (`server/server.js`): the `auth` middleware, following the bearer scheme of section 2.1 of RFC 6750 with a case-sensitive `"Bearer "` prefix, and the decisions of the login, employees, PUT and projects handlers.

Unsaved edits have no overlay of their own. A cell edit rewrites `rows` only. Every filter change and Clear Filters rebuilds `rows` from `allRows`, and neither an edit nor a save updates `allRows`. So an edit, saved or not, leaves the view at the next filter change and comes back only with the next load. `EmployeesPage.Valid` states what does hold throughout: the keys of `rows` are an order-preserving subsequence of the keys of `allRows`.

Layout: `wrappers.dfy` (Option), `text.dfy` (`trim() === ""`, ASCII `toLowerCase`, `includes`, `parseInt`), `http.dfy` (records, response bodies, the PUT body, the `Authorization` header), `roster.dfy` (filter and edit functions and their lemmas), `loading.dfy` (what a load does with the employees response), `session.dfy`, `login_page.dfy`, `roster_page.dfy`, `tag_only_page.dfy`, `server.dfy`, and `pipeline.dfy` (lemmas that span client and server).

The asynchronous handlers `update` and `handleLogin` are each split at their `await`: `BeginUpdate`/`EndUpdate` and `Submit`/`Replied`. This makes the cleared status line visible while the request is pending. Responses, JWT signing and verification, and SQL results are parameters: `sign` and `verify` are functions, and each SQL round trip is an `Outcome` (a value, or the text of the thrown error).

## Model

| member | source | states |
|---|---|---|
| `Roster.Keep` | client/src/pages/Employees.js:55-70 | The rows kept are exactly the rows of the input that every criterion admits, and there are never more of them than in the input. |
| `Roster.Matches` | client/src/pages/Employees.js:59-67 | The three `filter` callbacks. A tag input passes only rows with a non-null, non-empty tag. A project input passes only rows whose project is the number `parseInt` reads from the input. |
| `Roster.ApplyFilters` | client/src/pages/Employees.js:55-70 | `applyFilters` keeps only rows of `allRows`, never more of them than there are. With both texts blank and no project selected it shows `allRows` whole. |
| `Roster.FilterLowerCased` | client/src/pages/Employees.js:59-63 | Typing the PSC and tag filters in lower case shows the same rows as typing them in any case. |
| `Roster.FilterIsConjunction` | client/src/pages/Employees.js:55-70 | The three conditional `filter` stages of `applyFilters` keep exactly the rows admitted by all three inputs. |
| `Roster.FilterOrderIrrelevant` | client/src/pages/Employees.js:56-68 | Running the three stages in any order gives the same `rows` as `applyFilters`. |
| `Roster.ChainIsKeep` | client/src/pages/Employees.js:56-68 | Any sequence of filter stages keeps the same rows as one filter by the conjunction of their criteria. |
| `Roster.KeepFuse` | client/src/pages/Employees.js:56-68 | Filtering an already filtered list equals one filter by both criterion lists. |
| `Roster.FilterIsSubsequence` | client/src/pages/Employees.js:55-70 | `applyFilters` yields an order-preserving subsequence of `allRows`. It never adds or reorders rows. |
| `Roster.KeepIsSubsequence` | client/src/pages/Employees.js:59-67 | Each `filter` stage yields an order-preserving subsequence of its input. |
| `Roster.FilterMeaning` | client/src/pages/Employees.js:58-68 | A row is shown iff it is in `allRows` and passes three tests. PSC test: the filter is blank after trim, or the lowercased PSC contains the lowercased, untrimmed filter. Tag test: the filter is blank after trim, or the tag is non-null, non-empty and contains the filter case-insensitively. Project test: the filter is `""`, or `parseInt` of it is a number equal to the row's project. |
| `Roster.NullProjectNeverMatches` | client/src/pages/Employees.js:66-68 | A row with a null project never passes a non-empty project filter. |
| `Roster.NullTagNeverMatches` | client/src/pages/Employees.js:62-64 | A row with a null tag never passes a tag filter that is not blank. |
| `Roster.ProjectOptionSelects` | client/src/pages/Employees.js:73-77 | Selecting a project's option, whose value is `String(prjSeq)` (line 176), shows exactly the loaded rows on that project that the current PSC and tag inputs also admit. |
| `Roster.FilterIgnoresCase` | client/src/pages/Employees.js:59-63 | PSC and tag filter texts that differ only in letter case show the same rows. |
| `Roster.AdmitsIgnoresCase` | client/src/pages/Employees.js:58-63 | Texts equal after lower-casing are equally blank and admit the same rows as PSC or tag inputs. |
| `Roster.Edit` | client/src/pages/Employees.js:215-217 | A cell edit keeps length and order. Every row with the edited PSC gets the new field value, and every other row is unchanged. |
| `Roster.EditKeepsKeys` | client/src/pages/Employees.js:215-217 | An edit leaves the list of keys as it was. |
| `Roster.EditTouchesOneRow` | client/src/pages/Employees.js:226-228 | With unique PSCs, an edit changes at most one row, the one with the edited PSC. |
| `Roster.ProjectChoice` | client/src/pages/Employees.js:225 | The empty selection, and only it, stores `null`. Any other value stores the number `parseInt` reads from it, or `NaN` when it reads none. |
| `Roster.ProjectChoiceOfOption` | client/src/pages/Employees.js:225-233 | Choosing a project's option stores that project's `prjSeq`. |
| `Text.ParseIntString` | client/src/pages/Employees.js:67 | The decimal text of an integer parses back to that integer under `parseInt`. |
| `Text.ParseInt` | client/src/pages/Employees.js:67 | `parseInt` yields a number only when the text contains a digit. A text with no digit, the empty text included, is `NaN`. |
| `Text.ContainsAt` | client/src/pages/Employees.js:59 | `includes` holds iff the searched text occurs at some offset. |
| `Text.LowerIdempotent` | client/src/pages/Employees.js:59 | Lower-casing twice equals lower-casing once. |
| `Text.LowerKeepsBlank` | client/src/pages/Employees.js:58 | Lower-casing never changes whether a filter text is blank after trim. |
| `Http.AuthHeader` | client/src/pages/Employees.js:22 | The header is "Bearer " followed by the stored token, or by "null" when none is stored. Line 104 builds the same header for a save. |
| `Http.ProjectJson` | client/src/pages/Employees.js:106 | `JSON.stringify` writes a project number as that number, and both null and `NaN` as null. |
| `RosterPage.SaveBody` | client/src/pages/Employees.js:106 | The save body carries the tag as given. Its project is null exactly when the row's project is null or `NaN`, and the number otherwise. |
| `RosterPage.EmployeesPage.constructor` | client/src/pages/Employees.js:6-12 | All lists start empty and all filter texts and the status line start as `""`. |
| `RosterPage.EmployeesPage.Load` | client/src/pages/Employees.js:17-48 | The status line is cleared. On a 401 the token is removed, the route becomes `/login`, and `rows`, `allRows` and `projects` are unchanged. On a list, `allRows` and `rows` both become it. `projects` becomes the projects reply's list when that reply is ok and carries a list, and is unchanged otherwise. The visible keys remain a subsequence of the loaded keys. |
| `RosterPage.EmployeesPage.ApplyFilters` | client/src/pages/Employees.js:55-71 | `rows` becomes the filtered `allRows`, and the class invariant holds. |
| `RosterPage.EmployeesPage.HandleProjectFilter` | client/src/pages/Employees.js:73-77 | The new project filter is stored, and `rows` is rebuilt from `allRows` with it and the other two current filters. |
| `RosterPage.EmployeesPage.HandlePSCFilter` | client/src/pages/Employees.js:79-83 | The new PSC filter is stored, and `rows` is rebuilt from `allRows` with it and the other two current filters. |
| `RosterPage.EmployeesPage.HandleTagIdFilter` | client/src/pages/Employees.js:85-89 | The new tag filter is stored, and `rows` is rebuilt from `allRows` with it and the other two current filters. |
| `RosterPage.EmployeesPage.HandleClearFilters` | client/src/pages/Employees.js:91-96 | All three filters become `""` and `rows` becomes `allRows`. |
| `RosterPage.EmployeesPage.EditTag` | client/src/pages/Employees.js:213-218 | Only `rows` changes, by the tag edit of the matching-PSC rows. `allRows` is untouched and the invariant is kept. |
| `RosterPage.EmployeesPage.EditProject` | client/src/pages/Employees.js:224-229 | Only `rows` changes: the matching-PSC rows get `null` for the empty selection, else `parseInt` of the value. |
| `RosterPage.EmployeesPage.BeginUpdate` | client/src/pages/Employees.js:98-107 | The status line is cleared. The PUT for the row's PSC carries the bearer header, the tag (`""` for null) and the project as JSON writes it. |
| `RosterPage.EmployeesPage.EndUpdate` | client/src/pages/Employees.js:109-121 | Only the status line changes: "✓ Updated <psc>" on ok, with the PSC of the request `BeginUpdate` built, and "✗ Update failed" otherwise. A 401 clears no token. |
| `RosterPage.EmployeesPage.Logout` | client/src/pages/Employees.js:124-127 | The token is removed and the route becomes `/login`. |
| `RosterPage.EditSaveThenFilter` | client/src/pages/Employees.js:56-114 | After an edit, a save and a PSC filter change, `rows` is the filtered unchanged `allRows`: the edit is gone from view. |
| `RosterPage.ScenarioFilter` | client/src/pages/Employees.js:66-68 | On the two-row roster E1 (project 1) and E2 (no project), filtering by project "1" leaves E1 alone. |
| `Loading.LoadAsWritten` | client/src/pages/Employees.js:25-33 | As written, a 401 signs out, and any other response's body is stored as the roster. |
| `Loading.ServerErrorStoredAsRoster` | client/src/pages/Employees.js:31-33 | As written, a 500 response's error object is stored as the roster although it is no list. |
| `Loading.LoadStep` | client/src/pages/Employees.js:25-33 | Corrected load: sign out iff the status is 401, show the rows iff another status carries a list, and otherwise keep the roster. |
| `Loading.CorrectionOnlyGuardsNonLists` | src/pages/Employees.js:18-25 | The corrected load agrees with the written one on 401 and on every list. It differs only where the written one would store a non-list. |
| `TagOnlyPage.TagPage.constructor` | src/pages/Employees.js:6-7 | `rows` starts empty and the status line starts as `""`. |
| `TagOnlyPage.TagPage.Load` | src/pages/Employees.js:12-26 | The status line is cleared. On a 401 the token is removed, the route becomes `/login` and `rows` is unchanged. On a list, `rows` becomes it. The `server/client` page's lines 11-25 do the same. |
| `TagOnlyPage.TagPage.EditTag` | src/pages/Employees.js:92-97 | Only `rows` changes: the matching-PSC rows get the new tag, with length and order kept. The `server/client` page's lines 79-84 do the same. |
| `TagOnlyPage.TagOnlyBody` | server/client/Employees.js:40 | The body carries `empTagId` only; the project key is absent. The `src/pages` page's line 41 does the same. |
| `TagOnlyPage.TagPage.BeginUpdate` | src/pages/Employees.js:33-42 | The status line is cleared, and the PUT for the row's PSC carries the bearer header and a tag-only body. |
| `TagOnlyPage.TagPage.EndUpdate` | src/pages/Employees.js:44-48 | Only the status line changes: to the page's "Updated <psc>" text on ok, with the PSC of the request `BeginUpdate` built, and to its failure text otherwise. |
| `TagOnlyPage.UpdatedMessage` | server/client/Employees.js:43-47 | The success text ends with the row's PSC. It is "✓ Updated <psc>" on the `src/pages` page and "Updated <psc>" on this one. |
| `TagOnlyPage.TagPage.Logout` | server/client/Employees.js:50-53 | The token is removed and the route becomes `/login`. The `src/pages` page's lines 51-54 do the same. |
| `Session.Browser.SignOut` | src/pages/Employees.js:19-20 | `localStorage.removeItem("token")` followed by `navigate("/login")`. |
| `Session.Browser.SignIn` | client/Login.js:26-27 | The token is stored and the route becomes `/employees`. |
| `Session.Render` | server/client/src/App.js:6-9 | `/employees` renders only with a truthy stored token. Every other case shows the login view. |
| `LoginPage.Login.Submit` | client/Login.js:10-18 | The error is cleared at the start of every attempt, and the body is exactly the current username and password. |
| `LoginPage.Login.constructor` | client/Login.js:5-7 | The username, the password and the error line all start as `""`. |
| `LoginPage.Login.Replied` | client/Login.js:20-27 | A non-ok reply sets "Invalid username/password" with no token write and no navigation. An ok reply stores `data.token` and navigates to `/employees`. |
| `LoginPage.StoredToken` | client/Login.js:25-26 | The stored text is the body's token. A body without one stores "undefined". |
| `LoginPage.Login.SetUsername` | client/Login.js:37 | The input's value becomes the username. |
| `LoginPage.Login.SetPassword` | client/Login.js:44 | The input's value becomes the password. |
| `Server.ExtractToken` | server/server.js:43-44 | A token exists iff the header is present and starts with the case-sensitive "Bearer ". The token is then the header minus that prefix. |
| `Server.Authorize` | server/server.js:42-53 | Outcomes: "Missing token" (401) iff there is no token or it is empty; "Invalid token" (401) iff verification fails; admission with the decoded claims iff it succeeds. |
| `Server.BearerRoundTrip` | server/server.js:44 | The header "Bearer <t>" yields exactly `t`. |
| `Server.SchemeIsCaseSensitive` | server/server.js:44-45 | "bearer <t>" and "BEARER <t>" are rejected as missing tokens. |
| `Server.Exchange.Auth` | server/server.js:42-53 | A rejection sends the 401 response and leaves `req.user` and `next` alone. An admission sets `req.user` to the claims and calls `next` exactly once, sending nothing. |
| `Server.Guard` | server/server.js:79 | A protected route answers with exactly the gate's 401 reply when the gate rejects, and with the handler's response otherwise. |
| `Server.ServerFailure` | server/server.js:74 | A thrown error is answered with status 500, which is not ok, and the body `{message: "Server error", error}` carrying the error's text. Lines 87, 107 and 120 send the same reply. |
| `Server.Login` | server/server.js:56-76 | Zero matching rows gives 401 "Invalid credentials". A non-zero count with a successful sign gives 200 and the token for `{usrID: username}`. A throw from the query, or from `sign` after a match, gives 500 `{message: "Server error", error}` with that throw's text. |
| `Server.ListEmployees` | server/server.js:79-89 | 200 with the listed rows iff the query returns. Otherwise 500 "Server error" with the error text. |
| `Server.ListProjects` | server/server.js:112-122 | 200 with the listed projects iff the query returns. Otherwise 500 "Server error" with the error text. |
| `Server.OrNull` | server/server.js:102 | `v \|\| null` is null iff `v` is falsy, and otherwise `v` itself. |
| `Server.UpdateCallFor` | server/server.js:92-102 | The `UPDATE` gets the path's PSC and the body's tag unchanged. Its project is null exactly when the body's project is falsy, and that value otherwise. |
| `Server.Put` | server/server.js:92-109 | `{message: "Updated"}` whenever the update does not throw, however many rows it matched. 500 "Server error" when it throws. |
| `Server.FalsyProjectStoredAsNull` | server/server.js:102 | 0, `""`, null, undefined and false are all stored as a null project. |
| `Pipeline.PageHeaderAtGate` | client/src/pages/Employees.js:22 | The page's `Bearer ${token}` header carries the stored token, or "null" when none is stored. Only an empty stored token is "Missing token"; everything else reaches verification. |
| `Pipeline.LoginTokenOpensGate` | server/server.js:71-72 | When `verify` accepts what `sign` issues, a successful login's token, stored by the login page, is admitted as the user who logged in and unlocks `/employees`. |
| `Pipeline.TagOnlySaveClearsProject` | src/pages/Employees.js:41 | Every save from a tag-only page reaches the `UPDATE` with a null project. |
| `Pipeline.RosterSaveStoresProject` | client/src/pages/Employees.js:242 | A save from the filter page stores the row's project unless it is null, `NaN` or 0. Those three are stored as null. |
| `Pipeline.EmployeesRouteLoadStep` | server/server.js:79-89 | Either gate rejection makes a page sign out. A listing is shown. A throwing store keeps the roster. |
| `Pipeline.EmployeesRouteFailureAsWritten` | server/server.js:86-88 | As written, a throwing store's `{message, error}` body is what a page stores as its roster. |
| `Pipeline.ProjectsRouteOkIsList` | server/server.js:112-122 | The projects route answers ok iff the gate admits and the query returns. Its ok body is always the project list. |

## Findings

| source | as written | input that shows it | evidently intended | confidence | as-written member | corrected member |
|---|---|---|---|---|---|---|
| client/src/pages/Employees.js:25-33 | Every status other than 401 is treated as a roster, so `setAllRows`/`setRows` receive whatever the body is | GET `/api/employees` answered 500 `{message: "Server error", error}` (store unreachable): `rows` becomes that object and the next render's `rows.map` throws | Only a list body replaces `allRows` and `rows`; any other answer leaves them as they were | high (not executed) | `Loading.LoadAsWritten` | `Loading.LoadStep` |
| src/pages/Employees.js:18-25 | `setRows(data)` for every status other than 401 | the same 500 response | Only a list body replaces `rows` | high (not executed) | `Loading.LoadAsWritten` | `Loading.LoadStep` |
| server/client/Employees.js:17-24 | `setRows(data)` for every status other than 401 | the same 500 response | Only a list body replaces `rows` | high (not executed) | `Loading.LoadAsWritten` | `Loading.LoadStep` |

`Loading.ServerErrorStoredAsRoster` and `Pipeline.EmployeesRouteFailureAsWritten` exhibit the written behaviour for that input. `Loading.CorrectionOnlyGuardsNonLists` shows that the correction changes nothing else. The page classes use the corrected `LoadStep`.

## Unsaved edits

Unsaved edits have no place of their own. The model follows the code:

- Edits live in `rows` only, and `allRows` keeps the last load.
- A filter change or Clear Filters rebuilds `rows` from `allRows`, so it discards every edit from view.
- A save changes only the status line. The edited values come back into view only with the next load.
- A 401 on a save does not sign out; only a load's 401 does.

A row hidden by the filters has no input, so only a visible row can be edited. `RosterPage.EditLostOnClearFilters` walks through that scenario: a visible row is edited, Clear Filters runs, and the verifier proves the asserted outcome, that the edit is no longer in view.

## Left out

- JSX rendering, CSS, the table and select markup, and the routes of `App.js` other than the `PrivateRoute` rule folded into `Session.Render`.
- `fetch`, HTTP transport and `localStorage` as such. Responses are parameters, and the stored token is a field of `Session.Browser`. A `fetch` that rejects (network failure) is not modelled.
- URL encoding of the PSC in the PUT path, and Express's route matching.
- `jsonwebtoken`: `sign` and `verify` are function parameters. The `iat`/`exp` claims and expiry checking happen inside `verify` and are not modelled separately.
- SQL and `mssql`: `ORDER BY`, pooling, the conversion of a JSON value into `sql.Int` or `sql.VarChar`, and how many rows an `UPDATE` matched. The store is an `Outcome` oracle.
- Server bootstrap: `dotenv`, the environment check and `process.exit`, CORS, `express.json`, `app.listen`, and the `console` output.
- The 3-second `setTimeout` that clears `msg` on the filter page.
- Interleaving of concurrent loads and saves. Each handler runs to completion in the model, apart from the `await` split of `update` and `handleLogin`.
- `Text.Lower`: lower-cases ASCII letters only, while `toLowerCase` covers all of Unicode.
- `Text.ParseInt`: the hexadecimal `0x` prefix and the loss of precision beyond 2^53 are not modelled. Option values come from integer `prjSeq`s, so neither arises from the page.
- `Server.Login`: the SQL comparison is the `query` oracle. Collation (case or trailing-space insensitivity) is the database's behaviour and is not modelled.
- RosterPage.EmployeesPage.Load: follows the corrected load of the Findings, not the written one. An employees reply that is not 401 and not a list keeps `rows` and `allRows` where lines 31-33 would store its body. An ok projects reply whose body is not a list leaves `projects` as it was; lines 41-44 would store that body. The server's projects route never sends such a reply (`Pipeline.ProjectsRouteOkIsList`).
- TagOnlyPage.TagPage.Load: follows the corrected load of the Findings. A reply that is not 401 and not a list keeps `rows` where both pages would store its body.
- Numbers in JSON bodies are integers. Fractional values are not modelled.
