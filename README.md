# Job application tracker: dashboard view logic and route guard

This project models the two parts of the job application tracker's React
front end that are more than rendering and HTTP calls. The model is written
in Dafny and its properties are proved.

* **The Dashboard page** (`src/pages/Dashboard.jsx`). These values are
  derived on every render:
  - the filtered and searched list of job cards (`filteredJobs`);
  - the stat counts over the whole list, with the chart series and stat
    tiles built from them;
  - the badge colour of a status (`getStatusColor`).

  The add/edit form is also modelled. It holds `company`, `role`, `status`
  and `editId`. The Edit button loads a job into it. The save button sends
  a POST or a PUT, and clears the form when `fetch` resolves.
* **The route table of `App`** (`src/App.jsx`). This is a pure decision from
  the path and the stored session to "render a page" or "redirect".

Files:

| file | module | what it holds |
|---|---|---|
| `wrappers.dfy` | `Wrappers` | `Option`, for `null` values |
| `text.dfy` | `Text` | `toLowerCase` on ASCII; `includes` and its meaning |
| `seqs.dfy` | `Seqs` | `Array.prototype.filter`, and what it keeps and in which order |
| `dashboard.dfy` | `Dashboard` | jobs, `filteredJobs`, counts, chart, tiles, colours |
| `job_form.dfy` | `JobForm` | the save request, and the `Form` class with its handlers |
| `routing.dfy` | `Routing` | route selection, session truthiness, the no-loop property |

Behaviour of the code a reader might not expect; the model follows the code
in each case:

* `JSON.parse` of the stored session (`src/App.jsx:8`) has no `try`. A
  malformed stored value makes `App` throw; it is not treated as "no
  session". `Routing.App` returns `Thrown` in that case.
* No `/signup` route is declared. `/signup` redirects like any other
  unknown path, so the Signup page is never rendered.
* `/login` renders the Login page even when a session is present. Nothing
  redirects a signed-in user away from it.
* The session is parsed once per render of `App`. Every route of that
  render sees the same value. A redirect keeps the session the same, which
  is how `Routing.Follow` models it.

## Model

| member | source | states |
|---|---|---|
| `Text.Lower` | src/pages/Dashboard.jsx:95 | `toLowerCase` on ASCII: the length is kept and each character is lower-cased on its own; `LowerIdempotent` is its partner |
| `Text.Includes` | src/pages/Dashboard.jsx:95 | `includes`: true when the needle is a prefix, and never for a needle longer than the text; `IncludesIffOccurs` gives its exact meaning |
| `Text.IncludesIffOccurs` | src/pages/Dashboard.jsx:95 | `includes` answers true exactly when the needle occurs at some index of the company name |
| `Text.LowerIdempotent` | src/pages/Dashboard.jsx:95 | lower-casing a lower-cased string changes nothing |
| `Seqs.Filter` | src/pages/Dashboard.jsx:92-96 | `filter` returns at most as many elements, and an element is in the result exactly when it is in the input and passes the test |
| `Seqs.FilterSelectsKept` | src/pages/Dashboard.jsx:92-96 | the result is the input taken at strictly increasing positions, and those positions are exactly the ones whose element passes the test |
| `Seqs.FilterFuse` | src/pages/Dashboard.jsx:92-96 | two chained filters equal one filter by the conjunction of their tests |
| `Seqs.FilterKeepsAll` | src/pages/Dashboard.jsx:93 | a test every element passes leaves the list unchanged |
| `Dashboard.FilteredJobs` | src/pages/Dashboard.jsx:92-96 | a job is shown exactly when it is in the list, its status matches the filter or the filter is "All", and its lower-cased company contains the lower-cased search; there are never more cards than jobs |
| `Dashboard.FilteredIsOneFilter` | src/pages/Dashboard.jsx:92-96 | the status filter followed by the search filter is one filter by visibility |
| `Dashboard.FilteredKeepsOrder` | src/pages/Dashboard.jsx:92-96 | the cards are a subsequence of the jobs in their original order, taken at exactly the visible positions |
| `Dashboard.AllAndEmptySearchShowsEverything` | src/pages/Dashboard.jsx:93-95 | with filter "All" and an empty search, every job is shown, in order |
| `Dashboard.SearchIgnoresCase` | src/pages/Dashboard.jsx:94-95 | two search texts with the same lower-cased form show the same cards |
| `Dashboard.SearchLowerCasedAgrees` | src/pages/Dashboard.jsx:94-95 | searching for a text and for its lower-cased form shows the same cards |
| `Dashboard.CountStatus` | src/pages/Dashboard.jsx:100-103 | a status count never exceeds the list's length, and is zero exactly when no job has that status |
| `Dashboard.ComputeStats` | src/pages/Dashboard.jsx:99-103 | the total is the length of the unfiltered list, and no status count exceeds it |
| `Dashboard.CountsPartition` | src/pages/Dashboard.jsx:99-103 | the four status counts plus the number of jobs with any other status equal the total |
| `Dashboard.CountsBoundedByTotal` | src/pages/Dashboard.jsx:99-103 | applied + interview + offer + rejected is at most the total, with equality exactly when every job has one of the four statuses |
| `Dashboard.ChartData` | src/pages/Dashboard.jsx:105-110 | the chart has four entries, named Applied, Interview, Offer, Rejected in that order |
| `Dashboard.ShowsChart` | src/pages/Dashboard.jsx:186 | the chart is drawn exactly when the total is positive; `ChartPlaceholder` ties this to the job list |
| `Dashboard.ChartCountsJobs` | src/pages/Dashboard.jsx:99-110 | each chart entry's value is the number of jobs that have that entry's status |
| `Dashboard.ChartPlaceholder` | src/pages/Dashboard.jsx:186-187 | the placeholder replaces the chart exactly when there are no jobs, and then every slice is zero; when all statuses are known, the slices add up to the total |
| `Dashboard.StatTiles` | src/pages/Dashboard.jsx:164-168 | five tiles, the first showing the total |
| `Dashboard.TilesMatchChart` | src/pages/Dashboard.jsx:164-168 | after the total, the tiles show the chart's entries name for name and value for value |
| `Dashboard.ComputeView` | src/pages/Dashboard.jsx:92-110 | the number of cards never exceeds the total in the stats |
| `Dashboard.StatsIgnoreFilterAndSearch` | src/pages/Dashboard.jsx:99-110 | changing the filter or the search leaves the counts, tiles and chart as they were |
| `Dashboard.StatusColor` | src/pages/Dashboard.jsx:114-127 | the gray default is given exactly to strings that are not one of the four statuses |
| `Dashboard.StatusColorsDistinct` | src/pages/Dashboard.jsx:114-127 | distinct known statuses get distinct colour classes |
| `JobForm.TargetId` | src/pages/Dashboard.jsx:54-56 | an id read back from a request path is non-empty, and that path is the job's resource path |
| `JobForm.SaveRequest` | src/pages/Dashboard.jsx:48-67 | nothing is sent exactly when company or role is empty; otherwise the body is the form's three fields, the verb is PUT exactly when `editId` is truthy, the path is `/api/jobs/{editId}` for a PUT and `/api/jobs` for a POST, and the id can be read back from the path exactly for a PUT |
| `JobForm.ButtonCaption` | src/pages/Dashboard.jsx:241 | the caption is "Update" or "Add", and "Update" exactly when `editId` is truthy |
| `JobForm.CaptionMatchesVerb` | src/pages/Dashboard.jsx:241 | the button reads "Update" exactly when a click would PUT, and "Add" exactly when it would POST |
| `JobForm.EditedJobRoundTrip` | src/pages/Dashboard.jsx:293-297 | editing a job and saving it unchanged PUTs the job's own fields to its own id |
| `JobForm.Form.constructor` | src/pages/Dashboard.jsx:17-22 | the form starts blank: empty company and role, status "Applied", no edit id |
| `JobForm.Form.SetCompany` | src/pages/Dashboard.jsx:218 | sets the company and changes nothing else |
| `JobForm.Form.SetRole` | src/pages/Dashboard.jsx:224 | sets the role and changes nothing else |
| `JobForm.Form.SetStatus` | src/pages/Dashboard.jsx:229 | sets the status and changes nothing else |
| `JobForm.Form.StartEdit` | src/pages/Dashboard.jsx:293-297 | copies the job's company, role, status and id into the form |
| `JobForm.Form.Submit` | src/pages/Dashboard.jsx:48-77 | sends what `SaveRequest` gives for the old state, or nothing without a session; the form is reset exactly when a request was sent and delivered; otherwise it is unchanged |
| `JobForm.EditThenSaveTwice` | src/pages/Dashboard.jsx:48-77 | Edit then save PUTs the job; a second save after the first save's `fetch` has resolved sends nothing, because the form was cleared |
| `Routing.Truthy` | src/App.jsx:16 | a parsed value is falsy exactly when it is null, false, 0 or the empty string, and truthy otherwise; this is the `userInfo ?` test of lines 16 and 20 |
| `Routing.Route` | src/App.jsx:12-21 | a redirect only ever targets `/login` or `/dashboard`, and the Dashboard renders only with a session |
| `Routing.App` | src/App.jsx:7-21 | `App` throws exactly when the stored value is malformed; otherwise it routes on the truthiness of the parsed value, and a missing value means no session |
| `Routing.DashboardGuarded` | src/App.jsx:14-17 | `/dashboard` renders the Dashboard with a session and redirects to `/login` without one |
| `Routing.LoginAlwaysRenders` | src/App.jsx:13 | `/login` renders the Login page whatever the session |
| `Routing.OtherPathsRedirect` | src/App.jsx:18-21 | every other path redirects to `/dashboard` with a session and to `/login` without one |
| `Routing.SignupRedirects` | src/App.jsx:18-21 | `/signup` has no route of its own, so it redirects like any unknown path |
| `Routing.RedirectTargetRenders` | src/App.jsx:13-21 | the target of any redirect renders a page at once |
| `Routing.NoRedirectLoops` | src/App.jsx:13-21 | from any path, following redirects reaches a rendered page within one hop, and that page is the Dashboard exactly when signed in and not at `/login` |

## Left out

- Network calls are not modelled: `fetchJobs`, the POST/PUT request itself, `deleteJob`, and the response parsing. `Form.Submit` returns the request it would send, and a `delivered` flag stands for whether `fetch` resolved.
- The jobs list is not updated after a save or a delete. The re-fetch is not awaited, and overlapping re-fetches can race; this is concurrency.
- `localStorage` reads and writes are not modelled. `Form.Submit` takes `sessionParsed` (the parsed session is not null). `Routing.App` takes the stored value already classified as missing, parsed, or malformed.
- `JSON.parse` itself is not modelled; `Routing.Json` keeps only what truthiness needs.
- The `window.location` redirects on mount and on logout (`logoutHandler`) are navigation side effects and are not modelled.
- The Login and Signup pages are not modelled. They only post credentials, store the response, redirect and alert.
- `Routing.Route` matches paths as exact strings. The router's own normalisation (case-insensitive matching, trailing slashes) belongs to the routing library and is not part of this model.
- Text.Lower: lower-cases only ASCII `A`-`Z`. Full Unicode `toLowerCase` is not modelled (special casings, multi-character results).
- Form.Submit: a stored session that parses to a non-null value without a `token` still sends a request. The model does not distinguish this from a real session.
- Form.Submit: a save is modelled as one atomic step, but the source awaits `fetch` before clearing the form, with the button and inputs still live. Two effects of that wait are not captured. A second click before the first `fetch` resolves sends the same request again; a repeated POST creates a second job. Anything typed, or loaded with Edit, during the wait is wiped by the reset.
- The API's base URL is not modelled; request paths are relative to it.
- JSX rendering, styling, the dark-mode toggle and the pie chart's colours are presentation and are not modelled.
