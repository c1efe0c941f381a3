# Web visit counter: a verified model of the tracking and aggregation core

The repository is a small visit counter. A React page (`src/App.js`) gives each
browser a persistent visitor id and each tab a session marker. It is written to report one
visit per tab and later the time spent on the page. In this revision nothing calls the code
that does so (see "## Left out"). An Express/MongoDB backend
(`backend/server.js`) stores one `Traffic` document per visit. Three of its routes
(`record-visit`, `stats` and `insights`) answer with rollups computed fresh from the
collection on every request, while `update-duration` answers only `{ success: true }`:

- today's figures;
- one entry per day for the last week;
- 30-day insights that add a bounce rate.

This Dafny project models that core in four modules:

- `Records` (records.dfy): the `Traffic` document and the one update the backend applies, `findOneAndUpdate({ sessionId }, { viewDuration })`.
- `Aggregation` (aggregation.dfy): the three aggregation pipelines, written as pure functions of the collection and a clock reading. Each follows its pipeline stage by stage:
  - `$match` is `Window`;
  - `$group` is `Accumulate`, applied per day by `GroupByDay`;
  - `$project` is `ProjectDay`/`ProjectInsight`, with `Average` and `BounceRate`;
  - `$sort: { _id: -1 }` is `SortedDays`.
- `Server` (server.dfy): the collection as a class `TrafficStore` holding a `seq<Visit>`, with one method per route. It also holds lemmas on how recording a visit and updating a duration move today's rollup.
- `Client` (client.dfy): the page as a class `App`. It has fields for:
  - `localStorage` and `sessionStorage`, as maps;
  - the React state (`visitorStats`, `historicalData`, `loading`);
  - the list of requests sent so far.

  `InitializeVisitor`, `FetchStats`, `UpdateStats` and the `updateDuration` closure (`SendDuration`) are its methods.

Modelling choices:

- Timestamps are integers, in milliseconds since the epoch.
- The start of today (`startOfToday`) and the current instant (`now`) are parameters. The code takes them from `new Date()`, with `setHours(0, 0, 0, 0)` for local midnight.
- The 7-day window starts at `startOfToday - 7 * 86_400_000`. The 30-day window starts at `now - 30 * 86_400_000`, which is not a midnight.
- The `$dateToString: '%Y-%m-%d'` group key is the UTC day number `timestamp / 86_400_000`. For years 0000 to 9999, where `%Y` has four digits, ordering these integers newest first gives the same order as sorting the date strings in descending order. The model does not bound timestamps to that range.
- Averages and the bounce rate are exact `real`s.
- Random ids, clock readings and the responses to the page's `fetch` calls are method parameters.

Behaviour of the code worth knowing:

- The today rollup has no `avgViewDuration`; the code only produces `totalViewDuration` (server.js 58-64, 100-105). `App.js` reads `data.today.avgViewDuration` anyway, gets `undefined`, and shows `Math.round(undefined) || 0`, which is always 0. `Client.Project` and `Client.DisplayedToday` state that the displayed average is 0.
- The stats window reaches 7 days before the start of today. It therefore spans today plus the 7 previous local days, 8 calendar days in all.
- The insights window starts 30 days before `now`, so it usually begins partway through a day.
- `update-duration` reports success whether or not a document matched. It overwrites only one document: the first one of the session in insertion order. Later documents with the same sessionId keep their durations.
- For the page, "no stored value" follows JavaScript truthiness. A missing key and an empty string both count as absent, for `visitorId` and for `currentSession` (`Client.Holds`).

## Model

| member | source | states |
|---|---|---|
| Records.FirstSession | backend/server.js:119-122 | the document `findOneAndUpdate` picks: an index whose sessionId matches and before which none does; None exactly when no document has that sessionId |
| Records.SetDuration | backend/server.js:119-122 | the collection after the update, built by walking the documents in insertion order; it keeps the number of documents; which document it rewrites, and how, is stated by SetDurationAtFirst |
| Records.SetDurationAtFirst | backend/server.js:119-122 | the update replaces only the first document of the session, giving it the new viewDuration (an overwrite, not an add); every other document is unchanged; with no such document the collection is unchanged |
| Records.SetDurationKeepsIdentity | backend/server.js:119-122 | an update changes no field other than viewDuration |
| Records.UnmatchedUpdateIsNoOp | backend/server.js:119-123 | an update for a sessionId no document has leaves the collection unchanged |
| Records.FirstSessionAfterUpdate | backend/server.js:119-122 | an update does not change which document any later update for any session hits |
| Records.LastWriteWins | backend/server.js:119-122 | two updates for one session leave the second value: the same collection as the second update alone |
| Records.RepeatedUpdateIsIdempotent | backend/server.js:119-122 | sending the same update twice gives the same collection as sending it once |
| Aggregation.DayKeyContains | backend/server.js:81 | the `$dateToString` group key `DayKey` is the UTC day number: the day whose 86 400 000 ms span contains the instant |
| Aggregation.Window | backend/server.js:52-56 | `$match timestamp >= from`: a document occurs in the window as often as in the collection if it is at or after `from`, otherwise not at all |
| Aggregation.OnDay | backend/server.js:80-82 | the documents of one group key: each document of that day as often as in the input, no other |
| Aggregation.TotalDuration | backend/server.js:62 | `$sum: '$viewDuration'` over a group; it adds up over concatenation (Server.TotalDurationAppend), and how an update moves it is stated by Server.WindowAfterUpdate |
| Aggregation.Distinct | backend/server.js:61 | `$addToSet`: no duplicates, exactly the input's values, never longer than the input |
| Aggregation.NewCount | backend/server.js:63 | the new-visitor count is at most the visit count, and equals it exactly when every visit is flagged new |
| Aggregation.ShortCount | backend/server.js:219-227 | the short-visit count is at most the visit count; it equals the visit count exactly when every visit is under 30 s, and is 0 exactly when none is |
| Aggregation.Accumulate | backend/server.js:57-65 | a group's visits are its document count; its visitor array has no duplicates, holds exactly the group's visitor ids, and its length is their number; the visitor, new and short counts are at most the visit count |
| Aggregation.Today | backend/server.js:51-66 | today's totalVisits counts the documents at or after the start of today; uniqueVisitors lists their distinct visitor ids once each; totalViewDuration is their summed viewDuration and newVisitors their new count; uniqueVisitors and newVisitors are at most totalVisits; the zeroed object with an empty visitor array (lines 99-105) appears exactly when no document matched |
| Aggregation.Insert | backend/server.js:96 | inserting a key keeps the key list strictly descending and adds exactly that key |
| Aggregation.SortedDays | backend/server.js:79-96 | the group keys come newest first, strictly descending (so each once), and are exactly the days that have a document |
| Aggregation.GroupByDay | backend/server.js:78-96 | groups by day, keys strictly descending; every document's day has a group; each group accumulates exactly that day's documents and is non-empty; the group visit counts add up to the number of documents |
| Aggregation.Average | backend/server.js:93 | `$divide` of total by visits, only for a non-empty group: average times visits is the total |
| Aggregation.BounceRate | backend/server.js:237-242 | 100 × short / total lies in [0, 100]; it is 100 exactly when all visits are short and 0 exactly when none is |
| Aggregation.ProjectDay | backend/server.js:88-95 | keeps the group's `_id`, visits and visitor array; avgViewDuration times visits is the group's total duration |
| Aggregation.HistoryStart | backend/server.js:69-70 | `sevenDaysAgo`: 7 × 86 400 000 ms before `startOfToday` (daylight-saving changes ignored); the window it opens is stated by HistoricalRollup |
| Aggregation.Historical | backend/server.js:69-97 | the 7-day pipeline: the window from 7 days before the start of today, grouped by day, each group projected; its properties are stated by HistoricalRollup |
| Aggregation.Stats | backend/server.js:99-107 | the response object of `GET /stats` and `record-visit`, pairing Today with Historical; its properties are stated by Today and HistoricalRollup |
| Aggregation.ProjectInsight | backend/server.js:230-244 | keeps the group's `_id`, totalVisits and newVisitors; uniqueVisitors is the `$size` of the visitor array; avgViewDuration times totalVisits is the total duration; bounceRate lies in [0, 100] and is 100 exactly when every visit of the group is short |
| Aggregation.InsightStart | backend/server.js:201-202 | `thirtyDaysAgo`: 30 × 86 400 000 ms before `now`, with no reset to midnight; the window it opens is stated by InsightsRollup and BounceRateAllShort |
| Aggregation.Insights | backend/server.js:201-246 | the 30-day pipeline: the window from 30 days before now, grouped by day, each group projected; its properties are stated by InsightsRollup and BounceRateAllShort |
| Aggregation.HistoricalRollup | backend/server.js:69-97 | 7-day entries: days newest first, distinct; every document in the window has its day's entry; each entry has at least one visit; its count, visitor set (no duplicates) and average are those of exactly that day's documents in the window; the per-day visits add up to the window's size |
| Aggregation.InsightsRollup | backend/server.js:201-246 | 30-day entries over `now - 30 days`: days newest first and each day present; per day totalVisits ≥ 1, uniqueVisitors is the number of distinct visitor ids and at most totalVisits, newVisitors at most totalVisits, the average, and bounceRate = 100 × short / total within [0, 100], 100 exactly when all that day's visits are under 30 s; the visits add up to the window's size |
| Aggregation.BounceRateAllShort | backend/server.js:219-242 | a day's bounce rate is 100 exactly when every document of that day in the 30-day window has viewDuration < 30 |
| Server.TrafficStore.RecordVisit | backend/server.js:33-109 | appends exactly one document with the given fields, timestamp `now` and viewDuration 0, leaving earlier ones untouched; returns the same snapshot as `GET /stats` computes on the store after the append; that snapshot counts the new visit and its visitor today when `now` is not before the start of today |
| Server.TrafficStore.UpdateDuration | backend/server.js:116-128 | the collection becomes `SetDuration` of the old one: same size, unchanged when no document matches; the result is success in every case |
| Server.TrafficStore.GetStats | backend/server.js:130-197 | the today and 7-day rollups of the current collection; today's count is the window's size and the per-day visits add up to the 7-day window's size; the store is not changed |
| Server.TrafficStore.GetInsights | backend/server.js:199-253 | the 30-day insights of the current collection, every bounce rate within [0, 100], visits adding up to the window's size; the store is not changed |
| Server.TotalDurationAppend | backend/server.js:62 | the summed duration of two runs of documents is the sum of their summed durations |
| Server.TodayAfterRecord | backend/server.js:37-66 | saving a visit stamped today raises today's totalVisits by one, adds its visitor to the distinct set, adds one to newVisitors when it is new, and adds its duration |
| Server.TodayIgnoresEarlier | backend/server.js:52-56 | a visit stamped before the start of today leaves today's rollup unchanged |
| Server.WindowAfterUpdate | backend/server.js:119-122 | in any window an update keeps the document count, new count and visitor set, and moves the total duration by new − old on the updated document when that document lies in the window |
| Server.TodayAfterUpdate | backend/server.js:119-122 | a duration update leaves today's visits, distinct visitors and new visitors unchanged, and moves today's totalViewDuration by new − old when the updated visit is from today |
| Client.ElapsedSeconds | src/App.js:54 | `Math.floor((now - startTime) / 1000)`: the whole seconds elapsed, rounded down, and non-negative when now ≥ startTime |
| Client.ElapsedSecondsMonotone | src/App.js:51-54 | with the start time fixed, a later firing never reports a smaller duration |
| Client.Holds | src/App.js:20-31 | the truthiness test on `getItem`: a key counts as stored only when present with a non-empty value; the new-visitor decision and the once-per-tab gate of InitializeVisitor are stated through it |
| Client.Project | src/App.js:104-110 | the figures `updateStats` shows for a response: the counts from `data.today`, the length of its visitor array, and an average of 0; its properties are stated by DisplayedToday |
| Client.DisplayedToday | src/App.js:104-110 | for the backend's stats the page shows today's visit count and new-visitor count unchanged, the length of today's visitor array (the number of distinct visitors today, at most the visits), and an average of 0 |
| Client.App.constructor | src/App.js:9-16 | a page starts with zeroed figures, no history, loading, nothing sent |
| Client.App.UpdateStats | src/App.js:104-113 | sets the displayed figures to the projection of the snapshot, passes `historical` through verbatim, clears loading, and touches neither storage area |
| Client.App.FetchStats | src/App.js:93-102 | sends one stats request; on a response shows it, on a failure keeps the figures; either way clears loading |
| Client.App.InitializeVisitor | src/App.js:18-91 | `isNewVisitor` is true exactly when no visitorId was stored; afterwards a visitorId is stored, an existing one is never replaced, and firstVisit is written only with a fresh id; `record-visit` is sent only when the tab has no `currentSession`; the marker is set to this load's sessionId only after a response, and a failure leaves it unset and installs no tracker; the tracker carries this load's sessionId and start time |
| Client.App.SendDuration | src/App.js:53-69 | sends one duration update naming the tracker's sessionId with the elapsed whole seconds, changing nothing else |
| Client.ReloadInSameTab | src/App.js:29-62 | two loads in one tab: the first sends `record-visit` and sets the marker; the second sends none, keeps both storage areas, and reports its durations under its own new sessionId |

## Left out

- Express, mongoose, cors and morgan plumbing are not modelled: connection setup, JSON parsing, `res.json`, the HTTP 500 paths and `app.listen` (server.js 1-17, 110-113, 124-127, 193-196, 249-258). They are framework I/O.
- Calendar arithmetic is reduced to integers. `setHours` (local midnight) becomes the parameter `startOfToday`. `setDate(getDate() - n)` becomes a shift by n × 86 400 000 ms, which ignores daylight-saving changes. `$dateToString` becomes the UTC day number, so a local day and its UTC key can differ.
- Floating point is replaced by exact `real` averages and bounce rates. The model leaves out `Math.round` and the `NaN`/`undefined` to 0 fallback of the display (App.js 108, 185), except that the displayed today average is 0.
- Randomness and clocks are inputs. The id generators (`Math.random`, `Date.now`, App.js 24, 29) and the time readings (server default `Date.now`, App.js 26, 51, 54) are parameters.
- MongoDB's natural order is taken to be insertion order. This is the order `findOneAndUpdate` uses to pick the first match.
- Aggregation.Distinct: `$addToSet` leaves the order of the visitor array unspecified, and the model fixes first-occurrence order. Only membership, absence of duplicates and length are claimed.
- Documents always carry every field with its declared type. Requests with missing or non-numeric fields are not modelled: `undefined` visitor ids, and durations that `$sum` or `$lt` would treat differently. The source does no validation.
- Concurrent requests and their interleavings are not modelled; each route runs alone on the store.
- Client.App.InitializeVisitor: the page's asynchronous machinery is not modelled. This covers:
  - the `beforeunload` and `visibilitychange` listeners, which are represented by calls to `SendDuration`;
  - `setInterval` polling and the effect cleanup (App.js 71-85, 116-123), including the mismatched `removeEventListener` on line 83;
  - interleavings of in-flight requests. The response to the `fetchStats` on line 78 is applied at once.
- `initializeVisitor` is never called from App.js in this revision (the effect of `HomePage`, lines 116-123, only polls `/stats`). It is modelled as written.
- Storage exceptions (quota, disabled storage) are not modelled: they would also land in the catch block.
- The UI components `src/components/InsightsPage.js`, `AnalyticsPage.js` and `Analytics.js` are rendering and fetch code. The `/api/traffic/analytics` route that `Analytics.js` calls does not exist in server.js.
