# AI usage tracker: usage aggregator, escalation ladder and dashboards

A Dafny model of the core of a browser extension that counts a user's
requests to AI services, estimates their CO2, and escalates through a
ladder of guilt-trip overlays, plus the aggregations of its two web
dashboards. Each source file is one module:

- `Background` (`background.dfy`, from `background.js`). The background
  aggregator is the class `Tracker`. Its fields are the module-level
  counters, plus a `Store` record of optional keys that stands for the
  local key-value store. The request listener is `OnBeforeRequest`: it
  counts the request and stores the counters, reads the lazy four-hour
  session window, then runs the source's `else if` threshold chain. The
  method is proved against the pure specification `RecordRequest`. That
  specification sets the level to the larger of the old level and the
  highest rung the session count reaches. The lemmas about
  `RecordRequest` and about `Burst` (n consecutive requests) state what
  the ladder promises. The popup's messages (reset, getStats, toggle,
  getAnnoyanceMode) are methods of `Tracker`, and the startup load is the
  function `Load`, with its round trip against `Save`.
- `Page` (`content.dfy`, from `content.js`). This covers:
  - the URL classifier and the contract of the wrapped `fetch`;
  - the choice of message bank and the random pick, with `Math.random`
    passed in as `r`;
  - the overlay's CO2 comparison bands;
  - the page body as the class `Document`, whose overlays replace each
    other so that at most one is present;
  - the dodging button and the countdown of the annoyance overlay, as the
    class `Annoyance`.
- `Popup` (`popup.dfy`, from `popup.js`). This covers:
  - the displayed values and their defaults;
  - the synchronous insight list, built by sequential pushes in
    `UpdateInsights` and specified by `InsightsFor`;
  - the popup's comparison bands, which end at 200 g where the page's end
    at 100 g.
- `UsageRows` (`usage.dfy`). The usage row both dashboards read, and their
  common request sum.
- `AdminStats` (`admin_dashboard.dfy`, from
  `components/admin/admin-dashboard.tsx`). The total, the per-team
  entries, the ranking by requests and the overview's first ten.
- `Analytics` (`analytics.dfy`, from
  `components/dashboard/analytics-section.tsx`). The total, the `Map`
  accumulation by service and by date (the `forEach` loop becomes
  `Accumulate`), the ascending date sort and the last seven days.

Units:

- CO2 is in integer centigrams: 4.32 g is 432, 3.8 g is 380, 2.9 g is 290
  and the default 3.5 g is 350.
- Warning levels are tenths: 0, 10, 20, 25 and 30 stand for 0, 1, 2, 2.5
  and 3.
- Times are milliseconds.
- The day key (`new Date().toDateString()`) and the clock (`Date.now()`)
  are parameters.

Notifications and overlay triggers are effects. `OnBeforeRequest` returns
them in the order the code emits them.

What the code does that a reader might not expect:

- The session count is the lifetime request count. It is 0 only on the one
  call that finds the window expired (`Background.Window`,
  `Background.LevelFollowsLifetimeCount`).
- Expiry never resets the warning level (`Background.ExpiryRestartsWindow`).
- When today has no entry, the startup load replaces the whole day map with
  an entry for today only, dropping every earlier day
  (`Background.LoadOnNewDayDropsHistory`).
- The request count is not the sum of the day counts: reset zeroes the
  count but keeps the day map, and the load drops days.

## Model

| member | source | states |
|---|---|---|
| Background.CO2Estimate | background.js:54 | a listed host gets its table estimate, an unlisted one 3.5 g; every estimate is between 2.9 g and 4.32 g |
| Background.LadderIsHighestReached | background.js:79-103 | the ladder's level is reached by the session count (2.5 only with annoyance mode on), and no higher rung is reached |
| Background.LadderMonotone | background.js:79-103 | more session requests never give a lower ladder level |
| Background.RungEffectsShape | background.js:79-103 | reaching a rung shows exactly that rung's overlay and at most one notification |
| Background.Count | background.js:54-65 | counting adds one request and the host's estimate, bumps today's entry, and leaves level, session start and flag alone |
| Background.BumpToday | background.js:60-65 | today's entry is created at zero if missing, then gains one request and the estimate; every other day is unchanged |
| Background.Window | background.js:111-123 | an expired window restarts at `now` with count 0; an open one yields the lifetime count and keeps its start |
| Background.RecordRequestCounts | background.js:50-65 | a GET/POST adds 1 request and its estimate to the totals and today; any other method changes nothing and fires nothing; the level never falls, and effects fire exactly when it rises |
| Background.LevelFollowsLifetimeCount | background.js:77-103 | in an open window the new level is max(old level, ladder of the lifetime count + 1), and a rise fires that rung's effects with the current totals |
| Background.ExpiryRestartsWindow | background.js:116-120 | the request that finds the window expired restarts it at `now`, keeps the level and fires nothing |
| Background.OneRungPerEvent | background.js:79-103 | each request shows at most one overlay, the new level's, and at most one notification |
| Background.AnnoyanceRungNeedsFlag | background.js:82-90 | level 2.5 is entered only with annoyance mode on |
| Background.NoRungWithoutThreshold | background.js:79-103 | a rung is never reached while the count stays below its threshold: 20 session requests never go above level 1 |
| Background.BurstCO2 | background.js:54-57 | n requests to a host add n times its estimate to the CO2 total |
| Background.BurstFromFresh | background.js:79-103 | from zero requests and level 0, n requests end at count n and the ladder level of n, and show rungs 1 (at 15), 2 (at 25), 2.5 (at 30, flag on) and 3 (at 50), each once and in ascending order |
| Background.FirstRungBand | background.js:94-103 | from a fresh state, 15 to 24 requests give level 1 and exactly one overlay |
| Background.FifteenOpenAiRequests | background.js:12 | fifteen requests to api.openai.com from zero give 64.8 g and level 1, with one overlay |
| Background.TopRungFromFifty | background.js:79-103 | fifty or more requests to an unlisted host give 3.5 g each, level 3, and overlays 1, 2, (2.5), 3 in that order |
| Background.Load | background.js:32-44 | absent keys load as 0, {} and false; an absent or zero start becomes `now`; without today's entry the day map holds only today at zero |
| Background.FirstRunLoad | background.js:32-44 | a first run starts at zero counters, a session opened now, and today's empty entry |
| Background.LoadAfterSave | background.js:68-74 | loading the keys a request event stored gives back the same counters on the same day |
| Background.LoadOnNewDayDropsHistory | background.js:40-44 | on a new day the load keeps the lifetime count but drops every earlier day |
| Background.Tracker.constructor | background.js:2-45 | the counters are the load of the store |
| Background.Tracker.SessionRequests | background.js:111-123 | past four hours: returns 0, restarts the window at `now` and stores it; otherwise returns the lifetime count and changes nothing |
| Background.Tracker.CountRequest | background.js:50-74 | the counters become `Count` of the old ones, and the store holds all five counters |
| Background.Tracker.Escalate | background.js:79-105 | the `else if` chain produces the level and effects of `Escalation`, and the level is stored |
| Background.Tracker.OnBeforeRequest | background.js:48-109 | the new state and the effects are those of `RecordRequest`; a counted request leaves the store mirroring memory; other methods leave the store alone; the stored annoyance flag never changes |
| Background.Tracker.Reset | background.js:164-169 | count, level and CO2 become 0 in memory and store; session start, day map and flag unchanged; answers success |
| Background.Tracker.GetStats | background.js:170-175 | answers the count, level and CO2 total, changing nothing |
| Background.Tracker.ToggleAnnoyanceMode | background.js:176-179 | sets and stores the flag, answers with it, and changes nothing else |
| Background.Tracker.GetAnnoyanceMode | background.js:180-181 | answers the flag, changing nothing |
| Background.Tracker.OnMessage | background.js:163-184 | dispatches the four actions as above; any other action gets no answer and changes nothing |
| Page.ContainsIff | content.js:10-14 | `includes` holds exactly when some window of the string equals the marker |
| Page.IsAiUrlIff | content.js:10-14 | a URL is reported exactly when "openai", "anthropic" or "generativelanguage" occurs in it |
| Page.WrappedFetch | content.js:4-25 | the wrapper settles exactly as the original call did, sends at most one report, and only for an AI URL |
| Page.ReportsExactlyAiUrls | content.js:7-22 | one report with the URL is sent exactly when the call resolved, the URL was readable and is an AI URL, and sending did not throw |
| Page.RejectionPropagates | content.js:5 | a rejected original call rejects with the same reason and reports nothing |
| Page.BankFor | content.js:94 | level 1 picks the level-1 bank, level 2 the level-2 bank, every other level the level-3 bank |
| Page.PickIndex | content.js:95 | `floor(r * size)` is a valid index for r in [0, 1) |
| Page.PickInBank | content.js:95 | the picked message lies within the chosen bank (2, 3, 3 or 5 entries) |
| Page.GetEquivalentBands | content.js:144-149 | the comparison is the band of the CO2 among 10 g, 50 g and 100 g |
| Page.InBandUnique | content.js:144-149 | the bands are disjoint: an amount lies in one band only |
| Page.GetEquivalentMonotone | content.js:144-149 | more CO2 never moves the comparison to an earlier band |
| Page.FirstWithId | content.js:37 | `getElementById` finds the first element with the id, or none when no element has it |
| Page.RemoveFirstCounts | content.js:37-38 | removing the found overlay lowers the overlay count by one, keeps every other element in order, and adds nothing |
| Page.ReplaceOverlay | content.js:37-38 | after removal and append there is exactly one overlay, and the page's other elements are unchanged |
| Page.Document.ShowOverlay | content.js:37-133 | the body becomes the old body without its overlay, plus the new overlay; exactly one overlay is present |
| Page.Document.ShowGuiltTrip | content.js:35-133 | shows the overlay with the level's bank, an in-bounds pick and the comparison for the CO2 |
| Page.Document.ShowAnnoyance | content.js:156-234 | shows the annoyance overlay with a pick among its five messages, replacing any overlay |
| Page.Document.Receive | content.js:27-33 | a guilt-trip message shows its overlay and an annoyance message shows its own; nothing else changes the page |
| Page.Document.Dismiss | content.js:123 | removing a node removes that node only and never adds an overlay |
| Page.DodgeKeeps | content.js:268-299 | a mouse move keeps the dodge count at most 3 and the taunt index within the three messages |
| Page.DodgeAllFromStart | content.js:266-301 | after k moves the count is min(k, 3) whatever the distance; the listener is removed by the fourth move, which shows "click me" |
| Page.DodgeAllFrom | content.js:268-299 | from any attached state the count climbs to 3 and the listener detaches on the move after |
| Page.DetachedStays | content.js:297 | once the listener is removed, mouse moves change nothing |
| Page.TickAllFromStart | content.js:309-321 | after k ticks the countdown shows max(15 - k, 0), is never negative, and runs exactly while positive |
| Page.Annoyance.MouseMove | content.js:268-299 | one move is one `Dodge` step; the countdown is unchanged |
| Page.Annoyance.CountdownTick | content.js:315-321 | one tick is one `Tick` step; the button is unchanged |
| Page.Annoyance.ClickPrimary | content.js:303-306 | a click detaches the mouse listener and removes this overlay from the page |
| Popup.ReadStats | popup.js:4-17 | a missing count or CO2 reads 0; a missing day map or today's entry reads as 0 requests |
| Popup.ReadStatsOfTracker | popup.js:3-19 | against the background's answer and store, the popup shows the tracker's count, CO2 and today's stored count |
| Popup.ToggleChecked | popup.js:31 | the toggle is on exactly when the answer says enabled |
| Popup.UpdateInsights | popup.js:35-91 | the pushes give the list of `InsightsFor` on today's count |
| Popup.InsightsShape | popup.js:40-91 | the list is never empty; two entries exactly at 0 or from 25 on; all positive below 15, all observations from 15 on; the default exactly for 10 to 14 |
| Popup.UpdateContext | popup.js:101-110 | the comparison is the band of the CO2 among 10 g, 50 g and 200 g |
| Popup.ContextAgreesWithOverlay | popup.js:102-110 | the popup and the overlay give the same comparison except exactly on [100 g, 200 g) |
| AdminStats.TeamRowsSpec | components/admin/admin-dashboard.tsx:67 | a row is among a team's rows exactly when it is a usage row with that team's id |
| AdminStats.Members | components/admin/admin-dashboard.tsx:66-73 | the members are exactly the profiles whose team id is the team's, each as many times as it occurs among the profiles, so `memberCount` is the number of matching profiles |
| AdminStats.Unranked | components/admin/admin-dashboard.tsx:65-76 | one entry per team, in team order, with its member count and request sum |
| AdminStats.RankIsSortedPermutation | components/admin/admin-dashboard.tsx:77 | the ranking is non-increasing by requests, a permutation of its input, and keeps the total |
| AdminStats.TeamStatsSpec | components/admin/admin-dashboard.tsx:65-77 | the team statistics hold one entry per team with its counts, ranked by requests |
| AdminStats.TeamsPartitionTotal | components/admin/admin-dashboard.tsx:59-68 | with distinct team ids, the teams' sums plus the rows of no team make the total, so the teams never exceed it |
| AdminStats.TeamStatsWithinTotal | components/admin/admin-dashboard.tsx:59-77 | the ranked entries' requests plus the unassigned rows' make up `totalRequests` |
| AdminStats.Overview | components/admin/admin-dashboard.tsx:185 | the overview is the first min(10, n) entries |
| AdminStats.OverviewShowsTheTop | components/admin/admin-dashboard.tsx:185 | on ranked entries, no entry left out has more requests than one shown |
| Analytics.ServiceKey | components/dashboard/analytics-section.tsx:49 | a missing or empty service name groups under "Unknown", any other under itself |
| Analytics.FirstOccurrencesSpec | components/dashboard/analytics-section.tsx:71-74 | the map's keys are distinct and are exactly the keys that occur |
| Analytics.Accumulate | components/dashboard/analytics-section.tsx:47-55 | the loop yields one group per distinct key in first-occurrence order, each with its rows' summed requests |
| Analytics.AccumulatedTotal | components/dashboard/analytics-section.tsx:43-55 | the accumulated groups add up to the total request count |
| Analytics.StrLeqTotal | components/dashboard/analytics-section.tsx:77 | any two date strings are comparable |
| Analytics.StrLeqTrans | components/dashboard/analytics-section.tsx:77 | the date order is transitive |
| Analytics.SortByDateCounts | components/dashboard/analytics-section.tsx:75-77 | the date sort is a permutation and keeps the total |
| Analytics.SortByDateAscending | components/dashboard/analytics-section.tsx:75-77 | the date sort is ascending |
| Analytics.FetchUsage | components/dashboard/analytics-section.tsx:43-78 | the total is the row sum; services are grouped in first-occurrence order; the daily entries are ascending, one per distinct date, each with its date's sum; both groupings add up to the total |
| Analytics.Recent | components/dashboard/analytics-section.tsx:206 | the recent view is the last min(7, n) daily entries |
| Analytics.RecentIsLatest | components/dashboard/analytics-section.tsx:206 | on ascending dates, no entry left out comes after one shown |

## Left out

- Browser APIs are not modelled: `chrome.storage`, `chrome.tabs`,
  `chrome.notifications`, `chrome.runtime` and the `webRequest`
  registration. The store is a record that methods reassign. Triggers and
  notifications are returned effects.
- The `webRequest` URL filter (background.js:108) is not modelled. In the
  source it lets through only the seven hosts of the estimate table, so the
  listener never applies the 3.5 g default of background.js:54.
  `OnBeforeRequest` takes any host name, and the default applies to hosts
  outside the table. `Background.TopRungFromFifty`, about an unlisted host,
  is therefore about this wider input.
- `AI_DOMAINS` (background.js:22-29) is never read and is not modelled.
- The page's `AI_REQUEST_DETECTED` report and the `openPopup` message are
  never handled by the background listener. `OnMessage` answers nothing to
  them, and nothing deduplicates or double-counts.
- The startup load runs asynchronously. The model runs it before the first
  event (`Tracker.constructor`), so a request that arrives before the load
  completes is not modelled.
- Background.Tracker.Escalate: the trigger functions read `aiRequestCount`
  and `totalCO2` when the tab query answers (background.js:127-134). The
  effects carry the values at escalation time.
- Both triggers reach only an active tab when there is one. The effect is
  emitted regardless.
- Background.Tracker.OnBeforeRequest: `getSessionRequests` calls
  `Date.now()` twice (background.js:112, 117). One `now` stands for both.
- Floating point is not modelled. This covers `toFixed`, the `co2 * 8.3`,
  `/ 8`, `/ 100` and `/ 1000` values shown beside the bands,
  `requests / 30 * 100`, the shake angle and the dodge geometry. Amounts
  are integer centigrams, with the bands at the same amounts.
- Page.Annoyance.MouseMove: the distance test `distance < 100` is the
  input `near`. The translation offsets and the button's transform are not
  modelled.
- Timers are not modelled: the 10 s and 15 s auto-dismiss, the fade, the
  shake interval and the popup's 2 s refresh. A dismissal is an explicit
  `Document.Dismiss`, and a countdown second is an explicit
  `Annoyance.CountdownTick`.
- `Math.random()` is the parameter `r`, in [0, 1).
- The message texts, the HTML templates and the DOM text updates are not
  modelled. An overlay records its level, bank, pick, totals and
  comparison.
- The average insight of `updateInsights` (popup.js:70-83) is not
  modelled. It is pushed in an asynchronous callback after the list is
  rendered, and it divides in floating point.
- The dashboards' `co2_grams` sums are not modelled. They `parseFloat`
  decimal strings. So are the Supabase queries, the selection of the query
  scope, and the React rendering.
- Analytics.StrLeq: `localeCompare` is taken as code-point lexicographic
  order. Date strings of one fixed format, such as ISO dates, order the
  same way under both. Strings that differ in letter case or accents can
  order differently.
- AdminStats.RankIsSortedPermutation: does not state that the sort is
  stable. Entries with equal requests keep their input order in `Rank`,
  but no lemma states it.
- Concurrency is not modelled. Each listener runs to completion on one
  thread.
- `team-section.tsx`, `profile-section.tsx`, `dashboard-content.tsx` and
  the `app/` pages are thin user interface with no logic of their own and
  are not part of this model.
