# sportsbiz core, modelled in Dafny

sportsbiz is a SvelteKit football site. It shows upcoming matches grouped by
league and a "trending" list driven by per-match engagement analytics. This
project models the site's core logic and proves properties of it:

- **The league cache.** Three callers refresh the `leagues` node of the
  realtime database in the same way:
  - the root route, at most once a day;
  - the leagues route, only when nothing is stored;
  - the `updateLeagues` maintenance script, unconditionally.

  A refresh fetches the competition list, keeps the `LEAGUE` competitions and
  fetches each one's scheduled matches. It normalises each match into a
  record, groups the records by league name in first-appearance order, and
  stores them with a time stamp. The shared logic lives in `LeaguePipeline`:
  - the loop that gathers the matches, as a method proved against a function
    defined competition by competition;
  - the `reduce` that groups them, as a method proved against a fold over a
    map plus an insertion-order key list;
  - the whole refresh.

  `HomePage`, `LeaguesPage` and `UpdateLeaguesScript` model the three callers.
- **The trending join** (`HomePage`). Every analytics document is joined with
  the match document it names. A missing match becomes a placeholder card, and
  a failed lookup or a falsy `matchId` drops the document. Missing fields get
  their defaults, and the cards are sorted stably by interest rating, highest
  first.
- **Analytics** (`Analytics`):
  - the interest-rating formula;
  - the create-or-update state machine of `trackMatchInteraction`, as a class
    whose field is the `analytics` collection;
  - the trending query;
  - the single-document read;
  - the 30-day cleanup.
- **The admin guard** (`Hooks`): the redirect decision of the server hook.
- **The client auth store** (`Auth`): a class holding `localStorage` and the
  `isAuthenticated` store.

Modelling choices:

- External effects are parameters or results. The stored envelope is an
  `Option<Envelope>` argument, and the envelope written is returned. The
  football-data API is an `Upstream` value: the competition list response,
  plus a function from competition code to match-list response. Firestore
  reads that can throw are datatypes with a failure case or boolean flags.
  `Date.now()` is an integer argument in milliseconds.
- JavaScript's `||` defaults are modelled exactly: a missing field, `""` and
  `0` are falsy (`JsValues`).
- `Array.prototype.sort` with the rating comparator is a stable descending
  insertion sort (`Sorting`).
- `Number#toString` on match ids is a decimal printer with a proved parser
  partner (`Decimal`).
- The interest rating uses `Math.round(min(0.1·t, 50) + 5c + 2p + bonus)`. It
  is modelled on integers and proved equal to the rounded real-valued formula.

Two behaviours of the code are easy to misread, and the model follows the
code in both:

- **Missing match documents are kept.** An analytics record whose match
  document is missing is not dropped from the trending list: the code
  (src/routes/+page.server.js:184-213) returns a "Missing match" placeholder
  card, and `HomePage.JoinDoc` models the placeholder.
- **Script failures are swallowed.** When the maintenance script's refresh
  fails, the final `.catch(console.error)` (src/scripts/updateLeagues.js:71)
  logs the error and the rejection goes no further.
  `UpdateLeaguesScript.UpdateLeagues` models the logged error with nothing
  written.

## Model

| member | source | states |
|---|---|---|
| JsValues.OrElse | src/routes/+page.server.js:143-152 | `field \|\| fallback` with a non-empty fallback is never empty, which is what makes every card displayable |
| Decimal.DecimalRoundTrip | src/routes/+page.server.js:55 | the decimal text `id.toString()` stored for a match parses back to the upstream id |
| Decimal.DecimalInjective | src/routes/+page.server.js:55 | distinct upstream ids get distinct stored ids |
| Sorting.SortDesc | src/routes/+page.server.js:225-227 | the sorted list is in descending key order and is a permutation of its input |
| Sorting.SortDescIsStable | src/routes/+page.server.js:225-227 | elements with equal keys keep their input order, as a stable sort promises |
| Sorting.PrefixHoldsLargest | src/lib/analytics.js:121-126 | a prefix of the descending order holds the largest keys: any element left out has a key no greater than any element kept |
| LeaguePipeline.LeagueCompetitions | src/routes/+page.server.js:38-40 | keeps every competition of type LEAGUE and nothing else |
| LeaguePipeline.VenueName | src/routes/+page.server.js:68 | the venue name when it is a non-empty string, otherwise null |
| LeaguePipeline.Matchday | src/routes/+page.server.js:66 | the upstream matchday when truthy, otherwise 1; never 0 |
| LeaguePipeline.Normalise | src/routes/+page.server.js:54-69 | the stored id parses back to the upstream id; code, name, emblem, teams, crests and date are copied; ids, matchday, status and venue are present exactly for the root route's shape |
| LeaguePipeline.NormaliseAll | src/routes/+page.server.js:54 | one record per upstream match |
| LeaguePipeline.GatherMatches | src/routes/+page.server.js:42-71 | the loop over the league competitions ends with exactly the result that `Collected` specifies, or with the first rejected fetch's error |
| LeaguePipeline.CollectedAppend | src/routes/+page.server.js:43-71 | gathering over two consecutive runs of competitions is the first run's result followed by the second's |
| LeaguePipeline.CollectedOkIff | src/routes/+page.server.js:44-52 | the refresh throws exactly when some league's match fetch is rejected; a response that is not ok never stops it |
| LeaguePipeline.SkippedCompetitionContributesNothing | src/routes/+page.server.js:52 | a competition whose match response is not ok contributes nothing: the result equals that of the loop without it |
| LeaguePipeline.CollectedRecordsFrom | src/routes/+page.server.js:54-58 | every gathered record carries the code and name of a competition whose match fetch succeeded |
| LeaguePipeline.GroupingOf | src/routes/+page.server.js:73-78 | the reduce keeps distinct league names in its key order, each with a match array |
| LeaguePipeline.GroupByLeague | src/routes/+page.server.js:73-81 | the reduce followed by `Object.entries` yields exactly `GroupedEntries` of the matches |
| LeaguePipeline.GroupsAreTitleFilters | src/routes/+page.server.js:73-78 | each league's group is the non-empty, order-preserving list of the matches with that league name; a name that occurs nowhere has no group |
| LeaguePipeline.GroupOrderIsFirstAppearance | src/routes/+page.server.js:73-81 | leagues are listed in the order in which their first match appears |
| LeaguePipeline.GroupingIsPermutation | src/routes/+page.server.js:73-81 | flattening the grouped entries gives back every gathered match exactly once |
| LeaguePipeline.Refreshed | src/routes/+page.server.js:22-87 | a successful refresh is stamped with the current time and always has `leagues`; it has `allMatches` exactly for the root route's shape; a competition response that is not ok or is rejected is an error |
| LeaguePipeline.RefreshedContents | src/routes/+page.server.js:38-84 | a stored envelope's groups hold every gathered match exactly once, `allMatches` is that same list, and every match comes from a LEAGUE competition whose fetch succeeded |
| LeaguePipeline.Refresh | src/routes/+page.server.js:22-86 | the refresh as written computes `Refreshed` |
| HomePage.RefreshAtMostDaily | src/routes/+page.server.js:6-20 | a freshly written envelope is served without refreshing for the next day, and a refresh happens again once a full day has passed |
| HomePage.MissingStampRefreshes | src/routes/+page.server.js:12-20 | nothing stored, or a stored envelope without a truthy `updatedAt`, always triggers a refresh |
| HomePage.JoinDoc | src/routes/+page.server.js:102-219 | a card exists exactly when `matchId` is truthy and neither the match read nor building the card throws; it carries the id and the document's counters with 0 defaults; every display field is non-empty; a missing match gives the "Missing match" placeholder with no scores and time 0; an existing one gives each of its fields when truthy and otherwise the literal default ("Unknown League", "Home Team", "Away Team", "Not Started", "TBD", "", the placeholder logos), its scores and its time |
| HomePage.Joined | src/routes/+page.server.js:222-226 | no more cards than analytics documents |
| HomePage.JoinedCards | src/routes/+page.server.js:102-226 | each card comes from some analytics document, and every document that yields a card has it in the list |
| HomePage.TrendingCardsOrder | src/routes/+page.server.js:225-227 | trending cards are the joined cards, highest rating first, equal ratings in document order |
| HomePage.TrendingCardsMembers | src/routes/+page.server.js:99-227 | a card is trending exactly when some analytics document joins to it, and every trending card is displayable |
| HomePage.Trending | src/routes/+page.server.js:89-236 | a failed analytics read gives no trending cards; otherwise the sorted join |
| HomePage.Load | src/routes/+page.server.js:8-243 | a fresh cache is served without a write; otherwise the refresh's error is thrown, or its envelope is written and served; trending matches and `analyticsEnabled: true` accompany every success |
| LeaguesPage.Load | src/routes/leagues/+page.server.js:4-85 | a stored snapshot is returned unchanged with no write, however old it is; otherwise a successful reduced refresh is written and returned, and a failed one yields `{ leagues: [], error }` with nothing written |
| LeaguesPage.FreshEnvelopeIsReduced | src/routes/leagues/+page.server.js:49-74 | an envelope this route builds has no `allMatches` and is stamped with the load time |
| LeaguesPage.CompetitionsFailureMessage | src/routes/leagues/+page.server.js:26-28 | a competition response that is not ok gives the error "Failed to fetch competitions: " followed by the status |
| UpdateLeaguesScript.UpdateLeagues | src/scripts/updateLeagues.js:23-71 | a successful refresh is written and followed by the success message; a failure is logged as an error by the final `catch` and nothing is written |
| UpdateLeaguesScript.ScriptEnvelope | src/scripts/updateLeagues.js:58-67 | the script's envelope holds every gathered match exactly once, has no `allMatches`, and is stamped with the run's time |
| Analytics.RatingIsRoundedScore | src/lib/analytics.js:9-18 | the integer rating equals `Math.round` of the source's formula, with the time score capped at 50 |
| Analytics.RatingMonotone | src/lib/analytics.js:9-18 | more time, clicks or page views never lower the rating |
| Analytics.Created | src/lib/analytics.js:83-99 | a new document has every counter and a rating consistent with its counters; the counters' values are in `CreatedCounters` |
| Analytics.CreatedCounters | src/lib/analytics.js:82-92 | a new document has 1 in the counter its kind names, the payload (0 when falsy, any sign) as time spent for a timeSpent interaction, 0 in every other counter, its creation and update times now, and a view time only for a page view |
| Analytics.Updated | src/lib/analytics.js:34-79 | an update keeps the id and creation time, never lowers a counter, and leaves a rating consistent with the counters |
| Analytics.UpdatedCounters | src/lib/analytics.js:44-64 | click, pageView and share each add one to their own counter; timeSpent adds its amount only when positive; any other kind changes no counter; `lastUpdated` becomes now |
| Analytics.Find | src/lib/analytics.js:30-31 | a found document has the requested id; when nothing is found, no document has that id |
| Analytics.Tracked | src/lib/analytics.js:23-102 | a falsy `matchId` changes nothing; otherwise the document with that id is updated or created and every other document is untouched; ids stay unique |
| Analytics.ReplayNeverDecreases | src/lib/analytics.js:23-102 | over any sequence of interactions, a stored document's counters never decrease, and a consistent rating never decreases |
| Analytics.TwoClicksOnNewMatch | src/lib/analytics.js:23-102 | two clicks on a match with no document give two clicks and rating 10 |
| Analytics.EligibleDocs | src/lib/analytics.js:121-124 | keeps every document updated since the cutoff that has a rating, and nothing else |
| Analytics.TrendingQueryShape | src/lib/analytics.js:113-128 | a limit that is not positive gives nothing; otherwise the list is as long as the limit allows, holds only recent rated documents, and is in descending rating order |
| Analytics.TrendingIsTopRated | src/lib/analytics.js:121-126 | any recent document left out of the trending list is rated no higher than every document in it |
| Analytics.TrendingExample | src/lib/analytics.js:113-144 | with ratings A 10, B 40 and C 25, all recent, a limit of 2 gives B then C |
| Analytics.Rows | src/lib/analytics.js:131-142 | one row per queried document, carrying its match id and its rating with 0 default |
| Analytics.CollectRows | src/lib/analytics.js:131-142 | the `forEach` over the query snapshot builds exactly `Rows` of it, in order |
| Analytics.AnalyticsCollection.TrackMatchInteraction | src/lib/analytics.js:23-108 | the collection after the call is `Tracked` of the one before, and ids stay unique |
| Analytics.AnalyticsCollection.GetTrendingMatches | src/lib/analytics.js:113-149 | the rows of the trending query, limit 20 by default; none when the query fails |
| Analytics.AnalyticsCollection.GetMatchAnalytics | src/lib/analytics.js:154-169 | the stored document for a truthy id, null for a falsy id, a missing document or a failed read |
| Analytics.Cleanup | src/lib/analytics.js:194-223 | every document last updated more than thirty days ago is deleted, the others are kept, and the number deleted is returned; a failed query deletes nothing and returns 0 |
| Analytics.CleanupAsWrittenDeletesNothing | src/lib/analytics.js:3 | as written, a collection holding one stale document keeps it and the call returns 0, where one deletion was meant |
| Analytics.AnalyticsCollection.CleanupOldAnalytics | src/lib/analytics.js:194-223 | queuing one deletion per stale document and applying them leaves exactly what `Cleanup` specifies and returns its count |
| Analytics.DeletingStaleIdsKeepsTheRest | src/lib/analytics.js:205-217 | with unique ids, deleting the ids of the query's documents leaves exactly the documents that are not stale |
| Hooks.Handle | src/hooks.server.js:3-21 | redirects are 303 and only on admin paths; the login redirect happens exactly for an admin path other than the login page without a session, the dashboard redirect exactly for the login page with a session |
| Hooks.AdminNeedsSession | src/hooks.server.js:10-12 | an admin page other than the login page is served exactly when a session cookie is present |
| Hooks.PublicPathsResolve | src/hooks.server.js:6-20 | paths outside `/admin` always pass through |
| Hooks.RedirectsSettle | src/hooks.server.js:10-17 | a redirect never targets the requested page, and following it with the same cookie is served: no redirect loop |
| Hooks.PrefixCoversAdministrator | src/hooks.server.js:6 | the prefix test also guards `/administrator` |
| Auth.LoggedIn | src/lib/auth.js:11-16 | after login the stored flag reads "true" and every other storage key is untouched |
| Auth.LoggedOut | src/lib/auth.js:19-24 | after logout the flag is gone and every other storage key is untouched |
| Auth.LoginLogoutIdempotent | src/lib/auth.js:11-24 | logging in or out twice equals once, and the last of a login and a logout decides the stored state |
| Auth.AuthState.CheckAuth | src/lib/auth.js:6-8 | true exactly in a browser whose storage holds "true" under `isAuthenticated` |
| Auth.AuthState.constructor | src/lib/auth.js:3 | the store starts false |
| Auth.AuthState.Login | src/lib/auth.js:11-16 | in a browser, storage and store both say authenticated; outside a browser nothing changes |
| Auth.AuthState.Logout | src/lib/auth.js:19-24 | in a browser, storage and store both say signed out; outside a browser nothing changes |
| Auth.AuthState.InitAuth | src/lib/auth.js:27-31 | in a browser, the store takes the stored state; storage is never changed |

## Left out

- Firebase and network I/O. The stored envelope, the upstream responses and
  the Firestore reads are inputs, and writes are results. A failing database
  read or `set`, and a failing Firestore write, are not modelled.
- Concurrency. The trending join runs its lookups in parallel, and the
  `trackMatchInteraction` update, read-back and rating write are separate
  round trips that other clients can interleave with. Both are modelled as
  happening one after the other.
- Floating point. Ratings are computed on integers with whole-second times,
  and `RatingIsRoundedScore` relates them to exact real arithmetic, not to
  IEEE doubles.
- Dates and times. `toLocaleDateString`, `toISOString`, the `headToHead`
  conversion, the `updatedAt` ISO string written by `trackMatchInteraction`
  and `serverTimestamp()` are left out; time is a millisecond count passed in.
  `setDate(getDate() - 7)` and `setDate(getDate() - 30)` are taken as exact
  multiples of a day, so daylight-saving shifts are not modelled.
- Object.entries key order: league names are taken as keys that are not
  array indices. JavaScript lists integer-like keys first; the model always
  uses insertion order.
- Firestore order: tie order among equal ratings follows the model's listing
  order (see the `Analytics.Tracked` line below). Firestore's need for a composite index on the trending query
  is covered only through the failed-query flag.
- Document ids containing `/`, which make `doc()` throw, are not modelled.
- `batchUpdateAnalytics` (src/lib/analytics.js:174-189) is not part of this
  model: nothing in the core calls it, and it only forwards caller data to
  Firestore.
- The logout route src/routes/admin/logout/+server.js is not part of this
  model; `Auth.AuthState.Logout` models the store operation it calls.
- Console output is not modelled, except the script's two messages.
- The script's process exit status is not modelled. Nothing in the script
  sets one, and on success the open Realtime Database connection may keep
  the process running after the write.
- `HomePage.MatchLookup.Throws` also stands for a throw while building a card
  from an existing match document, which the `try` at
  src/routes/+page.server.js:112-218 covers as well. The `headToHead`
  conversion is not modelled, so which documents make it throw (a
  head-to-head date that `new Date` cannot parse, at line 177) is not
  derived from the document's contents: the lookup says so directly.
- The league grouping `reduce` starts from a plain `{}`. A league name that is
  an `Object.prototype` key (`constructor`, `toString`, `__proto__`) makes
  `acc[league].push` throw (src/routes/+page.server.js:75-76); the model's map
  has no inherited keys and groups such names like any other.
- `Option` fields stand for `null` or a missing field. An `undefined` upstream
  field (an emblem, a crest, a team id), which makes the Realtime Database
  `set` reject, is not distinguished.
- `Analytics.Tracked` appends new documents, so the model's listing order is
  creation order. Firestore lists documents by id and breaks `orderBy` ties
  by document id, so tie order among equal ratings may differ.
- `calculateInterestRating`'s default `pageViews = 1` is never used: every
  caller passes all three arguments.

## Findings

| source | as written | input that shows it | evidently intended | confidence | as-written member | corrected member |
|---|---|---|---|---|---|---|
| src/lib/analytics.js:3 | `cleanupOldAnalytics` calls `deleteDoc`, which the module never imports; the first deletion throws a ReferenceError, the catch returns 0, and nothing is deleted | a collection holding one document whose `lastUpdated` is older than thirty days | delete every such document and return how many were deleted | high; not executed | Analytics.CleanupAsWrittenDeletesNothing | Analytics.Cleanup |
