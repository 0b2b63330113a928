# vibe-kit: GitHub statistics enrichment and the pages around it

This project models the core of vibe-kit, a Next.js catalog of starter kits, in Dafny.

- **Enrichment.** Each catalog entry's GitHub URL is resolved to an owner/repo pair. Live star and fork counts are then fetched, with paced requests, a 12-hour cache in the browser hook (24 hours in the server library and its memo), and a fallback repository for some organisations. The model covers three code paths:
  - the `useGitHubStats` hook;
  - `getRepoStats` / `updateKitsWithGitHubStats` in `lib/github-api.ts`;
  - the memo of `getStarterKits` in `lib/starter-kits-data.ts`.
- **Consumers.** The catalog page (search, category filter, sort, pagination, local favourites), the `useFavorites` hook, and `DirectoryList`.
- **Account and administration flows.** The admin submissions page, the admin route guard, the sign-up, settings, reset-password and forgot-password pages, the `check-github-user` API route and the reset-password middleware.

How the source maps to Dafny:
- **Parameters.** Network, storage, clock and Supabase calls become parameters:
  - a `Fetcher` function for the GitHub API;
  - `Call`, `Query` and `Verify` values for what an auth or database call returned or threw;
  - `now`/`clock` integers in milliseconds.
- **Pure logic.** URL parsing, filters, sorting, pagination, validation and render decisions are functions. Their properties are proved as lemmas.
- **Changing state.** Code that updates state in place becomes classes whose methods `modify` their fields:
  - React state;
  - module-level variables;
  - the hook's `localStorage` and its `isMounted` flag.
- **Method contracts.** Each method's `ensures` ties the new state to one of the pure functions.
- **Loops.** The hook's `for` loop and the library's `map` are loops with invariants. They are proved equal to the reference functions `Pass` and `Batch`.

Where the code and its description differ, the model follows the code:
- **Any failed primary fetch starts the fallback.** In the hook, *any* `null` primary result (not only "not found") triggers the fallback lookup (`hooks/useGitHubStats.ts:172-174`).
- **Two different cache keys.** The library keys its cache with the raw repo segment, `.git` included. The hook strips it first. So the two caches can disagree on one URL (`GitHubApi.KeysDisagreeOnDotGit`).
- **The hook's cache is read once.** The hook reads its cache once, at mount. Later passes consult that first copy, even though each pass saves a merged copy back to storage.
- **`getStarterKits`' catch branch.** `updateKitsWithGitHubStats` catches every per-kit error, so the rejection branch of `getStarterKits` cannot be reached as written. It is still modelled, behind a `rejected` parameter.
- **The enrichment mutates the seed list.** It changes the seed list's kit objects in place, so after an update the seed carries the new counts too.

## Model

| member | source | states |
|---|---|---|
| KitModel.Stage | hooks/useGitHubStats.ts:207 | staging a write sets exactly that key and keeps every other entry |
| KitModel.WithStats | hooks/useGitHubStats.ts:162-163 | the kit takes the given counts and nothing else changes |
| RepoUrl.RunFacts | hooks/useGitHubStats.ts:29-31 | a `[^/]+` / `[^/.]+` run stops exactly at the first excluded character |
| RepoUrl.MatchAt | hooks/useGitHubStats.ts:29-31 | a match at a position has non-empty owner and repo groups |
| RepoUrl.FirstMatch | hooks/useGitHubStats.ts:35 | the leftmost match (as `String.match` finds it) has non-empty groups |
| RepoUrl.StripGitSuffix | hooks/useGitHubStats.ts:39 | removes a trailing `.git` exactly when present, else returns the input |
| RepoUrl.StripTrailingSlash | hooks/useGitHubStats.ts:40 | removes one trailing `/` exactly when present |
| RepoUrl.ExtractRepoInfo | hooks/useGitHubStats.ts:26-48 | the loop over the three patterns returns the reference `RepoInfoOf` |
| RepoUrl.RepoInfoOf | hooks/useGitHubStats.ts:26-48 | the reference resolution by the first pattern alone; a resolved URL always has a non-empty owner |
| RepoUrl.ShapeOfMatch | hooks/useGitHubStats.ts:29 | a match of `github\.com\/([^\/]+)\/([^\/]+)` has the host, owner, `/`, repo shape |
| RepoUrl.MatchOfShape | hooks/useGitHubStats.ts:29 | conversely every such shape is matched, with that owner |
| RepoUrl.MatchOfEndedShape | hooks/useGitHubStats.ts:29 | a shape whose repo segment ends the string or a segment is matched with exactly those groups |
| RepoUrl.MatchOfParts | hooks/useGitHubStats.ts:29 | `pre + github.com/owner/repo + rest` matches at the host with those groups |
| RepoUrl.StandardMatchAtIffShape | hooks/useGitHubStats.ts:29 | a position matches if and only if the URL has the repository shape there |
| RepoUrl.FirstMatchNoneIff | hooks/useGitHubStats.ts:35 | no match is found if and only if no position from the start matches |
| RepoUrl.FirstMatchLeftmost | hooks/useGitHubStats.ts:35 | the match found is at a matching position with no matching position before it |
| RepoUrl.TrailingSlashMatchAt | hooks/useGitHubStats.ts:30 | the trailing-slash pattern matches exactly like the plain one |
| RepoUrl.DotGitMatchAt | hooks/useGitHubStats.ts:31 | wherever the `.git` pattern matches, the plain one matches too |
| RepoUrl.FirstMatchSubsumed | hooks/useGitHubStats.ts:29-31 | the second and third patterns never match a URL the first misses |
| RepoUrl.TryPatternsSkip | hooks/useGitHubStats.ts:34-44 | a pattern without a match passes to the next one |
| RepoUrl.PatternsAgree | hooks/useGitHubStats.ts:28-44 | trying the three patterns in order equals resolving with the first |
| RepoUrl.RepoInfoNoneIff | hooks/useGitHubStats.ts:26-48 | a URL is unresolvable if and only if it has no `github.com/owner/repo` shape |
| RepoUrl.LeftmostMatch | hooks/useGitHubStats.ts:35 | the match found is the leftmost repository shape of the URL |
| RepoUrl.CleanRepoSlashFree | hooks/useGitHubStats.ts:38-40 | after the `.git` strip the repo has no `/`, so the slash strip never applies |
| RepoUrl.RawEndsAtSlash | hooks/useGitHubStats.ts:29 | the matched repo group ends at the end of the URL or at a `/` |
| RepoUrl.LeftmostGroups | hooks/useGitHubStats.ts:29-35 | the groups found come from the leftmost shape and end a segment |
| RepoUrl.RepoInfoSome | hooks/useGitHubStats.ts:26-48 | a resolved URL gives owner and `.git`-stripped repo of its leftmost shape |
| RepoUrl.FirstMatchSkip | hooks/useGitHubStats.ts:35 | the search skips positions that do not match |
| RepoUrl.MatchStartsWithHost | hooks/useGitHubStats.ts:29 | every match starts at a `g` of `github.com` |
| RepoUrl.ResolvesHttpsUrl | hooks/useGitHubStats.ts:26-48 | `https://github.com/owner/repo[/rest]` resolves to owner and stripped repo |
| RepoUrl.ResolvesNextJsWithGitAndSlash | hooks/useGitHubStats.ts:31-42 | `.../vercel/next.js.git/` resolves to `vercel`/`next.js` |
| RepoUrl.EmptyRepoAfterGitStrip | hooks/useGitHubStats.ts:36-42 | `github.com/acme/.git` resolves to an empty repo name, as written |
| GitHubStatsHook.Pass | hooks/useGitHubStats.ts:144-235 | one pass yields one kit per input kit |
| GitHubStatsHook.FetchPromise | hooks/useGitHubStats.ts:168-214 | the scheduled closure computes the reference step for a stale kit |
| GitHubStatsHook.VisitKit | hooks/useGitHubStats.ts:151-214 | one loop iteration computes the reference `ProcessKit` step |
| GitHubStatsHook.AfterFetch | hooks/useGitHubStats.ts:168-214 | the scheduled fetch asks for the kit's own repository first, makes one or two requests, and stages a write only while mounted |
| GitHubStatsHook.KitStep | hooks/useGitHubStats.ts:154-214 | an unresolved URL leaves the kit alone; a scheduled fetch belongs to a resolved URL and starts with that repository |
| GitHubStatsHook.ProcessKit | hooks/useGitHubStats.ts:151-214 | a kit without URL is skipped; a scheduled fetch means the URL resolves to the repository of the first request |
| GitHubStatsHook.RunPass | hooks/useGitHubStats.ts:144-228 | the loop, the delays and the settled fetches equal the reference `Pass` |
| GitHubStatsHook.PassStep | hooks/useGitHubStats.ts:151-225 | a pass over one more kit appends its step: kit, staged write, next delay slot, requests |
| GitHubStatsHook.StepOfUnresolvable | hooks/useGitHubStats.ts:152-155 | a kit without URL or with an unresolvable one is kept, with no request and no delay slot |
| GitHubStatsHook.StepOfFreshEntry | hooks/useGitHubStats.ts:161-165 | a fresh entry is copied onto the kit with no request |
| GitHubStatsHook.StepOfStaleEntry | hooks/useGitHubStats.ts:167-171 | a stale or missing entry schedules a fetch whose first request is the kit's own repo |
| GitHubStatsHook.StepOfPrimarySuccess | hooks/useGitHubStats.ts:199-209 | a successful primary fetch updates the kit and stages the entry under the kit's key |
| GitHubStatsHook.StepOfFallback | hooks/useGitHubStats.ts:174-198 | a failed primary fetch of a mapped owner uses a fresh fallback entry, else fetches the fallback and stages it under the fallback's key, else keeps the kit |
| GitHubStatsHook.FallbackWritesOnlyFallbackKey | hooks/useGitHubStats.ts:174-209 | after a failed primary fetch the only key ever written is `owner/fallback` |
| GitHubStatsHook.StepRetainsOnFailure | hooks/useGitHubStats.ts:171-213 | when every fetch fails or the component unmounted, the kit keeps its counts and nothing is staged |
| GitHubStatsHook.StepShape | hooks/useGitHubStats.ts:151-225 | a step changes only counts, schedules exactly the stale kits, makes at most two requests and stages only a fetched response stamped `now`, the same counts it sets on the kit |
| GitHubStatsHook.ProcessKitShape | hooks/useGitHubStats.ts:151-225 | the same for a whole iteration: scheduled exactly when the kit needs a fetch, and any staged entry holds the counts set on the kit, stamped `now` |
| GitHubStatsHook.StepIdempotent | hooks/useGitHubStats.ts:157-214 | repeating a step on its own output gives the same step |
| GitHubStatsHook.ProcessKitIdempotent | hooks/useGitHubStats.ts:151-214 | repeating an iteration on its output kit gives the same result |
| GitHubStatsHook.FreshnessBoundary | hooks/useGitHubStats.ts:161 | an entry is fresh strictly before 12 hours after its fetch and stale from then on |
| GitHubStatsHook.PassPerKit | hooks/useGitHubStats.ts:147-225 | the i-th published kit is the i-th kit's own step |
| GitHubStatsHook.PassKeepsIdentity | hooks/useGitHubStats.ts:147-225 | a pass preserves length and every field except the counts |
| GitHubStatsHook.PassDelays | hooks/useGitHubStats.ts:216-224 | one timer per scheduled kit, the j-th delayed `j * 100` ms |
| GitHubStatsHook.PassStaging | hooks/useGitHubStats.ts:148-209 | the staged cache is the old one plus entries stamped `now` for the written keys; under each written key sits the write of the last kit whose step wrote it, holding the counts set on that kit |
| GitHubStatsHook.StepWrites | hooks/useGitHubStats.ts:151-209 | one staged write per kit, in list order |
| GitHubStatsHook.StepWritesAt | hooks/useGitHubStats.ts:151-209 | write `i` is the write of kit `i`'s own iteration |
| GitHubStatsHook.LastWriteOf | hooks/useGitHubStats.ts:193-208 | the last write under a key: a write under that key with none after it, or none at all |
| GitHubStatsHook.PassRequestsEmptyIff | hooks/useGitHubStats.ts:151-224 | a pass makes no request if and only if no kit needs a fetch |
| GitHubStatsHook.ScheduledCountZeroIff | hooks/useGitHubStats.ts:151-224 | no timer is scheduled if and only if every kit is skipped or fresh |
| GitHubStatsHook.WarmSnapshotPass | hooks/useGitHubStats.ts:161-165 | with every entry fresh a pass makes no request and stages nothing new |
| GitHubStatsHook.PassIdempotent | hooks/useGitHubStats.ts:237-242 | re-running a pass on its published kits with the same cache and clock changes nothing |
| GitHubStatsHook.PassOfOne | hooks/useGitHubStats.ts:151-224 | a one-kit pass is that kit's step with delay 0 |
| GitHubStatsHook.NextJsScenario | hooks/useGitHubStats.ts:199-208 | `vercel/next.js` with a cold cache publishes the fetched counts and caches them |
| GitHubStatsHook.VueFallbackScenario | hooks/useGitHubStats.ts:131-198 | `vuejs/core` failing publishes `vuejs/vue`'s counts, cached under `vuejs/vue` |
| GitHubStatsHook.CapturedClockNeverExpires | hooks/useGitHubStats.ts:127-128 | as written, every pass reuses the mount-time clock, so an entry fresh at mount is never refetched |
| GitHubStatsHook.TickClockRefetchesExpired | hooks/useGitHubStats.ts:161 | with the tick's own clock an entry at least 12 hours old is fetched again, first request its own repo |
| GitHubStatsHook.StatsHook.constructor | hooks/useGitHubStats.ts:121-123 | the hook starts with the initial kits, loading, and unmounted |
| GitHubStatsHook.StatsHook.Mount | hooks/useGitHubStats.ts:125-237 | the cache is read (or empty), the first pass runs at the mount clock and is published and saved only if still mounted |
| GitHubStatsHook.StatsHook.UpdateKits | hooks/useGitHubStats.ts:144-235 | an interval pass reuses the captured cache and clock; published and saved only if still mounted |
| GitHubStatsHook.StatsHook.Unmount | hooks/useGitHubStats.ts:244-247 | cleanup clears `isMounted` and changes nothing else |
| GitHubStatsHook.StatsHook.UpdateKitsAt | hooks/useGitHubStats.ts:240-242 | the corrected interval pass, run at the tick's clock |
| GitHubApi.Start | lib/github-api.ts:64-87 | an unparsable URL is answered 0/0 at once; a call reaches the fetch only with a missing or expired entry, holding that entry and the clock it read |
| GitHubApi.Finish | lib/github-api.ts:89-115 | an answered call is returned as it is; any write is under the call's key and holds the returned counts stamped with the clock read before the fetch |
| GitHubApi.RepoStats | lib/github-api.ts:64-116 | an unparsable URL gives 0/0 and no write; any write holds the returned counts stamped with the call's clock |
| GitHubApi.KitStart | lib/github-api.ts:131-135 | a kit without URL starts no call; a call that reaches the fetch does so under the key of the URL's match, with the batch's clock |
| GitHubApi.KitFinish | lib/github-api.ts:132-149 | only the kit's counts change; a kit without a call is returned as is; any write is under the call's key and holds the counts set on the kit, stamped with the call's clock |
| GitHubApi.KitWrite | lib/github-api.ts:75-110 | a kit's call writes exactly when its URL matches, no fresh entry was read and the request succeeds; the write is under the match's key and holds the response stamped with the clock |
| GitHubApi.Batch | lib/github-api.ts:124-152 | a batch returns one kit per input kit |
| GitHubApi.StatsCache.constructor | lib/github-api.ts:16 | the cache starts empty |
| GitHubApi.StatsCache.Begin | lib/github-api.ts:64-87 | the part before the `await` is the reference `Start` |
| GitHubApi.StatsCache.Resume | lib/github-api.ts:89-115 | the part after the `await` returns the reference outcome and applies its write |
| GitHubApi.StatsCache.GetRepoStats | lib/github-api.ts:64-116 | a call returns the reference counts and applies exactly its write |
| GitHubApi.StatsCache.StartAll | lib/github-api.ts:131-135 | every map callback starts against the same cache snapshot |
| GitHubApi.StatsCache.UpdateKitsWithGitHubStats | lib/github-api.ts:124-152 | the batch returns the reference kits and leaves the reference cache |
| GitHubApi.BatchStep | lib/github-api.ts:131-149 | a batch over one more kit appends that kit's result and write |
| GitHubApi.BadUrlGivesZero | lib/github-api.ts:69-73 | an unparsable URL gives 0 stars and 0 forks without a request |
| GitHubApi.FreshEntryReturned | lib/github-api.ts:79-87 | a fresh entry is returned without a request |
| GitHubApi.FailureFallsBackToStale | lib/github-api.ts:92-101 | a failed fetch returns the expired entry if any, else 0/0, and writes nothing |
| GitHubApi.SuccessWritesEntry | lib/github-api.ts:103-115 | a successful fetch returns its counts and writes them stamped with the call's clock |
| GitHubApi.WriteIsReturnedUnderRawKey | lib/github-api.ts:75-115 | every write is under the raw `owner/repo` key and holds the returned counts |
| GitHubApi.RepeatGivesSameCounts | lib/github-api.ts:79-115 | a second call after the first's write returns the same counts and makes no request |
| GitHubApi.KeysDisagreeOnDotGit | lib/github-api.ts:69-76 | for a `.git` URL the library's key differs from the hook's key |
| GitHubApi.BatchPerKit | lib/github-api.ts:128-151 | each kit without URL is kept, every other kit takes its own call's counts |
| GitHubApi.BatchKeepsIdentity | lib/github-api.ts:128-151 | a batch changes only the counts |
| GitHubApi.BatchZeroesUnparsable | lib/github-api.ts:132-139 | a kit with an unparsable URL ends with 0/0 |
| GitHubApi.BatchCacheKeys | lib/github-api.ts:103-149 | after a batch the cache holds exactly the snapshot's keys plus those of the kits whose call refreshed, and every other entry is unchanged |
| GitHubApi.BatchCacheEntries | lib/github-api.ts:103-149 | under the key of each kit whose call refreshed sits the response for that kit's repository, stamped with the batch's clock |
| GitHubApi.StatsKeyInjective | lib/github-api.ts:69-76 | two matches with the same `owner/repo` key are the same match, since the owner group holds no `/` |
| StarterKitsData.Initial | lib/starter-kits-data.ts:41-42 | on load there is no memo and `lastFetchTime` is 0 |
| StarterKitsData.Serve | lib/starter-kits-data.ts:50-78 | a fresh memo is returned with the state unchanged; the state changes only to memoise exactly the list a successful enrichment returned, at the call's clock |
| StarterKitsData.KitsMemo.constructor | lib/starter-kits-data.ts:40-42 | the module state starts as `Initial` |
| StarterKitsData.KitsMemo.GetStarterKits | lib/starter-kits-data.ts:50-78 | a call follows the reference `Serve` and calls the enrichment only when the memo is not fresh |
| StarterKitsData.FirstCallUpdates | lib/starter-kits-data.ts:41-66 | the first call always enriches and memoises |
| StarterKitsData.FreshMemoServed | lib/starter-kits-data.ts:53-56 | a memo younger than 24 hours is returned whatever the enrichment would give |
| StarterKitsData.UpdateBecomesMemo | lib/starter-kits-data.ts:58-66 | a successful update is returned and memoised at the call's clock |
| StarterKitsData.RejectionFallsBack | lib/starter-kits-data.ts:67-77 | a rejection returns the old memo however old, else the seed |
| StarterKitsData.StateChangesOnlyOnSuccess | lib/starter-kits-data.ts:50-78 | the state changes only on a successful update of a stale memo |
| StarterKitsData.ResultIsMemoOrSeed | lib/starter-kits-data.ts:50-78 | the result is the memo when there is one, else the seed with the state unchanged |
| StarterKitsData.ServedAgainWithinDay | lib/starter-kits-data.ts:54-64 | within 24 hours of an update the same list is served again |
| Text.Contains | app/page.tsx:383 | `includes`: some position holds the needle |
| Text.ToLower | app/page.tsx:383 | `toLowerCase` keeps length and lowers each character |
| Text.OrElse | app/reset-password/page.tsx:179 | `s \|\| fallback` on a string: the fallback exactly when `s` is empty |
| CatalogPage.FilteredKitsSpec | app/page.tsx:381-390 | a kit is kept if and only if it matches the search and the category; filtering distributes over concatenation |
| CatalogPage.FilteredKits | app/page.tsx:381-390 | the filtered list is no longer than the catalog, and every kit in it is a catalog kit that matches the search and the category |
| CatalogPage.EmptyQueryKeepsAll | app/page.tsx:381-390 | the empty search with category `all` keeps the whole catalog |
| CatalogPage.PopularKeyOrdersLikeComparator | app/page.tsx:395-396 | the comparator `b.stars * 1.5 + b.forks - (a.stars * 1.5 + a.forks)` is positive exactly when `b`'s integer key `3 * stars + 2 * forks` is larger, and zero exactly when the keys tie |
| CatalogPage.SortKey | app/page.tsx:393-407 | every sort key depends only on a kit's stars, forks, update time and name |
| CatalogPage.SortSpec | app/page.tsx:393-407 | the sort is a permutation and is ordered by the key |
| CatalogPage.SortedKitsSpec | app/page.tsx:393-407 | the sorted list for any `sortBy` is a permutation of the filtered list, in key order |
| CatalogPage.SortedKits | app/page.tsx:393-408 | the sorted list holds the filtered kits, each as often |
| CatalogPage.TotalPages | app/page.tsx:414 | `ceil(n / 6)`: enough pages for all kits, none empty, 0 only for no kits |
| CatalogPage.JsSlice | app/page.tsx:416 | `slice` with clamped bounds never exceeds the list |
| CatalogPage.PageSpec | app/page.tsx:415-416 | page p is the p-th block of at most 6 kits, empty exactly past the last page |
| CatalogPage.PageOf | app/page.tsx:415-416 | a page never holds more than six kits, nor more than the list |
| CatalogPage.AllPagesJoinToList | app/page.tsx:414-416 | the pages in order join to the whole sorted list |
| CatalogPage.PrevPage | app/page.tsx:504 | previous page, floored at 1 |
| CatalogPage.NextPage | app/page.tsx:533 | next page, capped at the last page |
| CatalogPage.ControlsStayInRange | app/page.tsx:499-534 | from a valid page the buttons stay within `1..totalPages` |
| CatalogPage.ControlsShown | app/page.tsx:499 | the controls are drawn exactly when the next-page button on page 1 moves on |
| CatalogPage.FeaturedAndFavoriteKitsSpec | app/page.tsx:411 | the featured list and the favourites list keep exactly the featured and favourite kits, with multiplicity, in catalog order (the lists for two parts of the catalog join to the list for the whole) |
| CatalogPage.FeaturedKits | app/page.tsx:411 | a kit is featured-listed exactly when it is a featured catalog kit |
| CatalogPage.FavoriteKits | app/page.tsx:575-576 | a kit is in the favourites tab exactly when it is a catalog kit whose id is a favourite |
| CatalogPage.FavoritesTabShown | app/page.tsx:572-579 | any favourite id makes the tab appear, and a shown tab has a favourite |
| CatalogPage.CatalogView.constructor | app/page.tsx:368-373 | the page's initial state |
| CatalogPage.CatalogView.ToggleFavorite | app/page.tsx:376-378 | a favourite id is removed when present, else appended |
| CatalogPage.CatalogView.HandlePageChange | app/page.tsx:419-421 | sets the page |
| CatalogPage.CatalogView.GoPrev | app/page.tsx:504 | the previous-page button |
| CatalogPage.CatalogView.GoNext | app/page.tsx:533 | the next-page button, capped at the current list's last page |
| CatalogPage.CatalogView.SetSearchQuery | app/page.tsx:443 | sets the query and leaves the page number as it was |
| CatalogPage.CatalogView.SetSelectedCategory | app/page.tsx:448 | sets the category and leaves the page number as it was |
| CatalogPage.CatalogView.SetSortBy | app/page.tsx:462 | sets the sort and leaves the page number as it was |
| CatalogPage.CatalogView.ClearFilters | app/page.tsx:548-551 | resets query and category only |
| CatalogPage.StrandedPastLastPage | app/page.tsx:414-416 | as written, page 2 with 1 to 6 matching kits shows an empty grid and no page controls |
| CatalogPage.ClampPage | app/page.tsx:414-416 | the corrected page is within `1..totalPages` and equal to the page when that is valid |
| CatalogPage.ClampedPageNonEmpty | app/page.tsx:414-416 | with the clamped page a non-empty list always shows a non-empty grid |
| UseFavorites.ToggledSpec | hooks/use-favorites.tsx:64-84 | the id is in the new list if and only if it was not before; other ids keep their count |
| UseFavorites.Toggled | hooks/use-favorites.tsx:64-84 | the toggled id is in the new list exactly when it was not before, and every other id keeps its membership |
| UseFavorites.ToggleTwiceRestores | hooks/use-favorites.tsx:64-84 | toggling an absent id twice restores the list |
| UseFavorites.RequestFor | hooks/use-favorites.tsx:64-81 | a delete for a present id, else an insert, of that id |
| UseFavorites.FavoritesHook.constructor | hooks/use-favorites.tsx:9-10 | no favourites and loading |
| UseFavorites.FavoritesHook.ReportedLoading | hooks/use-favorites.tsx:92 | loading while the hook or auth is loading |
| UseFavorites.FavoritesHook.FetchFavorites | hooks/use-favorites.tsx:19-57 | no user clears; rows replace the list (null gives empty) only while mounted; an error keeps it |
| UseFavorites.FavoritesHook.ToggleFavorite | hooks/use-favorites.tsx:60-88 | no user does nothing; otherwise the request matches membership and the list toggles unless it throws |
| DirectoryList.DisplayedKits | components/DirectoryList.tsx:38-40 | the browse list is the whole list; the favourites list is no longer |
| DirectoryList.Cards | components/DirectoryList.tsx:62-72 | one card per kit, marked favourite exactly when its id is a favourite |
| DirectoryList.Render | components/DirectoryList.tsx:20-73 | auth spinner, then sign-in prompt, then kits spinner, then empty message, then grid, each if and only if its condition |
| DirectoryList.DisplayedKitsSpec | components/DirectoryList.tsx:38-40 | the favourites list holds exactly the favourite kits with their multiplicity, in list order (the lists for two parts join to the list for the whole) |
| DirectoryList.FavoritesGridAllMarked | components/DirectoryList.tsx:38-72 | every card of the favourites grid is marked favourite |
| DirectoryList.BrowseGridShowsAll | components/DirectoryList.tsx:62-72 | the browse grid shows every kit once, in order |
| DirectoryList.NoFavoritesMessage | components/DirectoryList.tsx:50-60 | a signed-in user without favourites sees the favourites empty message |
| Auth.HasGithubIdentity | app/reset-password/page.tsx:37-38 | `identities?.some(i => i.provider === 'github')`, false for missing identities |
| Auth.HasGithub | app/reset-password/middleware.ts:38-39 | some identity has provider `github` |
| Auth.HasGithubAppend | app/reset-password/middleware.ts:38-39 | a GitHub identity is in a concatenation if and only if it is in a part |
| Auth.ProbeMessagesExample | app/api/check-github-user/route.ts:31-47 | the credentials message is recognised and neither OTP message is; both OTP messages are OAuth errors; the empty message is not a credentials error |
| CheckGithubUserRoute.Get | app/api/check-github-user/route.ts:10-80 | 400 without an email, 200 with a verdict exactly when no call throws, else 500 |
| CheckGithubUserRoute.GetDecisionTable | app/api/check-github-user/route.ts:26-75 | the four verdicts: unknown, email, oauth, none |
| CheckGithubUserRoute.GithubImpliesExists | app/api/check-github-user/route.ts:46-75 | a GitHub verdict says the user exists; providers are listed exactly when it exists |
| CheckGithubUserRoute.OtpReadOnlyAfterOtherError | app/api/check-github-user/route.ts:31-41 | the OTP call matters only after a non-credentials sign-in error |
| ResetMiddleware.Middleware | app/reset-password/middleware.ts:4-53 | the request passes exactly with a token, a verified user and no GitHub identity; else `/login` or the GitHub page |
| ResetMiddleware.GithubUsersRedirected | app/reset-password/middleware.ts:38-44 | GitHub users go to `/reset-password/github-user` exactly when verified |
| ResetMiddleware.FailuresGoToLogin | app/reset-password/middleware.ts:9-52 | no token, an error, no user or an exception go to `/login` |
| AdminRoute.Redirect | components/auth/admin-protected-route.tsx:11-20 | no redirect while loading; `/auth` without a user; `/` for a non-admin |
| AdminRoute.Render | components/auth/admin-protected-route.tsx:22-30 | the spinner while loading; the children only for an admin |
| AdminRoute.RenderAgreesWithRedirect | components/auth/admin-protected-route.tsx:11-30 | the children are shown exactly when no redirect is due, and nothing is shown exactly when one is |
| AdminSubmissions.Classify | app/admin/submissions/page.tsx:40-53 | missing table, else denied permission, else unknown, from code or message |
| AdminSubmissions.Format | app/admin/submissions/page.tsx:77-84 | fields copied, a missing or empty status read as `pending`, email `Unknown` |
| AdminSubmissions.WithStatus | app/admin/submissions/page.tsx:113-115 | rows with the id take the status; everything else is unchanged |
| AdminSubmissions.Actions | app/admin/submissions/page.tsx:202-230 | approve and reject for pending rows, reset for the others |
| AdminSubmissions.BadgeFor | app/admin/submissions/page.tsx:131-141 | the badge of each status; the unknown badge exactly for other strings |
| AdminSubmissions.Render | app/admin/submissions/page.tsx:165-173 | spinner while loading, the empty card for no rows, else the table of exactly the loaded rows |
| AdminSubmissions.SuccessText | app/admin/submissions/page.tsx:119 | approving or rejecting names the new status in the toast; a reset says `reset to pending` |
| AdminSubmissions.SubmissionsPage.constructor | app/admin/submissions/page.tsx:22-24 | no rows, loading, no message |
| AdminSubmissions.SubmissionsPage.FetchSubmissions | app/admin/submissions/page.tsx:30-99 | classified error, unknown error, or formatted rows with the no-data notice; loading ends |
| AdminSubmissions.SubmissionsPage.UpdateSubmissionStatus | app/admin/submissions/page.tsx:101-129 | on success the row's status and the success toast; on failure no change and the error toast |
| AdminSubmissions.NoDataIffEmptyCard | app/admin/submissions/page.tsx:86-87 | the no-data notice appears exactly when the card shows no submissions |
| AdminSubmissions.WithStatusLastWins | app/admin/submissions/page.tsx:113-115 | of two updates of one id the later wins |
| AdminSubmissions.WithStatusCommutes | app/admin/submissions/page.tsx:113-115 | updates of different ids commute |
| AdminSubmissions.WithStatusAbsentId | app/admin/submissions/page.tsx:113-115 | an unknown id changes nothing |
| AdminSubmissions.ActionsAreReversible | app/admin/submissions/page.tsx:202-230 | every action changes the status and can be undone by an offered action |
| AdminSubmissions.UnknownStatusCanBeReset | app/admin/submissions/page.tsx:131-230 | an unknown status shows the unknown badge and offers the reset |
| SignupPage.Validate | app/signup/page.tsx:52-65 | missing fields, then mismatch, then shorter than 6, each if and only if its condition |
| SignupPage.SignupForm.constructor | app/signup/page.tsx:40-45 | empty form |
| SignupPage.SignupForm.HandleSubmit | app/signup/page.tsx:47-92 | sign-up is called exactly when validation passes; the check-email message or the error (with default) |
| SignupPage.EmptyPasswordsAreMissingFields | app/signup/page.tsx:52-55 | empty passwords are reported as missing fields |
| SettingsPage.Render | app/settings/page.tsx:22-55 | spinner, sign-in notice or the settings, each if and only if its condition |
| SettingsPage.Validate | app/settings/page.tsx:80-88 | mismatch, then shorter than 6, each if and only if its condition |
| SettingsPage.SettingsForm.constructor | app/settings/page.tsx:15-20 | empty form |
| SettingsPage.SettingsForm.HandleUpdatePassword | app/settings/page.tsx:75-104 | a failing check sets the error only; otherwise the success message and cleared fields |
| SettingsPage.SettingsForm.HandleUpdateProfile | app/settings/page.tsx:57-73 | always ends with the profile message and no error |
| SettingsPage.SettingsAndSignupDisagreeOnEmpty | app/settings/page.tsx:80-88 | empty passwords are "too short" here and "missing" on sign-up; whatever sign-up accepts is accepted here |
| ResetPasswordPage.Validate | app/reset-password/page.tsx:108-121 | empty, then mismatch, then shorter than 8, each if and only if its condition |
| ResetPasswordPage.Render | app/reset-password/page.tsx:148-307 | verifying, invalid link, GitHub notice, success, form: the first whose condition holds |
| ResetPasswordPage.ResetPasswordForm.constructor | app/reset-password/page.tsx:16-23 | checking, token assumed valid, not GitHub |
| ResetPasswordPage.ResetPasswordForm.OnAuthEvent | app/reset-password/page.tsx:30-60 | recovery and sign-in events validate the link, stop checking and flag GitHub identities |
| ResetPasswordPage.ResetPasswordForm.HandleSubmit | app/reset-password/page.tsx:99-145 | GitHub users go to `/login`; a failing check sets its error; otherwise `updateUser` is called, with success and redirect or the error |
| ResetPasswordPage.GithubUserSeesNotice | app/reset-password/page.tsx:201-229 | a validated GitHub user sees the notice whatever the other flags say |
| ResetPasswordPage.PassedMiddlewareIsNotGithub | app/reset-password/middleware.ts:38-47 | a user the middleware lets through has no GitHub identity |
| ForgotPasswordPage.CheckGithubUser | app/forgot-password/page.tsx:24-58 | GitHub exactly when the sign-in fails with a non-credentials error and the OTP one with an OAuth phrase |
| ForgotPasswordPage.Initial | app/forgot-password/page.tsx:15-20 | the page's initial state |
| ForgotPasswordPage.Submit | app/forgot-password/page.tsx:60-102 | the email is kept; success exactly for a non-empty email past the one-minute cooldown, not a GitHub account, and a reset without error; the cooldown restarts only on success, and success clears the error |
| ForgotPasswordPage.ForgotPasswordForm.constructor | app/forgot-password/page.tsx:15-20 | the state starts as `Initial` |
| ForgotPasswordPage.ForgotPasswordForm.HandleSubmit | app/forgot-password/page.tsx:60-102 | the new state is the reference `Submit` of the old one |
| ForgotPasswordPage.EmptyEmailStops | app/forgot-password/page.tsx:65-68 | an empty email only sets its message |
| ForgotPasswordPage.CooldownBlocks | app/forgot-password/page.tsx:71-75 | within a minute of the last sent link only the wait message is set |
| ForgotPasswordPage.CooldownStartsOnlyOnSuccess | app/forgot-password/page.tsx:89-96 | the cooldown clock moves only with a success, to the submit's clock; success exactly when every check passes and the reset succeeds |
| ForgotPasswordPage.GithubSendsNoReset | app/forgot-password/page.tsx:81-87 | a GitHub account hides the form and sends no reset request |
| ForgotPasswordPage.SentLinkBlocksNextMinute | app/forgot-password/page.tsx:71-96 | after a sent link every submit in the next minute is blocked |
| ForgotPasswordPage.ProbeAgreesWithRoute | app/forgot-password/page.tsx:24-58 | the page's probe and the API route's verdict agree |

## Left out

- HTTP, JSON and the GitHub REST response format are left out. A fetch is a `Fetcher` returning counts or `None`.
- `localStorage` serialisation is left out. A read failure is `readable` and a failed save is `saveOk`.
- Concurrency is not modelled. `setTimeout` and Promise interleaving run sequentially, in list order. The unmount moment is one `settledMounted` flag per pass. The library batch reads one clock value.
- The Supabase client and Next.js routing are parameters or outcomes. Toasts carry only their text, and console output is left out.
- `localeCompare` is a `nameRank` parameter. Dates are integer milliseconds, and `formatDate` and the table markup are left out.
- CatalogPage.SortedKitsSpec: `Array.prototype.sort` stability is not stated. The contract gives only the permutation and the order.
- Kit objects are aliased between lists. The model reassigns sequences instead, and says where the source mutates in place.
- `fallbackRepos` lookups of JavaScript prototype keys such as `constructor` are not modelled. The map holds only its own entries.
- Text.ToLower lowers ASCII letters only. Lengths count characters, where JavaScript counts UTF-16 code units.
- ResetPasswordPage.ResetPasswordForm.OnAuthEvent: for other events, the two-second `getSession` check is left out, because timers are outside the model. Its `isChecking` test reads the value the listener captured when it subscribed, which is always `true`. So a check started by an early event still runs after a `PASSWORD_RECOVERY` event has settled the page. It can then mark the link invalid when `getSession` finds no session.
- The reset page's `handleGithubSignIn` and its other OAuth buttons are left out, because they only start a redirect.
- The auth, profile and admin contexts and their pages are not part of this model. The only part of a user's identity modelled is its `provider`.

## Findings

| source | as written | input that shows it | evidently intended | confidence | as-written member | corrected member |
|---|---|---|---|---|---|---|
| hooks/useGitHubStats.ts:127-128 | the effect reads `Date.now()` once at mount, and the interval, every `CACHE_DURATION` (12 hours), re-runs `updateKits` with that captured `now` | a stored entry that is fresh at mount, then the interval tick 12 hours later (the interval is `CACHE_DURATION`): the entry still counts as fresh on that tick and every later one, so those counts are never refreshed while the page stays open | each pass reads the clock when it runs | not executed | GitHubStatsHook.CapturedClockNeverExpires | GitHubStatsHook.TickClockRefetchesExpired |
| app/page.tsx:414-416 | changing the search, category or sort never resets `currentPage`, and the page is not clamped to `totalPages` | at page 2, a search that leaves 1 to 6 kits: the slice is empty, nothing says "no kits", and the page controls are hidden because `totalPages` is 1 | reset the page to 1 on filter change, or clamp it | not executed | CatalogPage.StrandedPastLastPage | CatalogPage.ClampedPageNonEmpty |
