/**
 * The client-side enrichment pass of `useGitHubStats`: every kit with a resolvable
 * repository URL either takes fresh cached counts, or is scheduled for a fetch (with the
 * organisation fallback when the repository itself cannot be read), and the writes are
 * staged in a copy of the cache that is saved once at the end.
 *
 * The scheduled fetches are modelled as if each ran to completion in scheduling order.
 * Every read of the cache inside a pass goes to the snapshot taken by the effect, never to
 * the staged copy, so the order in which the fetches settle changes nothing but the order
 * of the writes, and two writes to one key within a pass come from the same request.
 */
module GitHubStatsHook {
  import opened Wrappers
  import opened KitModel
  import opened RepoUrl

  /** `CACHE_DURATION`: 12 hours in milliseconds. */
  const CacheDuration: int := 12 * 60 * 60 * 1000

  /** The spacing of scheduled fetches: `fetchPromises.length * 100`. */
  const PacingStep: int := 100

  /** `fallbackRepos`: the repository tried for an organisation whose own URL fails. */
  const FallbackRepos: map<string, string> := map[
    "vercel" := "next.js",
    "react-native-community" := "react-native",
    "vuejs" := "vue",
    "android" := "kotlin",
    "sveltejs" := "svelte",
    "flutter" := "flutter",
    "django" := "django",
    "expressjs" := "express",
    "laravel" := "laravel",
    "electron-react-boilerplate" := "electron-react-boilerplate"
  ]

  /** The cache key `${owner}/${repo}`. */
  function CacheKey(owner: string, repo: string): string {
    owner + "/" + repo
  }

  /** `cache[key] && (now - cache[key].lastFetched) < CACHE_DURATION`. */
  predicate IsFresh(cache: Cache, key: string, now: int) {
    key in cache && now - cache[key].lastFetched < CacheDuration
  }

  /** One call of `fetchRepoData(owner, repo)`. */
  datatype Request = Request(owner: string, repo: string)

  /** What handling one kit produces: the kit's new value, the write staged into
      `updatedCache` (at most one), whether a fetch was scheduled for it (and so took a
      delay slot), and the requests it made, in order. */
  datatype Step = Step(kit: Kit, write: Option<(string, CacheEntry)>, scheduled: bool, requests: seq<Request>)

  /** The body of the scheduled `fetchPromise` for a kit whose own key was not fresh.
      `mounted` is `isMounted` when the responses arrive. */
  function AfterFetch(k: Kit, owner: string, repo: string, cache: Cache, now: int,
                      fetch: Fetcher, mounted: bool): (r: Step)
    ensures r.scheduled && 1 <= |r.requests| <= 2 && r.requests[0] == Request(owner, repo)
    ensures r.write.Some? ==> mounted
  {
    var data := fetch(owner, repo);
    if data.None? && owner in FallbackRepos then
      var fallback := FallbackRepos[owner];
      var fallbackKey := CacheKey(owner, fallback);
      if IsFresh(cache, fallbackKey, now) then
        // the cached fallback counts are copied whatever `isMounted` says
        Step(WithStats(k, StatsOf(cache[fallbackKey])), None, true, [Request(owner, repo)])
      else
        var data2 := fetch(owner, fallback);
        if data2.Some? && mounted then
          Step(WithStats(k, data2.value), Some((fallbackKey, EntryOf(data2.value, now))), true,
               [Request(owner, repo), Request(owner, fallback)])
        else
          Step(k, None, true, [Request(owner, repo), Request(owner, fallback)])
    else if data.Some? && mounted then
      Step(WithStats(k, data.value), Some((CacheKey(owner, repo), EntryOf(data.value, now))), true,
           [Request(owner, repo)])
    else
      Step(k, None, true, [Request(owner, repo)])
  }

  /** One iteration of the `for (const kit of updatedKits)` loop after `extractRepoInfo`
      returned `info`, together with the fetch it schedules. */
  function KitStep(k: Kit, info: Option<RepoInfo>, cache: Cache, now: int, fetch: Fetcher, mounted: bool): (r: Step)
    ensures info.None? ==> r == Step(k, None, false, [])
    ensures r.scheduled ==> info.Some? && r.requests != [] && r.requests[0] == Request(info.value.owner, info.value.repo)
  {
    match info
    case None => Step(k, None, false, [])
    case Some(info) =>
      var key := CacheKey(info.owner, info.repo);
      if IsFresh(cache, key, now) then
        Step(WithStats(k, StatsOf(cache[key])), None, false, [])
      else
        AfterFetch(k, info.owner, info.repo, cache, now, fetch, mounted)
  }

  /** One whole iteration, with the `!kit.repoUrl` skip first. */
  function ProcessKit(k: Kit, cache: Cache, now: int, fetch: Fetcher, mounted: bool): (r: Step)
    ensures k.repoUrl == [] ==> r == Step(k, None, false, [])
    ensures r.scheduled ==>
      k.repoUrl != [] && r.requests != [] && RepoInfoOf(k.repoUrl) == Some(RepoInfo(r.requests[0].owner, r.requests[0].repo))
  {
    if k.repoUrl == [] then Step(k, None, false, [])
    else KitStep(k, RepoInfoOf(k.repoUrl), cache, now, fetch, mounted)
  }

  /** What a whole pass of `updateKits` computes: the kits after the loop and every fetch
      have run, `updatedCache`, the delay of each `setTimeout`, and the requests made. */
  datatype PassResult = PassResult(kits: seq<Kit>, staged: Cache, delays: seq<int>, requests: seq<Request>)

  /** The pass over `kits`, one kit after the other. */
  function Pass(kits: seq<Kit>, cache: Cache, now: int, fetch: Fetcher, mounted: bool): (r: PassResult)
    ensures |r.kits| == |kits|
    decreases |kits|
  {
    if kits == [] then PassResult([], cache, [], [])
    else
      var prev := Pass(kits[..|kits| - 1], cache, now, fetch, mounted);
      var st := ProcessKit(kits[|kits| - 1], cache, now, fetch, mounted);
      PassResult(prev.kits + [st.kit],
                 Stage(prev.staged, st.write),
                 if st.scheduled then prev.delays + [|prev.delays| * PacingStep] else prev.delays,
                 prev.requests + st.requests)
  }

  /** The keys a pass writes. */
  function WrittenKeys(kits: seq<Kit>, cache: Cache, now: int, fetch: Fetcher, mounted: bool): set<string>
    decreases |kits|
  {
    if kits == [] then {}
    else
      var st := ProcessKit(kits[|kits| - 1], cache, now, fetch, mounted);
      WrittenKeys(kits[..|kits| - 1], cache, now, fetch, mounted)
        + (if st.write.Some? then {st.write.value.0} else {})
  }

  /** The write each kit's step stages, one per kit, in list order. */
  function StepWrites(kits: seq<Kit>, cache: Cache, now: int, fetch: Fetcher, mounted: bool)
    : (ws: seq<Option<(string, CacheEntry)>>)
    ensures |ws| == |kits|
    decreases |kits|
  {
    if kits == [] then []
    else
      var prev := StepWrites(kits[..|kits| - 1], cache, now, fetch, mounted);
      prev + [ProcessKit(kits[|kits| - 1], cache, now, fetch, mounted).write]
  }

  /** Write `i` is the one staged by kit `i`'s own iteration. */
  lemma {:induction false} StepWritesAt(kits: seq<Kit>, cache: Cache, now: int, fetch: Fetcher, mounted: bool, i: nat)
    requires i < |kits|
    ensures StepWrites(kits, cache, now, fetch, mounted)[i] == ProcessKit(kits[i], cache, now, fetch, mounted).write
    decreases |kits|
  {
    var n := |kits| - 1;
    if i < n {
      StepWritesAt(kits[..n], cache, now, fetch, mounted, i);
      assert kits[..n][i] == kits[i];
    }
  }

  /** The index of the last write under `key`, or -1 when there is none. */
  function LastWriteOf(ws: seq<Option<(string, CacheEntry)>>, key: string): (j: int)
    ensures -1 <= j < |ws|
    ensures j >= 0 ==> ws[j].Some? && ws[j].value.0 == key
    ensures forall i :: j < i < |ws| ==> !(ws[i].Some? && ws[i].value.0 == key)
    decreases |ws|
  {
    if ws == [] then -1
    else if ws[|ws| - 1].Some? && ws[|ws| - 1].value.0 == key then |ws| - 1
    else
      var j := LastWriteOf(ws[..|ws| - 1], key);
      assert forall i :: j < i < |ws| - 1 ==> ws[..|ws| - 1][i] == ws[i];
      j
  }

  /** The kit's URL resolves and the snapshot has no fresh entry for it: the loop
      schedules a fetch. */
  predicate NeedsFetch(k: Kit, cache: Cache, now: int) {
    k.repoUrl != [] && RepoInfoOf(k.repoUrl).Some?
    && !IsFresh(cache, CacheKey(RepoInfoOf(k.repoUrl).value.owner, RepoInfoOf(k.repoUrl).value.repo), now)
  }

  /** How many elements of `xs` satisfy `p`. */
  function CountWhere<T>(xs: seq<T>, p: T -> bool): nat
    decreases |xs|
  {
    if xs == [] then 0 else CountWhere(xs[..|xs| - 1], p) + (if p(xs[|xs| - 1]) then 1 else 0)
  }

  /** How many kits of a pass get a fetch scheduled. */
  function ScheduledCount(kits: seq<Kit>, cache: Cache, now: int): nat {
    CountWhere(kits, k => NeedsFetch(k, cache, now))
  }

  /** The scheduled `fetchPromise` closure for one kit: the primary request, the
      organisation fallback, and the write it stages. */
  method FetchPromise(kit: Kit, owner: string, repo: string, cache: Cache, now: int,
                      fetch: Fetcher, mounted: bool)
    returns (newKit: Kit, write: Option<(string, CacheEntry)>, requests: seq<Request>)
    ensures Step(newKit, write, true, requests) == AfterFetch(kit, owner, repo, cache, now, fetch, mounted)
  {
    newKit, write := kit, None;
    var data := fetch(owner, repo);
    requests := [Request(owner, repo)];
    if data.None? && owner in FallbackRepos {
      var fallbackRepo := FallbackRepos[owner];
      var fallbackCacheKey := CacheKey(owner, fallbackRepo);
      if fallbackCacheKey in cache && now - cache[fallbackCacheKey].lastFetched < CacheDuration {
        newKit := WithStats(kit, StatsOf(cache[fallbackCacheKey]));
        return;
      }
      data := fetch(owner, fallbackRepo);
      requests := requests + [Request(owner, fallbackRepo)];
      if data.Some? && mounted {
        newKit := WithStats(kit, data.value);
        write := Some((fallbackCacheKey, EntryOf(data.value, now)));
      }
    } else if data.Some? && mounted {
      newKit := WithStats(kit, data.value);
      write := Some((CacheKey(owner, repo), EntryOf(data.value, now)));
    }
  }

  /** One iteration of the loop: the two skips, the fresh-cache copy, or the scheduled fetch. */
  method VisitKit(kit: Kit, cache: Cache, now: int, fetch: Fetcher, mounted: bool) returns (st: Step)
    ensures st == ProcessKit(kit, cache, now, fetch, mounted)
  {
    st := Step(kit, None, false, []);
    if kit.repoUrl == [] {
      return;
    }
    var repoInfo := ExtractRepoInfo(kit.repoUrl);
    if repoInfo.None? {
      return;
    }
    var owner, repo := repoInfo.value.owner, repoInfo.value.repo;
    var cacheKey := CacheKey(owner, repo);
    if cacheKey in cache && now - cache[cacheKey].lastFetched < CacheDuration {
      st := Step(WithStats(kit, StatsOf(cache[cacheKey])), None, false, []);
      return;
    }
    var newKit, write, made := FetchPromise(kit, owner, repo, cache, now, fetch, mounted);
    st := Step(newKit, write, true, made);
  }

  /** `updateKits` up to `Promise.all`: the loop over a copy of `initialKits`, each kit handled
      in place, writes staged into a copy of the captured cache, and one delay per scheduled
      fetch. */
  method RunPass(initialKits: seq<Kit>, cache: Cache, now: int, fetch: Fetcher, mounted: bool)
    returns (r: PassResult)
    ensures r == Pass(initialKits, cache, now, fetch, mounted)
  {
    var updatedKits := initialKits;
    var updatedCache := cache;
    var fetchDelays: seq<int> := [];
    var requests: seq<Request> := [];
    var i := 0;
    while i < |updatedKits|
      invariant 0 <= i <= |initialKits| == |updatedKits|
      invariant PassResult(updatedKits[..i], updatedCache, fetchDelays, requests) == Pass(initialKits[..i], cache, now, fetch, mounted)
      invariant updatedKits[i..] == initialKits[i..]
    {
      var st := VisitKit(updatedKits[i], cache, now, fetch, mounted);
      RunPassStep(initialKits, i, cache, now, fetch, mounted, updatedKits, updatedCache, fetchDelays, requests, st);
      if st.scheduled {
        fetchDelays := fetchDelays + [|fetchDelays| * PacingStep];
      }
      requests := requests + st.requests;
      updatedCache := Stage(updatedCache, st.write);
      updatedKits := updatedKits[i := st.kit];
      i := i + 1;
    }
    assert initialKits[..i] == initialKits;
    assert updatedKits[..i] == updatedKits;
    r := PassResult(updatedKits, updatedCache, fetchDelays, requests);
  }

  /** One iteration of the loop of `RunPass` keeps it in step with `Pass`. */
  lemma RunPassStep(kits: seq<Kit>, i: nat, cache: Cache, now: int, fetch: Fetcher, mounted: bool,
                    updatedKits: seq<Kit>, staged: Cache, delays: seq<int>, requests: seq<Request>, st: Step)
    requires i < |kits| == |updatedKits|
    requires PassResult(updatedKits[..i], staged, delays, requests) == Pass(kits[..i], cache, now, fetch, mounted)
    requires updatedKits[i..] == kits[i..]
    requires st == ProcessKit(updatedKits[i], cache, now, fetch, mounted)
    ensures var next := if st.scheduled then delays + [|delays| * PacingStep] else delays;
      PassResult(updatedKits[i := st.kit][..i + 1], Stage(staged, st.write), next, requests + st.requests)
        == Pass(kits[..i + 1], cache, now, fetch, mounted)
    ensures updatedKits[i := st.kit][i + 1..] == kits[i + 1..]
  {
    assert updatedKits[i] == updatedKits[i..][0] == kits[i];
    PassStep(kits, i, cache, now, fetch, mounted);
    KitsStep(updatedKits, i, st.kit);
    ExtendResult(Pass(kits[..i], cache, now, fetch, mounted), updatedKits[..i], staged, delays, requests, st);
  }

  lemma KitsStep(ks: seq<Kit>, i: nat, k: Kit)
    requires i < |ks|
    ensures ks[i := k][..i + 1] == ks[..i] + [k]
    ensures ks[i := k][i + 1..] == ks[i + 1..]
  {
  }

  /** Extending equal pass results by the same step gives equal results. */
  lemma ExtendResult(prev: PassResult, kits: seq<Kit>, staged: Cache, delays: seq<int>, requests: seq<Request>, st: Step)
    requires PassResult(kits, staged, delays, requests) == prev
    ensures var next := if st.scheduled then delays + [|delays| * PacingStep] else delays;
      PassResult(kits + [st.kit], Stage(staged, st.write), next, requests + st.requests)
        == PassResult(prev.kits + [st.kit], Stage(prev.staged, st.write),
                      if st.scheduled then prev.delays + [|prev.delays| * PacingStep] else prev.delays,
                      prev.requests + st.requests)
  {
  }

  /** The pass over one more kit extends the pass over the prefix by that kit's step. */
  lemma PassStep(kits: seq<Kit>, i: nat, cache: Cache, now: int, fetch: Fetcher, mounted: bool)
    requires i < |kits|
    ensures var prev := Pass(kits[..i], cache, now, fetch, mounted);
      var st := ProcessKit(kits[i], cache, now, fetch, mounted);
      Pass(kits[..i + 1], cache, now, fetch, mounted)
        == PassResult(prev.kits + [st.kit], Stage(prev.staged, st.write),
                      if st.scheduled then prev.delays + [|prev.delays| * PacingStep] else prev.delays,
                      prev.requests + st.requests)
  {
    assert kits[..i + 1][..i] == kits[..i];
  }

  // ----- one kit -----

  /** An empty or unresolvable URL: the kit is left as it is, nothing is scheduled,
      requested or written. */
  lemma StepOfUnresolvable(k: Kit, cache: Cache, now: int, fetch: Fetcher, mounted: bool)
    requires k.repoUrl == [] || RepoInfoOf(k.repoUrl).None?
    ensures ProcessKit(k, cache, now, fetch, mounted) == Step(k, None, false, [])
  {
  }

  /** A fresh entry under `owner/repo` is copied onto the kit and no fetch is scheduled. */
  lemma StepOfFreshEntry(k: Kit, owner: string, repo: string, cache: Cache, now: int,
                         fetch: Fetcher, mounted: bool)
    requires IsFresh(cache, CacheKey(owner, repo), now)
    ensures KitStep(k, Some(RepoInfo(owner, repo)), cache, now, fetch, mounted)
      == Step(WithStats(k, StatsOf(cache[CacheKey(owner, repo)])), None, false, [])
  {
  }

  /** Without a fresh entry a fetch is scheduled and its first request is for the kit's
      own repository. */
  lemma StepOfStaleEntry(k: Kit, owner: string, repo: string, cache: Cache, now: int,
                         fetch: Fetcher, mounted: bool)
    requires !IsFresh(cache, CacheKey(owner, repo), now)
    ensures var st := KitStep(k, Some(RepoInfo(owner, repo)), cache, now, fetch, mounted);
      st.scheduled && |st.requests| >= 1 && st.requests[0] == Request(owner, repo)
  {
  }

  /** A successful primary fetch sets the counts and stages the entry under `owner/repo`
      stamped with the pass's `now`. */
  lemma StepOfPrimarySuccess(k: Kit, owner: string, repo: string, cache: Cache, now: int,
                             fetch: Fetcher)
    requires !IsFresh(cache, CacheKey(owner, repo), now) && fetch(owner, repo).Some?
    ensures var d := fetch(owner, repo).value;
      KitStep(k, Some(RepoInfo(owner, repo)), cache, now, fetch, true)
        == Step(WithStats(k, d), Some((CacheKey(owner, repo), CacheEntry(d.stars, d.forks, now))),
                true, [Request(owner, repo)])
  {
  }

  /** A failed primary fetch for an organisation with a fallback: a fresh fallback entry
      is copied without a second request; otherwise the fallback is requested, and its
      counts are used and staged under `owner/fallback` when it succeeds while mounted. */
  lemma StepOfFallback(k: Kit, owner: string, repo: string, cache: Cache, now: int,
                       fetch: Fetcher, mounted: bool)
    requires !IsFresh(cache, CacheKey(owner, repo), now)
    requires fetch(owner, repo).None? && owner in FallbackRepos
    ensures var fallback := FallbackRepos[owner];
      var fallbackKey := CacheKey(owner, fallback);
      var st := KitStep(k, Some(RepoInfo(owner, repo)), cache, now, fetch, mounted);
      && (IsFresh(cache, fallbackKey, now) ==>
            st == Step(WithStats(k, StatsOf(cache[fallbackKey])), None, true, [Request(owner, repo)]))
      && (!IsFresh(cache, fallbackKey, now) && fetch(owner, fallback).Some? && mounted ==>
            st == Step(WithStats(k, fetch(owner, fallback).value),
                       Some((fallbackKey, EntryOf(fetch(owner, fallback).value, now))), true,
                       [Request(owner, repo), Request(owner, fallback)]))
      && (!IsFresh(cache, fallbackKey, now) && !(fetch(owner, fallback).Some? && mounted) ==>
            st == Step(k, None, true, [Request(owner, repo), Request(owner, fallback)]))
  {
  }

  /** After a failed primary fetch the only key that can be written is `owner/fallback`. */
  lemma FallbackWritesOnlyFallbackKey(k: Kit, owner: string, repo: string, cache: Cache,
                                      now: int, fetch: Fetcher, mounted: bool)
    requires fetch(owner, repo).None?
    ensures var st := KitStep(k, Some(RepoInfo(owner, repo)), cache, now, fetch, mounted);
      st.write.Some? ==> owner in FallbackRepos && st.write.value.0 == CacheKey(owner, FallbackRepos[owner])
  {
  }

  /** The kit keeps its counts, and nothing is written, when the primary fetch fails and
      there is no fallback, when both it and the fallback fail, or when the data arrives
      after unmount. */
  lemma StepRetainsOnFailure(k: Kit, owner: string, repo: string, cache: Cache, now: int,
                             fetch: Fetcher, mounted: bool)
    requires !IsFresh(cache, CacheKey(owner, repo), now)
    requires fetch(owner, repo).None? ==>
      owner !in FallbackRepos
      || (!IsFresh(cache, CacheKey(owner, FallbackRepos[owner]), now)
          && (fetch(owner, FallbackRepos[owner]).None? || !mounted))
    requires fetch(owner, repo).Some? ==> !mounted
    ensures var st := KitStep(k, Some(RepoInfo(owner, repo)), cache, now, fetch, mounted);
      st.kit == k && st.write == None
  {
  }

  /** What holds of every step: only the counters change; a write is staged only by a
      scheduled fetch that returned data while mounted, under the key of the last request
      made and with that request's counts stamped `now`; at most two requests, and none
      without a scheduled fetch. */
  lemma StepShape(k: Kit, info: Option<RepoInfo>, cache: Cache, now: int, fetch: Fetcher, mounted: bool)
    ensures var st := KitStep(k, info, cache, now, fetch, mounted);
      && SameExceptStats(k, st.kit)
      && (st.scheduled <==> info.Some? && !IsFresh(cache, CacheKey(info.value.owner, info.value.repo), now))
      && |st.requests| <= 2
      && (!st.scheduled <==> st.requests == [])
      && (st.write.Some? ==>
            && st.scheduled && mounted
            && var last := st.requests[|st.requests| - 1];
               fetch(last.owner, last.repo).Some?
               && st.write.value == (CacheKey(last.owner, last.repo),
                                     EntryOf(fetch(last.owner, last.repo).value, now))
               && fetch(last.owner, last.repo).value == Stats(st.kit.stars, st.kit.forks))
  {
  }

  /** The same for a whole iteration. */
  lemma ProcessKitShape(k: Kit, cache: Cache, now: int, fetch: Fetcher, mounted: bool)
    ensures var st := ProcessKit(k, cache, now, fetch, mounted);
      && SameExceptStats(k, st.kit)
      && (st.scheduled <==> NeedsFetch(k, cache, now))
      && (!st.scheduled <==> st.requests == [])
      && (st.write.Some? ==> st.write.value.1 == CacheEntry(st.kit.stars, st.kit.forks, now))
  {
    if k.repoUrl != [] {
      StepShape(k, RepoInfoOf(k.repoUrl), cache, now, fetch, mounted);
    }
  }

  /** Handling a kit a second time with the same snapshot and responses gives the same
      step: the step depends on the kit only through its URL, which is never changed. */
  lemma StepIdempotent(k: Kit, info: Option<RepoInfo>, cache: Cache, now: int, fetch: Fetcher, mounted: bool)
    ensures var st := KitStep(k, info, cache, now, fetch, mounted);
      KitStep(st.kit, info, cache, now, fetch, mounted) == st
  {
  }

  /** The same for a whole iteration. */
  lemma ProcessKitIdempotent(k: Kit, cache: Cache, now: int, fetch: Fetcher, mounted: bool)
    ensures var st := ProcessKit(k, cache, now, fetch, mounted);
      ProcessKit(st.kit, cache, now, fetch, mounted) == st
  {
    if k.repoUrl != [] {
      var info := RepoInfoOf(k.repoUrl);
      StepIdempotent(k, info, cache, now, fetch, mounted);
      StepShape(k, info, cache, now, fetch, mounted);
      var st := KitStep(k, info, cache, now, fetch, mounted);
      assert st.kit.repoUrl == k.repoUrl;
    }
  }

  /** The freshness test is strict: an entry is fresh for the `CacheDuration` milliseconds
      after `lastFetched` and stale from then on. */
  lemma FreshnessBoundary(cache: Cache, key: string, now: int)
    requires key in cache
    ensures IsFresh(cache, key, now) <==> now < cache[key].lastFetched + CacheDuration
    ensures IsFresh(cache, key, cache[key].lastFetched + CacheDuration - 1)
    ensures !IsFresh(cache, key, cache[key].lastFetched + CacheDuration)
  {
  }

  // ----- the whole pass -----

  /** Kit `i` of the result is kit `i` of the input after its own step: order is kept and
      each slot depends on nothing but its own kit, so one kit's failure cannot touch
      another's counts. */
  lemma {:induction false} PassPerKit(kits: seq<Kit>, cache: Cache, now: int, fetch: Fetcher, mounted: bool)
    ensures var r := Pass(kits, cache, now, fetch, mounted);
      forall i :: 0 <= i < |kits| ==> r.kits[i] == ProcessKit(kits[i], cache, now, fetch, mounted).kit
    decreases |kits|
  {
    if kits != [] {
      var n := |kits| - 1;
      PassPerKit(kits[..n], cache, now, fetch, mounted);
      var r := Pass(kits, cache, now, fetch, mounted);
      forall i | 0 <= i < |kits|
        ensures r.kits[i] == ProcessKit(kits[i], cache, now, fetch, mounted).kit
      {
        if i < n {
          assert kits[..n][i] == kits[i];
        }
      }
    }
  }

  /** Ids, names, URLs and every other field but the counters are what they were, slot by
      slot. */
  lemma PassKeepsIdentity(kits: seq<Kit>, cache: Cache, now: int, fetch: Fetcher, mounted: bool)
    ensures var r := Pass(kits, cache, now, fetch, mounted);
      |r.kits| == |kits| && forall i :: 0 <= i < |kits| ==> SameExceptStats(kits[i], r.kits[i])
  {
    PassPerKit(kits, cache, now, fetch, mounted);
    forall i | 0 <= i < |kits|
      ensures SameExceptStats(kits[i], Pass(kits, cache, now, fetch, mounted).kits[i])
    {
      ProcessKitShape(kits[i], cache, now, fetch, mounted);
    }
  }

  /** One delay per scheduled fetch, the `j`-th being `100 * j` milliseconds. */
  lemma {:induction false} PassDelays(kits: seq<Kit>, cache: Cache, now: int, fetch: Fetcher, mounted: bool)
    ensures var r := Pass(kits, cache, now, fetch, mounted);
      && |r.delays| == ScheduledCount(kits, cache, now)
      && forall j :: 0 <= j < |r.delays| ==> r.delays[j] == j * PacingStep
    decreases |kits|
  {
    if kits != [] {
      PassDelays(kits[..|kits| - 1], cache, now, fetch, mounted);
      ProcessKitShape(kits[|kits| - 1], cache, now, fetch, mounted);
    }
  }

  /** `updatedCache` starts as a copy of the snapshot: its keys are the snapshot's plus
      the written ones, every key not written keeps its snapshot entry, and every written
      key carries the pass's `now`. The entry under a written key is the write of the last
      kit whose step writes that key, and holds the counts that kit was given. */
  lemma {:induction false} PassStaging(kits: seq<Kit>, cache: Cache, now: int, fetch: Fetcher, mounted: bool)
    ensures StagedFrom(Pass(kits, cache, now, fetch, mounted).staged, cache,
                       WrittenKeys(kits, cache, now, fetch, mounted), now)
    ensures forall key :: LastWriteOf(StepWrites(kits, cache, now, fetch, mounted), key) >= 0 ==>
      HoldsLastWrite(StepWrites(kits, cache, now, fetch, mounted), Pass(kits, cache, now, fetch, mounted).staged,
                     Pass(kits, cache, now, fetch, mounted).kits, key, now)
    decreases |kits|
  {
    if kits != [] {
      var n := |kits| - 1;
      PassStaging(kits[..n], cache, now, fetch, mounted);
      var st := ProcessKit(kits[n], cache, now, fetch, mounted);
      ProcessKitShape(kits[n], cache, now, fetch, mounted);
      var prev := Pass(kits[..n], cache, now, fetch, mounted);
      StageKeeps(prev.staged, cache, WrittenKeys(kits[..n], cache, now, fetch, mounted), now, st.write);
      var ws := StepWrites(kits[..n], cache, now, fetch, mounted);
      assert StepWrites(kits, cache, now, fetch, mounted) == ws + [st.write];
      assert Pass(kits, cache, now, fetch, mounted).staged == Stage(prev.staged, st.write);
      assert Pass(kits, cache, now, fetch, mounted).kits == prev.kits + [st.kit];
      forall key | LastWriteOf(ws + [st.write], key) >= 0
        ensures HoldsLastWrite(ws + [st.write], Stage(prev.staged, st.write), prev.kits + [st.kit], key, now)
      {
        HeldStep(ws, prev.staged, prev.kits, st.write, st.kit, key, now);
      }
    }
  }

  /** The entry under `key` is the last write in `ws` under that key, made by the kit at
      the same index, and holds that kit's counts stamped `now`. */
  ghost predicate HoldsLastWrite(ws: seq<Option<(string, CacheEntry)>>, staged: Cache, kits: seq<Kit>,
                                 key: string, now: int) {
    var j := LastWriteOf(ws, key);
    && 0 <= j < |kits|
    && key in staged
    && ws[j] == Some((key, staged[key]))
    && staged[key] == CacheEntry(kits[j].stars, kits[j].forks, now)
  }

  /** Staging one more step's write, which holds that step's counts, keeps `HoldsLastWrite`. */
  lemma HeldStep(ws: seq<Option<(string, CacheEntry)>>, staged: Cache, kits: seq<Kit>,
                 w: Option<(string, CacheEntry)>, k: Kit, key: string, now: int)
    requires |ws| == |kits|
    requires LastWriteOf(ws, key) >= 0 ==> HoldsLastWrite(ws, staged, kits, key, now)
    requires w.Some? ==> w.value.1 == CacheEntry(k.stars, k.forks, now)
    ensures LastWriteOf(ws + [w], key) >= 0 ==> HoldsLastWrite(ws + [w], Stage(staged, w), kits + [k], key, now)
  {
    assert (ws + [w])[..|ws|] == ws;
    if !(w.Some? && w.value.0 == key) && LastWriteOf(ws, key) >= 0 {
      var j := LastWriteOf(ws, key);
      assert (ws + [w])[j] == ws[j] && (kits + [k])[j] == kits[j];
    }
  }

  /** The keys of `staged` are the snapshot's plus `written`; keys not written keep their
      snapshot entry; written keys carry time `now`. */
  ghost predicate StagedFrom(staged: Cache, cache: Cache, written: set<string>, now: int) {
    && staged.Keys == cache.Keys + written
    && (forall key :: key in cache && key !in written ==> staged[key] == cache[key])
    && (forall key :: key in written ==> staged[key].lastFetched == now)
  }

  /** One more staged write stamped `now` keeps `StagedFrom`. */
  lemma StageKeeps(staged: Cache, cache: Cache, written: set<string>, now: int, w: Option<(string, CacheEntry)>)
    requires StagedFrom(staged, cache, written, now)
    requires w.Some? ==> w.value.1.lastFetched == now
    ensures StagedFrom(Stage(staged, w), cache, written + (if w.Some? then {w.value.0} else {}), now)
  {
  }

  /** A pass makes no request at all exactly when it schedules no fetch. */
  lemma {:induction false} PassRequestsEmptyIff(kits: seq<Kit>, cache: Cache, now: int, fetch: Fetcher, mounted: bool)
    ensures Pass(kits, cache, now, fetch, mounted).requests == []
      <==> ScheduledCount(kits, cache, now) == 0
    decreases |kits|
  {
    if kits != [] {
      var n := |kits| - 1;
      PassRequestsEmptyIff(kits[..n], cache, now, fetch, mounted);
      ProcessKitShape(kits[n], cache, now, fetch, mounted);
    }
  }

  /** No element is counted exactly when none satisfies `p`. */
  lemma {:induction false} CountWhereZeroIff<T>(xs: seq<T>, p: T -> bool)
    ensures CountWhere(xs, p) == 0 <==> forall i :: 0 <= i < |xs| ==> !p(xs[i])
    decreases |xs|
  {
    if xs != [] {
      var n := |xs| - 1;
      CountWhereZeroIff(xs[..n], p);
      assert forall i :: 0 <= i < n ==> xs[..n][i] == xs[i];
    }
  }

  /** No fetch is scheduled exactly when no kit needs one. */
  lemma ScheduledCountZeroIff(kits: seq<Kit>, cache: Cache, now: int)
    ensures ScheduledCount(kits, cache, now) == 0 <==> forall i :: 0 <= i < |kits| ==> !NeedsFetch(kits[i], cache, now)
  {
    CountWhereZeroIff(kits, k => NeedsFetch(k, cache, now));
  }

  /** With a warm snapshot, where every kit is skipped or has a fresh entry, a pass issues
      no request, schedules no delay and stages exactly the snapshot. */
  lemma {:induction false} WarmSnapshotPass(kits: seq<Kit>, cache: Cache, now: int, fetch: Fetcher, mounted: bool)
    requires forall i :: 0 <= i < |kits| ==> !NeedsFetch(kits[i], cache, now)
    ensures var r := Pass(kits, cache, now, fetch, mounted);
      r.requests == [] && r.delays == [] && r.staged == cache
    decreases |kits|
  {
    if kits != [] {
      var n := |kits| - 1;
      assert forall i :: 0 <= i < n ==> kits[..n][i] == kits[i];
      WarmSnapshotPass(kits[..n], cache, now, fetch, mounted);
      var prev := Pass(kits[..n], cache, now, fetch, mounted);
      var st := ProcessKit(kits[n], cache, now, fetch, mounted);
      assert !NeedsFetch(kits[n], cache, now);
      QuietStep(kits[n], cache, now, fetch, mounted);
      assert Pass(kits, cache, now, fetch, mounted)
        == PassResult(prev.kits + [st.kit], Stage(prev.staged, st.write), prev.delays, prev.requests + st.requests);
    }
  }

  /** An iteration for a kit that needs no fetch schedules nothing, asks nothing and stages
      nothing. */
  lemma QuietStep(k: Kit, cache: Cache, now: int, fetch: Fetcher, mounted: bool)
    requires !NeedsFetch(k, cache, now)
    ensures var st := ProcessKit(k, cache, now, fetch, mounted);
      !st.scheduled && st.requests == [] && st.write.None?
  {
    ProcessKitShape(k, cache, now, fetch, mounted);
  }

  /** A second pass over the first pass's output, with the same snapshot, clock and
      responses, reproduces the first pass exactly: this is what every interval tick
      does, since the effect captured both `cache` and `now`. */
  lemma {:induction false} PassIdempotent(kits: seq<Kit>, cache: Cache, now: int, fetch: Fetcher, mounted: bool)
    ensures var r := Pass(kits, cache, now, fetch, mounted);
      Pass(r.kits, cache, now, fetch, mounted) == r
    decreases |kits|
  {
    if kits != [] {
      var n := |kits| - 1;
      var r := Pass(kits, cache, now, fetch, mounted);
      var prev := Pass(kits[..n], cache, now, fetch, mounted);
      PassIdempotent(kits[..n], cache, now, fetch, mounted);
      ProcessKitIdempotent(kits[n], cache, now, fetch, mounted);
      assert r.kits[..n] == prev.kits;
    }
  }

  /** A pass over a single kit is that kit's step, with delay 0 if a fetch is scheduled. */
  lemma PassOfOne(k: Kit, cache: Cache, now: int, fetch: Fetcher, mounted: bool)
    ensures var st := ProcessKit(k, cache, now, fetch, mounted);
      Pass([k], cache, now, fetch, mounted)
        == PassResult([st.kit], Stage(cache, st.write), if st.scheduled then [0] else [], st.requests)
  {
    assert [k][..0] == [];
  }

  /** One kit `vercel/next.js` at 1/1, an empty snapshot, and a response of 120000 stars
      and 25000 forks: the kit is published with those counts and the cache gains
      `vercel/next.js` stamped with the pass time. */
  lemma NextJsScenario(k: Kit, owner: string, repo: string, now: int, fetch: Fetcher)
    requires owner == "vercel" && repo == "next.js"
    requires k.repoUrl == "https://" + Host + owner + "/" + repo && k.stars == 1 && k.forks == 1
    requires fetch(owner, repo) == Some(Stats(120000, 25000))
    ensures Pass([k], map[], now, fetch, true)
      == PassResult([k.(stars := 120000, forks := 25000)],
                    map[CacheKey(owner, repo) := CacheEntry(120000, 25000, now)], [0],
                    [Request(owner, repo)])
  {
    ResolvesHttpsUrl(owner, repo, []);
    assert k.repoUrl == "https://" + Host + owner + "/" + repo + [];
    assert StripGitSuffix(repo) == repo;
    assert ProcessKit(k, map[], now, fetch, true) == KitStep(k, Some(RepoInfo(owner, repo)), map[], now, fetch, true);
    StepOfPrimarySuccess(k, owner, repo, map[], now, fetch);
    PassOfOne(k, map[], now, fetch, true);
  }

  /** A `vuejs/core` kit whose own repository is not found, with an empty snapshot and a
      `vuejs/vue` response of 207000 / 33500: the kit carries the fallback's counts and
      the only key written is `vuejs/vue`. */
  lemma VueFallbackScenario(k: Kit, owner: string, repo: string, now: int, fetch: Fetcher)
    requires owner == "vuejs" && repo == "core"
    requires k.repoUrl == "https://" + Host + owner + "/" + repo
    requires fetch(owner, repo).None? && fetch(owner, "vue") == Some(Stats(207000, 33500))
    ensures Pass([k], map[], now, fetch, true)
      == PassResult([k.(stars := 207000, forks := 33500)],
                    map[CacheKey(owner, "vue") := CacheEntry(207000, 33500, now)], [0],
                    [Request(owner, repo), Request(owner, "vue")])
  {
    ResolvesHttpsUrl(owner, repo, []);
    assert k.repoUrl == "https://" + Host + owner + "/" + repo + [];
    assert StripGitSuffix(repo) == repo;
    assert owner in FallbackRepos && FallbackRepos[owner] == "vue";
    assert ProcessKit(k, map[], now, fetch, true) == KitStep(k, Some(RepoInfo(owner, repo)), map[], now, fetch, true);
    StepOfFallback(k, owner, repo, map[], now, fetch, true);
    PassOfOne(k, map[], now, fetch, true);
  }

  // ----- interval ticks and the captured clock -----

  /** As written, a tick judges freshness at the `now` the effect captured: an entry fresh
      at mount stays fresh for every tick, however late, so its kit is never fetched again
      while the component stays mounted. (The tick's real time is not even an input.) */
  lemma CapturedClockNeverExpires(k: Kit, info: RepoInfo, cache: Cache, now: int, fetch: Fetcher, mounted: bool)
    requires k.repoUrl != [] && RepoInfoOf(k.repoUrl) == Some(info)
    requires IsFresh(cache, CacheKey(info.owner, info.repo), now)
    ensures var r := Pass([k], cache, now, fetch, mounted);
      && r.requests == [] && r.delays == [] && r.staged == cache
      && r.kits == [WithStats(k, StatsOf(cache[CacheKey(info.owner, info.repo)]))]
  {
    assert ProcessKit(k, cache, now, fetch, mounted) == KitStep(k, Some(info), cache, now, fetch, mounted);
    PassOfOne(k, cache, now, fetch, mounted);
  }

  /** With the clock read at the tick, an entry at least `CacheDuration` old is refetched:
      the tick schedules the kit's fetch at delay 0 and asks for its repository first. */
  lemma TickClockRefetchesExpired(k: Kit, info: RepoInfo, cache: Cache, clock: int, fetch: Fetcher, mounted: bool)
    requires k.repoUrl != [] && RepoInfoOf(k.repoUrl) == Some(info)
    requires CacheKey(info.owner, info.repo) in cache
    requires clock >= cache[CacheKey(info.owner, info.repo)].lastFetched + CacheDuration
    ensures var r := Pass([k], cache, clock, fetch, mounted);
      && r.delays == [0] && r.requests != [] && r.requests[0] == Request(info.owner, info.repo)
  {
    assert ProcessKit(k, cache, clock, fetch, mounted) == KitStep(k, Some(info), cache, clock, fetch, mounted);
    StepOfStaleEntry(k, info.owner, info.repo, cache, clock, fetch, mounted);
    PassOfOne(k, cache, clock, fetch, mounted);
  }

  // ----- the hook's state across mount, passes and unmount -----

  /** The state `useGitHubStats` keeps for one set of `initialKits`: the published `kits`
      and `loading`, the browser's stored cache, the effect's `isMounted` flag, and the
      `cache` and `now` the effect captured when it ran. `initialKits` is reassigned by each
      pass because the loop mutates the very kit objects the caller's array holds. */
  class StatsHook {
    var initialKits: seq<Kit>
    var kits: seq<Kit>
    var loading: bool
    var storage: Cache
    var isMounted: bool
    var cache: Cache
    var now: int

    /** `useState(initialKits)` and `useState(true)` before the effect has run. */
    constructor (initial: seq<Kit>, stored: Cache)
      ensures initialKits == initial && kits == initial && loading
      ensures storage == stored && !isMounted
    {
      initialKits, kits, loading := initial, initial, true;
      storage, isMounted := stored, false;
      cache, now := map[], 0;
    }

    /** The effect body: `isMounted = true`, `loadCache()` (an empty map when storage cannot
        be read), `Date.now()` read once as `clock`, and the first `updateKits()`. */
    method Mount(clock: int, readable: bool, fetch: Fetcher, settledMounted: bool, saveOk: bool)
      returns (delays: seq<int>)
      requires !isMounted
      modifies this
      ensures cache == (if readable then old(storage) else map[]) && now == clock
      ensures var p := Pass(old(initialKits), cache, clock, fetch, settledMounted);
        && initialKits == p.kits && delays == p.delays
        && (settledMounted ==> isMounted && kits == p.kits && !loading
                               && storage == (if saveOk then p.staged else old(storage)))
        && (!settledMounted ==> !isMounted && loading && kits == old(kits) && storage == old(storage))
    {
      isMounted := true;
      cache := if readable then storage else map[];
      now := clock;
      delays := UpdateKits(fetch, settledMounted, saveOk);
    }

    /** One `updateKits()` call, from the effect or from an interval tick. `settledMounted`
        is whether the component is still mounted when the responses arrive and
        `Promise.all` settles; when it is not, nothing is published and nothing saved,
        though the kit objects have been changed in place all the same. `saveOk` is whether
        `localStorage.setItem` succeeded. */
    method UpdateKits(fetch: Fetcher, settledMounted: bool, saveOk: bool) returns (delays: seq<int>)
      requires isMounted
      modifies this
      ensures cache == old(cache) && now == old(now)
      ensures var p := Pass(old(initialKits), cache, now, fetch, settledMounted);
        && initialKits == p.kits && delays == p.delays
        && (settledMounted ==> isMounted && kits == p.kits && !loading
                               && storage == (if saveOk then p.staged else old(storage)))
        && (!settledMounted ==> !isMounted && loading && kits == old(kits) && storage == old(storage))
    {
      loading := true;
      var p := RunPass(initialKits, cache, now, fetch, settledMounted);
      initialKits := p.kits;
      delays := p.delays;
      if !settledMounted {
        isMounted := false;
        return;
      }
      kits := p.kits;
      loading := false;
      if saveOk {
        storage := p.staged;
      }
    }

    /** The cleanup: `isMounted = false` and `clearInterval`. */
    method Unmount()
      modifies this
      ensures !isMounted
      ensures initialKits == old(initialKits) && kits == old(kits) && loading == old(loading)
      ensures storage == old(storage) && cache == old(cache) && now == old(now)
    {
      isMounted := false;
    }

    /** An interval tick as it would be with `Date.now()` read inside `updateKits`, so
        that freshness is judged at the time of the tick. */
    method UpdateKitsAt(clock: int, fetch: Fetcher, settledMounted: bool, saveOk: bool)
      returns (delays: seq<int>)
      requires isMounted
      modifies this
      ensures cache == old(cache) && now == clock
      ensures var p := Pass(old(initialKits), cache, clock, fetch, settledMounted);
        && initialKits == p.kits && delays == p.delays
        && (settledMounted ==> isMounted && kits == p.kits && !loading
                               && storage == (if saveOk then p.staged else old(storage)))
        && (!settledMounted ==> !isMounted && loading && kits == old(kits) && storage == old(storage))
    {
      now := clock;
      delays := UpdateKits(fetch, settledMounted, saveOk);
    }
  }
}
