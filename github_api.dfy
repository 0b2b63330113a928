/**
 * The server-side counterpart of the hook, `lib/github-api.ts`: a module-level cache of
 * repository counts with a 24-hour lifetime, `getRepoStats` for one URL, and
 * `updateKitsWithGitHubStats` for a whole list.
 *
 * `getRepoStats` is split where the JavaScript suspends: `Start` is what runs before the
 * `await fetchRepoData(...)` (the URL match, the cache read, the clock read and the
 * freshness test) and `Finish` is what runs after it (the stale fallback and the cache
 * write). `updateKitsWithGitHubStats` starts every call inside its `map` before any of
 * them resumes, so every kit of a batch is decided against the cache as it was when the
 * batch began.
 */
module GitHubApi {
  import opened Wrappers
  import opened KitModel
  import opened RepoUrl
  import GitHubStatsHook

  /** `CACHE_DURATION`: 24 hours in milliseconds. */
  const CacheDuration: int := 24 * 60 * 60 * 1000

  /** The key `${owner}/${repo}` built from the raw capture groups. */
  function StatsKey(g: Groups): string {
    g.owner + "/" + g.raw
  }

  /** Where a call stands when it reaches its `await`: already answered, or waiting for
      the response for `owner/repo`, holding the key, the entry it read (if any) and the
      clock it read. */
  datatype Pending =
    | Done(stats: Stats)
    | Awaiting(key: string, owner: string, repo: string, cached: Option<CacheEntry>, now: int)

  /** `getRepoStats` up to the fetch: no match gives 0/0, a fresh entry gives its counts. */
  function Start(url: string, cache: Cache, now: int): (r: Pending)
    ensures FirstMatch(Standard, url, 0).None? ==> r == Done(Stats(0, 0))
    ensures r.Awaiting? ==>
      && r.now == now
      && (r.key in cache ==> r.cached == Some(cache[r.key]) && now - cache[r.key].lastFetched >= CacheDuration)
      && (r.key !in cache ==> r.cached.None?)
  {
    match FirstMatch(Standard, url, 0)
    case None => Done(Stats(0, 0))
    case Some(g) =>
      var key := StatsKey(g);
      if key in cache && now - cache[key].lastFetched < CacheDuration then Done(StatsOf(cache[key]))
      else Awaiting(key, g.owner, g.raw, if key in cache then Some(cache[key]) else None, now)
  }

  /** What a call returns, and the entry it writes into the cache, if any. */
  datatype Outcome = Outcome(stats: Stats, write: Option<(string, CacheEntry)>)

  /** `getRepoStats` after the fetch: on failure the entry read before (even expired) or
      0/0; on success the response's counts, written under the key stamped with the clock
      read before the fetch. */
  function Finish(p: Pending, fetch: Fetcher): (r: Outcome)
    ensures p.Done? ==> r == Outcome(p.stats, None)
    ensures r.write.Some? ==> p.Awaiting? && r.write.value == (p.key, EntryOf(r.stats, p.now))
  {
    match p
    case Done(s) => Outcome(s, None)
    case Awaiting(key, owner, repo, cached, now) =>
      match fetch(owner, repo)
      case None => Outcome(if cached.Some? then StatsOf(cached.value) else Stats(0, 0), None)
      case Some(d) => Outcome(d, Some((key, EntryOf(d, now))))
  }

  /** One whole `getRepoStats` call. */
  function RepoStats(url: string, cache: Cache, now: int, fetch: Fetcher): (r: Outcome)
    ensures FirstMatch(Standard, url, 0).None? ==> r == Outcome(Stats(0, 0), None)
    ensures r.write.Some? ==> r.write.value.1 == EntryOf(r.stats, now)
  {
    Finish(Start(url, cache, now), fetch)
  }

  /** A call asks GitHub exactly when it reaches the fetch. */
  predicate Requests(url: string, cache: Cache, now: int) {
    Start(url, cache, now).Awaiting?
  }

  /** The map callback's start for one kit: `None` for the `!kit.repoUrl` early return. */
  function KitStart(k: Kit, cache: Cache, now: int): (r: Option<Pending>)
    ensures r.None? <==> k.repoUrl == []
    ensures r.Some? && r.value.Awaiting? ==>
      && FirstMatch(Standard, k.repoUrl, 0).Some?
      && r.value.key == StatsKey(FirstMatch(Standard, k.repoUrl, 0).value)
      && r.value.now == now
  {
    if k.repoUrl == [] then None else Some(Start(k.repoUrl, cache, now))
  }

  /** The kit and the write once its call has resumed. */
  function KitFinish(k: Kit, p: Option<Pending>, fetch: Fetcher): (r: (Kit, Option<(string, CacheEntry)>))
    ensures SameExceptStats(k, r.0)
    ensures p.None? ==> r == (k, None)
    ensures r.1.Some? ==>
      && p.Some? && p.value.Awaiting?
      && r.1.value == (p.value.key, CacheEntry(r.0.stars, r.0.forks, p.value.now))
  {
    match p
    case None => (k, None)
    case Some(p) =>
      var o := Finish(p, fetch);
      (WithStats(k, o.stats), o.write)
  }

  /** Kit `k`'s call refreshes its entry: the URL matches, no fresh entry was read under
      its key, and the request succeeds. */
  predicate Refreshes(k: Kit, snapshot: Cache, now: int, fetch: Fetcher) {
    && k.repoUrl != []
    && FirstMatch(Standard, k.repoUrl, 0).Some?
    && var g := FirstMatch(Standard, k.repoUrl, 0).value;
      && !(StatsKey(g) in snapshot && now - snapshot[StatsKey(g)].lastFetched < CacheDuration)
      && fetch(g.owner, g.raw).Some?
  }

  /** The keys whose entries a batch refreshes. */
  function RefreshedKeys(kits: seq<Kit>, snapshot: Cache, now: int, fetch: Fetcher): set<string> {
    set i | 0 <= i < |kits| && Refreshes(kits[i], snapshot, now, fetch) :: StatsKey(FirstMatch(Standard, kits[i].repoUrl, 0).value)
  }

  /** The cache write of one kit's call in a batch. */
  function KitWrite(k: Kit, snapshot: Cache, now: int, fetch: Fetcher): (w: Option<(string, CacheEntry)>)
    ensures w.Some? <==> Refreshes(k, snapshot, now, fetch)
    ensures w.Some? ==>
      && w.value.0 == StatsKey(FirstMatch(Standard, k.repoUrl, 0).value)
      && Refreshed(map[w.value.0 := w.value.1], FirstMatch(Standard, k.repoUrl, 0).value, now, fetch)
  {
    KitFinish(k, KitStart(k, snapshot, now), fetch).1
  }

  /** The cache holds, under the key of `g`, the response for `g`'s repository stamped with
      `now`. */
  ghost predicate Refreshed(c: Cache, g: Groups, now: int, fetch: Fetcher) {
    && StatsKey(g) in c
    && fetch(g.owner, g.raw).Some?
    && c[StatsKey(g)] == EntryOf(fetch(g.owner, g.raw).value, now)
  }

  /** The result of a batch: the kits and the cache once every call has finished. */
  datatype BatchResult = BatchResult(kits: seq<Kit>, cache: Cache)

  /** `updateKitsWithGitHubStats` over `kits`, every start reading `snapshot`, the writes
      applied in list order. */
  function Batch(kits: seq<Kit>, snapshot: Cache, now: int, fetch: Fetcher): (r: BatchResult)
    ensures |r.kits| == |kits|
    decreases |kits|
  {
    if kits == [] then BatchResult([], snapshot)
    else
      var prev := Batch(kits[..|kits| - 1], snapshot, now, fetch);
      var k := kits[|kits| - 1];
      var kw := KitFinish(k, KitStart(k, snapshot, now), fetch);
      BatchResult(prev.kits + [kw.0], Stage(prev.cache, kw.1))
  }

  /** The module-level `repoDataCache`. */
  class StatsCache {
    var repoDataCache: Cache

    /** `const repoDataCache = {}`. */
    constructor ()
      ensures repoDataCache == map[]
    {
      repoDataCache := map[];
    }

    /** The part of `getRepoStats` before its `await`, with `Date.now()` as `now`. */
    method Begin(repoUrl: string, now: int) returns (p: Pending)
      ensures p == Start(repoUrl, repoDataCache, now)
    {
      var urlMatch := FirstMatch(Standard, repoUrl, 0);
      if urlMatch.None? {
        return Done(Stats(0, 0));
      }
      var owner, repo := urlMatch.value.owner, urlMatch.value.raw;
      var cacheKey := owner + "/" + repo;
      var cachedData := if cacheKey in repoDataCache then Some(repoDataCache[cacheKey]) else None;
      if cachedData.Some? && now - cachedData.value.lastFetched < CacheDuration {
        return Done(StatsOf(cachedData.value));
      }
      p := Awaiting(cacheKey, owner, repo, cachedData, now);
    }

    /** The part of `getRepoStats` after its `await`. */
    method Resume(p: Pending, fetch: Fetcher) returns (stats: Stats)
      modifies this
      ensures var o := Finish(p, fetch);
        stats == o.stats && repoDataCache == Stage(old(repoDataCache), o.write)
    {
      if p.Done? {
        return p.stats;
      }
      var repoData := fetch(p.owner, p.repo);
      if repoData.None? {
        if p.cached.Some? {
          return StatsOf(p.cached.value);
        }
        return Stats(0, 0);
      }
      repoDataCache := repoDataCache[p.key := EntryOf(repoData.value, p.now)];
      stats := repoData.value;
    }

    /** One awaited `getRepoStats(repoUrl)` call. */
    method GetRepoStats(repoUrl: string, now: int, fetch: Fetcher) returns (stats: Stats)
      modifies this
      ensures var o := RepoStats(repoUrl, old(repoDataCache), now, fetch);
        stats == o.stats && repoDataCache == Stage(old(repoDataCache), o.write)
    {
      var p := Begin(repoUrl, now);
      stats := Resume(p, fetch);
    }

    /** The synchronous part of the `map`: one started call per kit with a URL, all reading
        the cache before any call resumes. */
    method StartAll(kits: seq<Kit>, now: int) returns (started: seq<Option<Pending>>)
      ensures |started| == |kits|
      ensures forall j :: 0 <= j < |kits| ==> started[j] == KitStart(kits[j], repoDataCache, now)
    {
      started := [];
      var i := 0;
      while i < |kits|
        invariant 0 <= i <= |kits| && |started| == i
        invariant forall j :: 0 <= j < i ==> started[j] == KitStart(kits[j], repoDataCache, now)
      {
        var p: Option<Pending> := None;
        if kits[i].repoUrl != [] {
          var q := Begin(kits[i].repoUrl, now);
          p := Some(q);
        }
        started := started + [p];
        i := i + 1;
      }
    }

    /** `updateKitsWithGitHubStats`: the `map` starts one call per kit with a URL, then
        `Promise.all` lets each resume, here in list order, and sets that kit's counts. */
    method UpdateKitsWithGitHubStats(kits: seq<Kit>, now: int, fetch: Fetcher) returns (updatedKits: seq<Kit>)
      modifies this
      ensures var b := Batch(kits, old(repoDataCache), now, fetch);
        updatedKits == b.kits && repoDataCache == b.cache
    {
      ghost var snapshot := repoDataCache;
      var started := StartAll(kits, now);
      var i := 0;
      updatedKits := kits;
      while i < |kits|
        invariant 0 <= i <= |kits| == |updatedKits|
        invariant BatchResult(updatedKits[..i], repoDataCache) == Batch(kits[..i], snapshot, now, fetch)
        invariant updatedKits[i..] == kits[i..]
      {
        BatchStep(kits, i, snapshot, now, fetch);
        var kit := updatedKits[i];
        assert kit == kits[i];
        if started[i].Some? {
          var stats := Resume(started[i].value, fetch);
          kit := WithStats(kit, stats);
        }
        GitHubStatsHook.KitsStep(updatedKits, i, kit);
        updatedKits := updatedKits[i := kit];
        i := i + 1;
      }
      assert kits[..i] == kits;
      assert updatedKits[..i] == updatedKits;
    }
  }

  /** The batch over one more kit extends the batch over the prefix. */
  lemma BatchStep(kits: seq<Kit>, i: nat, snapshot: Cache, now: int, fetch: Fetcher)
    requires i < |kits|
    ensures var prev := Batch(kits[..i], snapshot, now, fetch);
      var kw := KitFinish(kits[i], KitStart(kits[i], snapshot, now), fetch);
      Batch(kits[..i + 1], snapshot, now, fetch) == BatchResult(prev.kits + [kw.0], Stage(prev.cache, kw.1))
  {
    assert kits[..i + 1][..i] == kits[..i];
  }

  // ----- one call -----

  /** A URL without `github.com/<owner>/<repo>` gives 0/0, makes no request and writes
      nothing. */
  lemma BadUrlGivesZero(url: string, cache: Cache, now: int, fetch: Fetcher)
    requires !HasRepoShape(url)
    ensures RepoStats(url, cache, now, fetch) == Outcome(Stats(0, 0), None)
    ensures !Requests(url, cache, now)
  {
    RepoInfoNoneIff(url);
  }

  /** An entry younger than 24 hours (strictly) is returned as is, with no request. */
  lemma FreshEntryReturned(url: string, g: Groups, cache: Cache, now: int, fetch: Fetcher)
    requires FirstMatch(Standard, url, 0) == Some(g)
    requires StatsKey(g) in cache && now - cache[StatsKey(g)].lastFetched < CacheDuration
    ensures RepoStats(url, cache, now, fetch) == Outcome(StatsOf(cache[StatsKey(g)]), None)
    ensures !Requests(url, cache, now)
  {
  }

  /** Without a fresh entry the call asks GitHub for the raw `owner/repo` groups; a failed
      request returns the entry read before even if expired, or 0/0 when there was none,
      and leaves the cache alone. */
  lemma FailureFallsBackToStale(url: string, g: Groups, cache: Cache, now: int, fetch: Fetcher)
    requires FirstMatch(Standard, url, 0) == Some(g)
    requires !(StatsKey(g) in cache && now - cache[StatsKey(g)].lastFetched < CacheDuration)
    requires fetch(g.owner, g.raw).None?
    ensures Requests(url, cache, now)
    ensures RepoStats(url, cache, now, fetch)
      == Outcome(if StatsKey(g) in cache then StatsOf(cache[StatsKey(g)]) else Stats(0, 0), None)
  {
  }

  /** A successful request returns exactly the response's counts and writes them under the
      raw key, stamped with the call's clock. */
  lemma SuccessWritesEntry(url: string, g: Groups, cache: Cache, now: int, fetch: Fetcher)
    requires FirstMatch(Standard, url, 0) == Some(g)
    requires !(StatsKey(g) in cache && now - cache[StatsKey(g)].lastFetched < CacheDuration)
    requires fetch(g.owner, g.raw).Some?
    ensures var d := fetch(g.owner, g.raw).value;
      RepoStats(url, cache, now, fetch) == Outcome(d, Some((StatsKey(g), CacheEntry(d.stars, d.forks, now))))
  {
  }

  /** Whatever happens, the only key a call can write is the raw key of the URL's match,
      and what it writes is what it returns. */
  lemma WriteIsReturnedUnderRawKey(url: string, cache: Cache, now: int, fetch: Fetcher)
    ensures var o := RepoStats(url, cache, now, fetch);
      o.write.Some? ==>
        && FirstMatch(Standard, url, 0).Some?
        && o.write.value.0 == StatsKey(FirstMatch(Standard, url, 0).value)
        && StatsOf(o.write.value.1) == o.stats && o.write.value.1.lastFetched == now
  {
  }

  /** Asking again at the same instant, against the cache the first call left, gives the
      same counts without a request whenever the first call wrote, and the same outcome
      whenever it did not. */
  lemma RepeatGivesSameCounts(url: string, cache: Cache, now: int, fetch: Fetcher)
    ensures var o := RepoStats(url, cache, now, fetch);
      var o2 := RepoStats(url, Stage(cache, o.write), now, fetch);
      && o2.stats == o.stats
      && (o.write.Some? ==> !Requests(url, Stage(cache, o.write), now) && o2.write.None?)
      && (o.write.None? ==> o2 == o)
  {
  }

  /** The two implementations key one `.git` URL differently: the library keeps the raw
      segment, the hook strips one `.git`. */
  lemma KeysDisagreeOnDotGit(owner: string, raw: string, rest: string)
    requires owner != [] && raw != [] && SlashFree(owner) && SlashFree(raw)
    requires rest == [] || rest[0] == '/'
    requires |raw| >= 4 && raw[|raw| - 4..] == ".git"
    ensures var url := "https://" + Host + owner + "/" + raw + rest;
      && FirstMatch(Standard, url, 0) == Some(Groups(owner, raw))
      && RepoInfoOf(url) == Some(RepoInfo(owner, StripGitSuffix(raw)))
      && GitHubStatsHook.CacheKey(owner, StripGitSuffix(raw)) != StatsKey(Groups(owner, raw))
  {
    ResolvesHttpsUrl(owner, raw, rest);
    assert |StripGitSuffix(raw)| == |raw| - 4;
  }

  // ----- a whole batch -----

  /** Slot `i` of the result is kit `i` with its own call's counts, the call having read
      the cache as it was before the batch: an empty URL leaves the kit as it was, and
      any other kit gets exactly the counts `getRepoStats` would give on that cache. */
  lemma {:induction false} BatchPerKit(kits: seq<Kit>, snapshot: Cache, now: int, fetch: Fetcher)
    ensures var r := Batch(kits, snapshot, now, fetch);
      forall i :: 0 <= i < |kits| ==>
        r.kits[i] == (if kits[i].repoUrl == [] then kits[i]
                      else WithStats(kits[i], RepoStats(kits[i].repoUrl, snapshot, now, fetch).stats))
    decreases |kits|
  {
    if kits != [] {
      var n := |kits| - 1;
      BatchPerKit(kits[..n], snapshot, now, fetch);
      var r := Batch(kits, snapshot, now, fetch);
      forall i | 0 <= i < |kits|
        ensures r.kits[i] == (if kits[i].repoUrl == [] then kits[i]
                              else WithStats(kits[i], RepoStats(kits[i].repoUrl, snapshot, now, fetch).stats))
      {
        if i < n {
          assert kits[..n][i] == kits[i];
        }
      }
    }
  }

  /** Length and order are kept, and every field but the counters of every kit. */
  lemma BatchKeepsIdentity(kits: seq<Kit>, snapshot: Cache, now: int, fetch: Fetcher)
    ensures var r := Batch(kits, snapshot, now, fetch);
      |r.kits| == |kits| && forall i :: 0 <= i < |kits| ==> SameExceptStats(kits[i], r.kits[i])
  {
    BatchPerKit(kits, snapshot, now, fetch);
  }

  /** A kit whose non-empty URL has no `github.com/<owner>/<repo>` ends up with 0/0. */
  lemma BatchZeroesUnparsable(kits: seq<Kit>, snapshot: Cache, now: int, fetch: Fetcher, i: nat)
    requires i < |kits| && kits[i].repoUrl != [] && !HasRepoShape(kits[i].repoUrl)
    ensures Batch(kits, snapshot, now, fetch).kits[i] == kits[i].(stars := 0, forks := 0)
  {
    BatchPerKit(kits, snapshot, now, fetch);
    BadUrlGivesZero(kits[i].repoUrl, snapshot, now, fetch);
  }

  /** The key has a `/` right after the owner. */
  lemma SlashAfterOwner(g: Groups)
    ensures |StatsKey(g)| > |g.owner| && StatsKey(g)[|g.owner|] == '/'
  {
  }

  /** The key starts with the owner. */
  lemma OwnerCharAt(g: Groups, q: int)
    requires 0 <= q < |g.owner|
    ensures StatsKey(g)[q] == g.owner[q]
  {
  }

  /** Two matches with the same key are the same match: the owner group holds no `/`. */
  lemma StatsKeyInjective(g1: Groups, g2: Groups)
    requires SlashFree(g1.owner) && SlashFree(g2.owner)
    requires StatsKey(g1) == StatsKey(g2)
    ensures g1 == g2
  {
    var k1, k2 := StatsKey(g1), StatsKey(g2);
    if |g1.owner| < |g2.owner| {
      SlashAfterOwner(g1);
      OwnerCharAt(g2, |g1.owner|);
      assert false;
    } else if |g2.owner| < |g1.owner| {
      SlashAfterOwner(g2);
      OwnerCharAt(g1, |g2.owner|);
      assert false;
    } else {
      assert g1.owner == k1[..|g1.owner|] && g2.owner == k2[..|g2.owner|];
      assert g1.raw == k1[|g1.owner| + 1..] && g2.raw == k2[|g2.owner| + 1..];
    }
  }

  /** The keys one more kit refreshes are those of the prefix and its own, if it refreshes. */
  lemma RefreshedKeysStep(kits: seq<Kit>, snapshot: Cache, now: int, fetch: Fetcher)
    requires kits != []
    ensures var k := kits[|kits| - 1];
      RefreshedKeys(kits, snapshot, now, fetch)
        == RefreshedKeys(kits[..|kits| - 1], snapshot, now, fetch)
           + (if Refreshes(k, snapshot, now, fetch) then {StatsKey(FirstMatch(Standard, k.repoUrl, 0).value)} else {})
  {
    var n := |kits| - 1;
    assert forall i :: 0 <= i < n ==> kits[..n][i] == kits[i];
  }

  /** One more write keeps the snapshot's untouched entries and adds its key. */
  lemma StageOnto(c: Cache, snapshot: Cache, written: set<string>, w: Option<(string, CacheEntry)>)
    requires c.Keys == snapshot.Keys + written
    requires forall key :: key in snapshot && key !in written ==> c[key] == snapshot[key]
    ensures Stage(c, w).Keys == snapshot.Keys + written + (if w.Some? then {w.value.0} else {})
    ensures forall key :: key in snapshot && key !in written + (if w.Some? then {w.value.0} else {}) ==>
      Stage(c, w)[key] == snapshot[key]
  {
  }

  /** A refreshed entry stays refreshed under one more write of a refreshed entry: the two
      keys either differ or belong to the same match. */
  lemma RefreshedKept(c: Cache, g: Groups, h: Groups, w: Option<(string, CacheEntry)>, now: int, fetch: Fetcher)
    requires Refreshed(c, g, now, fetch) && SlashFree(g.owner)
    requires w.Some? ==> w.value.0 == StatsKey(h) && Refreshed(map[w.value.0 := w.value.1], h, now, fetch) && SlashFree(h.owner)
    ensures Refreshed(Stage(c, w), g, now, fetch)
  {
    if w.Some? && w.value.0 == StatsKey(g) {
      StatsKeyInjective(g, h);
    }
  }

  /** The cache after a batch holds the snapshot's keys and exactly the refreshed ones, and
      an entry not refreshed is unchanged. */
  lemma {:induction false} BatchCacheKeys(kits: seq<Kit>, snapshot: Cache, now: int, fetch: Fetcher)
    ensures Batch(kits, snapshot, now, fetch).cache.Keys == snapshot.Keys + RefreshedKeys(kits, snapshot, now, fetch)
    ensures forall key :: key in snapshot && key !in RefreshedKeys(kits, snapshot, now, fetch) ==>
      Batch(kits, snapshot, now, fetch).cache[key] == snapshot[key]
    decreases |kits|
  {
    if kits != [] {
      var n := |kits| - 1;
      BatchCacheKeys(kits[..n], snapshot, now, fetch);
      RefreshedKeysStep(kits, snapshot, now, fetch);
      var prev := Batch(kits[..n], snapshot, now, fetch);
      var w := KitWrite(kits[n], snapshot, now, fetch);
      assert Batch(kits, snapshot, now, fetch).cache == Stage(prev.cache, w);
      StageOnto(prev.cache, snapshot, RefreshedKeys(kits[..n], snapshot, now, fetch), w);
    }
  }

  /** Under the key of every kit whose call refreshes sits the response for that kit's
      repository stamped with the batch's clock, so kits sharing a key agree on what it
      holds. */
  lemma {:induction false} BatchCacheEntries(kits: seq<Kit>, snapshot: Cache, now: int, fetch: Fetcher)
    ensures forall i :: 0 <= i < |kits| && Refreshes(kits[i], snapshot, now, fetch) ==>
      Refreshed(Batch(kits, snapshot, now, fetch).cache, FirstMatch(Standard, kits[i].repoUrl, 0).value, now, fetch)
    decreases |kits|
  {
    if kits != [] {
      var n := |kits| - 1;
      BatchCacheEntries(kits[..n], snapshot, now, fetch);
      var k := kits[n];
      var prev := Batch(kits[..n], snapshot, now, fetch);
      var w := KitWrite(k, snapshot, now, fetch);
      assert Batch(kits, snapshot, now, fetch).cache == Stage(prev.cache, w);
      var h := Groups([], []);
      if w.Some? {
        var _, _, _ := LeftmostGroups(k.repoUrl);
        h := FirstMatch(Standard, k.repoUrl, 0).value;
      }
      forall i | 0 <= i < n && Refreshes(kits[i], snapshot, now, fetch)
        ensures Refreshed(Stage(prev.cache, w), FirstMatch(Standard, kits[i].repoUrl, 0).value, now, fetch)
      {
        assert kits[..n][i] == kits[i];
        var _, _, _ := LeftmostGroups(kits[i].repoUrl);
        RefreshedKept(prev.cache, FirstMatch(Standard, kits[i].repoUrl, 0).value, h, w, now, fetch);
      }
    }
  }
}
