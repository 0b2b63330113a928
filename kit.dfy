/** The catalog record every core file works on, and the star/fork counters attached to it. */
module KitModel {
  import opened Wrappers

  /** One catalog entry. `updatedAt` is the `Date` held as epoch milliseconds. */
  datatype Kit = Kit(
    id: int,
    name: string,
    description: string,
    category: string,
    tags: seq<string>,
    stars: int,
    forks: int,
    lastUpdated: string,
    updatedAt: int,
    author: string,
    repoUrl: string,
    demoUrl: Option<string>,
    featured: bool)

  /** What a successful repository lookup yields: `stargazers_count` and `forks_count`. */
  datatype Stats = Stats(stars: int, forks: int)

  /** The value stored under `"owner/repo"` in either stats cache. */
  datatype CacheEntry = CacheEntry(stars: int, forks: int, lastFetched: int)

  type Cache = map<string, CacheEntry>

  /** The oracle standing for one GitHub API call for `owner/repo`: `None` for a 404, any other
      non-success status and any thrown error alike. */
  type Fetcher = (string, string) -> Option<Stats>

  function StatsOf(e: CacheEntry): Stats {
    Stats(e.stars, e.forks)
  }

  /** The entry written after a successful fetch at time `now`. */
  function EntryOf(s: Stats, now: int): CacheEntry {
    CacheEntry(s.stars, s.forks, now)
  }

  /** `cache[key] = entry`, when there is a write. */
  function Stage(cache: Cache, w: Option<(string, CacheEntry)>): (r: Cache)
    ensures w.None? ==> r == cache
    ensures w.Some? ==> r.Keys == cache.Keys + {w.value.0} && r[w.value.0] == w.value.1
    ensures forall key :: key in cache && (w.None? || key != w.value.0) ==> r[key] == cache[key]
  {
    match w
    case None => cache
    case Some(kv) => cache[kv.0 := kv.1]
  }

  /** `kit.stars = ...; kit.forks = ...` on an otherwise untouched kit. */
  function WithStats(k: Kit, s: Stats): (r: Kit)
    ensures r.stars == s.stars && r.forks == s.forks
    ensures SameExceptStats(k, r)
  {
    k.(stars := s.stars, forks := s.forks)
  }

  /** Everything but the two counters agrees. */
  predicate SameExceptStats(a: Kit, b: Kit) {
    a.(stars := 0, forks := 0) == b.(stars := 0, forks := 0)
  }
}
