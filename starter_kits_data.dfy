/**
 * `getStarterKits` of `lib/starter-kits-data.ts`: the whole enriched list is memoised in
 * `updatedKitsData` for 24 hours from `lastFetchTime`; when the memo is missing or old the
 * list is enriched again, and if that rejects the old memo (however old) or the seed list
 * is returned.
 *
 * The update mutates the seed's kit objects in place, so after a successful update the
 * seed itself carries the new counts; the model reassigns the seed to say so.
 */
module StarterKitsData {
  import opened Wrappers
  import opened KitModel
  import GitHubApi

  /** `CACHE_DURATION`: 24 hours in milliseconds. */
  const CacheDuration: int := 24 * 60 * 60 * 1000

  /** The module-level state: the seed list `starterKits`, `updatedKitsData` and
      `lastFetchTime`. */
  datatype Memo = Memo(seed: seq<Kit>, data: Option<seq<Kit>>, lastFetchTime: int)

  /** The state when the module is loaded: no memo and `lastFetchTime = 0`. */
  function Initial(seed: seq<Kit>): (m: Memo)
    ensures m.data.None? && m.lastFetchTime == 0 && m.seed == seed
  {
    Memo(seed, None, 0)
  }

  /** `updatedKitsData && (now - lastFetchTime) < CACHE_DURATION`. */
  predicate IsFresh(m: Memo, now: int) {
    m.data.Some? && now - m.lastFetchTime < CacheDuration
  }

  /** One call: the list returned and the state after it. `update` is what the
      enrichment of the seed resolves to, `None` when it rejects; it is only consulted
      when the memo is not fresh. */
  function Serve(m: Memo, now: int, update: Option<seq<Kit>>): (r: (Memo, seq<Kit>))
    ensures IsFresh(m, now) ==> r == (m, m.data.value)
    ensures r.0 == m || (update == Some(r.1) && r.0 == Memo(r.1, Some(r.1), now))
  {
    if IsFresh(m, now) then (m, m.data.value)
    else match update
      case Some(kits) => (Memo(kits, Some(kits), now), kits)
      case None => (m, if m.data.Some? then m.data.value else m.seed)
  }

  /** The module's variables, with the library cache the update goes through. */
  class KitsMemo {
    var starterKits: seq<Kit>
    var updatedKitsData: Option<seq<Kit>>
    var lastFetchTime: int

    constructor (seed: seq<Kit>)
      ensures Memo(starterKits, updatedKitsData, lastFetchTime) == Initial(seed)
    {
      starterKits, updatedKitsData, lastFetchTime := seed, None, 0;
    }

    function State(): Memo
      reads this
    {
      Memo(starterKits, updatedKitsData, lastFetchTime)
    }

    /** `getStarterKits()` at clock `now`. The enrichment is `api`'s
        `updateKitsWithGitHubStats`; `rejected` stands for its promise rejecting. */
    method GetStarterKits(now: int, api: GitHubApi.StatsCache, fetch: Fetcher, rejected: bool)
      returns (result: seq<Kit>)
      modifies this, api
      ensures var b := GitHubApi.Batch(old(starterKits), old(api.repoDataCache), now, fetch);
        var called := !IsFresh(old(State()), now) && !rejected;
        && (State(), result) == Serve(old(State()), now, if rejected then None else Some(b.kits))
        && api.repoDataCache == (if called then b.cache else old(api.repoDataCache))
    {
      if updatedKitsData.Some? && now - lastFetchTime < CacheDuration {
        return updatedKitsData.value;
      }
      if rejected {
        if updatedKitsData.Some? {
          return updatedKitsData.value;
        }
        return starterKits;
      }
      var updatedKits := api.UpdateKitsWithGitHubStats(starterKits, now, fetch);
      starterKits := updatedKits;
      updatedKitsData := Some(updatedKits);
      lastFetchTime := now;
      result := updatedKits;
    }
  }

  /** The first call always runs the update, whatever the clock says. */
  lemma FirstCallUpdates(seed: seq<Kit>, now: int, kits: seq<Kit>)
    ensures Serve(Initial(seed), now, Some(kits)) == (Memo(kits, Some(kits), now), kits)
  {
  }

  /** A fresh memo is returned as is and nothing changes; what the update would have
      given plays no part. */
  lemma FreshMemoServed(m: Memo, now: int, update: Option<seq<Kit>>)
    requires m.data.Some? && now - m.lastFetchTime < CacheDuration
    ensures Serve(m, now, update) == (m, m.data.value)
    ensures forall other :: Serve(m, now, other) == Serve(m, now, update)
  {
  }

  /** Without a fresh memo a successful update becomes the memo, stamped `now`, and is
      returned. */
  lemma UpdateBecomesMemo(m: Memo, now: int, kits: seq<Kit>)
    requires !IsFresh(m, now)
    ensures Serve(m, now, Some(kits)) == (Memo(kits, Some(kits), now), kits)
  {
  }

  /** A rejected update returns the memo even when it has expired, else the seed, and
      changes nothing. */
  lemma RejectionFallsBack(m: Memo, now: int)
    requires !IsFresh(m, now)
    ensures Serve(m, now, None) == (m, if m.data.Some? then m.data.value else m.seed)
  {
  }

  /** The memo and `lastFetchTime` change only through a successful update made because
      the memo was not fresh; the list returned is then the new memo. */
  lemma StateChangesOnlyOnSuccess(m: Memo, now: int, update: Option<seq<Kit>>)
    ensures var (m', r) := Serve(m, now, update);
      (m' != m ==> !IsFresh(m, now) && update.Some? && m'.data == Some(r) && m'.lastFetchTime == now)
      && (m'.data.Some? || m'.seed == m.seed)
  {
  }

  /** Whatever the state, what a call returns is the memo it leaves behind when there is
      one, and the seed only when no update has ever succeeded. */
  lemma ResultIsMemoOrSeed(m: Memo, now: int, update: Option<seq<Kit>>)
    requires m.data.None? ==> m.lastFetchTime == 0
    ensures var (m', r) := Serve(m, now, update);
      (m'.data.Some? ==> r == m'.data.value) && (m'.data.None? ==> r == m.seed && m' == m)
  {
  }

  /** A call within 24 hours of a successful update returns that update's list and runs
      nothing. */
  lemma ServedAgainWithinDay(m: Memo, now: int, later: int, kits: seq<Kit>, update: Option<seq<Kit>>)
    requires !IsFresh(m, now) && now <= later < now + CacheDuration
    ensures var (m1, _) := Serve(m, now, Some(kits));
      Serve(m1, later, update) == (m1, kits)
  {
  }
}
