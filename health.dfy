/**
 The cache age reported by the health endpoint: whole seconds since the last
 fetched body was stored, or 0 when there has been none.
 */
module Health {
  import opened Json
  import opened Cache

  /** The age the health endpoint reports at time `now`. */
  function CacheAge(now: int, lastFetchTime: int): (age: int)
    ensures lastFetchTime == 0 ==> age == 0
    ensures lastFetchTime != 0 ==> lastFetchTime + age == now
  {
    if lastFetchTime == 0 then 0 else now - lastFetchTime
  }

  /** The age reported right after a call, at the same time `now`: it is
      below the cache duration after a hit, 0 after a fetch that stored a body, and
      the stale age, at least the cache duration, when a failed fetch fell
      back on the old document (unless that document was fetched at time 0,
      which reads as "never fetched"). */
  lemma AgeAfterStep(s: CacheState, now: int, upstream: Upstream)
    ensures var t := Step(s, now, upstream);
      && (IsFresh(s, now) ==> CacheAge(now, t.state.lastFetchTime) < CacheDuration)
      && (!IsFresh(s, now) && upstream.Fetched? ==> CacheAge(now, t.state.lastFetchTime) == 0)
      && (!IsFresh(s, now) && upstream.Failed? && IsTruthy(s.cachedData) && s.lastFetchTime != 0 ==>
            t.outcome == Served(s.cachedData) && CacheAge(now, t.state.lastFetchTime) >= CacheDuration)
  {
  }
}
