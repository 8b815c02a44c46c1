/**
 The refresh-or-serve cache in front of the upstream match document. The
 process owns one cache: the time the last fetched body was stored (0 before any),
 the cached document, and two diagnostic counters. Each call either serves a
 fresh cached document (a hit) or counts a miss and asks the upstream; a
 failed upstream request falls back to the stale document when there is one
 and is re-raised otherwise. A fetched body is stored before it is logged, and
 the log line reads a field of it, so a body that is not an object is stored
 and then makes the call fail.

 The upstream request itself is an input: `Upstream` is what the request to
 the match listing produced on this call.
 */
module Cache {
  import opened Json

  /** How long a cached document is served without asking the upstream, in
      seconds. */
  const CacheDuration: int := 600

  /** The request failure that the upstream request raised (connection
      error, timeout, error status, and a body that does not decode). */
  datatype FetchError = FetchError(reason: string)

  /** What the upstream request produced on one call. */
  datatype Upstream = Fetched(doc: Json) | Failed(err: FetchError)

  /** What one call hands back to its caller: a document, the upstream
      failure re-raised, or the attribute error raised when the success log
      line looks up `matches_count` in a fetched body that is not an object. */
  datatype Outcome = Served(doc: Json) | Raised(err: FetchError) | Crashed

  /** The cache as a value. Times are whole seconds. */
  datatype CacheState = CacheState(lastFetchTime: int, cachedData: Json, hits: nat, misses: nat)

  /** The cache at process start: never fetched, nothing cached, no calls. */
  const Initial: CacheState := CacheState(0, JNull, 0, 0)

  /** A call at time `now` is served from the cache. The cache at start-up
      is never fresh, so the first call is always a miss. */
  predicate IsFresh(s: CacheState, now: int)
    ensures IsFresh(s, now) ==> IsTruthy(s.cachedData) && now < s.lastFetchTime + CacheDuration
    ensures s.cachedData == JNull ==> !IsFresh(s, now)
  {
    IsTruthy(s.cachedData) && now - s.lastFetchTime < CacheDuration
  }

  datatype Transition = Transition(state: CacheState, outcome: Outcome)

  /** One call at time `now`, the upstream answering `upstream` if it is
      asked: the new cache and what the caller gets. */
  function Step(s: CacheState, now: int, upstream: Upstream): (t: Transition)
    // A fresh hit: only the hit counter moves, the cached document is served.
    ensures IsFresh(s, now) ==> t.state == s.(hits := s.hits + 1) && t.outcome == Served(s.cachedData)
    // Every other call is a miss.
    ensures !IsFresh(s, now) ==> t.state.misses == s.misses + 1 && t.state.hits == s.hits
    // A miss that fetched replaces document and timestamp, then serves the new
    // document if it is an object and fails otherwise, stale document or not.
    ensures !IsFresh(s, now) && upstream.Fetched? ==>
      t.state.cachedData == upstream.doc && t.state.lastFetchTime == now &&
      (upstream.doc.JObj? ==> t.outcome == Served(upstream.doc)) &&
      (!upstream.doc.JObj? ==> t.outcome == Crashed)
    // A miss that failed keeps document and timestamp; stale fallback or re-raise.
    ensures !IsFresh(s, now) && upstream.Failed? ==>
      t.state.cachedData == s.cachedData && t.state.lastFetchTime == s.lastFetchTime &&
      (IsTruthy(s.cachedData) ==> t.outcome == Served(s.cachedData)) &&
      (!IsTruthy(s.cachedData) ==> t.outcome == Raised(upstream.err))
    // Exactly one counter moves on every call.
    ensures t.state.hits + t.state.misses == s.hits + s.misses + 1
    // Whatever is served is what the cache holds afterwards.
    ensures t.outcome.Served? ==> t.outcome.doc == t.state.cachedData
    // A failure only reaches the caller when there is nothing to fall back on.
    ensures t.outcome.Raised? ==> upstream == Failed(t.outcome.err) && !IsTruthy(t.state.cachedData)
    // A crash only follows storing a fetched body that is not an object.
    ensures t.outcome == Crashed ==>
      !IsFresh(s, now) && upstream == Fetched(t.state.cachedData) && !t.state.cachedData.JObj?
    // The document and the timestamp are assigned only together, and only by a fetch.
    ensures t.state.cachedData != s.cachedData || t.state.lastFetchTime != s.lastFetchTime ==>
      upstream == Fetched(t.state.cachedData) && t.state.lastFetchTime == now
  {
    if IsFresh(s, now) then
      Transition(s.(hits := s.hits + 1), Served(s.cachedData))
    else
      var missed := s.(misses := s.misses + 1);
      match upstream
      case Fetched(doc) =>
        var stored := missed.(lastFetchTime := now, cachedData := doc);
        if doc.JObj? then Transition(stored, Served(doc)) else Transition(stored, Crashed)
      case Failed(err) =>
        if IsTruthy(s.cachedData) then Transition(missed, Served(s.cachedData))
        else Transition(missed, Raised(err))
  }

  /** A fresh hit does not ask the upstream: its answer makes no difference. */
  lemma FreshIgnoresUpstream(s: CacheState, now: int, u1: Upstream, u2: Upstream)
    requires IsFresh(s, now)
    ensures Step(s, now, u1) == Step(s, now, u2)
  {
  }

  /** One call of a process lifetime: its time and what the upstream would
      answer if asked. */
  datatype Call = Call(now: int, upstream: Upstream)

  /** The cache after the calls `calls`, in order, starting from `s`. */
  function Run(s: CacheState, calls: seq<Call>): (r: CacheState)
    ensures r.hits + r.misses == s.hits + s.misses + |calls|
    ensures s.hits <= r.hits && s.misses <= r.misses
    decreases |calls|
  {
    if calls == [] then s
    else Run(Step(s, calls[0].now, calls[0].upstream).state, calls[1..])
  }

  /** The cached document and its timestamp are either the ones the calls
      started with, or the document and time of one of the calls that missed
      and whose upstream request delivered that document. */
  lemma {:induction false} RunProvenance(s: CacheState, calls: seq<Call>)
    ensures var r := Run(s, calls);
      (r.cachedData == s.cachedData && r.lastFetchTime == s.lastFetchTime) ||
      exists i :: 0 <= i < |calls| && !IsFresh(Run(s, calls[..i]), calls[i].now) &&
        calls[i].upstream == Fetched(r.cachedData) && calls[i].now == r.lastFetchTime
    decreases |calls|
  {
    if calls != [] {
      var s' := Step(s, calls[0].now, calls[0].upstream).state;
      var rest := calls[1..];
      RunProvenance(s', rest);
      var r := Run(s, calls);
      assert r == Run(s', rest);
      if r.cachedData == s'.cachedData && r.lastFetchTime == s'.lastFetchTime {
        if s'.cachedData != s.cachedData || s'.lastFetchTime != s.lastFetchTime {
          assert calls[..0] == [];
          assert !IsFresh(Run(s, calls[..0]), calls[0].now);
        }
      } else {
        var i :| 0 <= i < |rest| && !IsFresh(Run(s', rest[..i]), rest[i].now) &&
          rest[i].upstream == Fetched(r.cachedData) && rest[i].now == r.lastFetchTime;
        assert calls[i + 1] == rest[i];
        RunPrefix(s, calls, i);
      }
    }
  }

  /** Running a non-empty prefix is one step followed by the rest of it. */
  lemma RunPrefix(s: CacheState, calls: seq<Call>, i: nat)
    requires i < |calls|
    ensures Run(s, calls[..i + 1]) == Run(Step(s, calls[0].now, calls[0].upstream).state, calls[1..][..i])
  {
    var p := calls[..i + 1];
    assert p[0] == calls[0];
    assert p[1..] == calls[1..][..i];
  }

  /** Every document the upstream delivers to a call of `calls` that misses,
      starting from `s`, is truthy. Hits never ask the upstream, so what they
      would have received does not matter. */
  predicate MissesDeliverTruthy(s: CacheState, calls: seq<Call>) {
    forall i :: 0 <= i < |calls| && !IsFresh(Run(s, calls[..i]), calls[i].now) && calls[i].upstream.Fetched? ==>
      IsTruthy(calls[i].upstream.doc)
  }

  /** Once a document is cached it is never dropped, as long as every miss
      receives a truthy document. */
  lemma {:induction false} PayloadNeverCleared(s: CacheState, calls: seq<Call>)
    requires IsTruthy(s.cachedData)
    requires MissesDeliverTruthy(s, calls)
    ensures IsTruthy(Run(s, calls).cachedData)
    decreases |calls|
  {
    if calls != [] {
      var s' := Step(s, calls[0].now, calls[0].upstream).state;
      var rest := calls[1..];
      assert calls[..0] == [];
      assert IsTruthy(s'.cachedData);
      assert MissesDeliverTruthy(s', rest) by {
        forall i | 0 <= i < |rest| && !IsFresh(Run(s', rest[..i]), rest[i].now) && rest[i].upstream.Fetched?
          ensures IsTruthy(rest[i].upstream.doc)
        {
          assert rest[i] == calls[i + 1];
          RunPrefix(s, calls, i);
        }
      }
      PayloadNeverCleared(s', rest);
    }
  }

  /** A falsy body (`null`, `{}`, `[]`, ...) does replace a cached document:
      the program stores whatever the upstream body decodes to. */
  lemma FalsyFetchDropsPayload(s: CacheState, now: int)
    requires !IsFresh(s, now)
    ensures !IsTruthy(Step(s, now, Fetched(JObj([]))).state.cachedData)
  {
  }

  /** Within the cache duration after a fetch stores a truthy
      document, the next call is a hit returning that document. */
  lemma HitAfterFetch(s: CacheState, t0: int, doc: Json, t1: int, u: Upstream)
    requires !IsFresh(s, t0) && IsTruthy(doc)
    requires t1 - t0 < CacheDuration
    ensures var s1 := Step(s, t0, Fetched(doc)).state;
      Step(s1, t1, u) == Transition(s1.(hits := s1.hits + 1), Served(doc))
  {
  }

  /**
   The process-wide cache, updated in place by each call.
   */
  class Fetcher {
    var lastFetchTime: int
    var cachedData: Json
    var cacheHits: nat
    var cacheMisses: nat

    /** The cache's fields as one value. */
    function State(): CacheState
      reads this
    {
      CacheState(lastFetchTime, cachedData, cacheHits, cacheMisses)
    }

    constructor ()
      ensures State() == Initial
    {
      lastFetchTime := 0;
      cachedData := JNull;
      cacheHits := 0;
      cacheMisses := 0;
    }

    /** Serves the match document for a call at time `now`; `upstream` is
        what the upstream request produces if this call makes it. */
    method Fetch(now: int, upstream: Upstream) returns (r: Outcome)
      modifies this
      ensures Transition(State(), r) == Step(old(State()), now, upstream)
    {
      var currentTime := now;
      if IsTruthy(cachedData) && currentTime - lastFetchTime < CacheDuration {
        cacheHits := cacheHits + 1;
        return Served(cachedData);
      }
      cacheMisses := cacheMisses + 1;
      match upstream
      case Fetched(data) =>
        lastFetchTime := currentTime;
        cachedData := data;
        // The success log line reads `matches_count` with the object's `get`.
        if !data.JObj? {
          return Crashed;
        }
        r := Served(data);
      case Failed(e) =>
        if IsTruthy(cachedData) {
          r := Served(cachedData);
        } else {
          r := Raised(e);
        }
    }
  }
}
