/**
 The guarded match listing: the API-key check runs before the cache is
 touched, and a refused request leaves the cache exactly as it was.
 */
module Gateway {
  import opened Wrappers
  import opened Auth
  import opened Cache

  datatype Response = Refused(decision: Decision) | Answered(outcome: Outcome)

  /** Handles one guarded request carrying header `header`. */
  method GuardedFetch(fetcher: Fetcher, header: Option<string>, keys: seq<string>, now: int, upstream: Upstream)
    returns (r: Response)
    modifies fetcher
    ensures CheckApiKey(header, keys) != Ok ==>
      r == Refused(CheckApiKey(header, keys)) && fetcher.State() == old(fetcher.State())
    ensures CheckApiKey(header, keys) == Ok ==>
      r.Answered? && Transition(fetcher.State(), r.outcome) == Step(old(fetcher.State()), now, upstream)
  {
    var decision := CheckApiKey(header, keys);
    if decision != Ok {
      return Refused(decision);
    }
    var outcome := fetcher.Fetch(now, upstream);
    r := Answered(outcome);
  }
}
