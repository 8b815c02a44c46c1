# Match-listing gateway: cache and API-key check

A model of the core of a small HTTP gateway that serves one remote JSON
document (a football-match listing) through a ten-minute cache, behind an
optional static API key (`main.py`).

- `Cache` models `fetch_from_github`: the process-wide cache (time of the last
  successful fetch, the cached document, hit and miss counters) as the class
  `Fetcher`, whose `Fetch` method mirrors the source step by step, and as the
  pure transition `Step` that `Fetch` is proved against. `Run` folds `Step` over
  a sequence of calls, so properties of a whole process lifetime (counters,
  where the cached document came from, that it is never dropped while every miss receives a truthy body) are lemmas
  about `Run`.
- `Auth` models the check inside `require_api_key`: a missing or empty
  `Authorization` header is refused as "API key required", one leading
  `Bearer ` is removed, and the rest must be a configured key, otherwise
  "Invalid API key". `Presents` is an independent reference definition of an
  accepted header, and `CheckApiKey` is proved to accept exactly those.
- `Health` models the cache age reported by the health endpoint.
- `Gateway` composes the two for the guarded listing: the key is checked
  before the cache is touched.
- `Json` is the decoded upstream document, with Python's truth value
  (`IsTruthy`): `null`, `false`, `0`, `""`, `[]` and `{}` count as absent.
  `JNull` stands for Python's `None`, so the empty cache at start-up and a
  body that decodes to `null` are the same value, as in the source.

Time is whole seconds, passed in as `now`. The upstream request is an input
(`Upstream`): the document it decoded to, or the request failure it raised.

The cached document follows the body exactly; nothing checks the body's shape before it is stored:

- A fetched body is stored (`main.py:66-67`) before the success log line
  (`main.py:69`) runs. That line looks up `matches_count` with `.get`, which
  only a JSON object has. A `null`, list, string, number or boolean body is
  therefore stored and then ends the call with an attribute error, which the
  request-failure handler (`main.py:72`) does not catch. The model's outcome
  for this is `Crashed`. There is no stale fallback on this path, because the
  stale document has just been overwritten.
- One would expect a cached document, once set, never to be cleared. The code
  stores whatever the body decodes to, so storing a falsy body (`null`, `{}`,
  `[]`) makes the cache "absent" again (`Cache.FalsyFetchDropsPayload`). The
  never-cleared property holds only when every call that misses receives a truthy body
  (`Cache.PayloadNeverCleared`).

## Model

| member | source | states |
|---|---|---|
| `Cache.Fetcher.constructor` | main.py:21-25 | the cache starts never fetched (time 0), with no document (`None`) and both counters at 0 |
| `Cache.Fetcher.Fetch` | main.py:46-79 | the in-place update of the four fields and the returned outcome are exactly those of `Step` for the same time and upstream result |
| `Cache.IsFresh` | main.py:53 | a call is served from the cache only if the cached document is truthy and less than 600 s old; the empty start-up cache is never fresh |
| `Cache.Step` | main.py:46-79 | a fresh hit (truthy document, age below 600 s) serves the cached document and moves only the hit counter; every other call counts one miss and leaves the hits alone; a fetched body replaces document and timestamp with the body and the call's time, and is served if it is an object, while any other body ends the call with the attribute error of the log line, with no fallback; a failed request keeps both, serves the stale document if truthy and re-raises the upstream error otherwise; whatever is served is what the cache then holds; document and timestamp are assigned only together and only by a fetch |
| `Cache.FreshIgnoresUpstream` | main.py:53-57 | on a fresh hit the upstream's answer makes no difference to the state or the outcome |
| `Cache.HitAfterFetch` | main.py:53-57 | a call within 600 s of a fetch that stored a truthy document is a hit serving that document, one more hit and nothing else changed |
| `Cache.Run` | main.py:53-60 | over any sequence of calls the counters never decrease and their sum grows by exactly the number of calls |
| `Cache.RunProvenance` | main.py:65-67 | after any sequence of calls the cached document and its timestamp are the initial ones, or the document and time of a call that was a miss in the state reached before it and whose upstream request delivered that document |
| `Cache.PayloadNeverCleared` | main.py:65-79 | once a truthy document is cached it stays truthy over any sequence of calls in which every call that misses receives a truthy body |
| `Cache.FalsyFetchDropsPayload` | main.py:65-67 | a miss whose upstream body decodes to an empty object leaves the cache without a usable document |
| `Json.IsTruthy` | main.py:53 | a decoded document counts as absent exactly when it is `null`, `false`, `0`, `""`, `[]` or `{}` |
| `Auth.StartsWith` | main.py:37 | a header begins with a prefix exactly when it is that prefix followed by some rest |
| `Auth.StripBearer` | main.py:36-38 | a header beginning with `Bearer ` loses exactly that prefix; any other header is unchanged |
| `Auth.CheckApiKey` | main.py:32-43 | refused as missing iff the header is absent or empty; accepted iff the header is `Bearer ` followed by a configured key or a non-empty configured key not beginning with `Bearer `; refused as invalid iff non-empty and not accepted |
| `Auth.PresentsIffStrippedKnown` | main.py:36-40 | for a non-empty header, stripping one prefix and looking the rest up in the key list agrees with the reference definition of an accepted header |
| `Auth.PrefixStrippedOnce` | main.py:37-38 | `Bearer Bearer k` is accepted iff `Bearer k` itself is a configured key: the prefix is removed once only |
| `Auth.Decision.Message` | main.py:32-41 | a missing key is answered with "API key required" and an invalid one with "Invalid API key" |
| `Health.CacheAge` | main.py:99 | the age is 0 while the timestamp is unset (0), and otherwise the seconds that, added to the timestamp, give the current time |
| `Health.AgeAfterStep` | main.py:99 | measured at the call's time, the reported age is below 600 after a hit, 0 after a fetch that stored a body, and at least 600 when a failed fetch fell back on a document fetched at a non-zero time |
| `Gateway.GuardedFetch` | main.py:29-44 | a refused key leaves the cache untouched and returns the refusal; an accepted key performs exactly one cache call |

## Left out

- The HTTP request, its 10-second timeout, `raise_for_status` and body decoding (`main.py:62-65`): network I/O, replaced by the `Upstream` input.
- Route wiring, JSON response envelopes, HTTP status codes and the handlers' response shaping (`main.py:81-153`), and start-up (`main.py:155-164`): framework plumbing.
- Logging: side effects only, except that the success log line (`main.py:69`) fails on a body that is not an object; that failure is modelled as the `Crashed` outcome.
- Reading the key list and the port from the environment (`main.py:15`, `main.py:162`): the key list is a given sequence of strings.
- Floating-point time and the `int()` truncation of ages (`main.py:50`, `main.py:55`, `main.py:99`): time is whole seconds. JSON numbers are integers, so a float `0.0` body is not modelled.
- Health.AgeAfterStep: measures the age at the same time as the call, whereas the endpoint reads the clock a second time after the fetch.
- A body that does not decode is treated as a request failure. This holds only for versions of the HTTP library where the decoding error is one of its request exceptions (2.27 and later). With older versions the decoding error escapes `main.py:72` instead, and the model does not cover that.
- Concurrent requests: the source has no lock around check-then-fetch; the model covers single sequential calls.
