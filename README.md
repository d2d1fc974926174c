# ipfs-metric-proxy: the metrics-update policy, in Dafny

`ipfs-metric-proxy` is a single-host reverse proxy that sits in front of an IPFS
HTTP API server. Every request that the `net/http` mux routes to the proxy is
forwarded to the upstream. That is every path except `/metrics`, once the mux has
redirected the paths it first cleans (`.`, `..`, `//`). `/metrics` is served by
the Prometheus handler: it is neither proxied nor counted. Around each proxied
request the proxy updates three Prometheus counters:

- `request_url_path{path}`. A request whose path is exactly one of 15 monitored
  IPFS API paths bumps that path's own child. Every request, monitored or not,
  also bumps the `"unmonitored"` child. So a monitored request is counted twice.
- `response_status{code, path}`. When an upstream reply arrives, the
  request-URI is parsed. The child for the verbatim `Status` text and the parsed
  path goes up by one.
- `response_errors`. It goes up by one when that parse fails. In that case
  `response_status` stays as it was.

This project models that policy and proves what it promises.

- `CounterMaps` (CounterMaps.dfy) models a labelled counter family as a
  `map<K, nat>`. A child that was never touched reads as zero. `Inc` is
  `WithLabelValues(k).Inc()`. `Sum` is the family's total.
- `Metrics` (Metrics.dfy) holds the pure specification:
  - the monitored set, and the table `updateRequestURLPathMetric` builds from it;
  - the counter state as a value (`Counters`);
  - one update per observed event (`RecordPath`, `RecordStatus`);
  - `Replay`, which applies a whole history of events.

  Its lemmas cover how exact the matching is, the totals, monotonicity and
  counting over any history.
- `MetricsRegistry` (Registry.dfy) is the counters as one object that the
  handler updates in place. Its fields are the three families. A ghost history
  records every event it has been told. `Valid()` says two things: the fields
  equal the replay of that history from fresh counters, and `request_url_path`
  never carries a label outside the monitored set plus `"unmonitored"`.
- `Proxy` (Proxy.dfy) builds the proxy (`NewProxy`) and handles one request.
  `ServeHTTP` records the path, forwards the request and relays the reply. The
  `ModifyResponse` hook records the status and always returns no error.
  - The network's answer is a parameter `Option<Reply>`. `None` means the
    transport failed, so the library answers with a gateway error and the hook
    never runs.
  - `url.Parse` is a function-valued parameter `parse: string -> Option<Url>`.
    It is given once to the proxy. Nothing is assumed about its internals.

Two details of the labels are easy to misread:

- The `code` label is the response's `Status` string, such as `"200 OK"`, taken
  verbatim. It is not the bare numeric code `"200"`.
- The `path` label is the path component of the parsed `RequestURI`, so any
  query string is dropped. It is not the inbound path as received.

## Model

| member | source | states |
|---|---|---|
| `CounterMaps.Inc` | main.go:98-100 | incrementing a child creates it at zero if missing and raises it by exactly one, with every other child unchanged and the label set growing by that label only |
| `CounterMaps.SumInc` | main.go:76 | one increment raises the total of a counter family by exactly one |
| `Metrics.MonitoredUrls` | main.go:80-95 | the lookup table built on each call has exactly the 15 monitored paths as keys, each mapped to true |
| `Metrics.LookupIsMembership` | main.go:97 | indexing that table with Go's zero-value default is true exactly for the paths in the monitored set |
| `Metrics.MonitoredShape` | main.go:81-95 | every monitored path starts with `/api/v0/` and does not end in a slash |
| `Metrics.TrailingSlashNotMonitored` | main.go:80-97 | appending a slash to a monitored path gives a path that is not monitored |
| `Metrics.OtherPrefixNotMonitored` | main.go:80-97 | no path outside the `/api/v0/` prefix is monitored |
| `Metrics.CaseVariantsNotMonitored` | main.go:80-97 | matching is case-sensitive: every spelling of a monitored path that differs from it only in letter case is not monitored |
| `Metrics.UnmonitoredIsNotAPath` | main.go:81-100 | the catch-all label is not a monitored path, so there are 16 distinct path labels |
| `Metrics.RecordPath` | main.go:97-100 | the catch-all child rises by one; a monitored path's own child rises by one; every other path child, `response_status` and `response_errors` are unchanged; new labels are only the catch-all and a monitored path |
| `Metrics.RecordStatus` | main.go:70-77 | on a failed parse only `response_errors` rises, by one; on success only the child for (verbatim code, parsed path) rises, by one, and that label is the only one added; `request_url_path` is unchanged |
| `Metrics.RecordPathTotal` | main.go:97-100 | per request the total of `request_url_path` rises by 2 for a monitored path and by 1 otherwise |
| `Metrics.RecordStatusTotal` | main.go:70-77 | per response `response_status` total plus `response_errors` rises by exactly one |
| `Metrics.ReplayMonotone` | main.go:70-100 | over any history no counter child and not `response_errors` ever decreases, and no label disappears |
| `Metrics.ReplayLabels` | main.go:79-101 | over any history `request_url_path` never gains a label outside the 15 monitored paths and the catch-all |
| `Metrics.ReplayUnmonitored` | main.go:100 | over any history the catch-all child rises by exactly the number of requests |
| `Metrics.ReplayMonitoredPath` | main.go:97-99 | over any history a monitored path's child rises by exactly the number of requests to that path |
| `Metrics.ReplayOtherLabel` | main.go:97-100 | over any history a label that is neither monitored nor the catch-all never moves |
| `Metrics.ReplayRequestTotal` | main.go:97-100 | over any history the total of `request_url_path` rises by the number of requests plus the number of monitored requests, which is at most the number of requests |
| `Metrics.ReplayResponseTotal` | main.go:70-77 | over any history `response_status` total plus `response_errors` rises by exactly the number of upstream responses |
| `Metrics.RepeatedRequests` | main.go:97-100 | n requests to one monitored path leave fresh counters with that child and the catch-all at exactly n |
| `Metrics.IdRequestAnsweredOk` | main.go:53-76 | a `/api/v0/id` request answered `200 OK` leaves the path child, the catch-all and the (`200 OK`, `/api/v0/id`) child at 1 and errors at 0 |
| `MetricsRegistry.Registry.constructor` | main.go:15-33 | the three counter families start empty and the error counter at zero |
| `MetricsRegistry.Registry.RecordRequestPath` | main.go:79-101 | the new counters are `RecordPath` of the old ones, the event is appended to the history, and the response counters are untouched |
| `MetricsRegistry.Registry.RecordResponse` | main.go:70-77 | the new counters are `RecordStatus` of the old ones on `parse(requestURI)`: either errors plus one or the status child plus one, never both |
| `Proxy.ServedTotals` | main.go:53-68 | per proxied request the catch-all rises by 1, the path total by 1 or 2, the response counters together by 1 exactly when a reply arrived, and nothing decreases |
| `Proxy.SimpleProxy.constructor` | main.go:35-37 | the proxy holds the upstream URL, the shared counters and the parser it was given |
| `Proxy.SimpleProxy.ModifyResponse` | main.go:53-57 | the hook records the reply's `Status` against the parsed request-URI (the new counters are `RecordStatus` of the old ones) and always returns no error |
| `Proxy.SimpleProxy.ServeHTTP` | main.go:62-68 | the path is recorded before forwarding and the response after it, and the new counters are the replay of those events on the old ones; the caller gets the upstream status code and body as the proxy library relays them, or the gateway error when there is no reply, whatever the metrics did |
| `Proxy.NewProxy` | main.go:39-60 | a proxy is built exactly when the upstream URL parses; it targets the parsed URL and uses the shared counters |

## Left out

- The forwarding itself is left out. This is `httputil.NewSingleHostReverseProxy`, the identity `Director` wrapper (main.go:47-50) and `s.Proxy.ServeHTTP`. It is network I/O inside a library. The upstream's answer is a parameter instead. The model also takes as given that the request the hook sees carries the inbound `RequestURI`.
- The internals of `url.Parse` are left out. It is an arbitrary parameter, and the model fixes nothing about Go's URL grammar. Its error value is reduced to "failed".
- The routing of the `net/http` mux (main.go:120-121) is left out. It answers a path with `.`, `..` or repeated-slash segments, such as `/api/v0//id`, with a redirect to the cleaned path. Such a request never reaches the proxy and is not counted. The model starts at `ServeHTTP`.
- Prometheus registration (main.go:125-130) and the `/metrics` endpoint (main.go:121) are left out. They are library plumbing.
- `main` is left out: environment lookup, the default listen address, and the fatal exits (main.go:103-123). It is OS I/O.
- Logging (main.go:54, 63, 65, 67) is left out. It is observability only.
- Concurrency and atomic increments are left out. Prometheus provides them. The model applies updates one at a time, in the order of its history.
- Counters are unbounded naturals. Prometheus counters are `float64`, and they lose exactness above 2^53 increments.
- Header copying by the proxy library is left out. The relayed outcome carries only the status code and the body. The reason text is regenerated from the code, so the upstream's `Status` text reaches only the `code` label.
- `Proxy.SimpleProxy.ModifyResponse`: assumes label values are valid UTF-8. The metrics library panics on other label values. For example, a request-URI of `/%FF` parses to the path `"/\xff"`. That panic, which escapes the hook so that nothing is returned, is not modelled. Dafny strings cannot hold Go's arbitrary-byte strings.
- `Proxy.SimpleProxy.ServeHTTP`: assumes label values are valid UTF-8, as above. When the library panics, net/http drops the connection. The caller then gets no reply and no response counter moves. The model does not capture that outcome.
- `Proxy.SimpleProxy.ServeHTTP`: relays every reply that arrives. Two library outcomes are not modelled. First, a `101 Switching Protocols` reply that the library rejects gets a 502. It rejects one whose protocol differs from the request's, whose body cannot be written to, or whose connection cannot be hijacked. The hook has already counted that response. Second, when copying the body fails partway, the library aborts after the status is written, and the caller gets a cut-off reply. In both cases the counters still move as `Proxy.ServedTotals` says.
- `MetricsRegistry.Registry.RecordResponse`: assumes label values are valid UTF-8, for the same reason. The panic inside `WithLabelValues` is not modelled.
