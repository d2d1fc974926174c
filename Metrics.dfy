/** The metrics-update policy of the proxy, as values: the monitored-path set, the
    three counter families, one update per observed event and the replay of a
    whole history of events. */
module Metrics {
  import opened Wrappers
  import opened CounterMaps

  /** The catch-all label of `request_url_path`: every request bumps it. */
  const Unmonitored: string := "unmonitored"

  /** The IPFS HTTP API paths that get a `request_url_path` label of their own. */
  const MonitoredPaths: set<string> := {
    "/api/v0/pin/add", "/api/v0/pin/rm", "/api/v0/pin/ls",
    "/api/v0/id",
    "/api/v0/pubsub/ls", "/api/v0/pubsub/pub", "/api/v0/pubsub/sub",
    "/api/v0/dag/get", "/api/v0/dag/put", "/api/v0/dag/resolve",
    "/api/v0/block/put", "/api/v0/block/get", "/api/v0/block/stat",
    "/api/v0/swarm/peers", "/api/v0/swarm/connect"
  }

  /** Every label `request_url_path` can ever carry. */
  const PathLabels: set<string> := MonitoredPaths + {Unmonitored}

  predicate IsMonitored(path: string)
  {
    path in MonitoredPaths
  }

  /** The lookup table that `updateRequestURLPathMetric` builds on every call, one
      assignment per monitored path. */
  method MonitoredUrls() returns (m: map<string, bool>)
    ensures m.Keys == MonitoredPaths
    ensures forall p :: p in m ==> m[p]
  {
    m := map[];
    m := m["/api/v0/pin/add" := true];
    m := m["/api/v0/pin/rm" := true];
    m := m["/api/v0/pin/ls" := true];
    m := m["/api/v0/id" := true];
    m := m["/api/v0/pubsub/ls" := true];
    m := m["/api/v0/pubsub/pub" := true];
    m := m["/api/v0/pubsub/sub" := true];
    m := m["/api/v0/dag/get" := true];
    m := m["/api/v0/dag/put" := true];
    m := m["/api/v0/dag/resolve" := true];
    m := m["/api/v0/block/put" := true];
    m := m["/api/v0/block/get" := true];
    m := m["/api/v0/block/stat" := true];
    m := m["/api/v0/swarm/peers" := true];
    m := m["/api/v0/swarm/connect" := true];
  }

  /** Indexing a Go `map[string]bool`: a missing key yields the zero value, false. */
  function Lookup(m: map<string, bool>, k: string): bool
  {
    k in m && m[k]
  }

  /** The table lookup decides exactly membership in the monitored set. */
  lemma LookupIsMembership(m: map<string, bool>, path: string)
    requires m.Keys == MonitoredPaths
    requires forall p :: p in m ==> m[p]
    ensures Lookup(m, path) <==> IsMonitored(path)
  {
  }

  // ---------------------------------------------------------------------------
  // Exactness of the monitored set

  /** Every monitored path lies under `/api/v0/` and does not end in a slash. */
  lemma MonitoredShape(p: string)
    requires IsMonitored(p)
    ensures |p| > 8 && p[..8] == "/api/v0/"
    ensures p[|p| - 1] != '/'
  {
  }

  /** A monitored path with a trailing slash added is not monitored. */
  lemma TrailingSlashNotMonitored(p: string)
    requires IsMonitored(p)
    ensures !IsMonitored(p + "/")
  {
    var q := p + "/";
    assert q[|q| - 1] == '/';
    if IsMonitored(q) {
      MonitoredShape(q);
    }
  }

  /** A path outside the `/api/v0/` prefix is never monitored. */
  lemma OtherPrefixNotMonitored(p: string)
    requires |p| <= 8 || p[..8] != "/api/v0/"
    ensures !IsMonitored(p)
  {
  }

  /** `c` with an upper-case ASCII letter replaced by its lower-case letter. */
  function Lower(c: char): char
  {
    if 'A' <= c <= 'Z' then (c as int + 32) as char else c
  }

  /** `q` spells `p` up to the letter case of its characters. */
  predicate CaseVariant(q: string, p: string)
  {
    |q| == |p| && forall i :: 0 <= i < |q| ==> Lower(q[i]) == p[i]
  }

  /** Matching is case-sensitive: any other spelling of a monitored path that
      differs from it only in letter case is not monitored. */
  lemma CaseVariantsNotMonitored(p: string, q: string)
    requires IsMonitored(p) && CaseVariant(q, p) && q != p
    ensures !IsMonitored(q)
  {
  }

  /** The catch-all label is not one of the monitored paths, so a monitored request
      moves two distinct children. */
  lemma UnmonitoredIsNotAPath()
    ensures !IsMonitored(Unmonitored)
    ensures |PathLabels| == |MonitoredPaths| + 1
  {
  }

  // ---------------------------------------------------------------------------
  // Counter state and its updates

  /** What `url.Parse` yields when it succeeds; only `path` reaches a label. */
  datatype Url = Url(scheme: string, host: string, path: string, rawQuery: string, fragment: string)

  /** The three counter families: `request_url_path{path}`,
      `response_status{code, path}` and the unlabelled `response_errors`. */
  datatype Counters = Counters(
    requestURLPath: map<string, nat>,
    responseStatus: map<(string, string), nat>,
    responseErrors: nat)

  /** Freshly registered counters: no children yet, errors at zero. */
  const Initial: Counters := Counters(map[], map[], 0)

  /** One observation the handler hands to the counters: the path of an inbound
      request, or the status of an upstream response with the outcome of parsing
      that request's request-URI. */
  datatype Event =
    | PathRequested(path: string)
    | Responded(code: string, parsed: Option<Url>)

  /** `updateRequestURLPathMetric(path)`: a monitored path bumps its own child,
      and every path bumps the catch-all child. */
  function RecordPath(c: Counters, path: string): (r: Counters)
    ensures r.responseStatus == c.responseStatus && r.responseErrors == c.responseErrors
    ensures Get(r.requestURLPath, Unmonitored) == Get(c.requestURLPath, Unmonitored) + 1
    ensures IsMonitored(path) ==> Get(r.requestURLPath, path) == Get(c.requestURLPath, path) + 1
    ensures forall l :: l != Unmonitored && (l != path || !IsMonitored(path)) ==>
              Get(r.requestURLPath, l) == Get(c.requestURLPath, l)
    ensures r.requestURLPath.Keys ==
              c.requestURLPath.Keys + {Unmonitored} + (if IsMonitored(path) then {path} else {})
  {
    var labelled := if IsMonitored(path) then Inc(c.requestURLPath, path) else c.requestURLPath;
    c.(requestURLPath := Inc(labelled, Unmonitored))
  }

  /** `updateResponseStatusMetric(code, uri)` once `url.Parse(uri)` has returned
      `parsed`: a failed parse bumps `response_errors` only; a successful one bumps
      the `response_status` child for the verbatim code and the parsed path only. */
  function RecordStatus(c: Counters, code: string, parsed: Option<Url>): (r: Counters)
    ensures r.requestURLPath == c.requestURLPath
    ensures parsed.None? ==>
              r.responseErrors == c.responseErrors + 1 && r.responseStatus == c.responseStatus
    ensures parsed.Some? ==>
              r.responseStatus.Keys == c.responseStatus.Keys + {(code, parsed.value.path)}
    ensures parsed.Some? ==>
              && r.responseErrors == c.responseErrors
              && Get(r.responseStatus, (code, parsed.value.path))
                 == Get(c.responseStatus, (code, parsed.value.path)) + 1
              && (forall key :: key != (code, parsed.value.path) ==>
                    Get(r.responseStatus, key) == Get(c.responseStatus, key))
  {
    match parsed
    case None => c.(responseErrors := c.responseErrors + 1)
    case Some(u) => c.(responseStatus := Inc(c.responseStatus, (code, u.path)))
  }

  function Step(c: Counters, e: Event): Counters
  {
    match e
    case PathRequested(path) => RecordPath(c, path)
    case Responded(code, parsed) => RecordStatus(c, code, parsed)
  }

  /** The counters after the events of `t`, oldest first, starting from `c`. */
  function Replay(c: Counters, t: seq<Event>): Counters
    decreases |t|
  {
    if t == [] then c else Step(Replay(c, t[..|t| - 1]), t[|t| - 1])
  }

  lemma ReplayAppend(c: Counters, t: seq<Event>, e: Event)
    ensures Replay(c, t + [e]) == Step(Replay(c, t), e)
  {
  }

  /** Replaying two histories one after the other is replaying their concatenation. */
  lemma {:induction false} ReplayConcat(c: Counters, s: seq<Event>, t: seq<Event>)
    ensures Replay(c, s + t) == Replay(Replay(c, s), t)
    decreases |t|
  {
    if t == [] {
      assert s + t == s;
    } else {
      var u := t[..|t| - 1];
      ReplayConcat(c, s, u);
      assert (s + t)[..|s + t| - 1] == s + u;
    }
  }

  // ---------------------------------------------------------------------------
  // Counting events in a history

  function Requests(t: seq<Event>): nat
    decreases |t|
  {
    if t == [] then 0
    else Requests(t[..|t| - 1]) + (if t[|t| - 1].PathRequested? then 1 else 0)
  }

  function RequestsTo(t: seq<Event>, p: string): nat
    decreases |t|
  {
    if t == [] then 0
    else RequestsTo(t[..|t| - 1], p) + (if t[|t| - 1] == PathRequested(p) then 1 else 0)
  }

  function MonitoredRequests(t: seq<Event>): nat
    decreases |t|
  {
    if t == [] then 0
    else
      var e := t[|t| - 1];
      MonitoredRequests(t[..|t| - 1]) + (if e.PathRequested? && IsMonitored(e.path) then 1 else 0)
  }

  function Responses(t: seq<Event>): nat
    decreases |t|
  {
    if t == [] then 0
    else Responses(t[..|t| - 1]) + (if t[|t| - 1].Responded? then 1 else 0)
  }

  // ---------------------------------------------------------------------------
  // Properties of a single update

  /** Per request the total over `request_url_path` rises by two for a monitored
      path and by one otherwise. */
  lemma RecordPathTotal(c: Counters, path: string)
    ensures Sum(RecordPath(c, path).requestURLPath)
            == Sum(c.requestURLPath) + (if IsMonitored(path) then 2 else 1)
  {
    var labelled := if IsMonitored(path) then Inc(c.requestURLPath, path) else c.requestURLPath;
    if IsMonitored(path) {
      SumInc(c.requestURLPath, path);
    }
    SumInc(labelled, Unmonitored);
  }

  /** Per response exactly one of `response_status` and `response_errors` moves,
      by exactly one. */
  lemma RecordStatusTotal(c: Counters, code: string, parsed: Option<Url>)
    ensures var r := RecordStatus(c, code, parsed);
            Sum(r.responseStatus) + r.responseErrors == Sum(c.responseStatus) + c.responseErrors + 1
  {
    if parsed.Some? {
      SumInc(c.responseStatus, (code, parsed.value.path));
    }
  }

  // ---------------------------------------------------------------------------
  // Properties of a whole history

  /** No event ever lowers a counter. */
  lemma {:induction false} ReplayMonotone(c: Counters, t: seq<Event>)
    ensures var r := Replay(c, t);
            && AtLeast(r.requestURLPath, c.requestURLPath)
            && AtLeast(r.responseStatus, c.responseStatus)
            && r.responseErrors >= c.responseErrors
    decreases |t|
  {
    if t != [] {
      ReplayMonotone(c, t[..|t| - 1]);
    }
  }

  /** Starting from labels drawn from the monitored set and the catch-all, no
      history ever creates any other `request_url_path` label. */
  lemma {:induction false} ReplayLabels(c: Counters, t: seq<Event>)
    requires c.requestURLPath.Keys <= PathLabels
    ensures Replay(c, t).requestURLPath.Keys <= PathLabels
    decreases |t|
  {
    if t != [] {
      ReplayLabels(c, t[..|t| - 1]);
    }
  }

  /** The catch-all child counts every request. */
  lemma {:induction false} ReplayUnmonitored(c: Counters, t: seq<Event>)
    ensures Get(Replay(c, t).requestURLPath, Unmonitored)
            == Get(c.requestURLPath, Unmonitored) + Requests(t)
    decreases |t|
  {
    if t != [] {
      ReplayUnmonitored(c, t[..|t| - 1]);
    }
  }

  /** The child of a monitored path counts exactly the requests to that path. */
  lemma {:induction false} ReplayMonitoredPath(c: Counters, t: seq<Event>, p: string)
    requires IsMonitored(p)
    ensures Get(Replay(c, t).requestURLPath, p) == Get(c.requestURLPath, p) + RequestsTo(t, p)
    decreases |t|
  {
    UnmonitoredIsNotAPath();
    if t != [] {
      ReplayMonitoredPath(c, t[..|t| - 1], p);
    }
  }

  /** Any other label is never touched, whatever the requests were. */
  lemma {:induction false} ReplayOtherLabel(c: Counters, t: seq<Event>, l: string)
    requires !IsMonitored(l) && l != Unmonitored
    ensures Get(Replay(c, t).requestURLPath, l) == Get(c.requestURLPath, l)
    decreases |t|
  {
    if t != [] {
      ReplayOtherLabel(c, t[..|t| - 1], l);
    }
  }

  /** Over a history the total of `request_url_path` rises by one per request and
      by one more per monitored request, so between one and two per request. */
  lemma {:induction false} ReplayRequestTotal(c: Counters, t: seq<Event>)
    ensures Sum(Replay(c, t).requestURLPath)
            == Sum(c.requestURLPath) + Requests(t) + MonitoredRequests(t)
    ensures MonitoredRequests(t) <= Requests(t)
    decreases |t|
  {
    if t != [] {
      var s := t[..|t| - 1];
      ReplayRequestTotal(c, s);
      match t[|t| - 1]
      case PathRequested(path) => RecordPathTotal(Replay(c, s), path);
      case Responded(_, _) =>
    }
  }

  /** Over a history `response_status` and `response_errors` together rise by
      exactly the number of upstream responses. */
  lemma {:induction false} ReplayResponseTotal(c: Counters, t: seq<Event>)
    ensures var r := Replay(c, t);
            Sum(r.responseStatus) + r.responseErrors
            == Sum(c.responseStatus) + c.responseErrors + Responses(t)
    decreases |t|
  {
    if t != [] {
      var s := t[..|t| - 1];
      ReplayResponseTotal(c, s);
      match t[|t| - 1]
      case PathRequested(_) =>
      case Responded(code, parsed) => RecordStatusTotal(Replay(c, s), code, parsed);
    }
  }

  /** `n` requests to one monitored path leave its child and the catch-all child
      of fresh counters at exactly `n`. */
  lemma {:induction false} RepeatedRequests(p: string, n: nat)
    requires IsMonitored(p)
    ensures var r := Replay(Initial, seq(n, _ => PathRequested(p)));
            Get(r.requestURLPath, p) == n && Get(r.requestURLPath, Unmonitored) == n
  {
    var t := seq(n, _ => PathRequested(p));
    RepeatedCounts(p, n);
    ReplayMonitoredPath(Initial, t, p);
    ReplayUnmonitored(Initial, t);
  }

  lemma {:induction false} RepeatedCounts(p: string, n: nat)
    ensures var t := seq(n, _ => PathRequested(p));
            RequestsTo(t, p) == n && Requests(t) == n
  {
    if n > 0 {
      RepeatedCounts(p, n - 1);
      var t := seq(n, _ => PathRequested(p));
      assert t[..n - 1] == seq(n - 1, _ => PathRequested(p));
    }
  }

  /** A request for `/api/v0/id` answered `200 OK` leaves fresh counters at one for
      the path's own child, the catch-all child and the (code, path) child. */
  lemma IdRequestAnsweredOk()
    ensures var r := Replay(Initial, [PathRequested("/api/v0/id"),
                                      Responded("200 OK", Some(Url("", "", "/api/v0/id", "", "")))]);
            && Get(r.requestURLPath, "/api/v0/id") == 1
            && Get(r.requestURLPath, Unmonitored) == 1
            && Get(r.responseStatus, ("200 OK", "/api/v0/id")) == 1
            && r.responseErrors == 0
  {
  }
}
