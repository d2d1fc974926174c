/** The single-host reverse proxy: the metric updates it makes around one proxied
    request, and what it relays back. The forwarding itself is the upstream's
    answer, given to the handler as a parameter. */
module Proxy {
  import opened Wrappers
  import opened CounterMaps
  import opened Metrics
  import opened MetricsRegistry

  /** The parts of an inbound request the handler reads: `r.URL.Path` and
      `r.RequestURI` (path and query as sent by the client). */
  datatype Request = Request(urlPath: string, requestURI: string)

  /** What the upstream answered: `StatusCode`, the verbatim `Status` line text
      such as "200 OK", and the body. */
  datatype Reply = Reply(statusCode: int, status: string, body: string)

  /** An upstream response as the response hook sees it, with the request it
      answers. */
  datatype Response = Response(reply: Reply, request: Request)

  /** What the caller gets: the upstream's status code and body as the proxy
      library writes them back (the reason text is regenerated from the code, so
      the upstream's `Status` text is not relayed), or the gateway error the library
      writes when there is no usable upstream reply. */
  datatype Relay = Relayed(statusCode: int, body: string) | GatewayError

  /** The events one proxied request feeds to the counters, in order: its path
      before forwarding, then the response status if a reply arrived. */
  function ServedEvents(r: Request, upstreamReply: Option<Reply>, parse: string -> Option<Url>): seq<Event>
  {
    [PathRequested(r.urlPath)]
    + (if upstreamReply.Some? then [Responded(upstreamReply.value.status, parse(r.requestURI))] else [])
  }

  /** Per proxied request: the catch-all child rises by one, the total of
      `request_url_path` by two for a monitored path and by one otherwise, the
      response counters together by one exactly when a reply arrived, and no
      counter goes down. */
  lemma ServedTotals(c: Counters, r: Request, upstreamReply: Option<Reply>, parse: string -> Option<Url>)
    ensures var after := Replay(c, ServedEvents(r, upstreamReply, parse));
            && Get(after.requestURLPath, Unmonitored) == Get(c.requestURLPath, Unmonitored) + 1
            && Sum(after.requestURLPath) == Sum(c.requestURLPath) + (if IsMonitored(r.urlPath) then 2 else 1)
            && Sum(after.responseStatus) + after.responseErrors
               == Sum(c.responseStatus) + c.responseErrors + (if upstreamReply.Some? then 1 else 0)
            && AtLeast(after.requestURLPath, c.requestURLPath)
            && AtLeast(after.responseStatus, c.responseStatus)
            && after.responseErrors >= c.responseErrors
  {
    var t := ServedEvents(r, upstreamReply, parse);
    ReplayUnmonitored(c, t);
    ReplayRequestTotal(c, t);
    ReplayResponseTotal(c, t);
    ReplayMonotone(c, t);
    var first := [PathRequested(r.urlPath)];
    assert first[..0] == [];
    assert Requests(first) == 1 && Responses(first) == 0;
    assert MonitoredRequests(first) == if IsMonitored(r.urlPath) then 1 else 0;
    if upstreamReply.Some? {
      assert t[..1] == first;
    } else {
      assert t == first;
    }
    assert Requests(t) == 1;
    assert Responses(t) == if upstreamReply.Some? then 1 else 0;
    assert MonitoredRequests(t) == MonitoredRequests(first);
  }

  class SimpleProxy {
    /** The upstream base URL, parsed once at start-up. */
    const upstream: Url
    /** The counters, shared with the metrics endpoint. */
    const metrics: Registry
    /** `url.Parse`, the library parser the handler relies on. */
    const parse: string -> Option<Url>

    constructor (upstream: Url, metrics: Registry, parse: string -> Option<Url>)
      ensures this.upstream == upstream && this.metrics == metrics && this.parse == parse
    {
      this.upstream := upstream;
      this.metrics := metrics;
      this.parse := parse;
    }

    /** The `ModifyResponse` hook: record the status against the parsed path of the
        request-URI, and never report an error, so the reply is always relayed. */
    method ModifyResponse(r: Response) returns (err: Option<string>)
      requires metrics.Valid()
      modifies metrics
      ensures err == None
      ensures metrics.Valid()
      ensures metrics.history == old(metrics.history) + [Responded(r.reply.status, parse(r.request.requestURI))]
      ensures metrics.Snapshot() == RecordStatus(old(metrics.Snapshot()), r.reply.status, parse(r.request.requestURI))
    {
      metrics.RecordResponse(r.reply.status, r.request.requestURI, parse);
      err := None;
    }

    /** `ServeHTTP`: record the path, forward, run the hook on a reply, relay. */
    method ServeHTTP(r: Request, upstreamReply: Option<Reply>) returns (relay: Relay)
      requires metrics.Valid()
      modifies metrics
      ensures metrics.Valid()
      ensures metrics.history == old(metrics.history) + ServedEvents(r, upstreamReply, parse)
      ensures metrics.Snapshot() == Replay(old(metrics.Snapshot()), ServedEvents(r, upstreamReply, parse))
      ensures relay == if upstreamReply.Some?
                       then Relayed(upstreamReply.value.statusCode, upstreamReply.value.body)
                       else GatewayError
      ensures Sum(metrics.requestURLPath)
              == old(Sum(metrics.requestURLPath)) + (if IsMonitored(r.urlPath) then 2 else 1)
      ensures Sum(metrics.responseStatus) + metrics.responseErrors
              == old(Sum(metrics.responseStatus) + metrics.responseErrors) + (if upstreamReply.Some? then 1 else 0)
    {
      ghost var before := metrics.Snapshot();
      ghost var h := metrics.history;
      metrics.RecordRequestPath(r.urlPath);
      if upstreamReply.None? {
        relay := GatewayError;
      } else {
        var err := ModifyResponse(Response(upstreamReply.value, r));
        if err.Some? {
          relay := GatewayError;
        } else {
          relay := Relayed(upstreamReply.value.statusCode, upstreamReply.value.body);
        }
      }
      ReplayConcat(Initial, h, ServedEvents(r, upstreamReply, parse));
      ServedTotals(before, r, upstreamReply, parse);
    }
  }

  /** `NewProxy`: a proxy exists exactly when the upstream URL parses. */
  method NewProxy(rawUrl: string, metrics: Registry, parse: string -> Option<Url>) returns (p: Option<SimpleProxy>)
    ensures p.None? <==> parse(rawUrl).None?
    ensures p.Some? ==>
              && fresh(p.value)
              && p.value.upstream == parse(rawUrl).value
              && p.value.metrics == metrics
              && p.value.parse == parse
  {
    var u := parse(rawUrl);
    if u.None? {
      return None;
    }
    var s := new SimpleProxy(u.value, metrics, parse);
    p := Some(s);
  }
}
