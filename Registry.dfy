/** The process-wide counters of the proxy as one object that the handler updates
    in place, with the history of what it has been told kept beside it. */
module MetricsRegistry {
  import opened Wrappers
  import opened CounterMaps
  import opened Metrics

  class Registry {
    var requestURLPath: map<string, nat>
    var responseStatus: map<(string, string), nat>
    var responseErrors: nat

    /** Every event recorded so far, oldest first. */
    ghost var history: seq<Event>

    function Snapshot(): Counters
      reads this
    {
      Counters(requestURLPath, responseStatus, responseErrors)
    }

    /** The counters are exactly the replay of the history from fresh counters, and
        `request_url_path` carries no label outside the monitored set and the
        catch-all. */
    ghost predicate Valid()
      reads this
    {
      && Snapshot() == Replay(Initial, history)
      && requestURLPath.Keys <= PathLabels
    }

    constructor ()
      ensures Valid()
      ensures history == [] && Snapshot() == Initial
    {
      requestURLPath := map[];
      responseStatus := map[];
      responseErrors := 0;
      history := [];
    }

    /** `updateRequestURLPathMetric(path)`. */
    method RecordRequestPath(path: string)
      requires Valid()
      modifies this
      ensures Valid()
      ensures history == old(history) + [PathRequested(path)]
      ensures Snapshot() == RecordPath(old(Snapshot()), path)
      ensures Get(requestURLPath, Unmonitored) == old(Get(requestURLPath, Unmonitored)) + 1
      ensures IsMonitored(path) ==> Get(requestURLPath, path) == old(Get(requestURLPath, path)) + 1
      ensures responseStatus == old(responseStatus) && responseErrors == old(responseErrors)
    {
      var monitoredUrls := MonitoredUrls();
      LookupIsMembership(monitoredUrls, path);
      if Lookup(monitoredUrls, path) {
        requestURLPath := Inc(requestURLPath, path);
      }
      requestURLPath := Inc(requestURLPath, Unmonitored);
      ReplayAppend(Initial, history, PathRequested(path));
      history := history + [PathRequested(path)];
    }

    /** `updateResponseStatusMetric(code, requestURI)`, with `parse` standing for
        `url.Parse`. */
    method RecordResponse(code: string, requestURI: string, parse: string -> Option<Url>)
      requires Valid()
      modifies this
      ensures Valid()
      ensures history == old(history) + [Responded(code, parse(requestURI))]
      ensures Snapshot() == RecordStatus(old(Snapshot()), code, parse(requestURI))
      ensures requestURLPath == old(requestURLPath)
      ensures parse(requestURI).None? ==>
                responseErrors == old(responseErrors) + 1 && responseStatus == old(responseStatus)
      ensures parse(requestURI).Some? ==>
                && responseErrors == old(responseErrors)
                && responseStatus == Inc(old(responseStatus), (code, parse(requestURI).value.path))
    {
      ReplayAppend(Initial, history, Responded(code, parse(requestURI)));
      history := history + [Responded(code, parse(requestURI))];
      var u := parse(requestURI);
      if u.None? {
        responseErrors := responseErrors + 1;
        return;
      }
      responseStatus := Inc(responseStatus, (code, u.value.path));
    }
  }
}
