/** The sub-logger routes of WithSimpleConfiguration: each `WriteTo.Logger`
    is a list of filters (`Filter.ByIncludingOnly` / `Filter.ByExcluding`
    over `Matching.WithProperty`) and the sinks the accepted events go to. */
module Routing {
  import opened Events

  /** The physical sinks, by the settings that tell them apart. */
  datatype Sink =
    | MsSqlServer(tableName: string)
    | Elasticsearch(indexFormat: string, inlineFields: bool)
    | File(path: string)
    | SeqServer(serverUrl: string)

  datatype Filter = IncludingOnly(propertyName: string) | Excluding(propertyName: string)

  datatype Route = Route(filters: seq<Filter>, sinks: seq<Sink>)

  /** One filter over Matching.WithProperty(name). */
  predicate Passes(f: Filter, e: LogEvent) {
    match f
    case IncludingOnly(name) => HasProperty(e, name)
    case Excluding(name) => !HasProperty(e, name)
  }

  /** A sub-logger forwards an event when every one of its filters lets it through. */
  predicate Accepts(filters: seq<Filter>, e: LogEvent) {
    forall k :: 0 <= k < |filters| ==> Passes(filters[k], e)
  }

  /** The sinks an event reaches, route by route in configuration order. */
  function Dispatch(routes: seq<Route>, e: LogEvent): (r: seq<Sink>)
    ensures forall s :: s in r <==>
      exists k :: 0 <= k < |routes| && Accepts(routes[k].filters, e) && s in routes[k].sinks
    decreases |routes|
  {
    if |routes| == 0 then []
    else
      var rest := Dispatch(routes[1..], e);
      assert forall k :: 0 <= k < |routes| - 1 ==> routes[1..][k] == routes[k + 1];
      (if Accepts(routes[0].filters, e) then routes[0].sinks else []) + rest
  }

  /** Dispatch visits the first route, then the rest. */
  lemma DispatchCons(route: Route, rest: seq<Route>, e: LogEvent)
    ensures Dispatch([route] + rest, e)
         == (if Accepts(route.filters, e) then route.sinks else []) + Dispatch(rest, e)
  {
    assert ([route] + rest)[1..] == rest;
  }

  /** A route with the filters [f] accepts what f lets through. */
  lemma AcceptsSingle(f: Filter, e: LogEvent)
    ensures Accepts([f], e) == Passes(f, e)
  {
    assert [f][0] == f;
  }

  /** A route with the filters [f, g] accepts what both let through. */
  lemma AcceptsPair(f: Filter, g: Filter, e: LogEvent)
    ensures Accepts([f, g], e) == (Passes(f, e) && Passes(g, e))
  {
    assert [f, g][0] == f && [f, g][1] == g;
  }

  const ElapsedMilliseconds: string := "ElapsedMilliseconds"
  const UsageName: string := "UsageName"

  // formatters-added: performance, usage and catch-all routes

  const PerfSink: Sink := MsSqlServer("PerfLogNew")
  const UsageIndexSink: Sink := Elasticsearch("usagenew-{0:yyyy.MM.dd}", true)
  const ErrorIndexSink: Sink := Elasticsearch("errornew2-{0:yyyy.MM.dd}", true)

  function ErrorFileSink(applicationName: string): Sink {
    File("c:\\temp\\logs\\" + applicationName + "-error.json")
  }

  function FormattersAddedRoutes(applicationName: string): seq<Route> {
    [ Route([IncludingOnly(ElapsedMilliseconds)], [PerfSink]),
      Route([IncludingOnly(UsageName)], [UsageIndexSink]),
      Route([Excluding(ElapsedMilliseconds), Excluding(UsageName)],
            [ErrorIndexSink, ErrorFileSink(applicationName)]) ]
  }

  /** The formatters-added routes, in order: the perf table, then the usage
      index, then the error index and file when neither marker is present. */
  lemma FormattersAddedSinks(applicationName: string, e: LogEvent)
    ensures Dispatch(FormattersAddedRoutes(applicationName), e)
         == (if HasProperty(e, ElapsedMilliseconds) then [PerfSink] else [])
          + (if HasProperty(e, UsageName) then [UsageIndexSink] else [])
          + (if !HasProperty(e, ElapsedMilliseconds) && !HasProperty(e, UsageName)
             then [ErrorIndexSink, ErrorFileSink(applicationName)] else [])
  {
    var routes := FormattersAddedRoutes(applicationName);
    AcceptsSingle(IncludingOnly(ElapsedMilliseconds), e);
    AcceptsSingle(IncludingOnly(UsageName), e);
    AcceptsPair(Excluding(ElapsedMilliseconds), Excluding(UsageName), e);
    assert routes == [routes[0]] + ([routes[1]] + ([routes[2]] + []));
    DispatchCons(routes[0], [routes[1]] + ([routes[2]] + []), e);
    DispatchCons(routes[1], [routes[2]] + [], e);
    DispatchCons(routes[2], [], e);
  }

  /** Each formatters-added route selects by the two marker properties; the
      catch-all takes exactly what neither of the others takes, so every event
      reaches some sink. */
  lemma FormattersAddedDispatch(applicationName: string, e: LogEvent)
    ensures PerfSink in Dispatch(FormattersAddedRoutes(applicationName), e)
        <==> HasProperty(e, ElapsedMilliseconds)
    ensures UsageIndexSink in Dispatch(FormattersAddedRoutes(applicationName), e)
        <==> HasProperty(e, UsageName)
    ensures ErrorIndexSink in Dispatch(FormattersAddedRoutes(applicationName), e)
        <==> !HasProperty(e, ElapsedMilliseconds) && !HasProperty(e, UsageName)
    ensures ErrorFileSink(applicationName) in Dispatch(FormattersAddedRoutes(applicationName), e)
        <==> !HasProperty(e, ElapsedMilliseconds) && !HasProperty(e, UsageName)
    ensures |Dispatch(FormattersAddedRoutes(applicationName), e)| > 0
  {
    var d := Dispatch(FormattersAddedRoutes(applicationName), e);
    var hasE, hasU := HasProperty(e, ElapsedMilliseconds), HasProperty(e, UsageName);
    FormattersAddedSinks(applicationName, e);
    assert UsageIndexSink != ErrorIndexSink by {
      assert "usagenew-{0:yyyy.MM.dd}"[0] != "errornew2-{0:yyyy.MM.dd}"[0];
    }
    if hasE && hasU {
      assert d == [PerfSink, UsageIndexSink];
    } else if hasE {
      assert d == [PerfSink];
    } else if hasU {
      assert d == [UsageIndexSink];
    } else {
      assert d == [ErrorIndexSink, ErrorFileSink(applicationName)];
    }
  }

  // filters-for-sinks-added: two complementary routes on UsageName

  const UsageLogSink: Sink := MsSqlServer("UsageLog")
  const SeqSink: Sink := SeqServer("http://localhost:5341")

  const FiltersForSinksRoutes: seq<Route> :=
    [ Route([IncludingOnly(UsageName)], [UsageLogSink]),
      Route([Excluding(UsageName)], [SeqSink]) ]

  /** Every event reaches exactly one of the two sinks, chosen by UsageName. */
  lemma FiltersForSinksDispatch(e: LogEvent)
    ensures Dispatch(FiltersForSinksRoutes, e) == if HasProperty(e, UsageName) then [UsageLogSink] else [SeqSink]
  {
    var routes := FiltersForSinksRoutes;
    AcceptsSingle(IncludingOnly(UsageName), e);
    AcceptsSingle(Excluding(UsageName), e);
    assert routes == [routes[0]] + ([routes[1]] + []);
    DispatchCons(routes[0], [routes[1]] + [], e);
    DispatchCons(routes[1], [], e);
  }

  // baseline: one compact-JSON file for everything

  function BaselineFileSink(applicationName: string): Sink {
    File("C:\\temp\\Logs\\" + applicationName + ".json")
  }

  function BaselineRoutes(applicationName: string): seq<Route> {
    [ Route([], [BaselineFileSink(applicationName)]) ]
  }

  /** Every event goes to the one file, and only there. */
  lemma BaselineDispatch(applicationName: string, e: LogEvent)
    ensures Dispatch(BaselineRoutes(applicationName), e) == [BaselineFileSink(applicationName)]
  {
    var route := BaselineRoutes(applicationName)[0];
    assert BaselineRoutes(applicationName) == [route] + [];
    DispatchCons(route, [], e);
  }
}
