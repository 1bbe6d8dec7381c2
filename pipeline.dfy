/** Where the events this library emits end up: performance events from
    PerfTracker and usage events from LogUsageAttribute, run through the
    routes of the formatters-added and filters-for-sinks-added configurations. */
module Pipeline {
  import opened Common
  import opened Events
  import opened Perf
  import opened LogUsage
  import opened Routing

  /** A performance event reaches the performance table, never the usage
      index nor the catch-all error sinks; with the UsageName split it goes to Seq. */
  lemma PerfEventRouting(applicationName: string, item: Option<string>, elapsed: nat,
                         infoName: Option<string>, infoValue: Option<string>)
    ensures var d := Dispatch(FormattersAddedRoutes(applicationName), PerfEvent(item, elapsed, infoName, infoValue));
      && PerfSink in d && UsageIndexSink !in d
      && ErrorIndexSink !in d && ErrorFileSink(applicationName) !in d
    ensures Dispatch(FiltersForSinksRoutes, PerfEvent(item, elapsed, infoName, infoValue)) == [SeqSink]
  {
    var e := PerfEvent(item, elapsed, infoName, infoValue);
    PerfEventProperties(item, elapsed, infoName, infoValue);
    FormattersAddedDispatch(applicationName, e);
    FiltersForSinksDispatch(e);
  }

  /** A usage event reaches the usage index (formatters-added) or the UsageLog
      table (filters-for-sinks-added), never the performance or error sinks. */
  lemma UsageEventRouting(applicationName: string, usageName: Option<string>)
    ensures var d := Dispatch(FormattersAddedRoutes(applicationName), UsageEvent(usageName));
      && UsageIndexSink in d && PerfSink !in d
      && ErrorIndexSink !in d && ErrorFileSink(applicationName) !in d
    ensures Dispatch(FiltersForSinksRoutes, UsageEvent(usageName)) == [UsageLogSink]
  {
    var e := UsageEvent(usageName);
    UsageEventProperties(usageName);
    FormattersAddedDispatch(applicationName, e);
    FiltersForSinksDispatch(e);
  }
}
