/** LogUsageAttribute: a result filter that logs one usage event per executed result. */
module LogUsage {
  import opened Common
  import opened Events

  const UsageTemplate: string := "Usage captured for {UsageName}"

  /** The event OnResultExecuted emits. */
  function UsageEvent(usageName: Option<string>): LogEvent {
    LogEvent(Level.Information, UsageTemplate, [Property("UsageName", StringScalar(usageName))], None)
  }

  /** A usage event carries UsageName = the stored name and no ElapsedMilliseconds. */
  lemma UsageEventProperties(usageName: Option<string>)
    ensures UsageEvent(usageName).level == Level.Information
    ensures Lookup(UsageEvent(usageName).properties, "UsageName") == Some(StringScalar(usageName))
    ensures !HasProperty(UsageEvent(usageName), "ElapsedMilliseconds")
  {
    assert "UsageName"[0] != "ElapsedMilliseconds"[0];
  }

  class LogUsageAttribute {
    const usageName: Option<string>

    constructor (usageName: Option<string>)
      ensures this.usageName == usageName
    {
      this.usageName := usageName;
    }

    method OnResultExecuted(log: Logger)
      modifies log
      ensures log.events == old(log.events) + [UsageEvent(usageName)]
    {
      log.Information(UsageTemplate, [Property("UsageName", StringScalar(usageName))]);
    }
  }
}
