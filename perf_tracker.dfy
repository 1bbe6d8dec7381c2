/** PerfTracker: a stopwatch around a unit of work that, when stopped, emits
    one Information event carrying the label and the elapsed milliseconds. */
module Perf {
  import opened Common
  import opened Events

  /** The constructor's argument check: infoName and infoValue are given together or not at all. */
  function ValidateInfo(infoName: Option<string>, infoValue: Option<string>): (r: Outcome)
    ensures r.Fail? <==> IsNullOrEmpty(infoName) != IsNullOrEmpty(infoValue)
    ensures r.Fail? ==> r.fault == ArgumentError
  {
    if (IsNullOrEmpty(infoValue) && !IsNullOrEmpty(infoName))
       || (!IsNullOrEmpty(infoValue) && IsNullOrEmpty(infoName))
    then Fail(ArgumentError)
    else Pass
  }

  const PerfTemplate: string := "{PerfItem} took {ElapsedMilliseconds} milliseconds"
  const PerfTemplateWithInfo: string := "{PerfItem} took {ElapsedMilliseconds} milliseconds with {MoreName} of {MoreValues}"

  /** The event Stop emits. */
  function PerfEvent(item: Option<string>, elapsedMilliseconds: nat, infoName: Option<string>, infoValue: Option<string>): LogEvent {
    var core := [Property("PerfItem", StringScalar(item)),
                 Property("ElapsedMilliseconds", Scalar(SNumber(elapsedMilliseconds)))];
    if IsNullOrEmpty(infoValue) then
      LogEvent(Level.Information, PerfTemplate, core, None)
    else
      LogEvent(Level.Information, PerfTemplateWithInfo,
               core + [Property("MoreName", StringScalar(infoName)), Property("MoreValues", StringScalar(infoValue))],
               None)
  }

  /** A performance event is an Information event with PerfItem = the label and
      ElapsedMilliseconds = the reading, never a UsageName; it carries
      MoreName/MoreValues exactly when infoValue is not empty, and no other property. */
  lemma PerfEventProperties(item: Option<string>, elapsed: nat, infoName: Option<string>, infoValue: Option<string>)
    ensures PerfEvent(item, elapsed, infoName, infoValue).level == Level.Information
    ensures Lookup(PerfEvent(item, elapsed, infoName, infoValue).properties, "PerfItem") == Some(StringScalar(item))
    ensures Lookup(PerfEvent(item, elapsed, infoName, infoValue).properties, "ElapsedMilliseconds")
         == Some(Scalar(SNumber(elapsed)))
    ensures !HasProperty(PerfEvent(item, elapsed, infoName, infoValue), "UsageName")
    ensures HasProperty(PerfEvent(item, elapsed, infoName, infoValue), "MoreName") <==> !IsNullOrEmpty(infoValue)
    ensures HasProperty(PerfEvent(item, elapsed, infoName, infoValue), "MoreValues") <==> !IsNullOrEmpty(infoValue)
    ensures !IsNullOrEmpty(infoValue) ==>
      && Lookup(PerfEvent(item, elapsed, infoName, infoValue).properties, "MoreName") == Some(StringScalar(infoName))
      && Lookup(PerfEvent(item, elapsed, infoName, infoValue).properties, "MoreValues") == Some(StringScalar(infoValue))
    ensures |PerfEvent(item, elapsed, infoName, infoValue).properties| == if IsNullOrEmpty(infoValue) then 2 else 4
  {
    if IsNullOrEmpty(infoValue) {
      LabelOnlyPerfEvent(item, elapsed, infoName, infoValue);
    } else {
      InfoPerfEvent(item, elapsed, infoName, infoValue);
    }
  }

  /** Lookup passes over a property with another name. */
  lemma LookupPast(p: Property, rest: seq<Property>, name: string)
    requires p.name != name
    ensures Lookup([p] + rest, name) == Lookup(rest, name)
  {
    assert ([p] + rest)[1..] == rest;
  }

  /** A label-only event holds PerfItem and ElapsedMilliseconds and nothing else. */
  lemma LabelOnlyPerfEvent(item: Option<string>, elapsed: nat, infoName: Option<string>, infoValue: Option<string>)
    requires IsNullOrEmpty(infoValue)
    ensures |PerfEvent(item, elapsed, infoName, infoValue).properties| == 2
    ensures Lookup(PerfEvent(item, elapsed, infoName, infoValue).properties, "PerfItem") == Some(StringScalar(item))
    ensures Lookup(PerfEvent(item, elapsed, infoName, infoValue).properties, "ElapsedMilliseconds")
         == Some(Scalar(SNumber(elapsed)))
    ensures Lookup(PerfEvent(item, elapsed, infoName, infoValue).properties, "UsageName").None?
    ensures Lookup(PerfEvent(item, elapsed, infoName, infoValue).properties, "MoreName").None?
    ensures Lookup(PerfEvent(item, elapsed, infoName, infoValue).properties, "MoreValues").None?
  {
    var p0 := Property("PerfItem", StringScalar(item));
    var p1 := Property("ElapsedMilliseconds", Scalar(SNumber(elapsed)));
    assert PerfEvent(item, elapsed, infoName, infoValue).properties == [p0] + ([p1] + []);
    assert "MoreName" != "PerfItem" by {
      assert "MoreName"[0] != "PerfItem"[0];
    }
    LookupPast(p0, [p1] + [], "ElapsedMilliseconds");
    LookupPast(p0, [p1] + [], "UsageName");
    LookupPast(p1, [], "UsageName");
    LookupPast(p0, [p1] + [], "MoreName");
    LookupPast(p1, [], "MoreName");
    LookupPast(p0, [p1] + [], "MoreValues");
    LookupPast(p1, [], "MoreValues");
  }

  /** An event with info adds MoreName and MoreValues after the label and reading. */
  lemma InfoPerfEvent(item: Option<string>, elapsed: nat, infoName: Option<string>, infoValue: Option<string>)
    requires !IsNullOrEmpty(infoValue)
    ensures |PerfEvent(item, elapsed, infoName, infoValue).properties| == 4
    ensures Lookup(PerfEvent(item, elapsed, infoName, infoValue).properties, "PerfItem") == Some(StringScalar(item))
    ensures Lookup(PerfEvent(item, elapsed, infoName, infoValue).properties, "ElapsedMilliseconds")
         == Some(Scalar(SNumber(elapsed)))
    ensures Lookup(PerfEvent(item, elapsed, infoName, infoValue).properties, "UsageName").None?
    ensures Lookup(PerfEvent(item, elapsed, infoName, infoValue).properties, "MoreName") == Some(StringScalar(infoName))
    ensures Lookup(PerfEvent(item, elapsed, infoName, infoValue).properties, "MoreValues") == Some(StringScalar(infoValue))
  {
    var p0 := Property("PerfItem", StringScalar(item));
    var p1 := Property("ElapsedMilliseconds", Scalar(SNumber(elapsed)));
    var p2 := Property("MoreName", StringScalar(infoName));
    var p3 := Property("MoreValues", StringScalar(infoValue));
    assert PerfEvent(item, elapsed, infoName, infoValue).properties == [p0] + ([p1] + ([p2] + ([p3] + [])));
    assert "MoreName" != "PerfItem" by {
      assert "MoreName"[0] != "PerfItem"[0];
    }
    LookupPast(p0, [p1] + ([p2] + ([p3] + [])), "ElapsedMilliseconds");
    LookupPast(p0, [p1] + ([p2] + ([p3] + [])), "UsageName");
    LookupPast(p1, [p2] + ([p3] + []), "UsageName");
    LookupPast(p2, [p3] + [], "UsageName");
    LookupPast(p3, [], "UsageName");
    LookupPast(p0, [p1] + ([p2] + ([p3] + [])), "MoreName");
    LookupPast(p1, [p2] + ([p3] + []), "MoreName");
    LookupPast(p0, [p1] + ([p2] + ([p3] + [])), "MoreValues");
    LookupPast(p1, [p2] + ([p3] + []), "MoreValues");
    LookupPast(p2, [p3] + [], "MoreValues");
  }

  class PerfTracker {
    const whatsBeingTracked: Option<string>
    const infoName: Option<string>
    const infoValue: Option<string>
    /** The Stopwatch: whether it is running, and the reading it froze at when stopped. */
    var running: bool
    var elapsedMilliseconds: nat

    /** The part of the three-argument constructor after the argument check:
        store the item and start the clock. */
    constructor Started(whatsBeingTracked: Option<string>, infoName: Option<string>, infoValue: Option<string>)
      requires ValidateInfo(infoName, infoValue).Pass?
      ensures this.whatsBeingTracked == whatsBeingTracked
      ensures this.infoName == infoName && this.infoValue == infoValue
      ensures running && elapsedMilliseconds == 0
    {
      this.infoName := infoName;
      this.infoValue := infoValue;
      this.whatsBeingTracked := whatsBeingTracked;
      running := true;
      elapsedMilliseconds := 0;
    }

    /** new PerfTracker(whatsBeingTracked, infoName, infoValue): throws
        ArgumentException when only one of the two info values is given. */
    static method Create(whatsBeingTracked: Option<string>, infoName: Option<string>, infoValue: Option<string>)
      returns (r: Result<PerfTracker>)
      ensures r.Failure? <==> IsNullOrEmpty(infoName) != IsNullOrEmpty(infoValue)
      ensures r.Failure? ==> r.fault == ArgumentError
      ensures r.Success? ==>
        && fresh(r.value)
        && r.value.whatsBeingTracked == whatsBeingTracked
        && r.value.infoName == infoName && r.value.infoValue == infoValue
        && r.value.running && r.value.elapsedMilliseconds == 0
    {
      var check := ValidateInfo(infoName, infoValue);
      if check.Fail? {
        return Failure(check.fault);
      }
      var tracker := new PerfTracker.Started(whatsBeingTracked, infoName, infoValue);
      r := Success(tracker);
    }

    /** new PerfTracker(whatsBeingTracked): delegates with both info values
        null, which the argument check always accepts. */
    static method FromLabel(whatsBeingTracked: Option<string>) returns (t: PerfTracker)
      ensures fresh(t)
      ensures t.whatsBeingTracked == whatsBeingTracked && t.infoName.None? && t.infoValue.None?
      ensures t.running && t.elapsedMilliseconds == 0
    {
      var r := Create(whatsBeingTracked, None, None);
      t := r.value;
    }

    /** Stop the stopwatch and log. `clockReading` is what the stopwatch would
        read now if it were still running; a stopped stopwatch keeps its
        reading, so a second Stop logs the same event again. */
    method Stop(clockReading: nat, log: Logger)
      modifies this, log
      ensures !running
      ensures elapsedMilliseconds == if old(running) then clockReading else old(elapsedMilliseconds)
      ensures log.events == old(log.events) + [PerfEvent(whatsBeingTracked, elapsedMilliseconds, infoName, infoValue)]
    {
      if running {
        running := false;
        elapsedMilliseconds := clockReading;
      }
      if IsNullOrEmpty(infoValue) {
        log.Information(PerfTemplate,
          [Property("PerfItem", StringScalar(whatsBeingTracked)),
           Property("ElapsedMilliseconds", Scalar(SNumber(elapsedMilliseconds)))]);
      } else {
        assert PerfEvent(whatsBeingTracked, elapsedMilliseconds, infoName, infoValue).properties
          == [Property("PerfItem", StringScalar(whatsBeingTracked)),
              Property("ElapsedMilliseconds", Scalar(SNumber(elapsedMilliseconds))),
              Property("MoreName", StringScalar(infoName)),
              Property("MoreValues", StringScalar(infoValue))];
        log.Information(PerfTemplateWithInfo,
          [Property("PerfItem", StringScalar(whatsBeingTracked)),
           Property("ElapsedMilliseconds", Scalar(SNumber(elapsedMilliseconds))),
           Property("MoreName", StringScalar(infoName)),
           Property("MoreValues", StringScalar(infoValue))]);
      }
    }
  }
}
