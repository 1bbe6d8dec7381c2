/** The Serilog event model the pipeline consumes: levels, the closed family
    of property values, the exception chains an event may carry, and the
    process-wide logger that call sites emit into. */
module Events {
  import opened Common

  /** Serilog's LogEventLevel. */
  datatype Level = Verbose | Debug | Information | Warning | Error | Fatal

  /** The payload of a ScalarValue. Strings are the only payload the formatter inspects. */
  datatype Scalar =
    | SNull
    | SString(s: string)
    | SNumber(n: int)
    | SBool(b: bool)

  /** LogEventPropertyValue: scalar, sequence, structure or dictionary. */
  datatype PropertyValue =
    | Scalar(scalar: Scalar)
    | Sequence(elements: seq<PropertyValue>)
    | Structure(typeTag: Option<string>, members: seq<Property>)
    | Dictionary(entries: seq<(Scalar, PropertyValue)>)

  /** A named property: an event property or a member of a StructureValue. */
  datatype Property = Property(name: string, value: PropertyValue)

  /** The reflection data behind Exception.TargetSite: Module.Name, DeclaringType?.Name, Name. */
  datatype TargetSite = TargetSite(moduleName: string, declaringTypeName: Option<string>, name: string)

  /** One entry of Exception.Data, with its key already rendered by ToString();
      `value` is None when the stored object is null. */
  datatype DataItem = DataItem(key: string, value: Option<string>)

  /** A .NET exception as the flattener sees it. The chain is inductive, hence acyclic. */
  datatype Exception = Exception(
    typeName: string,                  // GetType().Name
    message: string,                   // Message
    stackTrace: Option<string>,        // StackTrace (null before the exception is thrown)
    targetSite: Option<TargetSite>,    // TargetSite (null without a call-site binding)
    data: seq<DataItem>,               // Data, in key enumeration order
    inner: Option<Exception>)          // InnerException

  /** An immutable log event; property names are unique within an event. */
  datatype LogEvent = LogEvent(
    level: Level,
    messageTemplate: string,
    properties: seq<Property>,
    exception: Option<Exception>)

  /** The value of property `name`, if the bag holds one. */
  function Lookup(properties: seq<Property>, name: string): (r: Option<PropertyValue>)
    ensures r.Some? <==> exists k :: 0 <= k < |properties| && properties[k].name == name
    ensures r.Some? ==> exists k :: 0 <= k < |properties| && properties[k] == Property(name, r.value)
  {
    if |properties| == 0 then None
    else if properties[0].name == name then Some(properties[0].value)
    else
      var r := Lookup(properties[1..], name);
      assert forall k :: 0 <= k < |properties| - 1 ==> properties[1..][k] == properties[k + 1];
      r
  }

  /** Serilog's Matching.WithProperty(name): the event's property bag contains `name`. */
  predicate HasProperty(e: LogEvent, name: string): (r: bool)
    ensures r <==> exists k :: 0 <= k < |e.properties| && e.properties[k].name == name
  {
    Lookup(e.properties, name).Some?
  }

  /** A string-valued scalar as Serilog captures a (possibly null) string argument. */
  function StringScalar(s: Option<string>): PropertyValue {
    if s.None? then Scalar(SNull) else Scalar(SString(s.value))
  }

  /** The static Serilog `Log`: every emission appends one event. */
  class Logger {
    var events: seq<LogEvent>

    constructor ()
      ensures events == []
    {
      events := [];
    }

    /** Log.Information(template, args), with the template's named holes already bound to `properties`. */
    method Information(messageTemplate: string, properties: seq<Property>)
      modifies this
      ensures events == old(events) + [LogEvent(Level.Information, messageTemplate, properties, None)]
    {
      events := events + [LogEvent(Level.Information, messageTemplate, properties, None)];
    }
  }
}
