# simple-serilog core, modelled in Dafny

Simple.Serilog is a small library that sets up Serilog structured logging in one place for a suite of ASP.NET Core applications. This project models its core and proves properties about the model:

- **Elasticsearch JSON formatter.** It overrides how property names, dictionaries, exceptions, levels and literals are written. Dots in field names become `/`. `SourceContext` and `EventId` are dropped. The members of an `HttpContext` structure are hoisted to the top level. Properties are wrapped in `"fields":{…}` or inlined. An exception is written as a `CustomError` tree plus a flat `@exceptionMessage`.
- **Exception flattener and renderer.**
  - `ToCustomError` turns an `InnerException` chain into a `CustomError` tree.
  - `InnermostMessage` finds the deepest message.
  - `CustomError.ToString` renders the tree into one shared `StringBuilder`.
- **Performance and usage events.**
  - `PerfTracker` validates its arguments, starts a stopwatch, and emits a `PerfItem`/`ElapsedMilliseconds` event when stopped.
  - `TrackPerformanceFilter` creates a tracker before a controller action and stops it afterwards.
  - `LogUsageAttribute` emits a `UsageName` event.
- **Configuration.**
  - The routes of the two later `WithSimpleConfiguration` versions, whose sub-loggers choose sinks by whether an event has an `ElapsedMilliseconds` or a `UsageName` property, and the single unfiltered file sink of the baseline.
  - The SQL column layout of the performance table.
  - The HTTP-context enricher, which aggregates claims by type.
  - The request-logging callback, which keys claims as `"{Type} ({i})"`.

Each module is one file:
- `common.dfy`: nullable values, the exceptions the code raises, and decimal printing.
- `events.dfy`: Serilog's event model and the static `Log`.
- `custom_error.dfy`
- `exception_extensions.dfy`
- `elasticsearch_formatter.dfy`
- `perf_tracker.dfy`
- `track_performance_filter.dfy`
- `log_usage_attribute.dfy`
- `routing.dfy`
- `sql_columns.dfy`
- `http_context.dfy`
- `context_enrichment.dfy`
- `request_logging.dfy`
- `pipeline.dfy`: lemmas that tie the emitted events to the routes.

Code that mutates state is modelled as classes and methods. Each method is proved against a specification function, and that function's properties are lemmas:
- `StringBuilder`, the formatter's output, `PerfTracker` and its stopwatch, the filter's `_tracker` field, the `ColumnOptions` store and the diagnostic context are all classes.
- `WriteError`, `ToCustomError`, `InnermostMessage`, the property-writing loops, the claim loops and the `ToDictionary` counter loop keep their loops.

Several pieces of the environment are modelled abstractly:
- A C# `null` is `Option.None`.
- A thrown exception is a `Result`/`Outcome` failure.
- Each write of Serilog's `DefaultJsonFormatter` base class is one `Token` appended to the output.
- The clock reading is a parameter of `Stop`.

The baseline and filters-for-sinks-added versions of `TrackPerformanceFilter.cs` have the same code, and so do the `EnrichDiagnosticContext` lambdas of the baseline and filters-for-sinks-added `SerilogHelpers.cs`. One model serves each pair, and the table cites both versions.

The model follows the code in four places a reader may not expect:
- **`PerfTracker.Stop` is not idempotent.** The `_tracker == null` guard never fires after construction. A stopped `Stopwatch` keeps its reading, so a second `Stop` logs the same event again. `TrackPerformanceFilter` never clears `_tracker`, so a second `OnActionExecuted` logs twice.
- **Hoisted members skip the omit list.** The omit list is checked against the outer property name only, so an `HttpContext` structure with a `SourceContext` member still writes a `SourceContext` field.
- **`WriteError` re-embeds the builder.** The inner call returns the builder's whole contents, so the `InnerError:` line repeats everything written so far, the outer levels included.
- **`@exceptionMessage` is not JSON-escaped.** `WriteException` writes the innermost message between two quotes as raw text. A message that contains `"` or `\` therefore produces invalid JSON. `WriteExceptionMessage` keeps that raw write.

## Model

| member | source | states |
|---|---|---|
| Events.Lookup | formatters-added/Simple.Serilog/SerilogHelpers.cs:43 | the property bag holds a value for a name exactly when some property has that name, and the value returned is that property's value |
| Events.HasProperty | formatters-added/Simple.Serilog/SerilogHelpers.cs:43 | `Matching.WithProperty(name)` holds exactly when some property of the event has that name |
| Events.Logger.Information | formatters-added/Simple.Serilog/PerfTracker.cs:50-51 | `Log.Information` appends exactly one Information event with the given template and properties, and no exception |
| CustomErrors.Render | formatters-added/Simple.Serilog/Formatters/CustomError.cs:22-38 | rendering only appends to the shared builder: whatever it held before is a prefix of what it holds afterwards |
| CustomErrors.RenderExtends | formatters-added/Simple.Serilog/Formatters/CustomError.cs:24-28 | rendering only appends: the builder's earlier contents followed by this level's five header lines (ExceptionType, Message, ModuleName, DeclaringTypeName, TargetSiteName, each after the prefix) are a prefix of the result |
| CustomErrors.OwnLinesInOrder | formatters-added/Simple.Serilog/Formatters/CustomError.cs:30-33 | the header lines are followed by one `Data-{Key}: {Value}` line per entry in list order, then the StackTrace line, and only then by anything from an inner level |
| CustomErrors.RenderFailsIffAnyNullData | formatters-added/Simple.Serilog/Formatters/CustomError.cs:30-35 | rendering throws exactly when this level's Data list is null or the inner level's rendering throws |
| CustomErrors.RenderFailsIffNullData | formatters-added/Simple.Serilog/Formatters/CustomError.cs:30 | rendering throws exactly when some node reached through InnerError has a null Data list |
| CustomErrors.InnerErrorReembedsBuilder | formatters-added/Simple.Serilog/Formatters/CustomError.cs:34-37 | with an inner error, the result is some text `t` followed by the line `{prefix}InnerError: {t}`; `t` holds this level's own lines and then the inner level's header under the prefix extended by exactly one tab |
| CustomErrors.LeafRendering | formatters-added/Simple.Serilog/Formatters/CustomError.cs:24-33 | a level without an inner error renders exactly header, data and StackTrace lines after what the builder held, and does not throw |
| CustomErrors.StringBuilder.AppendLine | formatters-added/Simple.Serilog/Formatters/CustomError.cs:24 | AppendLine adds the text and one newline at the end of the contents |
| CustomErrors.AppendHeader | formatters-added/Simple.Serilog/Formatters/CustomError.cs:24-28 | the five AppendLine calls add exactly the five header lines |
| CustomErrors.AppendDataLines | formatters-added/Simple.Serilog/Formatters/CustomError.cs:30-31 | the foreach adds one data line per entry, in list order |
| CustomErrors.WriteError | formatters-added/Simple.Serilog/Formatters/CustomError.cs:22-38 | the builder ends up holding the rendering of the tree (the inner level under the prefix plus one tab), and the return value is the whole builder, or the null-reference failure of a null Data list |
| CustomErrors.ToString | formatters-added/Simple.Serilog/Formatters/CustomError.cs:17-20 | ToString is the rendering with an empty prefix into an empty builder |
| ExceptionExtensions.DataEntries | formatters-added/Simple.Serilog/Formatters/ExceptionExtensions.cs:26-36 | at most one entry per Data item, and every entry has a non-null key and value |
| ExceptionExtensions.DataEntriesKeepNonNull | formatters-added/Simple.Serilog/Formatters/ExceptionExtensions.cs:26-36 | the entries are exactly the items whose value is not null: their number equals the count of such items, and (key, value) is an entry iff it is an item |
| ExceptionExtensions.DataEntriesAppend | formatters-added/Simple.Serilog/Formatters/ExceptionExtensions.cs:26-36 | the entries keep the enumeration order of Data: the entries of two concatenated lists are the entries of the first followed by those of the second |
| ExceptionExtensions.Flatten | formatters-added/Simple.Serilog/Formatters/ExceptionExtensions.cs:8-42 | the tree has one node per link of the InnerException chain, and no level of it has a null Data list |
| ExceptionExtensions.FlattenOneNodePerLink | formatters-added/Simple.Serilog/Formatters/ExceptionExtensions.cs:8-42 | the tree has one node per link of the InnerException chain, outermost first; each node copies type name, message and stack trace from its own link; the TargetSite fields are set iff TargetSite is non-null; Data is non-null; InnerError is null iff InnerException is null |
| ExceptionExtensions.FlattenedRendersWithoutFault | formatters-added/Simple.Serilog/Formatters/ExceptionExtensions.cs:15 | a flattened tree always has a Data list, so rendering it never throws |
| ExceptionExtensions.ToCustomError | formatters-added/Simple.Serilog/Formatters/ExceptionExtensions.cs:8-42 | the method (TargetSite copy, Data loop, recursive inner call) builds exactly the flattened tree |
| ExceptionExtensions.InnermostMessage | formatters-added/Simple.Serilog/Formatters/ExceptionExtensions.cs:44-51 | the loop returns the message of the last link of the chain, and the exception's own message when there is no inner exception |
| ExceptionExtensions.InnermostMessageIsDeepestNode | formatters-added/Simple.Serilog/Formatters/ExceptionExtensions.cs:38-51 | the innermost message equals the Message of the node reached by following InnerError from ToCustomError to its end |
| ElasticsearchFormatter.Escape | formatters-added/Simple.Serilog/Formatters/CustomElasticsearchJsonFormatter.cs:150 | same length; each '.' becomes '/', every other character is kept |
| ElasticsearchFormatter.DotEscapeFieldName | formatters-added/Simple.Serilog/Formatters/CustomElasticsearchJsonFormatter.cs:146-151 | null maps to null; otherwise same length, no '.', dots replaced by '/', other characters unchanged |
| ElasticsearchFormatter.DotEscapeScalar | formatters-added/Simple.Serilog/Formatters/CustomElasticsearchJsonFormatter.cs:137-140 | a string scalar is replaced by its escaped string; any other scalar is returned unchanged |
| ElasticsearchFormatter.EscapeRemovesDots | formatters-added/Simple.Serilog/Formatters/CustomElasticsearchJsonFormatter.cs:150 | an escaped name contains no '.' |
| ElasticsearchFormatter.EscapeIdempotent | formatters-added/Simple.Serilog/Formatters/CustomElasticsearchJsonFormatter.cs:150 | escaping an escaped name returns it unchanged |
| ElasticsearchFormatter.EscapeFixesDotFree | formatters-added/Simple.Serilog/Formatters/CustomElasticsearchJsonFormatter.cs:150 | a name without dots is its own escape |
| ElasticsearchFormatter.HoistedWrites | formatters-added/Simple.Serilog/Formatters/CustomElasticsearchJsonFormatter.cs:120-125 | one write per structure member, each a property write under a name with no '.' |
| ElasticsearchFormatter.PropertyWrites | formatters-added/Simple.Serilog/Formatters/CustomElasticsearchJsonFormatter.cs:111-132 | the override writes only properties under names with no '.', and writes more than one only for a name equal to HttpContext ignoring case |
| ElasticsearchFormatter.HoistedWritesMembers | formatters-added/Simple.Serilog/Formatters/CustomElasticsearchJsonFormatter.cs:120-125 | hoisting writes exactly one property per structure member, in member order, under the member's escaped name with its value |
| ElasticsearchFormatter.PropertyWritesCases | formatters-added/Simple.Serilog/Formatters/CustomElasticsearchJsonFormatter.cs:111-132 | SourceContext or EventId: nothing written; an HttpContext name (any case) with a structure: its members hoisted in order; with any other value: nothing; every other name: one write under the escaped name with the value unchanged |
| ElasticsearchFormatter.PropertiesValuesWrites | formatters-added/Simple.Serilog/Formatters/CustomElasticsearchJsonFormatter.cs:91 | every write produced for an event's properties is a property under a name with no '.' |
| ElasticsearchFormatter.PropertiesSection | formatters-added/Simple.Serilog/Formatters/CustomElasticsearchJsonFormatter.cs:83-95 | the section is the property writes plus one punctuation write (inlined) or two (wrapped); punctuation appears only first and, when wrapped, last |
| ElasticsearchFormatter.InlineFieldsKeepsFields | formatters-added/Simple.Serilog/Formatters/CustomElasticsearchJsonFormatter.cs:83-95 | with or without the `"fields":{…}` wrapper the same property writes appear in the same order; only the punctuation differs |
| ElasticsearchFormatter.OmittedNamesNotWritten | formatters-added/Simple.Serilog/Formatters/CustomElasticsearchJsonFormatter.cs:114-116 | when no property is named like HttpContext, no written field is named SourceContext or EventId |
| ElasticsearchFormatter.EscapePreservesOmittedNames | formatters-added/Simple.Serilog/Formatters/CustomElasticsearchJsonFormatter.cs:114-131 | escaping maps no name other than SourceContext or EventId onto one of them |
| ElasticsearchFormatter.FixedNameWrites | formatters-added/Simple.Serilog/Formatters/CustomElasticsearchJsonFormatter.cs:158 | the formatter's own `exception` and `level` fields go through the override as a single unchanged write |
| ElasticsearchFormatter.PlainNameWrites | formatters-added/Simple.Serilog/Formatters/CustomElasticsearchJsonFormatter.cs:127-131 | a dot-free name that is neither omitted nor HttpContext is written once, unchanged |
| ElasticsearchFormatter.HttpContextStructureHoisted | formatters-added/Simple.Serilog/Formatters/CustomElasticsearchJsonFormatter.cs:118-125 | a property spelled HttpContext whose value is a structure is replaced by its hoisted members |
| ElasticsearchFormatter.HoistedMemberIsNotOmitted | formatters-added/Simple.Serilog/Formatters/CustomElasticsearchJsonFormatter.cs:114-125 | an HttpContext structure with a SourceContext member writes a SourceContext field: hoisted members skip the omit list |
| ElasticsearchFormatter.EscapeKeys | formatters-added/Simple.Serilog/Formatters/CustomElasticsearchJsonFormatter.cs:103 | the re-keyed dictionary keeps length, order and values; each key is the escaped key, and string keys have no '.' |
| ElasticsearchFormatter.CollidingKeysExample | formatters-added/Simple.Serilog/Formatters/CustomElasticsearchJsonFormatter.cs:103 | the distinct keys `a.b` and `a/b` escape to the same key, so ToDictionary throws |
| ElasticsearchFormatter.LevelNameInjective | formatters-added/Simple.Serilog/Formatters/CustomElasticsearchJsonFormatter.cs:186-190 | no two levels are written under the same name, so the `level` field identifies the level |
| ElasticsearchFormatter.ExceptionWrites | formatters-added/Simple.Serilog/Formatters/CustomElasticsearchJsonFormatter.cs:156-165 | the tree under `exception` is the exception's only property write; the `@exceptionMessage` field is written as raw text |
| ElasticsearchFormatter.ExceptionMessageMatchesTree | formatters-added/Simple.Serilog/Formatters/CustomElasticsearchJsonFormatter.cs:158-164 | the exception is written as the flattened tree under `exception`, and the `@exceptionMessage` text is the Message of the tree's deepest node |
| ElasticsearchFormatter.CustomElasticsearchJsonFormatter.constructor | formatters-added/Simple.Serilog/Formatters/CustomElasticsearchJsonFormatter.cs:55-67 | the serializer and inlineFields settings are stored as given |
| ElasticsearchFormatter.CustomElasticsearchJsonFormatter.WriteJsonProperty | formatters-added/Simple.Serilog/Formatters/CustomElasticsearchJsonFormatter.cs:111-132 | the override appends exactly the writes of the three cases; the delimiter becomes "," after any write and is otherwise unchanged |
| ElasticsearchFormatter.CustomElasticsearchJsonFormatter.WritePropertiesValues | formatters-added/Simple.Serilog/Formatters/CustomElasticsearchJsonFormatter.cs:91 | the base loop calls the override once per property, in order |
| ElasticsearchFormatter.CustomElasticsearchJsonFormatter.WriteProperties | formatters-added/Simple.Serilog/Formatters/CustomElasticsearchJsonFormatter.cs:83-95 | writes `,"fields":{` … `}` exactly when inlineFields is false, and only a leading `,` otherwise |
| ElasticsearchFormatter.CustomElasticsearchJsonFormatter.WriteDictionary | formatters-added/Simple.Serilog/Formatters/CustomElasticsearchJsonFormatter.cs:100-106 | the escaped dictionary is written iff the escaped keys are still distinct; otherwise it fails with an argument error and writes nothing |
| ElasticsearchFormatter.CustomElasticsearchJsonFormatter.WriteException | formatters-added/Simple.Serilog/Formatters/CustomElasticsearchJsonFormatter.cs:156-165 | writes the ToCustomError tree under `exception`, then `,"@exceptionMessage":"…"` holding InnermostMessage |
| ElasticsearchFormatter.CustomElasticsearchJsonFormatter.WriteExceptionMessage | formatters-added/Simple.Serilog/Formatters/CustomElasticsearchJsonFormatter.cs:160-164 | the five hand-written pieces of the message field, in order |
| ElasticsearchFormatter.CustomElasticsearchJsonFormatter.WriteLevel | formatters-added/Simple.Serilog/Formatters/CustomElasticsearchJsonFormatter.cs:186-190 | writes the level's enum name under `level` |
| ElasticsearchFormatter.CustomElasticsearchJsonFormatter.WriteLiteralValue | formatters-added/Simple.Serilog/Formatters/CustomElasticsearchJsonFormatter.cs:205-215 | with a serializer, its text is written verbatim; without one, the base literal write |
| Perf.ValidateInfo | formatters-added/Simple.Serilog/PerfTracker.cs:31-36 | fails with an argument error exactly when one of infoName/infoValue is null-or-empty and the other is not |
| Perf.PerfEventProperties | formatters-added/Simple.Serilog/PerfTracker.cs:48-58 | the stop event is Information with PerfItem = label and ElapsedMilliseconds = the reading, has no UsageName, and has MoreName = infoName and MoreValues = infoValue exactly when infoValue is non-empty; a label-only event holds those two properties and no other, an event with info exactly four |
| Perf.PerfTracker.Started | formatters-added/Simple.Serilog/PerfTracker.cs:37-39 | after the check, the label and info values are stored and the stopwatch runs from zero |
| Perf.PerfTracker.Create | formatters-added/Simple.Serilog/PerfTracker.cs:27-40 | the three-argument constructor throws exactly when the check fails; otherwise the new tracker holds the label and info values and its stopwatch runs |
| Perf.PerfTracker.FromLabel | formatters-added/Simple.Serilog/PerfTracker.cs:15-17 | the one-argument constructor never throws and leaves both info values null |
| Perf.PerfTracker.Stop | formatters-added/Simple.Serilog/PerfTracker.cs:42-59 | the stopwatch is stopped, its reading is frozen at the first stop, and one performance event with that reading is logged on every call |
| TrackPerformance.TrackerLabel | baseline/Simple.Serilog/Filters/TrackPerformanceFilter.cs:16 | the label is the controller name, '-', then the action name |
| TrackPerformance.TrackPerformanceFilter.constructor | baseline/Simple.Serilog/Filters/TrackPerformanceFilter.cs:9 | a new filter has no tracker |
| TrackPerformance.TrackPerformanceFilter.OnActionExecuting | filters-for-sinks-added/Simple.Serilog/Filters/TrackPerformanceFilter.cs:9-15 | a non-controller action leaves the tracker as it was; a controller action replaces it with a new running, label-only tracker labelled `{Controller}-{Action}` |
| TrackPerformance.TrackPerformanceFilter.OnActionExecuted | baseline/Simple.Serilog/Filters/TrackPerformanceFilter.cs:30-33 | without a tracker, nothing is logged; otherwise the current tracker is stopped and logs one event without MoreName/MoreValues; the field is kept |
| TrackPerformance.ExecutedTwiceLogsTwice | filters-for-sinks-added/Simple.Serilog/Filters/TrackPerformanceFilter.cs:8-20 | one controller action followed by two OnActionExecuted calls logs the same performance event twice, both with the first reading |
| TrackPerformance.OverlappingRequestsShareTracker | baseline/SimpleApi/Startup.cs:26 | with the one filter instance registered for all requests, request A starting, request B starting, then both finishing logs B's event twice with the reading taken when A finished, and never logs A's action |
| LogUsage.UsageEventProperties | filters-for-sinks-added/Simple.Serilog/Attributes/LogUsageAttribute.cs:22 | the usage event is Information, its UsageName is the stored name, and it has no ElapsedMilliseconds |
| LogUsage.LogUsageAttribute.constructor | filters-for-sinks-added/Simple.Serilog/Attributes/LogUsageAttribute.cs:16-19 | the usage name is stored unchanged |
| LogUsage.LogUsageAttribute.OnResultExecuted | filters-for-sinks-added/Simple.Serilog/Attributes/LogUsageAttribute.cs:20-23 | each call logs exactly one usage event for the stored name |
| Routing.Dispatch | formatters-added/Simple.Serilog/SerilogHelpers.cs:41-74 | a sink receives an event exactly when some route that lists the sink lets the event through all of its filters |
| Routing.FormattersAddedSinks | formatters-added/Simple.Serilog/SerilogHelpers.cs:42-74 | an event reaches, in configuration order, the perf table when it has ElapsedMilliseconds, the usage index when it has UsageName, and the error index and error file when it has neither, and no other sink |
| Routing.FormattersAddedDispatch | formatters-added/Simple.Serilog/SerilogHelpers.cs:42-74 | the performance table receives exactly the events with ElapsedMilliseconds; the usage index exactly those with UsageName; the error index and error file exactly those with neither; every event that passes the level checks reaches some sink |
| Routing.FiltersForSinksDispatch | filters-for-sinks-added/Simple.Serilog/SerilogHelpers.cs:36-44 | an event that passes the level checks goes to the UsageLog table if it has UsageName and to Seq otherwise, and to nothing else |
| Routing.BaselineDispatch | baseline/Simple.Serilog/SerilogHelpers.cs:30-31 | every event goes to the one file `C:\temp\Logs\{applicationName}.json` and nowhere else |
| SqlColumns.RemoveFirst | formatters-added/Simple.Serilog/SerilogHelpers.cs:80-85 | `List.Remove` leaves a list without the column unchanged and otherwise shortens it by one |
| SqlColumns.RemoveFirstMultiset | formatters-added/Simple.Serilog/SerilogHelpers.cs:80-85 | removal takes out one copy of the column and nothing else |
| SqlColumns.RemoveFirstKeepsOrder | formatters-added/Simple.Serilog/SerilogHelpers.cs:80-85 | removal takes out the first occurrence and keeps the rest in order |
| SqlColumns.PerfStoreRemovals | formatters-added/Simple.Serilog/SerilogHelpers.cs:80-85 | the five removals leave Id and TimeStamp of the default store, in that order |
| SqlColumns.PerfColumnsNotNull | formatters-added/Simple.Serilog/SerilogHelpers.cs:90-109 | the four extra columns (PerfItem, ElapsedMilliseconds, ActionName, MachineName) are all non-nullable, and only PerfItem is indexed |
| SqlColumns.ColumnOptions.constructor | formatters-added/Simple.Serilog/SerilogHelpers.cs:79 | a new ColumnOptions stores the default standard columns and no extra columns |
| SqlColumns.ColumnOptions.Remove | formatters-added/Simple.Serilog/SerilogHelpers.cs:83 | Store.Remove drops the first occurrence and changes nothing else |
| SqlColumns.ColumnOptions.Add | formatters-added/Simple.Serilog/SerilogHelpers.cs:86 | Store.Add appends the column and changes nothing else |
| SqlColumns.StoreLogEventOnly | formatters-added/Simple.Serilog/SerilogHelpers.cs:79-86 | after the five removals and the LogEvent addition, the store is Id, TimeStamp, LogEvent |
| SqlColumns.GetSqlColumnOptions | formatters-added/Simple.Serilog/SerilogHelpers.cs:77-112 | the performance table keeps Id, TimeStamp and LogEvent, excludes standard columns and extra properties from the LogEvent JSON, and has the four extra columns |
| SqlColumns.GetDefaultSqlColumnOptions | filters-for-sinks-added/Simple.Serilog/SerilogHelpers.cs:54-58 | the usage table keeps the sink's default layout |
| ContextEnrichment.FirstValueOf | formatters-added/Simple.Serilog/SerilogHelpers.cs:123 | null iff no claim has the type; otherwise the value of the first claim of that type |
| ContextEnrichment.ValuesOf | formatters-added/Simple.Serilog/SerilogHelpers.cs:135-138 | every value listed comes from a claim of the type |
| ContextEnrichment.ValuesOfAppend | formatters-added/Simple.Serilog/SerilogHelpers.cs:136-137 | values are collected in claim order |
| ContextEnrichment.ValuesOfCollectsEvery | formatters-added/Simple.Serilog/SerilogHelpers.cs:135-137 | every claim of the type contributes its value: duplicates are aggregated, not overwritten |
| ContextEnrichment.FirstValueIsFirstOfValues | formatters-added/Simple.Serilog/SerilogHelpers.cs:117-123 | UserId is the first value UserClaims would list for `sub`, or null when there is none |
| ContextEnrichment.IncludedTypes | formatters-added/Simple.Serilog/SerilogHelpers.cs:130-132 | a type is listed iff some claim has it and it is not nbf, exp, auth_time, amr or sub |
| ContextEnrichment.Distinct | formatters-added/Simple.Serilog/SerilogHelpers.cs:133 | same elements, each once |
| ContextEnrichment.AddCustomContextDetails | formatters-added/Simple.Serilog/SerilogHelpers.cs:114-142 | null iff there is no context or identity or the user is not authenticated; otherwise UserName is the identity name, UserId the first `sub` value, and UserClaims maps exactly the non-excluded claim types, each to all its values in claim order |
| RequestLogging.ClaimKey | baseline/Simple.Serilog/SerilogHelpers.cs:48 | the key starts with the claim type and is three characters longer than the type and the printed index together |
| RequestLogging.ClaimKeyInjective | baseline/Simple.Serilog/SerilogHelpers.cs:44-48 | two keys are equal only for the same type and the same counter value, so repeated claim types never collide |
| RequestLogging.NumberedClaimsDetermined | baseline/Simple.Serilog/SerilogHelpers.cs:47-48 | the Claims dictionary is fully determined by the claims: one entry per claim, holding its value |
| RequestLogging.NumberedClaims | filters-for-sinks-added/Simple.Serilog/SerilogHelpers.cs:70-74 | the counter loop never meets a repeated key; the dictionary maps `"{Type} ({i})"` to the i-th claim's value, holds nothing else, and has as many entries as there are claims |
| RequestLogging.DiagnosticContext.Set | filters-for-sinks-added/Simple.Serilog/SerilogHelpers.cs:66 | Set records the value and its destructuring flag under the name, replacing any earlier one |
| RequestLogging.EnrichDiagnosticContext | filters-for-sinks-added/Simple.Serilog/SerilogHelpers.cs:64-78 | ClientIP and UserAgent are always set; a missing identity throws after that; UserInfo (name and numbered claims, destructured) is set exactly for an authenticated identity; no other property changes |
| Pipeline.PerfEventRouting | formatters-added/Simple.Serilog/SerilogHelpers.cs:42-74 | a PerfTracker event reaches the performance table and neither the usage index nor the error sinks; with the UsageName split it goes to Seq only |
| Pipeline.UsageEventRouting | filters-for-sinks-added/Simple.Serilog/SerilogHelpers.cs:36-44 | a LogUsageAttribute event reaches the UsageLog table only, and in formatters-added the usage index and neither the performance table nor the error sinks |

## Left out

- The physical sinks (SQL Server, Elasticsearch, Seq, file), their connection strings and the template registration are I/O. A route's sinks are named values only.
- `ReadFrom.Configuration` is not modelled. It reads settings such as the minimum level from each project's configuration.
- The enrichers `FromLogContext` and `WithMachineName` and the Assembly/Version properties are not modelled, and neither is the wiring of `AddCustomContextDetails` as an enricher. Events are routed with the properties they were emitted with.
- Level filtering is not modelled. Two minimum levels can drop an event before any route sees it: the configured one, and each sub-logger's own, which is Information by default. `Events.Logger.Information` records every call, and `Routing.Dispatch` does not read the level. The routing lemmas are about events that pass both checks.
- Serilog's `DefaultJsonFormatter` base class is not modelled: JSON escaping, the event envelope, the delimiter text and the `TextWriter`. A base write is one token, and a base property write sets the delimiter to `,`.
- The formatter overrides `WriteRenderedMessage`, `WriteMessageTemplate` and `WriteTimestamp` only forward to `WriteJsonProperty`. They are not modelled separately.
- The `WriteRenderings` override is not modelled. It writes `"renderings":{…}` around the base `WriteRenderingsValues`, which writes the template's token names without `DotEscapeFieldName`. A dotted name can therefore still reach the output as a key under `renderings`, and the model's dot-free results do not cover that section.
- `ElasticsearchFormatter.EqualsIgnoreCase` compares ASCII letters only, position by position. It does not model culture-invariant case folding of non-ASCII characters. It also does not model ignorable code points such as the soft hyphen U+00AD, which `InvariantCultureIgnoreCase` treats as matching nothing; under that comparison two names of different lengths can be equal.
- `CustomErrors.Render`: a Data list here holds entries, never a null entry. The foreach at CustomError.cs:30-31 would throw a NullReferenceException on `item.Key` for a null entry. `ToCustomError` never adds one.
- `IElasticsearchSerializer.SerializeToString` is a foreign call. It is a function parameter whose result is written verbatim.
- `Stopwatch` and wall-clock time: the reading the stopwatch would show is a parameter of `Stop`.
- Reflection (`GetType().Name`, `TargetSite`, `Module.Name`, `DeclaringType`) is plain fields of the exception datatype. An `InnerException` chain is an inductive datatype, so it cannot be cyclic; the source has no cycle guard.
- Exception.Data keys and non-null values are their `ToString()` text, so the model does not cover a `ToString()` that returns null.
- ASP.NET Core's `HttpContext`, `ClaimsPrincipal` and `IHttpContextAccessor` are reduced to an optional identity (authenticated flag and name), a claim sequence, the remote address and the User-Agent header values.
- The `UserInfo` classes of both request-logging versions are not part of this model. They are represented by the data they hold.
- The sample applications' controllers, `Startup.cs` and `Program.cs`, and the library's HTTP client and API-exception middleware are host wiring, outside the logging core.
- ElasticsearchFormatter.CustomElasticsearchJsonFormatter.WriteDictionary: requires distinct keys, because its input is a .NET dictionary, which cannot hold a key twice.
- Concurrency is not modelled. The model runs one filter call at a time. `Startup.cs` registers a single `TrackPerformanceFilter` for the whole application, so concurrent requests share its `_tracker` field, and one request's `OnActionExecuted` can stop and log another request's tracker. `TrackPerformance.OverlappingRequestsShareTracker` shows the effect of one such interleaving, with each call running to completion. The model does not capture accesses that tear within a call.
- `CustomErrors.NewLine` is `"\n"`. `Environment.NewLine` is `"\r\n"` on Windows, the platform the sample file paths (`C:\temp\…`) target, so the rendered text there has `\r\n` line ends.
- ContextEnrichment.AddCustomContextDetails: `UserClaims` is a Dafny `map`, so the model keeps which types map to which values but not the `Dictionary`'s insertion order of the types.
