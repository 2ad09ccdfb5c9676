# otel-utils-jvm core, modelled in Dafny

This project models the three pieces of `otel-utils-jvm` that make decisions of their own.

- **SpanUtils** (`span_utils.dfy`) starts an OpenTelemetry span and runs a unit of work in it.
  - The span is a root span, a child of a parent, or linked to a cause.
  - The span is made current and tagged with the caller's thread id and name.
  - On the way out, the helper decides whether `end()` is called, whether the failure is recorded, whether the status becomes ERROR, and what the caller gets back or has thrown at it.
- **OtelToLog4j2** (`otel_to_log4j2.dfy`) turns each event of a finished span into a Log4j2 log event.
  - The level comes from the span status, then from the event's `level` attribute, then from a default.
  - The message map holds every span attribute as text, plus the event name under `message`.
- **Log4j2SpanProcessor** (`log4j2_span_processor.dfy`) hands the converted log events of every ended span to one appender, in order.

Supporting modules:

- `otel_span.dfy` is the span the helpers drive. It is a class whose fields (attributes, recorded exceptions, status, end count, open scopes) are kept in step with the log of calls made on it. The call log is what lets the order of calls be stated.
- `java_exceptions.dfy` gives Java's throwables as the library tells them apart: checked exceptions, unchecked exceptions and Errors. It also defines `Outcome`, which is how a Java call completes.
- `java_strings.dfy` covers `String.strip`, `isBlank`, `toUpperCase`, `equalsIgnoreCase` and `String.valueOf(long)`.
- `wrappers.dfy` holds `Option` and `Result`.

How the Java program maps onto the model:

- A nullable argument is an `Option`, and `None` stands for null.
- A unit of work (`SpanConsumer`, `SpanFunction`, `ConditionallyReportedSpanConsumer`) is given by how it completes: `Returned(v)` or `Threw(t)`. A null `SpanReportingDecision` is `Returned(None)`.
- Every entry point returns the span it started, or null when it started none, together with how the call completed for the caller.
- A thrown exception is a `Threw` outcome carrying the exception's class and message.

## Model

| member | source | states |
|---|---|---|
| SpanUtils.RequireSpanName | src/main/java/io/github/wcarmon/otel/SpanUtils.java:295-299 | no error exactly when the name is non-null and has a non-whitespace character; otherwise IllegalArgumentException "spanName is required" |
| SpanUtils.ShapeFor | src/main/java/io/github/wcarmon/otel/SpanUtils.java:130-157 | succeeds exactly when (ROOT iff no reference). PARENT_CHILD gives parent = reference and no links; LINKED gives no parent and one link = reference; ROOT gives neither. Failures: NPE "parent is required and null." / "cause is required and null.", and IllegalArgumentException "parent/cause must be null for root span" |
| SpanUtils.ShapeDeterminesRelationship | src/main/java/io/github/wcarmon/otel/SpanRelationship.java:3-12 | the three relationships give spans that can be told apart: relationship and reference can be read back from the parent and links |
| SpanUtils.AsRuntimeException | src/main/java/io/github/wcarmon/otel/SpanUtils.java:32-37 | the result is always unchecked; it is the same throwable exactly when that one is already a RuntimeException, otherwise a RuntimeException wrapping it |
| SpanUtils.Record | src/main/java/io/github/wcarmon/otel/SpanUtils.java:25-38 | null span gives NPE "span is required and null."; null ex gives NPE "ex is required and null." and leaves the span unchanged; otherwise the exception is recorded, then the status is set to ERROR, nothing else changes, and the result is the exception as a RuntimeException |
| SpanUtils.DoRun | src/main/java/io/github/wcarmon/otel/SpanUtils.java:264-278 | on every outcome: scope opened, thread id and name set, work run, scope closed, span ended exactly once (finally). An Exception is recorded with status ERROR and rethrown through `record`; an Error is not recorded but the span is still ended |
| SpanUtils.DoSupply | src/main/java/io/github/wcarmon/otel/SpanUtils.java:280-293 | as DoRun; the value the function returns is handed back unchanged |
| SpanUtils.ScopedRunRethrowsUncheckedAsIs | src/main/java/io/github/wcarmon/otel/SpanUtils.java:271-273 | doRun/doSupply hand back a returned value and a thrown RuntimeException or Error unchanged; only a checked exception is wrapped |
| SpanUtils.ScopedRunShape | src/main/java/io/github/wcarmon/otel/SpanUtils.java:265-291 | on every exit path the scope is opened first and the thread attributes are set before the work runs. The scope is closed again, and the span is ended exactly once, as the very last call |
| SpanUtils.RunInARootSpan | src/main/java/io/github/wcarmon/otel/SpanUtils.java:49-56 | errors in the source's check order: name, spanConsumer, tracer, with no span started. Otherwise a span with no parent and no links, run as in DoRun |
| SpanUtils.RunInChildSpan | src/main/java/io/github/wcarmon/otel/SpanUtils.java:68-81 | errors in order: name, parent, spanConsumer, tracer, with no span started. Otherwise a span whose parent is `parent`, with no links, run as in DoRun |
| SpanUtils.RunInLinkedSpan | src/main/java/io/github/wcarmon/otel/SpanUtils.java:95-105 | errors in order: name, cause, spanConsumer, tracer, with no span started. Otherwise a span with no parent and one link to `cause`, run as in DoRun |
| SpanUtils.RunInSpan | src/main/java/io/github/wcarmon/otel/SpanUtils.java:118-192 | errors in order: name, relationship, spanConsumer, tracer, then the relationship/reference mismatch, with no span started. REPORT: ended once and normal return. DO_NOT_REPORT: never ended and normal return. Null decision: IllegalStateException recorded, status ERROR, ended once, caller gets a RuntimeException caused by it. Exception: recorded, status ERROR, ended once, caller gets a new RuntimeException caused by it. Error: passes through with the span left un-ended |
| SpanUtils.RunReporting | src/main/java/io/github/wcarmon/otel/SpanUtils.java:159-191 | the try block of runInSpan on a fresh span: it leaves the span in the state the REPORT, DO_NOT_REPORT, null-decision, Exception and Error paths each call for, and completes as ConditionalRunOutcome says |
| SpanUtils.CatchInRunInSpan | src/main/java/io/github/wcarmon/otel/SpanUtils.java:185-190 | the catch clause: the exception is recorded, the status becomes ERROR, the span is ended once more, nothing else changes, and the caller gets a new RuntimeException caused by it |
| SpanUtils.RunInSpanAlwaysWraps | src/main/java/io/github/wcarmon/otel/SpanUtils.java:185-190 | runInSpan wraps even a RuntimeException in a new RuntimeException, where doRun hands the same exception back; the two outcomes differ |
| SpanUtils.ConditionalRunScope | src/main/java/io/github/wcarmon/otel/SpanUtils.java:159-191 | on every exit path of runInSpan the scope it opened is closed again |
| SpanUtils.ConditionalRunEnds | src/main/java/io/github/wcarmon/otel/SpanUtils.java:159-191 | the thread attributes are set before the work runs. REPORT ends the span once, inside the scope; DO_NOT_REPORT and an Error never end it; an Exception or a null decision ends it once, as the last call |
| SpanUtils.SupplyInARootSpan | src/main/java/io/github/wcarmon/otel/SpanUtils.java:204-211 | errors in order: name, fn, tracer. Otherwise a root span run as in DoSupply, returning the function's value |
| SpanUtils.SupplyInChildSpan | src/main/java/io/github/wcarmon/otel/SpanUtils.java:224-237 | errors in order: name, fn, then parent (fn is checked before parent, unlike runInChildSpan), then tracer. Otherwise a child span run as in DoSupply |
| SpanUtils.SupplyInLinkedSpan | src/main/java/io/github/wcarmon/otel/SpanUtils.java:252-262 | errors in order: name, fn, cause, tracer. Otherwise a linked span run as in DoSupply |
| OtelSpan.EndsInCountsEnds | src/main/java/io/github/wcarmon/otel/SpanUtils.java:276 | the span's end count is the number of end() calls in its call log, wherever they stand |
| OtelSpan.OpenScopesInCountsScopes | src/main/java/io/github/wcarmon/otel/SpanUtils.java:159 | the open-scope depth is makeCurrent() calls minus scope closings in the call log |
| JavaExceptions.WrapperIsNew | src/main/java/io/github/wcarmon/otel/SpanUtils.java:190 | `new RuntimeException(ex)` is never `ex` itself |
| JavaStrings.Strip | src/main/java/io/github/wcarmon/otel/OtelToLog4j2.java:136 | the result is empty exactly when the input is blank, and it neither starts nor ends with whitespace |
| JavaStrings.StripIgnoresPadding | src/main/java/io/github/wcarmon/otel/OtelToLog4j2.java:136 | whitespace added around a string does not change its strip |
| JavaStrings.StripOfUpperCase | src/main/java/io/github/wcarmon/otel/OtelToLog4j2.java:136 | stripping then upper-casing equals upper-casing then stripping |
| JavaStrings.EqualsIgnoreCaseIsEqualUpperCase | src/main/java/io/github/wcarmon/otel/OtelToLog4j2.java:118 | two strings are equal ignoring case exactly when their upper-case forms are equal |
| JavaStrings.LongToStringRoundTrip | src/main/java/io/github/wcarmon/otel/OtelToLog4j2.java:92 | the decimal text of a long parses back to the same long |
| OtelToLog4j2.NewConverter | src/main/java/io/github/wcarmon/otel/OtelToLog4j2.java:27-35 | fails exactly when loggerName is null or blank, with IllegalArgumentException "loggerName is required"; otherwise keeps the name, and the default level is the given one or INFO when it is null |
| OtelToLog4j2.StringifyIsFaithful | src/main/java/io/github/wcarmon/otel/OtelToLog4j2.java:92 | a string value is copied as it is; a long value is written as text that reads back as the same long |
| OtelToLog4j2.FirstLevelAttributeWins | src/main/java/io/github/wcarmon/otel/OtelToLog4j2.java:113-124 | the raw level is the text of the first attribute whose key is "level" in any case |
| OtelToLog4j2.NoLevelAttributeGivesEmpty | src/main/java/io/github/wcarmon/otel/OtelToLog4j2.java:113-124 | with no such attribute the raw level is "" |
| OtelToLog4j2.ParseLevel | src/main/java/io/github/wcarmon/otel/OtelToLog4j2.java:133-143 | null or blank gives no level. A level is only ever the stripped, upper-cased input and a registered name. A non-blank input whose stripped, upper-cased form is registered gives exactly that level; an unknown name gives none |
| OtelToLog4j2.ParseLevelIgnoresPaddingAndCase | src/main/java/io/github/wcarmon/otel/OtelToLog4j2.java:133-143 | surrounding whitespace and letter case of the input do not change the result |
| OtelToLog4j2.ParseLevelAcceptsAnyCaseAndPadding | src/main/java/io/github/wcarmon/otel/OtelToLog4j2.java:126-143 | a registered name in any case and with any whitespace around it parses to that level |
| OtelToLog4j2.PaddedLowerCaseWarnIsWarn | src/main/java/io/github/wcarmon/otel/OtelToLog4j2.java:129-130 | " warn " parses to WARN |
| OtelToLog4j2.GetLevelAsWritten | src/main/java/io/github/wcarmon/otel/OtelToLog4j2.java:95-111 | getLevel as written: the shared ERROR status object (an ERROR code without description) gives ERROR; any other status, including an ERROR code with a description, gives the registered level that the raw level attribute names, and the default level when it names none |
| OtelToLog4j2.GetLevel | src/main/java/io/github/wcarmon/otel/OtelToLog4j2.java:95-111 | the corrected level choice of the Findings row: an ERROR status code gives ERROR whatever the event says; otherwise the registered level that the raw level attribute names (as ParseLevel reads it), and the default level when it names none |
| OtelToLog4j2.LevelAttributeDecides | src/main/java/io/github/wcarmon/otel/OtelToLog4j2.java:103-107 | for a span that did not fail, the first "level" attribute decides when it names a registered level |
| OtelToLog4j2.NoLevelAttributeGivesDefault | src/main/java/io/github/wcarmon/otel/OtelToLog4j2.java:103-110 | for a span that did not fail, with no "level" attribute, the level is the configured default |
| OtelToLog4j2.AsWrittenMissesDescribedError | src/main/java/io/github/wcarmon/otel/OtelToLog4j2.java:99-101 | an ERROR status with a description is logged at INFO by the code as written, and at ERROR by the corrected level choice |
| OtelToLog4j2.AsWrittenAgreesWithoutDescription | src/main/java/io/github/wcarmon/otel/OtelToLog4j2.java:99-101 | for a status without description, which is all SpanUtils ever sets, the code as written and the corrected level choice agree |
| OtelToLog4j2.PutAllKeys | src/main/java/io/github/wcarmon/otel/OtelToLog4j2.java:87-93 | after copying, the message has exactly its old keys plus every attribute key |
| OtelToLog4j2.PutAllLastWins | src/main/java/io/github/wcarmon/otel/OtelToLog4j2.java:87-93 | a key is bound to the text of the last attribute written under it |
| OtelToLog4j2.CopyAttributes | src/main/java/io/github/wcarmon/otel/OtelToLog4j2.java:87-93 | the message is filled in place, attribute by attribute, to exactly PutAll of its old content |
| OtelToLog4j2.LogRecordContents | src/main/java/io/github/wcarmon/otel/OtelToLog4j2.java:45-73 | the message keys are exactly the span attribute keys plus "message"; "message" is the event name, which wins over an attribute of that name; every other attribute is its String.valueOf; an event named "exception" gets nothing more. The level is GetLevel's. The logger is the configured one, the fqcn is OtelToLog4j2's, the nano time is the event's epochNanos, and location is off |
| OtelToLog4j2.ConvertEvent | src/main/java/io/github/wcarmon/otel/OtelToLog4j2.java:45-73 | builds, through a message filled in place, exactly the log event whose contents LogRecordContents states |
| OtelToLog4j2.ConvertEvents | src/main/java/io/github/wcarmon/otel/OtelToLog4j2.java:75-85 | a null event list throws NullPointerException and an empty one IllegalArgumentException "at least one event required". Otherwise mapping convertEvent over the events, in order, builds exactly LogRecordsFor of them |
| OtelToLog4j2.LogRecordsForEachEvent | src/main/java/io/github/wcarmon/otel/OtelToLog4j2.java:82-84 | there is one log event per span event, in the same order, the i-th built from the i-th event |
| Log4j2Forwarding.ForwardedEventsFollowSpanEvents | src/main/java/io/github/wcarmon/otel/Log4j2SpanProcessor.java:56-63 | one log event per span event, in order, each carrying its event's name, time and the configured logger, at ERROR when the span failed under the corrected level choice of the Findings row; nothing for a null event list |
| Log4j2Forwarding.FailedSpanLogsAtError | src/main/java/io/github/wcarmon/otel/Log4j2SpanProcessor.java:63 | under the corrected level choice of the Findings row, every log event forwarded for a span whose status code is ERROR is at ERROR |
| Log4j2Forwarding.AppendEach | src/main/java/io/github/wcarmon/otel/Log4j2SpanProcessor.java:63 | the appender receives exactly the given log events, appended in order after what it already held |
| Log4j2Forwarding.Log4j2SpanProcessor.OnEnd | src/main/java/io/github/wcarmon/otel/Log4j2SpanProcessor.java:53-64 | the appender only grows, by exactly the forwarded log events in order. With null or no events it gets nothing; the converter is only reached with at least one event, so its empty-list error never arises here |
| Log4j2Forwarding.Log4j2SpanProcessor.OnStart | src/main/java/io/github/wcarmon/otel/Log4j2SpanProcessor.java:66-67 | changes neither the appender nor the span |
| Log4j2Forwarding.Log4j2SpanProcessor.IsEndRequired | src/main/java/io/github/wcarmon/otel/Log4j2SpanProcessor.java:43-46 | always true |
| Log4j2Forwarding.Log4j2SpanProcessor.IsStartRequired | src/main/java/io/github/wcarmon/otel/Log4j2SpanProcessor.java:48-51 | always false |
| Log4j2Forwarding.Build | src/main/java/io/github/wcarmon/otel/Log4j2SpanProcessor.java:20-37 | NPE "converter is required and null." for a null converter; then IllegalArgumentException "targetAppenderName is required" for a null or blank name; then IllegalStateException "failed to lookup appender: name=<name>" when no appender has that name. It succeeds exactly when none of these apply, with that converter and the named appender |

### Behaviour worth noting

- A null parent or cause, and a null tracer, fail with NullPointerException through `requireNonNull`.
- `record` hands a RuntimeException back as it is and wraps only checked exceptions, so doRun and doSupply rethrow an unchecked exception unchanged. runInSpan always throws a new RuntimeException.
- A null reporting decision makes runInSpan throw an IllegalStateException inside its `try`. The `catch (Exception)` records it, ends the span and throws a RuntimeException caused by it.
- runInSpan catches `Exception` only. A `java.lang.Error` from the work passes through with nothing recorded and the span not ended. doRun and doSupply still end the span in `finally`.
- The level names are whatever Log4j2's `Level.getLevel` knows, given as the parameter `levels`. `StandardLevels` lists the eight built-in names, OFF and ALL included.
- A span with no events makes `convertEvents` throw IllegalArgumentException. `onEnd` never gets there, because it returns early for such a span.
- The log event's timestamp field is set through `setNanoTime`, from the event's epoch nanoseconds; the wall-clock instant of the log event is not set from the span event.
- try-with-resources closes the scope before the `catch` and `finally` blocks run. So on a failure the exception is recorded after the scope is closed, and in runInSpan a REPORT decision ends the span before its scope closes.

## Left out

- The effects of the unit of work itself on the span it is handed (its own attributes, events or `end()` calls). The work is given only by how it completes; the call log marks the moment it runs (`HandedToWork`).
- `Thread.currentThread()` becomes the `CallerThread` parameter, `Level.getLevel` becomes the `levels` parameter, and `LogManager.getContext(false).getConfiguration()` becomes the `configuration` map given to `Build`.
- The tracer and span builder are not modelled beyond "null or not": starting a span becomes `Span.Start` with the chosen parent and links. `Context.current()` and thread-local context are reduced to the span's open-scope count.
- What the OpenTelemetry SDK does with calls on an already-ended span, and export itself. The model only counts `end()` calls.
- Attribute values of type double and array, and attributes that share a key name but differ in type. An attribute list is kept in the order the SDK's `Attributes` iterates it.
- Case mapping beyond ASCII: `toUpperCase` and `equalsIgnoreCase` are modelled letter by letter on `a`-`z` only.
- JavaStrings.ToUpperCase: the JVM's default locale is fixed to one that maps `a`-`z` to `A`-`Z` (any non-Turkic locale). Under a Turkish or Azerbaijani default locale `toUpperCase` maps `i` to `İ` (U+0130), so `parseLevel(" info ")` finds no level and the event gets the default level, while `ParseLevel` gives INFO.
- The text of the NullPointerException that dereferencing a null event list raises in `convertEvents`, which Java 17 generates; `ConvertEvents` returns it with an empty message. A null `spanData` or `spanEvent` passed to OtelToLog4j2, which `onEnd` never does, is not modelled.
- OtelToLog4j2.ConvertEvent: the `System.err` line printed for an event named "exception", and the one doRun prints before rethrowing, are not modelled.
- The builders' `toString`, `OtelToLog4j2.main`, `OTelFactories` (provider and shutdown-hook wiring) and `TracerConfig` (accessors only) are not part of this model.
- Concurrency: nothing in these classes coordinates threads.
- OtelToLog4j2.LogRecordFor: builds the log event with the corrected level choice `GetLevel` of the Findings row, not with `GetLevelAsWritten`; for an ERROR status with a description the code as written logs at the attribute or default level.
- OtelToLog4j2.LogRecordContents: states the level of the corrected choice (see LogRecordFor above).
- OtelToLog4j2.ConvertEvent: uses the corrected level choice of the Findings row (see LogRecordFor above).
- OtelToLog4j2.ConvertEvents: uses the corrected level choice of the Findings row (see LogRecordFor above).
- Log4j2Forwarding.ForwardedEvents: forwards log events built with the corrected level choice of the Findings row.
- Log4j2Forwarding.ForwardedEventsFollowSpanEvents: "at ERROR when the span failed" holds for the corrected level choice; as written it holds only for an ERROR status without a description (AsWrittenAgreesWithoutDescription).
- Log4j2Forwarding.FailedSpanLogsAtError: states the intended behaviour of the Findings row; the code as written logs an ERROR span with a status description at the attribute or default level (AsWrittenMissesDescribedError).
- Log4j2Forwarding.Log4j2SpanProcessor.OnEnd: appends log events built with the corrected level choice of the Findings row.

## Findings

| source | as written | input that shows it | evidently intended | confidence | as-written member | corrected member |
|---|---|---|---|---|---|---|
| src/main/java/io/github/wcarmon/otel/OtelToLog4j2.java:99 | `spanData.getStatus() == StatusData.error()` compares by reference with the shared ERROR status, which the SDK uses only for an ERROR status without a description | a span whose status was set with `setStatus(StatusCode.ERROR, "timeout")` and an event without a "level" attribute: logged at INFO (the default) | every event of a span whose status code is ERROR is logged at ERROR | not executed | OtelToLog4j2.AsWrittenMissesDescribedError | OtelToLog4j2.GetLevel |
