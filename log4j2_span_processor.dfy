/**
 * Log4j2SpanProcessor: an OpenTelemetry span processor that, whenever a span
 * ends, converts the span's events with OtelToLog4j2 and hands the resulting
 * log events to one Log4j2 appender, looked up by name when it is built.
 */
module Log4j2Forwarding {
  import opened Wrappers
  import opened JavaStrings
  import opened JavaExceptions
  import opened OtelSpan
  import opened OtelToLog4j2

  /** A Log4j2 appender, reduced to the log events handed to it, in order. */
  class Appender {
    var appended: seq<LogEvent>

    constructor ()
      ensures appended == []
    {
      appended := [];
    }

    method Append(event: LogEvent)
      modifies this
      ensures appended == old(appended) + [event]
    {
      appended := appended + [event];
    }
  }

  /** forEach(appender::append): hands the log events to the appender one by one, in order. */
  method AppendEach(appender: Appender, logEvents: seq<LogEvent>)
    modifies appender
    ensures appender.appended == old(appender.appended) + logEvents
  {
    var i := 0;
    while i < |logEvents|
      invariant 0 <= i <= |logEvents|
      invariant appender.appended == old(appender.appended) + logEvents[..i]
    {
      appender.Append(logEvents[i]);
      assert logEvents[..i + 1] == logEvents[..i] + [logEvents[i]];
      i := i + 1;
    }
    assert logEvents[..|logEvents|] == logEvents;
  }

  /** What onEnd forwards for a finished span: one log event per span event, in order. */
  function ForwardedEvents(converter: Converter, spanData: SpanData, levels: set<string>): seq<LogEvent> {
    match spanData.events
    case None => []
    case Some(events) => LogRecordsFor(converter, events, spanData, levels)
  }

  /**
   * One log event is forwarded per span event, none for a null event list;
   * the i-th forwarded log event carries the i-th span event's name and time and
   * the configured logger, and is at ERROR when the span failed.
   */
  lemma ForwardedEventsFollowSpanEvents(converter: Converter, spanData: SpanData, levels: set<string>)
    ensures var r := ForwardedEvents(converter, spanData, levels);
      && (spanData.events.None? ==> r == [])
      && (spanData.events.Some? ==> |r| == |spanData.events.value|)
      && forall i :: 0 <= i < |r| ==>
        && "message" in r[i].message && r[i].message["message"] == spanData.events.value[i].name
        && r[i].nanoTime == spanData.events.value[i].epochNanos
        && r[i].loggerName == converter.loggerName
        && (spanData.status.code == Error ==> r[i].level == ERROR)
  {
    var r := ForwardedEvents(converter, spanData, levels);
    if spanData.events.Some? {
      LogRecordsForEachEvent(converter, spanData.events.value, spanData, levels);
    }
    forall i | 0 <= i < |r|
      ensures "message" in r[i].message && r[i].message["message"] == spanData.events.value[i].name
    {
      LogRecordContents(converter, spanData.events.value[i], spanData, levels);
    }
  }

  /** Every event of a failed span is logged at ERROR, whatever its "level" attribute says. */
  lemma {:induction false} FailedSpanLogsAtError(converter: Converter, spanData: SpanData, levels: set<string>, event: LogEvent)
    requires spanData.status.code == Error
    requires event in ForwardedEvents(converter, spanData, levels)
    ensures event.level == ERROR
  {
    var forwarded := ForwardedEvents(converter, spanData, levels);
    var i :| 0 <= i < |forwarded| && forwarded[i] == event;
    ForwardedEventsFollowSpanEvents(converter, spanData, levels);
  }

  class Log4j2SpanProcessor {
    const converter: Converter
    const appender: Appender

    constructor (converter: Converter, appender: Appender)
      ensures this.converter == converter && this.appender == appender
    {
      this.converter := converter;
      this.appender := appender;
    }

    /** The processor wants to see every span that ends. */
    function IsEndRequired(): (r: bool)
      ensures r
    {
      true
    }

    /** The processor has nothing to do when a span starts. */
    function IsStartRequired(): (r: bool)
      ensures !r
    {
      false
    }

    method OnStart(parentContext: Option<SpanContext>, span: Span)
      ensures unchanged(appender) && unchanged(span)
    {
    }

    /**
     * onEnd: a span without events logs nothing; otherwise each of its
     * events becomes one log event handed to the appender, in order.
     */
    method OnEnd(spanData: SpanData, levels: set<string>)
      modifies appender
      ensures appender.appended == old(appender.appended) + ForwardedEvents(converter, spanData, levels)
    {
      if spanData.events.None? || spanData.events.value == [] {
        return;
      }
      var converted := ConvertEvents(converter, spanData, levels);
      AppendEach(appender, converted.value);
    }
  }

  /**
   * The builder's build(): a converter and a non-blank appender name are
   * required, and the appender must be configured under that name.
   * The Log4j2 configuration is given as a map from appender names.
   */
  method Build(converter: Option<Converter>, targetAppenderName: Option<string>, configuration: map<string, Appender>)
    returns (r: Result<Log4j2SpanProcessor, Throwable>)
    ensures converter.None? ==>
      r == Failure(Throwable(NullPointerException, "converter is required and null."))
    ensures converter.Some? && (targetAppenderName.None? || IsBlank(targetAppenderName.value)) ==>
      r == Failure(Throwable(IllegalArgumentException, "targetAppenderName is required"))
    ensures (converter.Some? && targetAppenderName.Some? && !IsBlank(targetAppenderName.value)
             && targetAppenderName.value !in configuration) ==>
      r == Failure(Throwable(IllegalStateException, "failed to lookup appender: name=" + targetAppenderName.value))
    ensures r.Success? <==>
      converter.Some? && targetAppenderName.Some? && !IsBlank(targetAppenderName.value)
      && targetAppenderName.value in configuration
    ensures r.Success? ==>
      r.value.converter == converter.value && r.value.appender == configuration[targetAppenderName.value]
  {
    if converter.None? {
      return Failure(Throwable(NullPointerException, "converter is required and null."));
    }
    if targetAppenderName.None? || IsBlank(targetAppenderName.value) {
      return Failure(Throwable(IllegalArgumentException, "targetAppenderName is required"));
    }
    var name := targetAppenderName.value;
    if name !in configuration {
      return Failure(Throwable(IllegalStateException, "failed to lookup appender: name=" + name));
    }
    var processor := new Log4j2SpanProcessor(converter.value, configuration[name]);
    r := Success(processor);
  }
}
