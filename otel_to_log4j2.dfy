/**
 * OtelToLog4j2: turns the events of a finished span into Log4j2 log events.
 * Each log event carries every span attribute as text, the event's name under
 * "message", a level chosen from the span status, the event's "level"
 * attribute and a configured default, and the event's time.
 */
module OtelToLog4j2 {
  import opened Wrappers
  import opened JavaStrings
  import opened JavaExceptions
  import opened OtelSpan

  /** A Log4j2 level, known by its name. */
  datatype Level = Level(name: string)

  const INFO := Level("INFO")
  const ERROR := Level("ERROR")
  const WARN := Level("WARN")

  /** The level names Log4j2 registers by itself; custom levels add to these. */
  const StandardLevels: set<string> := {"OFF", "FATAL", "ERROR", "WARN", "INFO", "DEBUG", "TRACE", "ALL"}

  /** A span status: a code and an optional description ("" when absent). */
  datatype StatusData = StatusData(code: StatusCode, description: string)

  /**
   * StatusData.error(): the shared ERROR status. The SDK hands out this very
   * object for an ERROR status without a description, and a new one otherwise.
   */
  const SharedErrorStatus := StatusData(Error, "")

  type Attributes = seq<(string, AttributeValue)>

  datatype EventData = EventData(name: string, attributes: Attributes, epochNanos: Long)

  /** The read model of a finished span; a null event list is `None`. */
  datatype SpanData = SpanData(status: StatusData, attributes: Attributes, events: Option<seq<EventData>>)

  /** A Log4j2 log event, with the fields convertEvent sets. */
  datatype LogEvent = LogEvent(
    level: Level,
    loggerFqcn: string,
    loggerName: string,
    message: map<string, string>,
    nanoTime: Long,
    includeLocation: bool)

  const LoggerFqcn := "io.github.wcarmon.otel.OtelToLog4j2"

  /** An OtelToLog4j2 instance: its two final fields. */
  datatype Converter = Converter(loggerName: string, defaultLevel: Level)

  /** The thrown NullPointerException of dereferencing null (its generated text is not modelled). */
  const ImplicitNullPointer := Throwable(NullPointerException, "")

  /** The constructor: a logger name is required, and the default level falls back to INFO. */
  function NewConverter(loggerName: Option<string>, defaultLevel: Option<Level>): (r: Result<Converter, Throwable>)
    ensures r.Failure? <==> loggerName.None? || IsBlank(loggerName.value)
    ensures r.Failure? ==> r.error == Throwable(IllegalArgumentException, "loggerName is required")
    ensures r.Success? ==> r.value.loggerName == loggerName.value
    ensures r.Success? ==> r.value.defaultLevel == if defaultLevel.Some? then defaultLevel.value else INFO
  {
    if loggerName.None? || IsBlank(loggerName.value) then
      Failure(Throwable(IllegalArgumentException, "loggerName is required"))
    else
      Success(Converter(loggerName.value, match defaultLevel case Some(l) => l case None => INFO))
  }

  /** String.valueOf on an attribute value. */
  function Stringify(value: AttributeValue): string {
    match value
    case StringValue(s) => s
    case LongValue(n) => LongToString(n)
    case BooleanValue(b) => if b then "true" else "false"
  }

  /** A string attribute is copied as it is; a long one as text Long.parseLong reads back. */
  lemma StringifyIsFaithful(value: AttributeValue)
    ensures value.StringValue? ==> Stringify(value) == value.s
    ensures value.LongValue? ==>
      var s := Stringify(value); s != [] && (s[0] == '-' ==> |s| > 1) && ParseLong(s) == value.n
  {
    if value.LongValue? {
      LongToStringRoundTrip(value.n);
    }
  }

  predicate IsLevelKey(key: string) {
    EqualsIgnoreCase("level", key)
  }

  /** getLevelAttributeValue: the text of the first attribute keyed "level" in any case, else "". */
  function GetLevelAttributeValue(attributes: Attributes): string {
    if attributes == [] then ""
    else if IsLevelKey(attributes[0].0) then Stringify(attributes[0].1)
    else GetLevelAttributeValue(attributes[1..])
  }

  lemma {:induction false} FirstLevelAttributeWins(attributes: Attributes, i: nat)
    requires i < |attributes| && IsLevelKey(attributes[i].0)
    requires forall j :: 0 <= j < i ==> !IsLevelKey(attributes[j].0)
    ensures GetLevelAttributeValue(attributes) == Stringify(attributes[i].1)
    decreases i
  {
    if i > 0 {
      FirstLevelAttributeWins(attributes[1..], i - 1);
    }
  }

  lemma {:induction false} NoLevelAttributeGivesEmpty(attributes: Attributes)
    requires forall j :: 0 <= j < |attributes| ==> !IsLevelKey(attributes[j].0)
    ensures GetLevelAttributeValue(attributes) == ""
    decreases |attributes|
  {
    if attributes != [] {
      NoLevelAttributeGivesEmpty(attributes[1..]);
    }
  }

  /**
   * parseLevel: null or blank gives no level; otherwise the stripped,
   * upper-cased text is looked up among the registered level names.
   */
  function ParseLevel(level: Option<string>, levels: set<string>): (r: Option<Level>)
    ensures level.None? || IsBlank(level.value) ==> r.None?
    ensures r.Some? ==> level.Some? && r.value.name in levels && r.value.name == ToUpperCase(Strip(level.value))
    ensures level.Some? && !IsBlank(level.value) && ToUpperCase(Strip(level.value)) in levels ==>
      r == Some(Level(ToUpperCase(Strip(level.value))))
  {
    var stripped := if level.None? then "" else Strip(level.value);
    UpperCaseKeepsBlankness(stripped);
    var clean := ToUpperCase(stripped);
    if IsBlank(clean) then None
    else if clean in levels then Some(Level(clean))
    else None
  }

  /** Whitespace around the text and the case of its letters do not matter. */
  lemma ParseLevelIgnoresPaddingAndCase(p: string, s: string, q: string, t: string, levels: set<string>)
    requires IsBlank(p) && IsBlank(q) && EqualsIgnoreCase(s, t)
    ensures ParseLevel(Some(p + s + q), levels) == ParseLevel(Some(t), levels)
  {
    StripIgnoresPadding(p, s, q);
    EqualsIgnoreCaseIsEqualUpperCase(s, t);
    StripOfUpperCase(s);
    StripOfUpperCase(t);
    ParseLevelDependsOnCleanText(p + s + q, t, levels);
  }

  /** parseLevel looks only at the stripped, upper-cased text. */
  lemma ParseLevelDependsOnCleanText(a: string, b: string, levels: set<string>)
    requires ToUpperCase(Strip(a)) == ToUpperCase(Strip(b))
    ensures ParseLevel(Some(a), levels) == ParseLevel(Some(b), levels)
  {
  }

  /** A registered level name, written as Log4j2 writes it, parses to that level. */
  lemma ParseLevelOfRegisteredName(name: string, levels: set<string>)
    requires name in levels && name != []
    requires !IsWhitespace(name[0]) && !IsWhitespace(name[|name| - 1])
    requires ToUpperCase(name) == name
    ensures ParseLevel(Some(name), levels) == Some(Level(name))
  {
    StripOfTrimmed(name);
  }

  /** A registered name in any case and with any surrounding whitespace parses to that level. */
  lemma ParseLevelAcceptsAnyCaseAndPadding(p: string, s: string, q: string, name: string, levels: set<string>)
    requires IsBlank(p) && IsBlank(q) && EqualsIgnoreCase(s, name)
    requires name in levels && name != []
    requires !IsWhitespace(name[0]) && !IsWhitespace(name[|name| - 1])
    requires ToUpperCase(name) == name
    ensures ParseLevel(Some(p + s + q), levels) == Some(Level(name))
  {
    ParseLevelIgnoresPaddingAndCase(p, s, q, name, levels);
    ParseLevelOfRegisteredName(name, levels);
  }

  lemma PaddedLowerCaseWarnIsWarn()
    ensures ParseLevel(Some(" warn "), StandardLevels) == Some(WARN)
  {
    assert " " + "warn" + " " == " warn ";
    assert ToUpperCase("WARN") == "WARN";
    ParseLevelAcceptsAnyCaseAndPadding(" ", "warn", " ", "WARN", StandardLevels);
  }

  /** getLevel as written: compares the status with the shared ERROR object by reference. */
  function GetLevelAsWritten(converter: Converter, spanEvent: EventData, spanData: SpanData, levels: set<string>): (r: Level)
    ensures spanData.status == SharedErrorStatus ==> r == ERROR
    ensures (spanData.status != SharedErrorStatus
             && ParseLevel(Some(GetLevelAttributeValue(spanEvent.attributes)), levels).Some?) ==>
      r == ParseLevel(Some(GetLevelAttributeValue(spanEvent.attributes)), levels).value
    ensures (spanData.status != SharedErrorStatus
             && ParseLevel(Some(GetLevelAttributeValue(spanEvent.attributes)), levels).None?) ==>
      r == converter.defaultLevel
  {
    if spanData.status == SharedErrorStatus then ERROR
    else match ParseLevel(Some(GetLevelAttributeValue(spanEvent.attributes)), levels)
      case Some(level) => level
      case None => converter.defaultLevel
  }

  /**
   * getLevel, comparing status codes: ERROR for a failed span; otherwise the
   * level named by the event's "level" attribute; otherwise the default.
   */
  function GetLevel(converter: Converter, spanEvent: EventData, spanData: SpanData, levels: set<string>): (r: Level)
    ensures spanData.status.code == Error ==> r == ERROR
    ensures (spanData.status.code != Error
             && ParseLevel(Some(GetLevelAttributeValue(spanEvent.attributes)), levels).Some?) ==>
      r == ParseLevel(Some(GetLevelAttributeValue(spanEvent.attributes)), levels).value
    ensures (spanData.status.code != Error
             && ParseLevel(Some(GetLevelAttributeValue(spanEvent.attributes)), levels).None?) ==>
      r == converter.defaultLevel
  {
    if spanData.status.code == Error then ERROR
    else match ParseLevel(Some(GetLevelAttributeValue(spanEvent.attributes)), levels)
      case Some(level) => level
      case None => converter.defaultLevel
  }

  /** The first "level" attribute decides when it names a registered level. */
  lemma LevelAttributeDecides(converter: Converter, spanEvent: EventData, spanData: SpanData, levels: set<string>, i: nat)
    requires spanData.status.code != Error
    requires i < |spanEvent.attributes| && IsLevelKey(spanEvent.attributes[i].0)
    requires forall j :: 0 <= j < i ==> !IsLevelKey(spanEvent.attributes[j].0)
    requires var raw := Stringify(spanEvent.attributes[i].1);
      !IsBlank(raw) && ToUpperCase(Strip(raw)) in levels
    ensures GetLevel(converter, spanEvent, spanData, levels) ==
      Level(ToUpperCase(Strip(Stringify(spanEvent.attributes[i].1))))
  {
    FirstLevelAttributeWins(spanEvent.attributes, i);
  }

  /** Without a "level" attribute, a span that did not fail logs at the default level. */
  lemma NoLevelAttributeGivesDefault(converter: Converter, spanEvent: EventData, spanData: SpanData, levels: set<string>)
    requires spanData.status.code != Error
    requires forall j :: 0 <= j < |spanEvent.attributes| ==> !IsLevelKey(spanEvent.attributes[j].0)
    ensures GetLevel(converter, spanEvent, spanData, levels) == converter.defaultLevel
  {
    NoLevelAttributeGivesEmpty(spanEvent.attributes);
  }

  /** An ERROR status with a description is not the shared object, so the as-written check misses it. */
  lemma AsWrittenMissesDescribedError()
    ensures var converter := Converter("spans", INFO);
      var spanEvent := EventData("retry", [], 0);
      var spanData := SpanData(StatusData(Error, "timeout"), [], Some([spanEvent]));
      GetLevelAsWritten(converter, spanEvent, spanData, StandardLevels) == INFO
      && GetLevel(converter, spanEvent, spanData, StandardLevels) == ERROR
  {
    var spanEvent := EventData("retry", [], 0);
    NoLevelAttributeGivesEmpty(spanEvent.attributes);
  }

  /** Without a status description, as written and corrected agree (SpanUtils sets none). */
  lemma AsWrittenAgreesWithoutDescription(converter: Converter, spanEvent: EventData, spanData: SpanData, levels: set<string>)
    requires spanData.status.description == ""
    ensures GetLevelAsWritten(converter, spanEvent, spanData, levels) == GetLevel(converter, spanEvent, spanData, levels)
  {
  }

  /** The keys of a list of attributes. */
  function KeysOf(attributes: Attributes): set<string> {
    set i | 0 <= i < |attributes| :: attributes[i].0
  }

  /** `message.put(key, String.valueOf(value))` for each attribute in turn. */
  function PutAll(m: map<string, string>, attributes: Attributes): map<string, string> {
    if attributes == [] then m
    else
      var last := attributes[|attributes| - 1];
      PutAll(m, attributes[..|attributes| - 1])[last.0 := Stringify(last.1)]
  }

  lemma {:induction false} PutAllKeys(m: map<string, string>, attributes: Attributes)
    ensures PutAll(m, attributes).Keys == m.Keys + KeysOf(attributes)
    decreases |attributes|
  {
    if attributes != [] {
      var init := attributes[..|attributes| - 1];
      PutAllKeys(m, init);
      assert KeysOf(attributes) == KeysOf(init) + {attributes[|attributes| - 1].0} by {
        forall k | k in KeysOf(attributes) ensures k in KeysOf(init) + {attributes[|attributes| - 1].0} {
          var i :| 0 <= i < |attributes| && attributes[i].0 == k;
          if i < |attributes| - 1 { assert init[i].0 == k; }
        }
        forall k | k in KeysOf(init) ensures k in KeysOf(attributes) {
          var i :| 0 <= i < |init| && init[i].0 == k;
          assert attributes[i].0 == k;
        }
      }
    }
  }

  /** No later attribute has the key of attribute i. */
  predicate LastWithKey(attributes: Attributes, i: nat)
    requires i < |attributes|
  {
    forall j :: i < j < |attributes| ==> attributes[j].0 != attributes[i].0
  }

  /** The value put last for a key is the one kept. */
  lemma {:induction false} PutAllLastWins(m: map<string, string>, attributes: Attributes, i: nat)
    requires i < |attributes|
    requires LastWithKey(attributes, i)
    ensures attributes[i].0 in PutAll(m, attributes)
    ensures PutAll(m, attributes)[attributes[i].0] == Stringify(attributes[i].1)
    decreases |attributes|
  {
    if i < |attributes| - 1 {
      var init := attributes[..|attributes| - 1];
      PutAllLastWins(m, init, i);
    }
  }

  /** What convertEvent builds for one event of a span. */
  function LogRecordFor(converter: Converter, spanEvent: EventData, spanData: SpanData, levels: set<string>): LogEvent {
    LogEvent(GetLevel(converter, spanEvent, spanData, levels), LoggerFqcn, converter.loggerName,
             PutAll(map[], spanData.attributes)["message" := spanEvent.name], spanEvent.epochNanos, false)
  }

  /**
   * The log event for a span event carries every span attribute as text and the
   * event name under "message", which wins over an attribute of that name; an
   * event named "exception" gets nothing more.
   */
  lemma LogRecordContents(converter: Converter, spanEvent: EventData, spanData: SpanData, levels: set<string>)
    ensures var r := LogRecordFor(converter, spanEvent, spanData, levels);
      && r.message.Keys == KeysOf(spanData.attributes) + {"message"}
      && r.message["message"] == spanEvent.name
      && (forall i :: 0 <= i < |spanData.attributes| ==>
            (spanData.attributes[i].0 != "message" && LastWithKey(spanData.attributes, i) ==>
              r.message[spanData.attributes[i].0] == Stringify(spanData.attributes[i].1)))
      && r.level == GetLevel(converter, spanEvent, spanData, levels)
      && r.loggerName == converter.loggerName && r.loggerFqcn == LoggerFqcn
      && r.nanoTime == spanEvent.epochNanos && !r.includeLocation
  {
    var fields := PutAll(map[], spanData.attributes);
    PutAllKeys(map[], spanData.attributes);
    forall i | 0 <= i < |spanData.attributes| && LastWithKey(spanData.attributes, i)
      ensures fields[spanData.attributes[i].0] == Stringify(spanData.attributes[i].1)
    {
      PutAllLastWins(map[], spanData.attributes, i);
    }
  }

  /** A Log4j2 StringMapMessage: a map from field names to text, filled in place. */
  class StringMapMessage {
    var data: map<string, string>

    constructor ()
      ensures data == map[]
    {
      data := map[];
    }

    method Put(key: string, value: string)
      modifies this
      ensures data == old(data)[key := value]
    {
      data := data[key := value];
    }
  }

  /** copyAttributes: puts every span attribute into the message as text. */
  method CopyAttributes(spanData: SpanData, message: StringMapMessage)
    modifies message
    ensures message.data == PutAll(old(message.data), spanData.attributes)
  {
    var attributes := spanData.attributes;
    var i := 0;
    while i < |attributes|
      invariant 0 <= i <= |attributes|
      invariant message.data == PutAll(old(message.data), attributes[..i])
    {
      var (key, value) := attributes[i];
      message.Put(key, Stringify(value));
      assert attributes[..i + 1][..i] == attributes[..i];
      i := i + 1;
    }
    assert attributes[..|attributes|] == attributes;
  }

  /** convertEvent: one log event for one span event. */
  method ConvertEvent(converter: Converter, spanEvent: EventData, spanData: SpanData, levels: set<string>)
    returns (r: LogEvent)
    ensures r == LogRecordFor(converter, spanEvent, spanData, levels)
  {
    var level := GetLevel(converter, spanEvent, spanData, levels);
    var message := new StringMapMessage();
    CopyAttributes(spanData, message);
    message.Put("message", spanEvent.name);
    // An event named "exception" gets nothing more: its exception is not reachable from here.
    r := LogEvent(level, LoggerFqcn, converter.loggerName, message.data, spanEvent.epochNanos, false);
  }

  /** What convertEvents builds for a list of span events: one log event per span event, in order. */
  function LogRecordsFor(converter: Converter, events: seq<EventData>, spanData: SpanData, levels: set<string>): seq<LogEvent>
    decreases |events|
  {
    if events == [] then []
    else LogRecordsFor(converter, events[..|events| - 1], spanData, levels)
         + [LogRecordFor(converter, events[|events| - 1], spanData, levels)]
  }

  /** The i-th log event is built from the i-th span event, and there are as many of each. */
  lemma {:induction false} LogRecordsForEachEvent(converter: Converter, events: seq<EventData>, spanData: SpanData, levels: set<string>)
    ensures var r := LogRecordsFor(converter, events, spanData, levels);
      |r| == |events| && forall i :: 0 <= i < |r| ==> r[i] == LogRecordFor(converter, events[i], spanData, levels)
    decreases |events|
  {
    if events != [] {
      var init := events[..|events| - 1];
      LogRecordsForEachEvent(converter, init, spanData, levels);
      var r := LogRecordsFor(converter, events, spanData, levels);
      forall i | 0 <= i < |r|
        ensures r[i] == LogRecordFor(converter, events[i], spanData, levels)
      {
        if i < |events| - 1 {
          assert events[i] == init[i];
        }
      }
    }
  }

  /**
   * convertEvents: one log event per span event, in order; at least one event
   * is required. The stream that maps convertEvent over the events is a loop here.
   */
  method ConvertEvents(converter: Converter, spanData: SpanData, levels: set<string>)
    returns (r: Result<seq<LogEvent>, Throwable>)
    ensures spanData.events.None? ==> r == Failure(ImplicitNullPointer)
    ensures spanData.events == Some([]) ==>
      r == Failure(Throwable(IllegalArgumentException, "at least one event required"))
    ensures spanData.events.Some? && spanData.events.value != [] ==>
      r == Success(LogRecordsFor(converter, spanData.events.value, spanData, levels))
  {
    if spanData.events.None? {
      return Failure(ImplicitNullPointer);
    }
    var events := spanData.events.value;
    if events == [] {
      return Failure(Throwable(IllegalArgumentException, "at least one event required"));
    }
    var records: seq<LogEvent> := [];
    var i := 0;
    while i < |events|
      invariant 0 <= i <= |events|
      invariant records == LogRecordsFor(converter, events[..i], spanData, levels)
    {
      var record := ConvertEvent(converter, events[i], spanData, levels);
      assert events[..i + 1][..i] == events[..i];
      records := records + [record];
      i := i + 1;
    }
    assert events[..i] == events;
    r := Success(records);
  }
}
