/**
 * The OpenTelemetry span as the helpers in SpanUtils drive it. The span keeps
 * the state those helpers change (attributes, recorded exceptions, status, how
 * often it was ended, how many scopes it has open) and the log of calls it
 * received, so that the order of the calls can be stated as well.
 */
module OtelSpan {
  import opened Wrappers
  import opened JavaStrings
  import opened JavaExceptions

  /** The identity of another span: a parent or the cause of a linked span. */
  datatype SpanContext = SpanContext(traceId: string, spanId: string)

  datatype StatusCode = Unset | Ok | Error

  /** The attribute values the library writes or reads (doubles and arrays are not modelled). */
  datatype AttributeValue = StringValue(s: string) | LongValue(n: Long) | BooleanValue(b: bool)

  /** One call made on a span. */
  datatype SpanCall =
    | AttributeSet(key: string, value: AttributeValue)
    | ExceptionRecorded(exception: Throwable)
    | StatusSet(code: StatusCode)
    | Ended
    | ScopeOpened   // makeCurrent()
    | ScopeClosed   // close() of the scope makeCurrent() returned
    | HandedToWork  // the span is passed to the caller's unit of work

  /** How many times end() appears in a call log. */
  function EndsIn(calls: seq<SpanCall>): nat {
    if calls == [] then 0
    else EndsIn(calls[..|calls| - 1]) + (if calls[|calls| - 1] == Ended then 1 else 0)
  }

  /** Scopes opened minus scopes closed. */
  function OpenScopesIn(calls: seq<SpanCall>): int {
    if calls == [] then 0
    else
      OpenScopesIn(calls[..|calls| - 1])
      + (match calls[|calls| - 1] case ScopeOpened => 1 case ScopeClosed => -1 case _ => 0)
  }

  /** The exceptions recorded, in order. */
  function ExceptionsIn(calls: seq<SpanCall>): seq<Throwable> {
    if calls == [] then []
    else
      ExceptionsIn(calls[..|calls| - 1])
      + (match calls[|calls| - 1] case ExceptionRecorded(e) => [e] case _ => [])
  }

  /** The status set last, UNSET when none was set. */
  function StatusIn(calls: seq<SpanCall>): StatusCode {
    if calls == [] then Unset
    else match calls[|calls| - 1]
      case StatusSet(code) => code
      case _ => StatusIn(calls[..|calls| - 1])
  }

  /** The attributes, each key bound to the value set last. */
  function AttributesIn(calls: seq<SpanCall>): map<string, AttributeValue> {
    if calls == [] then map[]
    else match calls[|calls| - 1]
      case AttributeSet(k, v) => AttributesIn(calls[..|calls| - 1])[k := v]
      case _ => AttributesIn(calls[..|calls| - 1])
  }

  /** EndsIn counts the end() calls of a log, wherever they stand. */
  lemma {:induction false} EndsInCountsEnds(calls: seq<SpanCall>)
    ensures EndsIn(calls) == multiset(calls)[Ended]
    decreases |calls|
  {
    if calls != [] {
      var init := calls[..|calls| - 1];
      assert calls == init + [calls[|calls| - 1]];
      EndsInCountsEnds(init);
    }
  }

  /** OpenScopesIn counts makeCurrent() calls against scope closings, wherever they stand. */
  lemma {:induction false} OpenScopesInCountsScopes(calls: seq<SpanCall>)
    ensures OpenScopesIn(calls) == multiset(calls)[ScopeOpened] as int - multiset(calls)[ScopeClosed] as int
    decreases |calls|
  {
    if calls != [] {
      var init := calls[..|calls| - 1];
      assert calls == init + [calls[|calls| - 1]];
      OpenScopesInCountsScopes(init);
    }
  }

  class Span {
    const name: string
    const parent: Option<SpanContext>
    const links: seq<SpanContext>
    var attributes: map<string, AttributeValue>
    var recordedExceptions: seq<Throwable>
    var status: StatusCode
    var endCount: nat
    var scopeDepth: nat
    var calls: seq<SpanCall>

    /** Each field is what the calls made so far leave behind. */
    ghost predicate Valid()
      reads this
    {
      && attributes == AttributesIn(calls)
      && recordedExceptions == ExceptionsIn(calls)
      && status == StatusIn(calls)
      && endCount == EndsIn(calls)
      && scopeDepth == OpenScopesIn(calls)
    }

    /** spanBuilder(name), with the given parent and links, then startSpan(). */
    constructor Start(name: string, parent: Option<SpanContext>, links: seq<SpanContext>)
      ensures Valid() && calls == []
      ensures this.name == name && this.parent == parent && this.links == links
      ensures attributes == map[] && recordedExceptions == [] && status == Unset
      ensures endCount == 0 && scopeDepth == 0
    {
      this.name, this.parent, this.links := name, parent, links;
      attributes, recordedExceptions, status := map[], [], Unset;
      endCount, scopeDepth, calls := 0, 0, [];
    }

    method SetAttribute(key: string, value: AttributeValue)
      requires Valid()
      modifies this`attributes, this`calls
      ensures Valid() && calls == old(calls) + [AttributeSet(key, value)]
      ensures attributes == old(attributes)[key := value]
    {
      calls := calls + [AttributeSet(key, value)];
      assert calls[..|calls| - 1] == old(calls);
      attributes := attributes[key := value];
    }

    method RecordException(exception: Throwable)
      requires Valid()
      modifies this`recordedExceptions, this`calls
      ensures Valid() && calls == old(calls) + [ExceptionRecorded(exception)]
      ensures recordedExceptions == old(recordedExceptions) + [exception]
    {
      calls := calls + [ExceptionRecorded(exception)];
      assert calls[..|calls| - 1] == old(calls);
      recordedExceptions := recordedExceptions + [exception];
    }

    method SetStatus(code: StatusCode)
      requires Valid()
      modifies this`status, this`calls
      ensures Valid() && calls == old(calls) + [StatusSet(code)]
      ensures status == code
    {
      calls := calls + [StatusSet(code)];
      assert calls[..|calls| - 1] == old(calls);
      status := code;
    }

    method End()
      requires Valid()
      modifies this`endCount, this`calls
      ensures Valid() && calls == old(calls) + [Ended]
      ensures endCount == old(endCount) + 1
    {
      calls := calls + [Ended];
      assert calls[..|calls| - 1] == old(calls);
      endCount := endCount + 1;
    }

    /** makeCurrent(): the span becomes the current one until the scope is closed. */
    method MakeCurrent()
      requires Valid()
      modifies this`scopeDepth, this`calls
      ensures Valid() && calls == old(calls) + [ScopeOpened]
      ensures scopeDepth == old(scopeDepth) + 1
    {
      calls := calls + [ScopeOpened];
      assert calls[..|calls| - 1] == old(calls);
      scopeDepth := scopeDepth + 1;
    }

    method CloseScope()
      requires Valid() && scopeDepth > 0
      modifies this`scopeDepth, this`calls
      ensures Valid() && calls == old(calls) + [ScopeClosed]
      ensures scopeDepth == old(scopeDepth) - 1
    {
      calls := calls + [ScopeClosed];
      assert calls[..|calls| - 1] == old(calls);
      scopeDepth := scopeDepth - 1;
    }

    /** The unit of work receives the span; what it does with it is not modelled. */
    method HandToWork()
      requires Valid()
      modifies this`calls
      ensures Valid() && calls == old(calls) + [HandedToWork]
    {
      calls := calls + [HandedToWork];
      assert calls[..|calls| - 1] == old(calls);
    }
  }
}
