/**
 * SpanUtils: start a span with a declared relationship to another span, make it
 * current, tag it with the caller's thread, run a unit of work in it, and decide
 * on the way out whether the span is ended, what is recorded on it, and what
 * the caller sees.
 *
 * A unit of work is given by how it completes: `Returned(v)` or `Threw(t)`.
 * A null unit of work, tracer, name or reference is `None`. Each entry point
 * returns the span it started (null when it started none) and how the call
 * completed for the caller.
 */
module SpanUtils {
  import opened Wrappers
  import opened JavaStrings
  import opened JavaExceptions
  import opened OtelSpan

  datatype SpanRelationship = ParentChild | Linked | Root

  /** What a conditionally reported unit of work returns; a null decision is `None`. */
  datatype SpanReportingDecision = Report | DoNotReport

  /** The tracer spans are started from; only whether it is null matters here. */
  datatype Tracer = Tracer

  /** The identity of the thread that runs the unit of work. */
  datatype CallerThread = CallerThread(id: Long, name: string)

  const ThreadIdKey := "thread.id"
  const ThreadNameKey := "thread.name"

  /** What `requireNonNull(x, "<what> is required and null.")` throws. */
  function NullArgument(what: string): Throwable {
    Throwable(NullPointerException, what + " is required and null.")
  }

  const MissingDecision := Throwable(IllegalStateException, "Programming error: must return span reporting decision")

  /** requireSpanName: the error thrown for a null or blank span name, if any. */
  function RequireSpanName(spanName: Option<string>): (r: Option<Throwable>)
    ensures r.None? <==> spanName.Some? && !IsBlank(spanName.value)
    ensures r.Some? ==> r.value == Throwable(IllegalArgumentException, "spanName is required")
  {
    if spanName.None? || IsBlank(spanName.value) then
      Some(Throwable(IllegalArgumentException, "spanName is required"))
    else
      None
  }

  /** Where a new span stands: its parent and its links. */
  datatype SpanShape = SpanShape(parent: Option<SpanContext>, links: seq<SpanContext>)

  /**
   * The switch of runInSpan: the parent and links the new span gets, or the
   * error thrown when the reference does not fit the relationship.
   */
  function ShapeFor(relationship: SpanRelationship, parentOrCause: Option<SpanContext>): (r: Result<SpanShape, Throwable>)
    ensures r.Success? <==> (relationship == Root <==> parentOrCause.None?)
    ensures r.Success? ==> match relationship
      case ParentChild => r.value.parent == parentOrCause && r.value.links == []
      case Linked => r.value.parent.None? && r.value.links == [parentOrCause.value]
      case Root => r.value.parent.None? && r.value.links == []
    ensures r.Failure? ==> r.error == match relationship
      case ParentChild => NullArgument("parent")
      case Linked => NullArgument("cause")
      case Root => Throwable(IllegalArgumentException, "parent/cause must be null for root span")
  {
    match relationship
    case ParentChild =>
      if parentOrCause.None? then Failure(NullArgument("parent"))
      else Success(SpanShape(parentOrCause, []))
    case Linked =>
      if parentOrCause.None? then Failure(NullArgument("cause"))
      else Success(SpanShape(None, [parentOrCause.value]))
    case Root =>
      if parentOrCause.Some? then Failure(Throwable(IllegalArgumentException, "parent/cause must be null for root span"))
      else Success(SpanShape(None, []))
  }

  /** Reads the relationship and the reference back from where a span stands. */
  function RelationshipOf(shape: SpanShape): (SpanRelationship, Option<SpanContext>) {
    if shape.parent.Some? then (ParentChild, shape.parent)
    else if shape.links != [] then (Linked, Some(shape.links[0]))
    else (Root, None)
  }

  /** The three relationships give spans that stand apart: the shape determines them. */
  lemma ShapeDeterminesRelationship(relationship: SpanRelationship, parentOrCause: Option<SpanContext>)
    requires ShapeFor(relationship, parentOrCause).Success?
    ensures RelationshipOf(ShapeFor(relationship, parentOrCause).value) == (relationship, parentOrCause)
  {
  }

  /** The exception `record` hands back: the same one if it is unchecked, else wrapped. */
  function AsRuntimeException(t: Throwable): (r: Throwable)
    ensures IsRuntimeException(r)
    ensures r == t || r == RuntimeWrapper(t)
    ensures r == t <==> IsRuntimeException(t)
  {
    if IsRuntimeException(t) then t else RuntimeWrapper(t)
  }

  /** The thread attributes every entry point puts on its span. */
  function ThreadAttributes(thread: CallerThread): map<string, AttributeValue> {
    map[ThreadIdKey := LongValue(thread.id), ThreadNameKey := StringValue(thread.name)]
  }

  /** The calls made inside the try block up to and including running the work. */
  function Entered(thread: CallerThread): seq<SpanCall> {
    [ScopeOpened, AttributeSet(ThreadIdKey, LongValue(thread.id)),
     AttributeSet(ThreadNameKey, StringValue(thread.name)), HandedToWork]
  }

  /** The calls doRun and doSupply make on a just-started span, given how the work completed. */
  function ScopedRunCalls<T>(thread: CallerThread, work: Outcome<T>): seq<SpanCall> {
    match work
    case Threw(t) =>
      if IsException(t) then Entered(thread) + [ScopeClosed, ExceptionRecorded(t), StatusSet(Error), Ended]
      else Entered(thread) + [ScopeClosed, Ended]
    case Returned(_) => Entered(thread) + [ScopeClosed, Ended]
  }

  /** How doRun and doSupply complete for their caller. */
  function ScopedRunOutcome<T>(work: Outcome<T>): Outcome<T> {
    match work
    case Threw(t) => if IsException(t) then Threw(AsRuntimeException(t)) else work
    case Returned(v) => Returned(v)
  }

  /** The calls runInSpan makes on the span it started, given how the work completed. */
  function ConditionalRunCalls(thread: CallerThread, work: Outcome<Option<SpanReportingDecision>>): seq<SpanCall> {
    match work
    case Returned(Some(Report)) => Entered(thread) + [Ended, ScopeClosed]
    case Returned(Some(DoNotReport)) => Entered(thread) + [ScopeClosed]
    case Returned(None) =>
      Entered(thread) + [ScopeClosed, ExceptionRecorded(MissingDecision), StatusSet(Error), Ended]
    case Threw(t) =>
      if IsException(t) then Entered(thread) + [ScopeClosed, ExceptionRecorded(t), StatusSet(Error), Ended]
      else Entered(thread) + [ScopeClosed]
  }

  /** How runInSpan completes for its caller once the span was started. */
  function ConditionalRunOutcome(work: Outcome<Option<SpanReportingDecision>>): Outcome<()> {
    match work
    case Returned(Some(_)) => Returned(())
    case Returned(None) => Threw(RuntimeWrapper(MissingDecision))
    case Threw(t) => if IsException(t) then Threw(RuntimeWrapper(t)) else Threw(t)
  }

  /**
   * doRun and doSupply hand an unchecked exception back as it is and wrap only
   * checked ones; an Error passes through untouched; a value comes back as it is.
   */
  lemma ScopedRunRethrowsUncheckedAsIs<T>(work: Outcome<T>)
    ensures work.Returned? ==> ScopedRunOutcome(work) == work
    ensures work.Threw? && IsRuntimeException(work.thrown) ==> ScopedRunOutcome(work) == work
    ensures work.Threw? && KindOf(work.thrown) == CheckedException ==>
      ScopedRunOutcome(work) == Threw(RuntimeWrapper(work.thrown))
    ensures work.Threw? && !IsException(work.thrown) ==> ScopedRunOutcome(work) == work
  {
  }

  /**
   * runInSpan wraps every Exception it catches in a new RuntimeException, even
   * one that is already unchecked, where doRun would hand it back as it is.
   */
  lemma RunInSpanAlwaysWraps(t: Throwable)
    requires IsRuntimeException(t)
    ensures ConditionalRunOutcome(Threw(t)) == Threw(RuntimeWrapper(t))
    ensures ScopedRunOutcome<()>(Threw(t)) == Threw(t)
    ensures ConditionalRunOutcome(Threw(t)) != ScopedRunOutcome<()>(Threw(t))
  {
    WrapperIsNew(t);
  }

  /** A call log that enters as the helpers do: its end() calls and open scopes come from what follows. */
  lemma EnteredThen(thread: CallerThread, exits: seq<SpanCall>)
    ensures var calls := Entered(thread) + exits;
      && calls[..4] == Entered(thread)
      && EndsIn(calls) == multiset(exits)[Ended]
      && OpenScopesIn(calls) == 1 + multiset(exits)[ScopeOpened] as int - multiset(exits)[ScopeClosed] as int
  {
    var calls := Entered(thread) + exits;
    EndsInCountsEnds(calls);
    OpenScopesInCountsScopes(calls);
    assert multiset(calls) == multiset(Entered(thread)) + multiset(exits);
  }

  /**
   * On every exit path of doRun and doSupply the scope is opened first, the
   * thread attributes are set before the work runs, the scope is closed again
   * and the span is ended exactly once, as the very last call.
   */
  lemma ScopedRunShape<T>(thread: CallerThread, work: Outcome<T>)
    ensures var calls := ScopedRunCalls(thread, work);
      && |calls| > 4 && calls[..4] == Entered(thread)
      && calls[|calls| - 1] == Ended
      && EndsIn(calls) == 1 && OpenScopesIn(calls) == 0
  {
    var calls := ScopedRunCalls(thread, work);
    EnteredThen(thread, calls[4..]);
    assert calls == Entered(thread) + calls[4..];
  }

  /** On every exit path of runInSpan the scope it opened is closed again. */
  lemma ConditionalRunScope(thread: CallerThread, work: Outcome<Option<SpanReportingDecision>>)
    ensures OpenScopesIn(ConditionalRunCalls(thread, work)) == 0
  {
    match work {
      case Returned(Some(Report)) => EnteredThen(thread, [Ended, ScopeClosed]);
      case Returned(Some(DoNotReport)) => EnteredThen(thread, [ScopeClosed]);
      case Returned(None) =>
        EnteredThen(thread, [ScopeClosed, ExceptionRecorded(MissingDecision), StatusSet(Error), Ended]);
      case Threw(t) =>
        if IsException(t) {
          EnteredThen(thread, [ScopeClosed, ExceptionRecorded(t), StatusSet(Error), Ended]);
        } else {
          EnteredThen(thread, [ScopeClosed]);
        }
    }
  }

  /**
   * runInSpan opens the scope and sets the thread attributes before the work
   * runs; it ends the span once on REPORT, inside the scope; never on
   * DO_NOT_REPORT or an Error; and once, as the very last call, on an
   * Exception or a missing decision.
   */
  lemma ConditionalRunEnds(thread: CallerThread, work: Outcome<Option<SpanReportingDecision>>)
    ensures var calls := ConditionalRunCalls(thread, work);
      && |calls| > 4 && calls[..4] == Entered(thread)
      && (work == Returned(Some(Report)) ==> EndsIn(calls) == 1 && calls[|calls| - 1] == ScopeClosed)
      && (work == Returned(Some(DoNotReport)) ==> EndsIn(calls) == 0)
      && (work.Threw? && !IsException(work.thrown) ==> EndsIn(calls) == 0)
      && ((work == Returned(None) || (work.Threw? && IsException(work.thrown))) ==>
            EndsIn(calls) == 1 && calls[|calls| - 1] == Ended)
  {
    match work {
      case Returned(Some(Report)) => EnteredThen(thread, [Ended, ScopeClosed]);
      case Returned(Some(DoNotReport)) => EnteredThen(thread, [ScopeClosed]);
      case Returned(None) =>
        EnteredThen(thread, [ScopeClosed, ExceptionRecorded(MissingDecision), StatusSet(Error), Ended]);
      case Threw(t) =>
        if IsException(t) {
          EnteredThen(thread, [ScopeClosed, ExceptionRecorded(t), StatusSet(Error), Ended]);
        } else {
          EnteredThen(thread, [ScopeClosed]);
        }
    }
  }

  /**
   * What doRun and doSupply leave on a just-started span: the calls in order,
   * the span ended exactly once, its scope closed again, the thread attributes
   * set, and, when the work threw an Exception, that exception recorded and
   * the status ERROR.
   */
  ghost predicate RanScoped<T>(span: Span, thread: CallerThread, work: Outcome<T>)
    reads span
  {
    var caught := work.Threw? && IsException(work.thrown);
    && span.Valid()
    && span.calls == ScopedRunCalls(thread, work)
    && span.endCount == 1
    && span.scopeDepth == 0
    && span.attributes == ThreadAttributes(thread)
    && span.status == (if caught then Error else Unset)
    && span.recordedExceptions == (if caught then [work.thrown] else [])
  }

  /**
   * What runInSpan leaves on the span it started: ended once when the work
   * reports or fails with an Exception (a missing decision counts as one), never
   * ended when it declines to report or throws an Error; its scope closed again.
   */
  ghost predicate RanConditionally(span: Span, thread: CallerThread, work: Outcome<Option<SpanReportingDecision>>)
    reads span
  {
    var caught := work == Returned(None) || (work.Threw? && IsException(work.thrown));
    && span.Valid()
    && span.calls == ConditionalRunCalls(thread, work)
    && span.endCount == (if caught || work == Returned(Some(Report)) then 1 else 0)
    && span.scopeDepth == 0
    && span.attributes == ThreadAttributes(thread)
    && span.status == (if caught then Error else Unset)
    && span.recordedExceptions ==
         (if work == Returned(None) then [MissingDecision] else if caught then [work.thrown] else [])
  }

  /**
   * record: marks the span as failed with the exception and hands back what the
   * caller should throw.
   */
  method Record(span: Span?, ex: Option<Throwable>) returns (r: Outcome<Throwable>)
    requires span != null ==> span.Valid()
    modifies span
    ensures span == null ==> r == Threw(NullArgument("span"))
    ensures span != null && ex.None? ==> r == Threw(NullArgument("ex")) && unchanged(span)
    ensures span != null && ex.Some? ==>
      && span.Valid()
      && span.calls == old(span.calls) + [ExceptionRecorded(ex.value), StatusSet(Error)]
      && span.recordedExceptions == old(span.recordedExceptions) + [ex.value]
      && span.status == Error
      && span.attributes == old(span.attributes)
      && span.endCount == old(span.endCount)
      && span.scopeDepth == old(span.scopeDepth)
      && r == Returned(AsRuntimeException(ex.value))
  {
    if span == null {
      return Threw(NullArgument("span"));
    }
    if ex.None? {
      return Threw(NullArgument("ex"));
    }
    span.RecordException(ex.value);
    span.SetStatus(Error);
    r := Returned(AsRuntimeException(ex.value));
  }

  /** doSupply: runs the work in the span's scope and always ends the span (finally). */
  method DoSupply<T>(span: Span, fn: Outcome<T>, thread: CallerThread) returns (r: Outcome<T>)
    requires span.Valid() && span.calls == []
    modifies span
    ensures RanScoped(span, thread, fn)
    ensures r == ScopedRunOutcome(fn)
  {
    span.MakeCurrent();
    span.SetAttribute(ThreadIdKey, LongValue(thread.id));
    span.SetAttribute(ThreadNameKey, StringValue(thread.name));
    assert span.attributes == ThreadAttributes(thread);
    span.HandToWork();
    // try-with-resources closes the scope before the catch and finally blocks run
    span.CloseScope();
    assert span.calls == Entered(thread) + [ScopeClosed];
    match fn {
      case Returned(v) =>
        r := Returned(v);
      case Threw(t) =>
        if IsException(t) {
          var recorded := Record(span, Some(t));
          assert span.calls == Entered(thread) + [ScopeClosed, ExceptionRecorded(t), StatusSet(Error)];
          r := Threw(recorded.value);
        } else {
          r := fn;
        }
    }
    // finally
    span.End();
  }

  /** doRun: as doSupply, for a unit of work that returns nothing. */
  method DoRun(span: Span, spanConsumer: Outcome<()>, thread: CallerThread) returns (r: Outcome<()>)
    requires span.Valid() && span.calls == []
    modifies span
    ensures RanScoped(span, thread, spanConsumer)
    ensures r == ScopedRunOutcome(spanConsumer)
  {
    span.MakeCurrent();
    span.SetAttribute(ThreadIdKey, LongValue(thread.id));
    span.SetAttribute(ThreadNameKey, StringValue(thread.name));
    assert span.attributes == ThreadAttributes(thread);
    span.HandToWork();
    span.CloseScope();
    assert span.calls == Entered(thread) + [ScopeClosed];
    match spanConsumer {
      case Returned(nothing) =>
        r := Returned(nothing);
      case Threw(t) =>
        if IsException(t) {
          var recorded := Record(span, Some(t));
          assert span.calls == Entered(thread) + [ScopeClosed, ExceptionRecorded(t), StatusSet(Error)];
          r := Threw(recorded.value);
        } else {
          r := spanConsumer;
        }
    }
    // finally
    span.End();
  }

  /** runInARootSpan: a span with no parent and no links; the span is always ended. */
  method RunInARootSpan(tracer: Option<Tracer>, spanName: Option<string>, spanConsumer: Option<Outcome<()>>,
                        thread: CallerThread)
    returns (span: Span?, r: Outcome<()>)
    ensures RequireSpanName(spanName).Some? ==> span == null && r == Threw(RequireSpanName(spanName).value)
    ensures RequireSpanName(spanName).None? && spanConsumer.None? ==>
      span == null && r == Threw(NullArgument("spanConsumer"))
    ensures RequireSpanName(spanName).None? && spanConsumer.Some? && tracer.None? ==>
      span == null && r == Threw(NullArgument("tracer"))
    ensures RequireSpanName(spanName).None? && spanConsumer.Some? && tracer.Some? ==>
      && span != null && span.name == spanName.value && span.parent.None? && span.links == []
      && RanScoped(span, thread, spanConsumer.value) && r == ScopedRunOutcome(spanConsumer.value)
  {
    var nameError := RequireSpanName(spanName);
    if nameError.Some? { return null, Threw(nameError.value); }
    if spanConsumer.None? { return null, Threw(NullArgument("spanConsumer")); }
    if tracer.None? { return null, Threw(NullArgument("tracer")); }
    span := new Span.Start(spanName.value, None, []);
    r := DoRun(span, spanConsumer.value, thread);
  }

  /** runInChildSpan: a span whose parent is `parent`; the span is always ended. */
  method RunInChildSpan(tracer: Option<Tracer>, spanName: Option<string>, parent: Option<SpanContext>,
                        spanConsumer: Option<Outcome<()>>, thread: CallerThread)
    returns (span: Span?, r: Outcome<()>)
    ensures RequireSpanName(spanName).Some? ==> span == null && r == Threw(RequireSpanName(spanName).value)
    ensures RequireSpanName(spanName).None? && parent.None? ==>
      span == null && r == Threw(NullArgument("parent"))
    ensures RequireSpanName(spanName).None? && parent.Some? && spanConsumer.None? ==>
      span == null && r == Threw(NullArgument("spanConsumer"))
    ensures RequireSpanName(spanName).None? && parent.Some? && spanConsumer.Some? && tracer.None? ==>
      span == null && r == Threw(NullArgument("tracer"))
    ensures RequireSpanName(spanName).None? && parent.Some? && spanConsumer.Some? && tracer.Some? ==>
      && span != null && span.name == spanName.value && span.parent == parent && span.links == []
      && RanScoped(span, thread, spanConsumer.value) && r == ScopedRunOutcome(spanConsumer.value)
  {
    var nameError := RequireSpanName(spanName);
    if nameError.Some? { return null, Threw(nameError.value); }
    if parent.None? { return null, Threw(NullArgument("parent")); }
    if spanConsumer.None? { return null, Threw(NullArgument("spanConsumer")); }
    if tracer.None? { return null, Threw(NullArgument("tracer")); }
    span := new Span.Start(spanName.value, parent, []);
    r := DoRun(span, spanConsumer.value, thread);
  }

  /** runInLinkedSpan: a span with no parent and one link, to `cause`; the span is always ended. */
  method RunInLinkedSpan(tracer: Option<Tracer>, spanName: Option<string>, cause: Option<SpanContext>,
                         spanConsumer: Option<Outcome<()>>, thread: CallerThread)
    returns (span: Span?, r: Outcome<()>)
    ensures RequireSpanName(spanName).Some? ==> span == null && r == Threw(RequireSpanName(spanName).value)
    ensures RequireSpanName(spanName).None? && cause.None? ==>
      span == null && r == Threw(NullArgument("cause"))
    ensures RequireSpanName(spanName).None? && cause.Some? && spanConsumer.None? ==>
      span == null && r == Threw(NullArgument("spanConsumer"))
    ensures RequireSpanName(spanName).None? && cause.Some? && spanConsumer.Some? && tracer.None? ==>
      span == null && r == Threw(NullArgument("tracer"))
    ensures RequireSpanName(spanName).None? && cause.Some? && spanConsumer.Some? && tracer.Some? ==>
      && span != null && span.name == spanName.value && span.parent.None? && span.links == [cause.value]
      && RanScoped(span, thread, spanConsumer.value) && r == ScopedRunOutcome(spanConsumer.value)
  {
    var nameError := RequireSpanName(spanName);
    if nameError.Some? { return null, Threw(nameError.value); }
    if cause.None? { return null, Threw(NullArgument("cause")); }
    if spanConsumer.None? { return null, Threw(NullArgument("spanConsumer")); }
    if tracer.None? { return null, Threw(NullArgument("tracer")); }
    span := new Span.Start(spanName.value, None, [cause.value]);
    r := DoRun(span, spanConsumer.value, thread);
  }

  /**
   * runInSpan: the span's shape follows the relationship; the unit of work
   * decides whether the span is reported. Any Exception, and a missing
   * decision, is recorded, the span is ended and the caller gets a new
   * RuntimeException with it as cause.
   */
  method RunInSpan(tracer: Option<Tracer>, spanName: Option<string>, relationship: Option<SpanRelationship>,
                   parentOrCause: Option<SpanContext>,
                   spanConsumer: Option<Outcome<Option<SpanReportingDecision>>>, thread: CallerThread)
    returns (span: Span?, r: Outcome<()>)
    ensures RequireSpanName(spanName).Some? ==> span == null && r == Threw(RequireSpanName(spanName).value)
    ensures RequireSpanName(spanName).None? && relationship.None? ==>
      span == null && r == Threw(NullArgument("relationship"))
    ensures RequireSpanName(spanName).None? && relationship.Some? && spanConsumer.None? ==>
      span == null && r == Threw(NullArgument("spanConsumer"))
    ensures RequireSpanName(spanName).None? && relationship.Some? && spanConsumer.Some? && tracer.None? ==>
      span == null && r == Threw(NullArgument("tracer"))
    ensures RequireSpanName(spanName).None? && relationship.Some? && spanConsumer.Some? && tracer.Some? ==>
      var shape := ShapeFor(relationship.value, parentOrCause);
      && (shape.Failure? ==> span == null && r == Threw(shape.error))
      && (shape.Success? ==>
            && span != null && span.name == spanName.value
            && span.parent == shape.value.parent && span.links == shape.value.links
            && RanConditionally(span, thread, spanConsumer.value)
            && r == ConditionalRunOutcome(spanConsumer.value))
  {
    var nameError := RequireSpanName(spanName);
    if nameError.Some? { return null, Threw(nameError.value); }
    if relationship.None? { return null, Threw(NullArgument("relationship")); }
    if spanConsumer.None? { return null, Threw(NullArgument("spanConsumer")); }
    if tracer.None? { return null, Threw(NullArgument("tracer")); }
    var shape := ShapeFor(relationship.value, parentOrCause);
    if shape.Failure? { return null, Threw(shape.error); }
    span := new Span.Start(spanName.value, shape.value.parent, shape.value.links);
    r := RunReporting(span, spanConsumer.value, thread);
  }

  /**
   * The try-with-resources block of runInSpan and its catch clause, on a
   * just-started span: the unit of work decides whether the span is ended.
   */
  method RunReporting(span: Span, spanConsumer: Outcome<Option<SpanReportingDecision>>, thread: CallerThread)
    returns (r: Outcome<()>)
    requires span.Valid() && span.calls == []
    modifies span
    ensures RanConditionally(span, thread, spanConsumer)
    ensures r == ConditionalRunOutcome(spanConsumer)
  {
    span.MakeCurrent();
    span.SetAttribute(ThreadIdKey, LongValue(thread.id));
    span.SetAttribute(ThreadNameKey, StringValue(thread.name));
    assert span.attributes == ThreadAttributes(thread);
    span.HandToWork();
    ghost var entered := span.calls;
    assert entered == Entered(thread);
    // try-with-resources closes the scope before the catch block runs
    match spanConsumer {
      case Returned(Some(Report)) =>
        span.End();
        span.CloseScope();
        assert span.calls == entered + [Ended, ScopeClosed];
        r := Returned(());
      case Returned(Some(DoNotReport)) =>
        span.CloseScope();
        r := Returned(());
      case Returned(None) =>
        span.CloseScope();
        r := CatchInRunInSpan(span, MissingDecision);
        assert span.calls == entered + [ScopeClosed, ExceptionRecorded(MissingDecision), StatusSet(Error), Ended];
      case Threw(t) =>
        span.CloseScope();
        if IsException(t) {
          r := CatchInRunInSpan(span, t);
          assert span.calls == entered + [ScopeClosed, ExceptionRecorded(t), StatusSet(Error), Ended];
        } else {
          // an Error is not caught: it leaves the span as it is
          r := Threw(t);
        }
    }
  }

  /** The catch clause of runInSpan: record, always end, always wrap. */
  method CatchInRunInSpan(span: Span, ex: Throwable) returns (r: Outcome<()>)
    requires span.Valid()
    modifies span
    ensures span.Valid() && span.calls == old(span.calls) + [ExceptionRecorded(ex), StatusSet(Error), Ended]
    ensures span.recordedExceptions == old(span.recordedExceptions) + [ex] && span.status == Error
    ensures span.endCount == old(span.endCount) + 1
    ensures span.attributes == old(span.attributes) && span.scopeDepth == old(span.scopeDepth)
    ensures r == Threw(RuntimeWrapper(ex))
  {
    var ignored := Record(span, Some(ex));
    span.End();
    r := Threw(RuntimeWrapper(ex));
  }

  /** supplyInARootSpan: as runInARootSpan, handing back what the function returns. */
  method SupplyInARootSpan<T>(tracer: Option<Tracer>, spanName: Option<string>, fn: Option<Outcome<T>>,
                              thread: CallerThread)
    returns (span: Span?, r: Outcome<T>)
    ensures RequireSpanName(spanName).Some? ==> span == null && r == Threw(RequireSpanName(spanName).value)
    ensures RequireSpanName(spanName).None? && fn.None? ==> span == null && r == Threw(NullArgument("fn"))
    ensures RequireSpanName(spanName).None? && fn.Some? && tracer.None? ==>
      span == null && r == Threw(NullArgument("tracer"))
    ensures RequireSpanName(spanName).None? && fn.Some? && tracer.Some? ==>
      && span != null && span.name == spanName.value && span.parent.None? && span.links == []
      && RanScoped(span, thread, fn.value) && r == ScopedRunOutcome(fn.value)
  {
    var nameError := RequireSpanName(spanName);
    if nameError.Some? { return null, Threw(nameError.value); }
    if fn.None? { return null, Threw(NullArgument("fn")); }
    if tracer.None? { return null, Threw(NullArgument("tracer")); }
    span := new Span.Start(spanName.value, None, []);
    r := DoSupply(span, fn.value, thread);
  }

  /** supplyInChildSpan: checks `fn` before `parent`, unlike runInChildSpan. */
  method SupplyInChildSpan<T>(tracer: Option<Tracer>, spanName: Option<string>, parent: Option<SpanContext>,
                              fn: Option<Outcome<T>>, thread: CallerThread)
    returns (span: Span?, r: Outcome<T>)
    ensures RequireSpanName(spanName).Some? ==> span == null && r == Threw(RequireSpanName(spanName).value)
    ensures RequireSpanName(spanName).None? && fn.None? ==> span == null && r == Threw(NullArgument("fn"))
    ensures RequireSpanName(spanName).None? && fn.Some? && parent.None? ==>
      span == null && r == Threw(NullArgument("parent"))
    ensures RequireSpanName(spanName).None? && fn.Some? && parent.Some? && tracer.None? ==>
      span == null && r == Threw(NullArgument("tracer"))
    ensures RequireSpanName(spanName).None? && fn.Some? && parent.Some? && tracer.Some? ==>
      && span != null && span.name == spanName.value && span.parent == parent && span.links == []
      && RanScoped(span, thread, fn.value) && r == ScopedRunOutcome(fn.value)
  {
    var nameError := RequireSpanName(spanName);
    if nameError.Some? { return null, Threw(nameError.value); }
    if fn.None? { return null, Threw(NullArgument("fn")); }
    if parent.None? { return null, Threw(NullArgument("parent")); }
    if tracer.None? { return null, Threw(NullArgument("tracer")); }
    span := new Span.Start(spanName.value, parent, []);
    r := DoSupply(span, fn.value, thread);
  }

  /** supplyInLinkedSpan: checks `fn` before `cause`, unlike runInLinkedSpan. */
  method SupplyInLinkedSpan<T>(tracer: Option<Tracer>, spanName: Option<string>, cause: Option<SpanContext>,
                               fn: Option<Outcome<T>>, thread: CallerThread)
    returns (span: Span?, r: Outcome<T>)
    ensures RequireSpanName(spanName).Some? ==> span == null && r == Threw(RequireSpanName(spanName).value)
    ensures RequireSpanName(spanName).None? && fn.None? ==> span == null && r == Threw(NullArgument("fn"))
    ensures RequireSpanName(spanName).None? && fn.Some? && cause.None? ==>
      span == null && r == Threw(NullArgument("cause"))
    ensures RequireSpanName(spanName).None? && fn.Some? && cause.Some? && tracer.None? ==>
      span == null && r == Threw(NullArgument("tracer"))
    ensures RequireSpanName(spanName).None? && fn.Some? && cause.Some? && tracer.Some? ==>
      && span != null && span.name == spanName.value && span.parent.None? && span.links == [cause.value]
      && RanScoped(span, thread, fn.value) && r == ScopedRunOutcome(fn.value)
  {
    var nameError := RequireSpanName(spanName);
    if nameError.Some? { return null, Threw(nameError.value); }
    if fn.None? { return null, Threw(NullArgument("fn")); }
    if cause.None? { return null, Threw(NullArgument("cause")); }
    if tracer.None? { return null, Threw(NullArgument("tracer")); }
    span := new Span.Start(spanName.value, None, [cause.value]);
    r := DoSupply(span, fn.value, thread);
  }
}
