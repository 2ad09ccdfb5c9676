/**
 * Java's throwables as far as the library tells them apart, and the two ways a
 * call can complete: by returning a value or by throwing.
 */
module JavaExceptions {

  /** How a throwable is classified by Java's exception hierarchy. */
  datatype ThrowableKind =
    | CheckedException    // an Exception that is not a RuntimeException
    | UncheckedException  // a RuntimeException
    | JvmError            // an Error: not an Exception at all

  /** The classes of the throwables that appear in the library. */
  datatype ThrowableClass =
    | IllegalArgumentException
    | NullPointerException
    | IllegalStateException
    | RuntimeException
    | ApplicationThrowable(className: string, kind: ThrowableKind)  // thrown by caller code

  /**
   * A throwable: one created with a detail message, or `new RuntimeException(cause)`,
   * whose message is derived from its cause.
   */
  datatype Throwable =
    | Throwable(cls: ThrowableClass, message: string)
    | RuntimeWrapper(cause: Throwable)

  function KindOf(t: Throwable): ThrowableKind {
    match t
    case RuntimeWrapper(_) => UncheckedException
    case Throwable(ApplicationThrowable(_, kind), _) => kind
    case Throwable(_, _) => UncheckedException
  }

  /** `t instanceof RuntimeException` */
  predicate IsRuntimeException(t: Throwable) {
    KindOf(t) == UncheckedException
  }

  /** `t instanceof Exception`: what a `catch (Exception ex)` clause catches. */
  predicate IsException(t: Throwable) {
    KindOf(t) != JvmError
  }

  /** How many wrappers stand between a throwable and the one at the root of its cause chain. */
  function WrapDepth(t: Throwable): nat {
    match t
    case RuntimeWrapper(cause) => WrapDepth(cause) + 1
    case Throwable(_, _) => 0
  }

  /** Wrapping always makes a new throwable, never the one it wraps. */
  lemma WrapperIsNew(t: Throwable)
    ensures RuntimeWrapper(t) != t
  {
    assert WrapDepth(RuntimeWrapper(t)) == WrapDepth(t) + 1;
  }

  /** How a Java call completes. */
  datatype Outcome<+T> = Returned(value: T) | Threw(thrown: Throwable)
}
