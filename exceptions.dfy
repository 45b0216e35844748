/**
 * The exceptions the buffer raises (RealTimeBufferExceptions.cs), as values.
 * Every kind except `ForeignException` is a RealTimeBufferException: the
 * four narrow kinds are its subclasses.
 */
module Exceptions {
  import opened Wrappers

  /**
   * Why a generic RealTimeBufferException was created. The texts of the
   * library's messages are not modelled; the message of a reported failure is.
   */
  datatype Reason =
    | PushFailed                // raised by the catch clause of Push
    | PullFailed                // raised by the catch clause of Pop
    | Reported(message: string) // built by SetError from the caller's message

  datatype Exception =
    | BufferException(reason: Reason, inner: Option<Exception>)
    | TimeOutException
    | CancelledException
    | FinishedException
    | PushExceededException
      /** Any exception type the library does not define, named by its type. */
    | ForeignException(typeName: string)

  /** `e is RealTimeBufferException`: the generic kind or one of its subclasses. */
  predicate IsBufferException(e: Exception) {
    !e.ForeignException?
  }

  /** The kinds the exception filter of Push lets through unwrapped. */
  predicate PushPassesThrough(e: Exception) {
    e.CancelledException? || e.FinishedException? || e.TimeOutException? || e.PushExceededException?
  }

  /** The kinds the exception filter of Pop lets through unwrapped. */
  predicate PopPassesThrough(e: Exception) {
    e.CancelledException? || e.FinishedException? || e.TimeOutException?
  }

  /** What leaves Push when `e` is raised inside it. */
  function WrapPush(e: Exception): (r: Exception)
    ensures IsBufferException(r)
    ensures PushPassesThrough(r) <==> PushPassesThrough(e)
    ensures PushPassesThrough(e) ==> r == e
    ensures !PushPassesThrough(e) ==> r.BufferException? && r.reason == PushFailed && r.inner == Some(e)
  {
    if PushPassesThrough(e) then e else BufferException(PushFailed, Some(e))
  }

  /** What leaves Pop when `e` is raised inside it. */
  function WrapPop(e: Exception): (r: Exception)
    ensures IsBufferException(r)
    ensures PopPassesThrough(r) <==> PopPassesThrough(e)
    ensures PopPassesThrough(e) ==> r == e
    ensures !PopPassesThrough(e) ==> r.BufferException? && r.reason == PullFailed && r.inner == Some(e) && r != e
  {
    if PopPassesThrough(e) then e
    else
      var w := BufferException(PullFailed, Some(e));
      assert e < w.inner;
      w
  }

  /** What `Task.Delay` throws for a delay below -1 milliseconds. */
  const ArgumentOutOfRange: Exception := ForeignException("System.ArgumentOutOfRangeException")

  /**
   * What `throw stored` raises: the stored exception, or, for a null
   * reference, the runtime's NullReferenceException.
   */
  function Thrown(stored: Option<Exception>): (r: Exception)
    ensures stored.Some? ==> r == stored.value
    ensures stored.None? ==> r.ForeignException?
  {
    match stored
    case Some(e) => e
    case None => ForeignException("System.NullReferenceException")
  }
}
