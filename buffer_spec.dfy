/**
 * The state machine of RealTimeBuffer<T> (RealTimeBuffer.cs) on values.
 *
 * Push and Pop are async methods; each is cut at its `await` into the code
 * before the first wait (`PushBegin`, `PopBegin`) and the code that runs when
 * a wait completes (`PushResume`, `PopResume`). The outcome of a wait is an
 * input: whether the signal or the timer finished first (`WaitOutcome`), and
 * whether cancellation had been requested by then. Between segments the
 * other side may run any of its own segments. The per-call timeout matters
 * only to `Task.Delay`, which rejects a value below -1 and never completes
 * for -1; no clock is modelled.
 */
module BufferSpec {
  import opened Wrappers
  import opened Exceptions
  import opened Packages

  /** C#'s `int`. */
  newtype int32 = x: int | -0x8000_0000 <= x < 0x8000_0000

  /** The initial value of `DefaulttimeOutMilliseconds`. */
  const DefaultTimeOutMilliseconds: int32 := 5000

  /** The fields of a RealTimeBuffer<T>; `queue` is the ConcurrentQueue, head first. */
  datatype State<T> = State(
    queue: seq<T>,
    maxBufferCount: int32,
    defaultTimeOutMilliseconds: int32,
    isFailed: bool,
    isFinished: bool,
    message: Option<string>,
    exception: Option<Exception>,
    awaitingPush: bool)

  /** Which task `Task.WhenAny` saw complete first: the signal, or the delay. */
  datatype WaitOutcome = Signalled | TimedOut

  /** `Task.Delay(timeOutMilliseconds, ...)` accepts its delay: -1 means "infinite". */
  predicate DelayAccepts(timeOutMilliseconds: int32) {
    timeOutMilliseconds >= -1
  }

  /**
   * A wait outcome the runtime can produce: an infinite delay completes only
   * by being cancelled.
   */
  predicate WaitPossible(timeOutMilliseconds: int32, wake: WaitOutcome, cancelled: bool) {
    wake == TimedOut && timeOutMilliseconds == -1 ==> cancelled
  }

  /** The arguments of a Push that is suspended waiting for room. */
  datatype PushFrame<T> = PushFrame(buffer: T, isFinalBuffer: bool, timeOutMilliseconds: int32)

  /** How a segment of Push ends: suspended, returned, or thrown. */
  datatype PushStep<T> = PushWaiting(frame: PushFrame<T>) | PushDone | PushThrew(error: Exception)

  /** How a segment of Pop ends: suspended, returned a package, or thrown. */
  datatype PopStep<T> = PopWaiting | PopReturned(package: Package<T>) | PopThrew(error: Exception)

  /** The state after a segment, with how the segment ended. */
  datatype After<T, S> = After(state: State<T>, step: S)

  /** The loop guard of Push: `Count >= MaxBufferCount`. */
  predicate Full<T>(s: State<T>) {
    |s.queue| >= s.maxBufferCount as int
  }

  /** The most values the queue can hold; a non-positive maximum admits none. */
  function Capacity<T>(s: State<T>): nat {
    if s.maxBufferCount < 0 then 0 else s.maxBufferCount as int
  }

  /** The queue holds no more than the maximum. */
  predicate Bounded<T>(s: State<T>) {
    |s.queue| <= Capacity(s)
  }

  /**
   * A failed buffer has an exception stored, and is finished or still holds
   * a value a pop will refuse to hand out. Where it holds, a failed buffer
   * whose queue is empty answers every pop with Complete, never with the
   * failure, and a failed pop never raises a null exception.
   */
  predicate FailureConsistent<T>(s: State<T>) {
    s.isFailed ==> s.exception.Some? && (s.isFinished || |s.queue| > 0)
  }

  /** The buffer as the constructors leave it. */
  function Initial<T>(maxBufferCount: int32, defaultTimeOutMilliseconds: int32): (s: State<T>)
    ensures s.queue == [] && s.maxBufferCount == maxBufferCount
    ensures s.defaultTimeOutMilliseconds == defaultTimeOutMilliseconds
    ensures !s.isFailed && !s.isFinished && !s.awaitingPush
    ensures s.message == None && s.exception == None
    ensures Bounded(s) && FailureConsistent(s)
  {
    State([], maxBufferCount, defaultTimeOutMilliseconds, false, false, None, None, false)
  }

  // ---------------------------------------------------------------- Push

  /**
   * The head of the loop of Push, and what follows it when the loop exits:
   * reject a second waiting pusher, or set the waiting flag and start the
   * wait, or enqueue. Exceptions are raw, before the filter of Push; the
   * waiting flag stays set when `Task.Delay` rejects the timeout.
   */
  function PushLoop<T>(s: State<T>, frame: PushFrame<T>): (r: After<T, PushStep<T>>)
    ensures r.step.PushDone? <==> !Full(s)
    ensures r.step.PushDone? ==>
      && r.state.queue == s.queue + [frame.buffer]
      && r.state.isFinished == frame.isFinalBuffer
      && r.state == s.(queue := r.state.queue, isFinished := r.state.isFinished)
    ensures r.step.PushWaiting? <==> Full(s) && !s.awaitingPush && DelayAccepts(frame.timeOutMilliseconds)
    ensures r.step.PushWaiting? ==> r.step.frame == frame && r.state == s.(awaitingPush := true)
    ensures Full(s) && s.awaitingPush ==> r == After(s, PushThrew(PushExceededException))
    ensures Full(s) && !s.awaitingPush && !DelayAccepts(frame.timeOutMilliseconds) ==>
      r == After(s.(awaitingPush := true), PushThrew(ArgumentOutOfRange))
    ensures r.state.awaitingPush == (s.awaitingPush || Full(s))
    ensures Bounded(s) ==> Bounded(r.state)
  {
    if |s.queue| >= s.maxBufferCount as int then
      if s.awaitingPush then After(s, PushThrew(PushExceededException))
      else if frame.timeOutMilliseconds < -1 then After(s.(awaitingPush := true), PushThrew(ArgumentOutOfRange))
      else After(s.(awaitingPush := true), PushWaiting(frame))
    else
      After(s.(queue := s.queue + [frame.buffer], isFinished := frame.isFinalBuffer), PushDone)
  }

  /** The exception filter of Push applied to how a segment ended. */
  function CatchPush<T>(step: PushStep<T>): (r: PushStep<T>) {
    match step
    case PushThrew(e) => PushThrew(WrapPush(e))
    case _ => step
  }

  /** Push up to its first wait: the finished guard, then the loop head. */
  function PushBegin<T>(s: State<T>, buffer: T, isFinalBuffer: bool, timeOutMilliseconds: int32): (r: After<T, PushStep<T>>)
    ensures s.isFinished ==> r == After(s, PushThrew(FinishedException))
    ensures !s.isFinished && Full(s) && s.awaitingPush ==> r == After(s, PushThrew(PushExceededException))
    ensures !s.isFinished && Full(s) && !s.awaitingPush && !DelayAccepts(timeOutMilliseconds) ==>
      r == After(s.(awaitingPush := true), PushThrew(BufferException(PushFailed, Some(ArgumentOutOfRange))))
    ensures !s.isFinished && (!Full(s) || (!s.awaitingPush && DelayAccepts(timeOutMilliseconds))) ==>
      r == PushLoop(s, PushFrame(buffer, isFinalBuffer, timeOutMilliseconds))
    ensures r.step.PushThrew? && PushPassesThrough(r.step.error) ==> r.state == s
    ensures Bounded(s) ==> Bounded(r.state)
  {
    var raw := if s.isFinished then After(s, PushThrew(FinishedException))
               else PushLoop(s, PushFrame(buffer, isFinalBuffer, timeOutMilliseconds));
    After(raw.state, CatchPush(raw.step))
  }

  /**
   * Push after its wait completes: clear the waiting flag, then cancellation
   * (checked first), then timeout, then back to the loop head. The finished
   * guard is not checked again.
   */
  function PushResume<T>(s: State<T>, frame: PushFrame<T>, wake: WaitOutcome, cancelled: bool): (r: After<T, PushStep<T>>)
    ensures cancelled ==> r == After(s.(awaitingPush := false), PushThrew(CancelledException))
    ensures !cancelled && wake == TimedOut ==> r == After(s.(awaitingPush := false), PushThrew(TimeOutException))
    ensures !cancelled && wake == Signalled ==> r.state == PushLoop(s.(awaitingPush := false), frame).state
    ensures !cancelled && wake == Signalled && (!Full(s) || DelayAccepts(frame.timeOutMilliseconds)) ==>
      r == PushLoop(s.(awaitingPush := false), frame)
    ensures !cancelled && wake == Signalled && Full(s) && !DelayAccepts(frame.timeOutMilliseconds) ==>
      r == After(s.(awaitingPush := true), PushThrew(BufferException(PushFailed, Some(ArgumentOutOfRange))))
    ensures r.step.PushWaiting? ==> r.state.awaitingPush
    ensures r.state.awaitingPush ==> r.step.PushWaiting? || !DelayAccepts(frame.timeOutMilliseconds)
    ensures r.step.PushThrew? ==> r.step.error != PushExceededException
    ensures r.step.PushThrew? && !PushPassesThrough(r.step.error) ==>
      r.step.error == BufferException(PushFailed, Some(ArgumentOutOfRange))
    ensures Bounded(s) ==> Bounded(r.state)
  {
    var cleared := s.(awaitingPush := false);
    var raw := if cancelled then After(cleared, PushThrew(CancelledException))
               else if wake == TimedOut then After(cleared, PushThrew(TimeOutException))
               else PushLoop(cleared, frame);
    After(raw.state, CatchPush(raw.step))
  }

  // ---------------------------------------------------------------- SetError

  /** The exception SetError stores: the given one, or a generic one carrying the message. */
  function StoredException(message: string, exception: Option<Exception>): (r: Exception)
    ensures exception.Some? ==> r == exception.value
    ensures exception.None? ==> r.BufferException? && r.reason == Reported(message) && r.inner == None
  {
    if exception.None? then BufferException(Reported(message), None) else exception.value
  }

  /** Mark the buffer failed (and finished), keeping the queue. */
  function SetError<T>(s: State<T>, message: string, exception: Option<Exception>): (r: State<T>)
    ensures r.isFailed && r.isFinished
    ensures r.message == Some(message)
    ensures r.exception == Some(StoredException(message, exception))
    ensures r.queue == s.queue && r.awaitingPush == s.awaitingPush
    ensures r.maxBufferCount == s.maxBufferCount && r.defaultTimeOutMilliseconds == s.defaultTimeOutMilliseconds
    ensures FailureConsistent(r) && (Bounded(s) ==> Bounded(r))
  {
    s.(isFailed := true, isFinished := true, message := Some(message),
       exception := Some(StoredException(message, exception)))
  }

  // ---------------------------------------------------------------- Pop

  /**
   * The head of the empty-queue loop of Pop, and the dequeue that follows it
   * when the loop exits. Exceptions are raw, before the filter of Pop.
   */
  function PopLoop<T>(s: State<T>, timeOutMilliseconds: int32): (r: After<T, PopStep<T>>) {
    if |s.queue| == 0 then
      if s.isFinished then After(s, PopReturned(Package(None, Complete)))
      else if s.isFailed then After(s, PopThrew(Thrown(s.exception)))
      else if timeOutMilliseconds < -1 then After(s, PopThrew(ArgumentOutOfRange))
      else After(s, PopWaiting)
    else if s.isFailed then After(s, PopThrew(Thrown(s.exception)))
    else
      var rest := s.queue[1..];
      var status := if s.isFinished && |rest| == 0 then Complete else NotComplete;
      After(s.(queue := rest), PopReturned(Package(Some(s.queue[0]), status)))
  }

  /** The exception filter of Pop applied to how a segment ended. */
  function CatchPop<T>(step: PopStep<T>): (r: PopStep<T>) {
    match step
    case PopThrew(e) => PopThrew(WrapPop(e))
    case _ => step
  }

  /** The package a pop of a non-empty queue returns. */
  ghost predicate Delivers<T>(s: State<T>, r: After<T, PopStep<T>>) {
    && |s.queue| > 0
    && r.state == s.(queue := s.queue[1..])
    && r.step.PopReturned?
    && r.step.package.package == Some(s.queue[0])
    && r.step.package.status in {Complete, NotComplete}
    && (r.step.package.status == Complete <==> s.isFinished && r.state.queue == [])
  }

  /**
   * Pop up to its first wait. An empty queue checks IsFinished before
   * IsFailed, so a failed buffer with an empty queue reports Complete.
   */
  function PopBegin<T>(s: State<T>, timeOutMilliseconds: int32): (r: After<T, PopStep<T>>)
    ensures r.step.PopWaiting? <==>
      |s.queue| == 0 && !s.isFinished && !s.isFailed && DelayAccepts(timeOutMilliseconds)
    ensures |s.queue| == 0 && s.isFinished ==> r == After(s, PopReturned(Package(None, Complete)))
    ensures s.isFailed && !(|s.queue| == 0 && s.isFinished) ==>
      r == After(s, PopThrew(WrapPop(Thrown(s.exception))))
    ensures |s.queue| == 0 && !s.isFinished && !s.isFailed && !DelayAccepts(timeOutMilliseconds) ==>
      r == After(s, PopThrew(BufferException(PullFailed, Some(ArgumentOutOfRange))))
    ensures |s.queue| > 0 && !s.isFailed ==> Delivers(s, r)
    ensures r.state == s || Delivers(s, r)
    ensures r.step.PopThrew? ==> IsBufferException(r.step.error)
    ensures s.isFailed ==>
      r.state == s && (r.step.PopReturned? ==> r.step.package == Package(None, Complete))
    ensures s.isFailed && FailureConsistent(s) && |s.queue| == 0 ==>
      r.step == PopReturned(Package(None, Complete))
  {
    var raw := PopLoop(s, timeOutMilliseconds);
    After(raw.state, CatchPop(raw.step))
  }

  /**
   * Pop after its wait completes: cancellation (checked first) returns a
   * Cancalled package, a timeout throws, a signal goes back to the loop head
   * with the timeout Pop was called with.
   */
  function PopResume<T>(s: State<T>, timeOutMilliseconds: int32, wake: WaitOutcome, cancelled: bool): (r: After<T, PopStep<T>>)
    ensures cancelled ==> r == After(s, PopReturned(Package(None, Cancalled)))
    ensures !cancelled && wake == TimedOut ==> r == After(s, PopThrew(TimeOutException))
    ensures !cancelled && wake == Signalled ==> r == PopBegin(s, timeOutMilliseconds)
    ensures r.state == s || Delivers(s, r)
  {
    var raw := if cancelled then After(s, PopReturned(Package(None, Cancalled)))
               else if wake == TimedOut then After(s, PopThrew(TimeOutException))
               else PopLoop(s, timeOutMilliseconds);
    After(raw.state, CatchPop(raw.step))
  }
}
