/**
 * RealTimeBuffer<T> (RealTimeBuffer.cs) as a class whose methods are the
 * segments of Push and Pop between `await` points, and SetError. Each method
 * is proved against the matching function of BufferSpec.
 */
module Buffers {
  import opened Wrappers
  import opened Exceptions
  import opened Packages
  import opened BufferSpec

  class RealTimeBuffer<T> {
    /** The ConcurrentQueue, head first. */
    var queue: seq<T>
    var maxBufferCount: int32
    var defaultTimeOutMilliseconds: int32
    var isFailed: bool
    var isFinished: bool
    var message: Option<string>
    var exception: Option<Exception>
    /** `_awaitingPush`: a push is suspended waiting for room. */
    var awaitingPush: bool

    /** The fields as a value. */
    function Snapshot(): State<T>
      reads this
    {
      State(queue, maxBufferCount, defaultTimeOutMilliseconds, isFailed, isFinished,
            message, exception, awaitingPush)
    }

    /** `new RealTimeBuffer<T>(maxBufferCount)`: the default timeout is kept. */
    constructor (maxBufferCount: int32)
      ensures Snapshot() == Initial(maxBufferCount, DefaultTimeOutMilliseconds)
    {
      queue := [];
      this.maxBufferCount := maxBufferCount;
      defaultTimeOutMilliseconds := DefaultTimeOutMilliseconds;
      isFailed, isFinished := false, false;
      message, exception := None, None;
      awaitingPush := false;
    }

    /** `new RealTimeBuffer<T>(maxBufferCount, defaultTimeOutMilliseconds)`. */
    constructor WithTimeOut(maxBufferCount: int32, defaultTimeOutMilliseconds: int32)
      ensures Snapshot() == Initial(maxBufferCount, defaultTimeOutMilliseconds)
    {
      queue := [];
      this.maxBufferCount := maxBufferCount;
      this.defaultTimeOutMilliseconds := defaultTimeOutMilliseconds;
      isFailed, isFinished := false, false;
      message, exception := None, None;
      awaitingPush := false;
    }

    /** The head of the loop of Push and the enqueue after it; exceptions raw. */
    method PushLoopHead(frame: PushFrame<T>) returns (step: PushStep<T>)
      modifies this
      ensures After(Snapshot(), step) == PushLoop(old(Snapshot()), frame)
    {
      if |queue| >= maxBufferCount as int {
        if awaitingPush {
          step := PushThrew(PushExceededException);
        } else {
          awaitingPush := true;
          if frame.timeOutMilliseconds < -1 {
            step := PushThrew(ArgumentOutOfRange);
          } else {
            step := PushWaiting(frame);
          }
        }
      } else {
        queue := queue + [frame.buffer];
        isFinished := frame.isFinalBuffer;
        step := PushDone;
      }
    }

    /** Push, from the call up to its first wait. */
    method PushBegin(buffer: T, isFinalBuffer: bool, timeOutMilliseconds: int32) returns (step: PushStep<T>)
      modifies this
      ensures After(Snapshot(), step) == BufferSpec.PushBegin(old(Snapshot()), buffer, isFinalBuffer, timeOutMilliseconds)
    {
      if isFinished {
        step := PushThrew(FinishedException);
      } else {
        step := PushLoopHead(PushFrame(buffer, isFinalBuffer, timeOutMilliseconds));
      }
      step := CatchPush(step);
    }

    /**
     * Push, from the end of a wait for room up to the next wait or the end;
     * run only while that push waits, on an outcome its delay can produce.
     */
    method PushResume(frame: PushFrame<T>, wake: WaitOutcome, cancelled: bool) returns (step: PushStep<T>)
      requires awaitingPush
      requires WaitPossible(frame.timeOutMilliseconds, wake, cancelled)
      modifies this
      ensures After(Snapshot(), step) == BufferSpec.PushResume(old(Snapshot()), frame, wake, cancelled)
    {
      awaitingPush := false;
      if cancelled {
        step := PushThrew(CancelledException);
      } else if wake == TimedOut {
        step := PushThrew(TimeOutException);
      } else {
        step := PushLoopHead(frame);
      }
      step := CatchPush(step);
    }

    /** Mark the buffer as failed; `exception == None` is a null argument. */
    method SetError(message: string, exception: Option<Exception>)
      modifies this
      ensures Snapshot() == BufferSpec.SetError(old(Snapshot()), message, exception)
    {
      isFailed := true;
      isFinished := true;
      this.message := Some(message);
      this.exception := Some(StoredException(message, exception));
    }

    /** The head of the empty-queue loop of Pop and the dequeue after it; exceptions raw. */
    method PopLoopHead(timeOutMilliseconds: int32) returns (step: PopStep<T>)
      modifies this
      ensures After(Snapshot(), step) == PopLoop(old(Snapshot()), timeOutMilliseconds)
    {
      if |queue| == 0 {
        if isFinished {
          step := PopReturned(Package(None, Complete));
        } else if isFailed {
          step := PopThrew(Thrown(exception));
        } else if timeOutMilliseconds < -1 {
          step := PopThrew(ArgumentOutOfRange);
        } else {
          step := PopWaiting;
        }
      } else if isFailed {
        step := PopThrew(Thrown(exception));
      } else {
        var result := queue[0];
        queue := queue[1..];
        var status := if isFinished && |queue| == 0 then Complete else NotComplete;
        step := PopReturned(Package(Some(result), status));
      }
    }

    /** Pop, from the call up to its first wait. */
    method PopBegin(timeOutMilliseconds: int32) returns (step: PopStep<T>)
      modifies this
      ensures After(Snapshot(), step) == BufferSpec.PopBegin(old(Snapshot()), timeOutMilliseconds)
    {
      step := PopLoopHead(timeOutMilliseconds);
      step := CatchPop(step);
    }

    /**
     * Pop, from the end of a wait for a value up to the next wait or the end,
     * given the timeout Pop was called with and an outcome its delay can produce.
     */
    method PopResume(timeOutMilliseconds: int32, wake: WaitOutcome, cancelled: bool) returns (step: PopStep<T>)
      requires WaitPossible(timeOutMilliseconds, wake, cancelled)
      modifies this
      ensures After(Snapshot(), step) == BufferSpec.PopResume(old(Snapshot()), timeOutMilliseconds, wake, cancelled)
    {
      if cancelled {
        step := PopReturned(Package(None, Cancalled));
      } else if wake == TimedOut {
        step := PopThrew(TimeOutException);
      } else {
        step := PopLoopHead(timeOutMilliseconds);
      }
      step := CatchPop(step);
    }
  }
}
