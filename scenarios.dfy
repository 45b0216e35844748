/**
 * The unit tests of RealTimeBufferTests.cs, and four scenarios of the
 * failure and delay-rejection paths, as client code of the class:
 * each method drives one buffer through the test's steps, choosing the wait
 * outcomes the test's timing produces, and returns what the buffer answered.
 */
module Scenarios {
  import opened Wrappers
  import opened Exceptions
  import opened Packages
  import opened BufferSpec
  import opened Buffers

  /** Test_QueuePushPop: a final value is delivered with Complete after the values before it. */
  method QueuePushPop() returns (p1: PopStep<int>, p2: PopStep<int>, p3: PopStep<int>)
    ensures p1 == PopReturned(Package(Some(1), NotComplete))
    ensures p2 == PopReturned(Package(Some(2), NotComplete))
    ensures p3 == PopReturned(Package(Some(3), Complete))
  {
    var b := new RealTimeBuffer<int>.WithTimeOut(2, 5000);
    var t := b.defaultTimeOutMilliseconds;
    var s1 := b.PushBegin(1, false, t);
    var s2 := b.PushBegin(2, false, t);
    p1 := b.PopBegin(t);
    var s3 := b.PushBegin(3, true, t);
    p2 := b.PopBegin(t);
    p3 := b.PopBegin(t);
  }

  /** Test_QueueWaitWhenEmpty: a pop on an empty buffer waits, and a push wakes it with the value. */
  method QueueWaitWhenEmpty() returns (waiting: PopStep<int>, p: PopStep<int>)
    ensures waiting == PopWaiting
    ensures p == PopReturned(Package(Some(1), NotComplete))
  {
    var b := new RealTimeBuffer<int>.WithTimeOut(2, 5000);
    var t := b.defaultTimeOutMilliseconds;
    waiting := b.PopBegin(t);
    var s := b.PushBegin(1, false, t);
    p := b.PopResume(t, Signalled, false);
  }

  /** Test_QueueWaitWhenFull: a push on a full buffer waits until a pop makes room. */
  method QueueWaitWhenFull() returns (waiting: PushStep<int>, p1: PopStep<int>, resumed: PushStep<int>,
                                      p2: PopStep<int>, p3: PopStep<int>)
    ensures waiting == PushWaiting(PushFrame(3, true, 5000))
    ensures p1 == PopReturned(Package(Some(1), NotComplete))
    ensures resumed == PushDone
    ensures p2 == PopReturned(Package(Some(2), NotComplete))
    ensures p3 == PopReturned(Package(Some(3), Complete))
  {
    var b := new RealTimeBuffer<int>.WithTimeOut(2, 5000);
    var t := b.defaultTimeOutMilliseconds;
    var s1 := b.PushBegin(1, false, t);
    var s2 := b.PushBegin(2, false, t);
    waiting := b.PushBegin(3, true, t);
    p1 := b.PopBegin(t);
    resumed := b.PushResume(PushFrame(3, true, t), Signalled, false);
    p2 := b.PopBegin(t);
    p3 := b.PopBegin(t);
  }

  /** Test_QueueTimeout: a push on a full buffer that is not popped times out. */
  method QueueTimeout() returns (waiting: PushStep<int>, timedOut: PushStep<int>)
    ensures waiting.PushWaiting?
    ensures timedOut == PushThrew(TimeOutException)
  {
    var b := new RealTimeBuffer<int>.WithTimeOut(2, 5000);
    var t := b.defaultTimeOutMilliseconds;
    var s1 := b.PushBegin(1, false, t);
    var s2 := b.PushBegin(2, false, t);
    waiting := b.PushBegin(3, false, 100);
    timedOut := b.PushResume(PushFrame(3, false, 100), TimedOut, false);
  }

  /** Test_QueuePushAfterFinished: a push after the final value fails with Finished. */
  method QueuePushAfterFinished() returns (rejected: PushStep<int>)
    ensures rejected == PushThrew(FinishedException)
  {
    var b := new RealTimeBuffer<int>.WithTimeOut(2, 5000);
    var t := b.defaultTimeOutMilliseconds;
    var s1 := b.PushBegin(1, false, t);
    var s2 := b.PushBegin(2, true, t);
    rejected := b.PushBegin(3, false, 100);
  }

  /** Test_QueuePushExceeded: with one push waiting, further pushes fail at once. */
  method QueuePushExceeded() returns (waiting: PushStep<int>, second: PushStep<int>, third: PushStep<int>)
    ensures waiting.PushWaiting?
    ensures second == PushThrew(PushExceededException)
    ensures third == PushThrew(PushExceededException)
  {
    var b := new RealTimeBuffer<int>.WithTimeOut(2, 5000);
    var t := b.defaultTimeOutMilliseconds;
    var s1 := b.PushBegin(1, false, t);
    var s2 := b.PushBegin(2, false, t);
    waiting := b.PushBegin(3, false, t);
    second := b.PushBegin(4, false, t);
    third := b.PushBegin(4, false, t);
  }

  /** Test_QueuePushCancelled: cancelling a waiting push fails it with Cancelled. */
  method QueuePushCancelled() returns (waiting: PushStep<int>, cancelled: PushStep<int>)
    ensures waiting.PushWaiting?
    ensures cancelled == PushThrew(CancelledException)
  {
    var b := new RealTimeBuffer<int>.WithTimeOut(2, 5000);
    var t := b.defaultTimeOutMilliseconds;
    var s1 := b.PushBegin(1, false, t);
    var s2 := b.PushBegin(2, false, t);
    waiting := b.PushBegin(3, false, t);
    cancelled := b.PushResume(PushFrame(3, false, t), TimedOut, true);
  }

  /** SetError then Pop: a value still queued is withheld and the failure comes out wrapped. */
  method FailureWithQueuedValue() returns (p: PopStep<int>)
    ensures p == PopThrew(BufferException(PullFailed, Some(BufferException(Reported("boom"), None))))
  {
    var b := new RealTimeBuffer<int>.WithTimeOut(2, 5000);
    var t := b.defaultTimeOutMilliseconds;
    var s1 := b.PushBegin(1, false, t);
    b.SetError("boom", None);
    p := b.PopBegin(t);
  }

  /** SetError on an empty buffer: Pop reports Complete, not the failure. */
  method FailureWithEmptyQueue() returns (p: PopStep<int>)
    ensures p == PopReturned(Package(None, Complete))
  {
    var b := new RealTimeBuffer<int>.WithTimeOut(2, 5000);
    var t := b.defaultTimeOutMilliseconds;
    b.SetError("boom", Some(ForeignException("System.IO.IOException")));
    p := b.PopBegin(t);
  }

  /**
   * SetError between a pop that made room and the resumption of a waiting
   * push: the push still enqueues, and its assignment clears IsFinished.
   */
  method FailureBeforePushResumes() returns (resumed: PushStep<int>, finished: bool, failed: bool,
                                             p: PopStep<int>)
    ensures resumed == PushDone
    ensures !finished && failed
    ensures p == PopThrew(BufferException(PullFailed, Some(BufferException(Reported("boom"), None))))
  {
    var b := new RealTimeBuffer<int>.WithTimeOut(2, 5000);
    var t := b.defaultTimeOutMilliseconds;
    var s1 := b.PushBegin(1, false, t);
    var s2 := b.PushBegin(2, false, t);
    var waiting := b.PushBegin(3, false, t);
    var p1 := b.PopBegin(t);
    b.SetError("boom", None);
    resumed := b.PushResume(PushFrame(3, false, t), Signalled, false);
    finished, failed := b.isFinished, b.isFailed;
    p := b.PopBegin(t);
  }

  /**
   * A push on a full buffer with a timeout below -1: `Task.Delay` throws after
   * the waiting flag was set, the push leaves with a wrapped push failure and
   * the flag stays set, so once the buffer is full again every push fails
   * with PushExceeded although none is waiting. A pop with such a timeout on
   * an empty buffer also fails instead of waiting.
   */
  method RejectedTimeOut() returns (rejected: PushStep<int>, p1: PopStep<int>, accepted: PushStep<int>,
                                    jammed: PushStep<int>, p2: PopStep<int>)
    ensures rejected == PushThrew(BufferException(PushFailed, Some(ArgumentOutOfRange)))
    ensures p1 == PopReturned(Package(Some(1), NotComplete))
    ensures accepted == PushDone
    ensures jammed == PushThrew(PushExceededException)
    ensures p2 == PopThrew(BufferException(PullFailed, Some(ArgumentOutOfRange)))
  {
    var b := new RealTimeBuffer<int>.WithTimeOut(2, 5000);
    var t := b.defaultTimeOutMilliseconds;
    var s1 := b.PushBegin(1, false, t);
    var s2 := b.PushBegin(2, false, t);
    rejected := b.PushBegin(3, false, -2);
    p1 := b.PopBegin(t);
    accepted := b.PushBegin(4, false, t);
    jammed := b.PushBegin(5, false, t);
    var other := new RealTimeBuffer<int>.WithTimeOut(2, 5000);
    p2 := other.PopBegin(-2);
  }
}
