# RealTimeBuffer in Dafny

A model of `RealTimeBuffer<T>` from Dexih.Utils.RealTimeBuffer: a bounded
buffer that one producer fills with `Push` and one consumer drains with `Pop`,
with backpressure (a push waits while the queue holds `MaxBufferCount`
values, a pop waits while it is empty), timeouts, cancellation, a "final
buffer" marker and `SetError` to hand a failure from the producer to the
consumer.

`Push` and `Pop` are `async` methods. The model cuts each at its `await`:
`PushBegin` / `PopBegin` run from the call to the first wait, `PushResume` /
`PopResume` run from the end of a wait to the next wait or to the end. The
outcome of a wait is an input: which of `Task.WhenAny`'s tasks finished first
(`Signalled` or `TimedOut`) and whether cancellation had been requested. A
suspended push keeps its value, final flag and timeout in a `PushFrame`, which is
handed back to `PushResume`. Thrown exceptions are results (`PushThrew`,
`PopThrew`), after the method's exception filter has been applied.

Files and modules:

- `wrappers.dfy` (`Wrappers`): `Option`, standing for C#'s `null`.
- `exceptions.dfy` (`Exceptions`): the exception kinds of
  RealTimeBufferExceptions.cs and the two exception filters.
- `packages.dfy` (`Packages`): `ERealTimeBufferStatus` and
  `RealTimeBufferPackage<T>`.
- `buffer_spec.dfy` (`BufferSpec`): the buffer's fields as a value `State<T>`
  and each segment of Push, SetError and Pop as a function on it.
- `buffer.dfy` (`Buffers`): the class `RealTimeBuffer<T>` with those fields;
  each method is one segment, proved to change the fields exactly as the
  matching `BufferSpec` function says.
- `traces.dfy` (`Traces`): runs of arbitrarily interleaved segments and the
  properties that hold over them: FIFO delivery with no loss or duplication,
  the capacity bound, and the stickiness of a failure.
- `scenarios.dfy` (`Scenarios`): the unit tests of RealTimeBufferTests.cs, and
  four scenarios of the failure and delay-rejection paths, as client code of
  the class, with the answers they expect as postconditions.

The model follows the code, including these behaviours:

- storage is a FIFO queue bounded by a count check (`Count >= MaxBufferCount`);
- `MaxBufferCount` may be any `int`; zero or a negative value makes every
  push wait;
- a pop on an empty queue checks `IsFinished` before `IsFailed`, and
  `SetError` sets both, so after a failure an empty-queue pop returns
  `Complete` instead of raising the failure;
- the waiting-pusher flag is cleared after every wait, whatever its outcome;
- cancellation is checked before the timeout and wins even when the signal
  completed the wait first;
- `IsFinished` is assigned the final flag of each successful push, so a push
  that was waiting when `SetError` ran, and that then finds room, clears it
  (`Scenarios.FailureBeforePushResumes`);
- Pop's filter wraps every exception but Cancelled, Finished and TimeOut, so a
  stored generic failure, or a stored PushExceeded, comes out wrapped once more;
- the per-call timeout goes to `Task.Delay`, which throws
  ArgumentOutOfRangeException for a value below -1: a push on a full buffer
  has already set the waiting flag, leaves with a wrapped push failure and
  leaves the flag set, so every later push on a full buffer fails with
  PushExceeded; a pop on an empty buffer fails with a wrapped pull failure
  instead of waiting (`Scenarios.RejectedTimeOut`). A timeout of -1 is
  infinite, so such a wait ends only by a signal or by cancellation.

## Model

| member | source | states |
|---|---|---|
| `Exceptions.WrapPush` | src/Dexih.Utils.RealTimeBuffer/RealTimeBuffer.cs:171-175 | Cancelled, Finished, TimeOut and PushExceeded leave Push unchanged; anything else leaves as a generic RealTimeBufferException whose inner exception is the original; the result is always a RealTimeBufferException |
| `Exceptions.WrapPop` | src/Dexih.Utils.RealTimeBuffer/RealTimeBuffer.cs:284-288 | Cancelled, Finished and TimeOut leave Pop unchanged; anything else, a generic RealTimeBufferException included, is wrapped in a new one that keeps it as inner exception |
| `Exceptions.Thrown` | src/Dexih.Utils.RealTimeBuffer/RealTimeBuffer.cs:261-264 | `throw Exception` raises the stored exception; a null one raises a runtime exception outside the library |
| `BufferSpec.Initial` | src/Dexih.Utils.RealTimeBuffer/RealTimeBuffer.cs:64-75 | a new buffer has an empty queue, the given maximum and timeout, no flag set, no message or exception; it is bounded and consistent |
| `BufferSpec.PushLoop` | src/Dexih.Utils.RealTimeBuffer/RealTimeBuffer.cs:139-169 | a push enqueues exactly when the queue is below the maximum, appending its value at the tail and setting IsFinished to its final flag with nothing else changed; on a full queue it fails with PushExceeded, unchanged, when a pusher already waits; otherwise it sets the waiting flag and waits, or, for a timeout below -1, fails with the delay's ArgumentOutOfRangeException and keeps the flag set; it never overfills the queue |
| `BufferSpec.PushBegin` | src/Dexih.Utils.RealTimeBuffer/RealTimeBuffer.cs:129-176 | a push on a finished buffer fails with Finished and changes nothing; otherwise it behaves as the loop head: with room it enqueues, on a full queue with no waiting pusher and an accepted timeout it waits, and a rejected timeout leaves as a push failure wrapping ArgumentOutOfRangeException; a push that raises one of the four named kinds leaves the state unchanged |
| `BufferSpec.PushResume` | src/Dexih.Utils.RealTimeBuffer/RealTimeBuffer.cs:146-164 | after a wait the flag is cleared; cancellation fails with Cancelled whatever the wait outcome; a timeout fails with TimeOut; a signal re-checks capacity: with room the push completes, on a full queue with an accepted timeout it waits again, and with a rejected timeout it fails with the wrapped delay rejection and sets the flag again; so the flag is set again only when the push waits again or its timeout is rejected; a resumed push never fails with PushExceeded, and any other kind it raises is the wrapped delay rejection |
| `BufferSpec.StoredException` | src/Dexih.Utils.RealTimeBuffer/RealTimeBuffer.cs:189-196 | the given exception is stored as it is; for a null one a generic exception carrying the message is stored |
| `BufferSpec.SetError` | src/Dexih.Utils.RealTimeBuffer/RealTimeBuffer.cs:183-199 | IsFailed and IsFinished become true, the message and the exception are stored, the queue and the waiting flag are kept |
| `BufferSpec.PopBegin` | src/Dexih.Utils.RealTimeBuffer/RealTimeBuffer.cs:226-289 | an empty finished queue returns Complete without a value; an empty failed one raises the stored exception through the filter; an empty one otherwise waits, and only then, unless its timeout is below -1, when it raises a pull failure wrapping ArgumentOutOfRangeException; a failed non-empty one raises without dequeuing; otherwise the head is removed and returned, with status Complete exactly when IsFinished holds and the queue is now empty, else NotComplete; nothing else changes; a failed buffer is never changed and hands out no value, and if it is failure-consistent with an empty queue it answers Complete |
| `BufferSpec.PopResume` | src/Dexih.Utils.RealTimeBuffer/RealTimeBuffer.cs:246-257 | after a wait, cancellation returns a Cancalled package rather than throwing, a timeout throws TimeOut, a signal goes back to the empty-queue check with the same timeout |
| `Buffers.RealTimeBuffer.constructor` | src/Dexih.Utils.RealTimeBuffer/RealTimeBuffer.cs:64-68 | the fields are those of `BufferSpec.Initial` with the default timeout of 5000 ms |
| `Buffers.RealTimeBuffer.WithTimeOut` | src/Dexih.Utils.RealTimeBuffer/RealTimeBuffer.cs:70-75 | the fields are those of `BufferSpec.Initial` with the given timeout |
| `Buffers.RealTimeBuffer.PushLoopHead` | src/Dexih.Utils.RealTimeBuffer/RealTimeBuffer.cs:139-169 | updates the fields in place as `BufferSpec.PushLoop` says |
| `Buffers.RealTimeBuffer.PushBegin` | src/Dexih.Utils.RealTimeBuffer/RealTimeBuffer.cs:129-151 | updates the fields and ends as `BufferSpec.PushBegin` says |
| `Buffers.RealTimeBuffer.PushResume` | src/Dexih.Utils.RealTimeBuffer/RealTimeBuffer.cs:151-176 | run only while a push waits, and only on a wait outcome its delay can produce (an infinite delay ends only by cancellation); updates the fields and ends as `BufferSpec.PushResume` says |
| `Buffers.RealTimeBuffer.SetError` | src/Dexih.Utils.RealTimeBuffer/RealTimeBuffer.cs:183-199 | updates the fields as `BufferSpec.SetError` says |
| `Buffers.RealTimeBuffer.PopLoopHead` | src/Dexih.Utils.RealTimeBuffer/RealTimeBuffer.cs:230-281 | updates the fields in place as the unfiltered Pop loop head does |
| `Buffers.RealTimeBuffer.PopBegin` | src/Dexih.Utils.RealTimeBuffer/RealTimeBuffer.cs:226-246 | updates the fields and ends as `BufferSpec.PopBegin` says |
| `Buffers.RealTimeBuffer.PopResume` | src/Dexih.Utils.RealTimeBuffer/RealTimeBuffer.cs:246-289 | run only on a wait outcome its delay can produce; updates the fields and ends as `BufferSpec.PopResume` says |
| `Traces.BeginPushEffect` | src/Dexih.Utils.RealTimeBuffer/RealTimeBuffer.cs:129-151 | the first segment of a push is `Accounted`: it enqueues at most its own value at the tail |
| `Traces.ResumePushEffect` | src/Dexih.Utils.RealTimeBuffer/RealTimeBuffer.cs:151-176 | a resumed push is `Accounted`: it enqueues at most its own value at the tail |
| `Traces.BeginPopEffect` | src/Dexih.Utils.RealTimeBuffer/RealTimeBuffer.cs:226-246 | the first segment of a pop is `Accounted`: it hands out at most the head |
| `Traces.ResumePopEffect` | src/Dexih.Utils.RealTimeBuffer/RealTimeBuffer.cs:246-289 | a resumed pop is `Accounted`: it hands out at most the head |
| `Traces.Apply` | src/Dexih.Utils.RealTimeBuffer/RealTimeBuffer.cs:129-289 | any one segment is `Accounted`: the values handed out, then those queued, equal those queued before, then those enqueued; at most one value moves; the maximum, the capacity bound, the failure latch and failure consistency are kept; a failed buffer hands out nothing |
| `Traces.RunIsFifo` | src/Dexih.Utils.RealTimeBuffer/RealTimeBuffer.cs:166-266 | over any interleaving, the values handed out followed by those still queued are the values queued at the start followed by those enqueued, in order |
| `Traces.FifoFromEmpty` | test/Dexih.Utils.RealTimeBuffer.Tests/RealTimeBufferTests.cs:20-40 | from an empty queue the consumer receives a prefix of the pushed values in push order, and no pushed value is lost |
| `Traces.RunIsBounded` | src/Dexih.Utils.RealTimeBuffer/RealTimeBuffer.cs:139-166 | over any interleaving the maximum is unchanged and the queue never holds more than it |
| `Traces.RunKeepsFailureConsistent` | src/Dexih.Utils.RealTimeBuffer/RealTimeBuffer.cs:259-264 | over any interleaving a failed buffer keeps a stored exception and stays finished or keeps a queued value |
| `Traces.FailureIsSticky` | src/Dexih.Utils.RealTimeBuffer/RealTimeBuffer.cs:259-264 | once failed, a buffer stays failed and no pop hands out a value again, queued or not |
| `Traces.Reachable` | src/Dexih.Utils.RealTimeBuffer/RealTimeBuffer.cs:64-75 | every state reachable from a constructor is bounded and failure-consistent, has lost no pushed value, and, if failed, has an exception stored, so a failed pop never raises a null exception |
| `Scenarios.QueuePushPop` | test/Dexih.Utils.RealTimeBuffer.Tests/RealTimeBufferTests.cs:20-40 | push 1, push 2, pop gives (1, NotComplete), final push 3, pops give (2, NotComplete) and (3, Complete) |
| `Scenarios.QueueWaitWhenEmpty` | test/Dexih.Utils.RealTimeBuffer.Tests/RealTimeBufferTests.cs:43-58 | a pop on an empty buffer waits and, woken by a push of 1, returns (1, NotComplete) |
| `Scenarios.QueueWaitWhenFull` | test/Dexih.Utils.RealTimeBuffer.Tests/RealTimeBufferTests.cs:61-87 | a push on a full buffer waits, completes after a pop, and the values drain in order with Complete on the last |
| `Scenarios.QueueTimeout` | test/Dexih.Utils.RealTimeBuffer.Tests/RealTimeBufferTests.cs:90-97 | a push on a full buffer that times out fails with TimeOut |
| `Scenarios.QueuePushAfterFinished` | test/Dexih.Utils.RealTimeBuffer.Tests/RealTimeBufferTests.cs:100-107 | a push after the final value fails with Finished |
| `Scenarios.QueuePushExceeded` | test/Dexih.Utils.RealTimeBuffer.Tests/RealTimeBufferTests.cs:110-121 | with one push waiting, each further push fails with PushExceeded at once |
| `Scenarios.QueuePushCancelled` | test/Dexih.Utils.RealTimeBuffer.Tests/RealTimeBufferTests.cs:124-136 | cancelling a waiting push fails it with Cancelled |
| `Scenarios.FailureWithQueuedValue` | src/Dexih.Utils.RealTimeBuffer/RealTimeBuffer.cs:259-264 | after SetError with no exception, a pop withholds the queued value and raises the generic failure wrapped in a pull failure |
| `Scenarios.FailureWithEmptyQueue` | src/Dexih.Utils.RealTimeBuffer/RealTimeBuffer.cs:230-235 | after SetError on an empty buffer, a pop returns Complete rather than the failure |
| `Scenarios.FailureBeforePushResumes` | src/Dexih.Utils.RealTimeBuffer/RealTimeBuffer.cs:166-167 | a waiting push that resumes into room after SetError still enqueues and clears IsFinished; the next pop raises the wrapped failure |
| `Scenarios.RejectedTimeOut` | src/Dexih.Utils.RealTimeBuffer/RealTimeBuffer.cs:146-149 | a push with timeout -2 on a full buffer fails with a wrapped ArgumentOutOfRangeException and leaves the waiting flag set; after a pop the next push enqueues and the one after fails with PushExceeded; a pop with timeout -2 on an empty buffer fails with a wrapped ArgumentOutOfRangeException |

## Left out

- AutoResetEventAsync and its two instances: the signals are not modelled; a
  wait outcome is an input, so `Signalled` may be chosen even when no `Set`
  happened, which a stale armed signal also allows. The `Set` calls after a
  push, a pop and `SetError`, and the waiter that Pop registers before its
  failure check, are therefore not represented.
- `Task.Delay`, `Task.WhenAny` and `CancellationToken`: replaced by the
  `WaitOutcome` and cancellation inputs of the resume segments. Of the timeouts,
  the default is kept in the state and a per-call one is an argument; neither
  is compared with a clock, so the model does not say when a wait times out,
  only that a delay below -1 is rejected and that an infinite one never
  times out.
- Thread safety of ConcurrentQueue and true parallelism: segments are atomic
  and interleave.
- The 100 ms retry after a failed `TryDequeue`: with one consumer and a
  non-empty queue the dequeue succeeds.
- The overloads of Push and Pop that only supply default arguments.
- The parameterless constructor, which leaves the queue null.
- The public setters of `MaxBufferCount`, `DefaulttimeOutMilliseconds`,
  `IsFailed`, `IsFinished`, `Message` and `Exception`, and the unused
  `IsCancelled`; these fields change only through Push, SetError and Pop here.
- Exception message texts, other than the message stored by SetError; a null
  message passed to SetError.
- Subclasses of the library's exceptions defined elsewhere: the filters test
  only the library's own kinds.
- The timing and performance test.
