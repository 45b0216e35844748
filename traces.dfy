/**
 * Runs of the buffer: any interleaving of the producer's and the consumer's
 * segments, and what they move through the queue. The run model does not
 * restrict which segment may come next, so its lemmas cover every
 * scheduling of a single producer and a single consumer, and more.
 */
module Traces {
  import opened Wrappers
  import opened Exceptions
  import opened Packages
  import opened BufferSpec

  /** One segment of Push, SetError or Pop, with its inputs. */
  datatype Event<T> =
    | BeginPush(buffer: T, isFinalBuffer: bool, timeOutMilliseconds: int32)
    | ResumePush(frame: PushFrame<T>, wake: WaitOutcome, cancelled: bool)
    | Fail(message: string, exception: Option<Exception>)
    | BeginPop(timeOutMilliseconds: int32)
    | ResumePop(timeOutMilliseconds: int32, wake: WaitOutcome, cancelled: bool)

  /** The state after one event, the value it enqueued and the value it handed out. */
  datatype Effect<T> = Effect(state: State<T>, enqueued: seq<T>, dequeued: seq<T>)

  /** The value a push segment added, if it got to the enqueue. */
  function PushEffect<T>(r: After<T, PushStep<T>>, buffer: T): (e: Effect<T>) {
    Effect(r.state, if r.step.PushDone? then [buffer] else [], [])
  }

  /** The value a pop segment returned, if its package holds one. */
  function PopEffect<T>(r: After<T, PopStep<T>>): (e: Effect<T>) {
    var delivered := r.step.PopReturned? && r.step.package.package.Some?;
    Effect(r.state, [], if delivered then [r.step.package.package.value] else [])
  }

  /**
   * What every event keeps: the values handed out, then those queued, are
   * those queued before, then those enqueued; at most one value moves; the
   * maximum, the capacity bound, the failure latch and failure consistency
   * are kept; a failed buffer hands out nothing.
   */
  ghost predicate Accounted<T>(s: State<T>, r: Effect<T>) {
    && r.dequeued + r.state.queue == s.queue + r.enqueued
    && |r.enqueued| <= 1 && |r.dequeued| <= 1
    && r.state.maxBufferCount == s.maxBufferCount
    && (Bounded(s) ==> Bounded(r.state))
    && (s.isFailed ==> r.state.isFailed)
    && (FailureConsistent(s) ==> FailureConsistent(r.state))
    && (s.isFailed ==> r.dequeued == [])
  }

  /** A push, up to its first wait. */
  function BeginPushEffect<T>(s: State<T>, buffer: T, isFinalBuffer: bool, timeOut: int32): (r: Effect<T>)
    ensures Accounted(s, r)
  {
    PushEffect(PushBegin(s, buffer, isFinalBuffer, timeOut), buffer)
  }

  /** A push, after a wait. */
  function ResumePushEffect<T>(s: State<T>, frame: PushFrame<T>, wake: WaitOutcome, cancelled: bool): (r: Effect<T>)
    ensures Accounted(s, r)
  {
    PushEffect(PushResume(s, frame, wake, cancelled), frame.buffer)
  }

  /** A pop, up to its first wait. */
  function BeginPopEffect<T>(s: State<T>, timeOut: int32): (r: Effect<T>)
    ensures Accounted(s, r)
  {
    PopEffect(PopBegin(s, timeOut))
  }

  /** A pop, after a wait. */
  function ResumePopEffect<T>(s: State<T>, timeOut: int32, wake: WaitOutcome, cancelled: bool): (r: Effect<T>)
    ensures Accounted(s, r)
  {
    PopEffect(PopResume(s, timeOut, wake, cancelled))
  }

  /** One event applied to the buffer. */
  function Apply<T>(s: State<T>, e: Event<T>): (r: Effect<T>)
    ensures Accounted(s, r)
  {
    match e
    case BeginPush(buffer, isFinalBuffer, timeOut) => BeginPushEffect(s, buffer, isFinalBuffer, timeOut)
    case ResumePush(frame, wake, cancelled) => ResumePushEffect(s, frame, wake, cancelled)
    case Fail(message, exception) => Effect(SetError(s, message, exception), [], [])
    case BeginPop(timeOut) => BeginPopEffect(s, timeOut)
    case ResumePop(timeOut, wake, cancelled) => ResumePopEffect(s, timeOut, wake, cancelled)
  }

  /** The end of a run, with every value enqueued and every value handed out, in order. */
  datatype Trace<T> = Trace(final: State<T>, pushed: seq<T>, popped: seq<T>)

  /** The events applied in order. */
  function Run<T>(s: State<T>, events: seq<Event<T>>): (t: Trace<T>)
    decreases |events|
  {
    if |events| == 0 then Trace(s, [], [])
    else
      var r := Apply(s, events[0]);
      var t := Run(r.state, events[1..]);
      Trace(t.final, r.enqueued + t.pushed, r.dequeued + t.popped)
  }

  /** Nothing is lost, duplicated or reordered: what was handed out, then what is left, is what went in. */
  lemma {:induction false} RunIsFifo<T>(s: State<T>, events: seq<Event<T>>)
    ensures Run(s, events).popped + Run(s, events).final.queue == s.queue + Run(s, events).pushed
    decreases |events|
  {
    if |events| > 0 {
      var r := Apply(s, events[0]);
      var t := Run(r.state, events[1..]);
      RunIsFifo(r.state, events[1..]);
      var d, q, q', e := r.dequeued, s.queue, r.state.queue, r.enqueued;
      Regroup(d, q', q, e, t.popped, t.final.queue, t.pushed);
    }
  }

  /** Splicing one step's balance into the rest of the run's balance. */
  lemma Regroup<T>(d: seq<T>, q': seq<T>, q: seq<T>, e: seq<T>, p: seq<T>, f: seq<T>, u: seq<T>)
    requires d + q' == q + e
    requires p + f == q' + u
    ensures (d + p) + f == q + (e + u)
  {
    calc {
      (d + p) + f;
      d + (p + f);
      d + (q' + u);
      (d + q') + u;
      (q + e) + u;
    }
  }

  /** From an empty queue, the consumer receives a prefix of what the producer pushed, in order. */
  lemma FifoFromEmpty<T>(s: State<T>, events: seq<Event<T>>)
    requires s.queue == []
    ensures Run(s, events).popped <= Run(s, events).pushed
    ensures Run(s, events).pushed == Run(s, events).popped + Run(s, events).final.queue
  {
    RunIsFifo(s, events);
    var t := Run(s, events);
    var p, f, u := t.popped, t.final.queue, t.pushed;
    assert u == p + f;
    assert u[..|p|] == p;
  }

  /** A run never changes the maximum and never overfills the queue. */
  lemma {:induction false} RunIsBounded<T>(s: State<T>, events: seq<Event<T>>)
    requires Bounded(s)
    ensures Run(s, events).final.maxBufferCount == s.maxBufferCount
    ensures Bounded(Run(s, events).final)
    decreases |events|
  {
    if |events| > 0 {
      RunIsBounded(Apply(s, events[0]).state, events[1..]);
    }
  }

  /** Every state reached from a consistent one is consistent. */
  lemma {:induction false} RunKeepsFailureConsistent<T>(s: State<T>, events: seq<Event<T>>)
    requires FailureConsistent(s)
    ensures FailureConsistent(Run(s, events).final)
    decreases |events|
  {
    if |events| > 0 {
      RunKeepsFailureConsistent(Apply(s, events[0]).state, events[1..]);
    }
  }

  /** Once failed, a buffer stays failed and hands out no further value. */
  lemma {:induction false} FailureIsSticky<T>(s: State<T>, events: seq<Event<T>>)
    requires s.isFailed
    ensures Run(s, events).final.isFailed
    ensures Run(s, events).popped == []
    decreases |events|
  {
    if |events| > 0 {
      FailureIsSticky(Apply(s, events[0]).state, events[1..]);
    }
  }

  /** Whatever has happened, a buffer built by a constructor is bounded and consistent. */
  lemma Reachable<T>(maxBufferCount: int32, defaultTimeOutMilliseconds: int32, events: seq<Event<T>>)
    ensures var t := Run(Initial<T>(maxBufferCount, defaultTimeOutMilliseconds), events);
      && Bounded(t.final) && FailureConsistent(t.final) && t.pushed == t.popped + t.final.queue
      && (t.final.isFailed ==> t.final.exception.Some?)
  {
    var s := Initial<T>(maxBufferCount, defaultTimeOutMilliseconds);
    RunIsBounded(s, events);
    RunKeepsFailureConsistent(s, events);
    RunIsFifo(s, events);
  }
}
