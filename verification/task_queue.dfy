/**
 * The content script's `TaskQueue`: tasks run one at a time, in the order they were pushed.
 * A task's completion (success or a caught error alike) is an event of its own.
 */
module TaskQueue {
  import opened Wrappers

  /** The waiting tasks and the one being awaited, if any. */
  datatype Queue<T> = Queue(waiting: seq<T>, current: Option<T>)

  function Empty<T>(): Queue<T> {
    Queue([], None)
  }

  /** `isRunning` is set exactly while a task is awaited. */
  predicate IsRunning<T>(q: Queue<T>) {
    q.current.Some?
  }

  /** Between events the queue never sits idle with work waiting. */
  predicate Valid<T>(q: Queue<T>) {
    !IsRunning(q) ==> q.waiting == []
  }

  /** The awaited task as a sequence of length zero or one. */
  function Running<T>(q: Queue<T>): seq<T> {
    if q.current.Some? then [q.current.value] else []
  }

  /** Every task not yet finished, in the order they will finish. */
  function Pending<T>(q: Queue<T>): seq<T> {
    Running(q) + q.waiting
  }

  /** `processQueue`: when idle with work waiting, shifts the first task and starts it. */
  function ProcessQueue<T>(q: Queue<T>): (r: (Queue<T>, Option<T>))
    ensures Pending(r.0) == Pending(q)
    ensures Valid(r.0)
    ensures r.1.Some? <==> !IsRunning(q) && q.waiting != []
    ensures r.1.Some? ==> r.0.current == r.1 && r.1.value == q.waiting[0]
    ensures r.1.None? ==> r.0 == q
  {
    if IsRunning(q) || |q.waiting| == 0 then (q, None)
    else (Queue(q.waiting[1..], Some(q.waiting[0])), Some(q.waiting[0]))
  }

  /** `push`: appends the task, then processes the queue. */
  function Push<T>(q: Queue<T>, t: T): (r: (Queue<T>, Option<T>))
    ensures Pending(r.0) == Pending(q) + [t]
    ensures Valid(r.0)
    ensures r.1.Some? <==> !IsRunning(q)
    ensures Valid(q) && r.1.Some? ==> r.1 == Some(t)
  {
    ProcessQueue(Queue(q.waiting + [t], q.current))
  }

  /**
   * The awaited task settles: `isRunning` is cleared and the queue is processed again,
   * starting the next task. Without a running task there is nothing to settle.
   */
  function Finish<T>(q: Queue<T>): (r: (Queue<T>, Option<T>))
    ensures !IsRunning(q) ==> r == (q, None)
    ensures IsRunning(q) ==> Running(q) + Pending(r.0) == Pending(q)
    ensures IsRunning(q) ==> (r.1.Some? <==> q.waiting != [])
    ensures IsRunning(q) || Valid(q) ==> Valid(r.0)
  {
    if !IsRunning(q) then (q, None)
    else ProcessQueue(Queue(q.waiting, None))
  }

  /** What happens to the queue: a push, or the running task settling. */
  datatype Event<T> = Pushed(task: T) | Settled

  /** The queue after one event, and the task it starts, if any. */
  function Step<T>(q: Queue<T>, e: Event<T>): (r: (Queue<T>, Option<T>))
    ensures Valid(q) ==> Valid(r.0)
  {
    match e
    case Pushed(t) => Push(q, t)
    case Settled => Finish(q)
  }

  /** The task an event pushes, as a sequence of length zero or one. */
  function Pushed1<T>(e: Event<T>): seq<T> {
    if e.Pushed? then [e.task] else []
  }

  /** The task an event starts, as a sequence of length zero or one. */
  function Started1<T>(q: Queue<T>, e: Event<T>): seq<T> {
    var t := Step(q, e).1;
    if t.Some? then [t.value] else []
  }

  /** The task an event finishes, as a sequence of length zero or one. */
  function Finished1<T>(q: Queue<T>, e: Event<T>): seq<T> {
    if e.Settled? then Running(q) else []
  }

  /** The tasks a sequence of events pushes, in order. */
  function Pushes<T>(events: seq<Event<T>>): (r: seq<T>)
    ensures |r| <= |events|
  {
    if |events| == 0 then [] else Pushed1(events[0]) + Pushes(events[1..])
  }

  /** A run of events: the final queue, the tasks started and the tasks finished, each in order. */
  function Run<T>(q: Queue<T>, events: seq<Event<T>>): (r: (Queue<T>, seq<T>, seq<T>))
    decreases |events|
  {
    if |events| == 0 then (q, [], [])
    else
      var rest := Run(Step(q, events[0]).0, events[1..]);
      (rest.0, Started1(q, events[0]) + rest.1, Finished1(q, events[0]) + rest.2)
  }

  /** One event keeps every pending task and adds the pushed one at the back. */
  lemma StepKeepsPending<T>(q: Queue<T>, e: Event<T>)
    ensures Pending(q) + Pushed1(e) == Finished1(q, e) + Pending(Step(q, e).0)
  {
  }

  /** One event starts at most the task at the head of the waiting line. */
  lemma StepStartsHead<T>(q: Queue<T>, e: Event<T>)
    requires Valid(q)
    ensures q.waiting + Pushed1(e) == Started1(q, e) + Step(q, e).0.waiting
  {
  }

  /** Chains two steps of the queue's bookkeeping: `a + b` became `f + c`, and `c + d` became `g + p`. */
  lemma Regroup<T>(a: seq<T>, b: seq<T>, c: seq<T>, d: seq<T>, f: seq<T>, g: seq<T>, p: seq<T>)
    requires a + b == f + c
    requires c + d == g + p
    ensures a + (b + d) == (f + g) + p
  {
    calc {
      a + (b + d);
      (a + b) + d;
      (f + c) + d;
      f + (c + d);
      f + (g + p);
    }
  }

  /**
   * Tasks finish in the order they were pushed, none is lost and none runs twice: what was
   * pending plus what is pushed equals what finished plus what is still pending.
   */
  lemma {:induction false} RunIsFifo<T>(q: Queue<T>, events: seq<Event<T>>)
    ensures Pending(q) + Pushes(events) == Run(q, events).2 + Pending(Run(q, events).0)
    decreases |events|
  {
    if |events| > 0 {
      var e := events[0];
      var next := Step(q, e).0;
      var rest := Run(next, events[1..]);
      StepKeepsPending(q, e);
      RunIsFifo(next, events[1..]);
      assert Pushes(events) == Pushed1(e) + Pushes(events[1..]);
      Regroup(Pending(q), Pushed1(e), Pending(next), Pushes(events[1..]), Finished1(q, e), rest.2, Pending(rest.0));
    }
  }

  /** Tasks start in the order they were pushed, and only when nothing else runs. */
  lemma {:induction false} RunStartsInOrder<T>(q: Queue<T>, events: seq<Event<T>>)
    requires Valid(q)
    ensures Valid(Run(q, events).0)
    ensures q.waiting + Pushes(events) == Run(q, events).1 + Run(q, events).0.waiting
    decreases |events|
  {
    if |events| > 0 {
      var e := events[0];
      var next := Step(q, e).0;
      var rest := Run(next, events[1..]);
      StepStartsHead(q, e);
      RunStartsInOrder(next, events[1..]);
      assert Pushes(events) == Pushed1(e) + Pushes(events[1..]);
      Regroup(q.waiting, Pushed1(e), next.waiting, Pushes(events[1..]), Started1(q, e), rest.1, rest.0.waiting);
    }
  }

  /**
   * Settles tasks until the queue is idle, returning them in the order they finished:
   * exactly the pending tasks, in order.
   */
  method Drain<T>(q: Queue<T>) returns (finished: seq<T>, last: Queue<T>)
    requires Valid(q)
    ensures finished == Pending(q)
    ensures !IsRunning(last) && last.waiting == []
  {
    finished := [];
    last := q;
    while IsRunning(last)
      invariant Valid(last)
      invariant finished + Pending(last) == Pending(q)
      decreases |Pending(last)|
    {
      var before := last;
      finished := finished + Running(before);
      last := Finish(before).0;
      assert Running(before) + Pending(last) == Pending(before);
    }
  }
}
