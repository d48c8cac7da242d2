/**
 The abstract machine that the event loop refines: a FIFO with an active flag, followed by the
 batch being moved, the local queue and the queue being processed, all as plain sequences.
 */
module WorkPipeline {
  import opened Sequences
  import opened LinkedCells
  import opened EventLoop

  /** The specification of `AtomicIntrusiveQueue`: items in the order they were enqueued. */
  datatype Fifo = Fifo(active: bool, items: seq<Op>) {
    predicate Valid() { !active ==> items == [] }

    /** `enqueue`: true iff the caller has to wake the consumer. */
    function Enqueue(op: Op): (Fifo, bool) { (Fifo(true, items + [op]), !active) }

    /** `try_mark_active`: true iff this call activated the queue. */
    function MarkActive(): (Fifo, bool) { (Fifo(true, items), !active) }

    /** `try_mark_inactive_or_dequeue_all`: an empty result iff the queue is left inactive. */
    function TakeAll(): (Fifo, seq<Op>) { (Fifo(items != [], []), items) }
  }

  /** An operation that reached the local queue, from the remote queue or by a local push. */
  datatype Arrival = Arrival(op: Op, remote: bool)

  datatype Pipeline = Pipeline(
    fifo: Fifo,
    holding: map<Pid, Op>,          // submitted, not yet pushed
    batch: seq<Op>,                 // taken from the FIFO, not yet appended to the local queue
    unreversed: nat,
    local: seq<Op>,
    processing: seq<Op>,
    arrivals: seq<Arrival>,         // everything that ever reached the local queue
    fates: seq<bool>,               // for each arrival that left: completed (true) or dropped
    log: seq<Event>)
  {
    /** Every queued operation, in the order in which operations will be completed. */
    function All(): seq<Op> { processing + local + batch + fifo.items }
  }

  const START := Pipeline(Fifo(false, []), map[], [], 0, [], [], [], [], [])

  function Remotes(ops: seq<Op>): (r: seq<Arrival>)
    ensures |r| == |ops| && forall i :: 0 <= i < |ops| ==> r[i] == Arrival(ops[i], true)
  {
    seq(|ops|, i requires 0 <= i < |ops| => Arrival(ops[i], true))
  }

  /** The fates of `n` operations that are dropped. */
  function Dropped(n: nat): (r: seq<bool>)
    ensures |r| == n && forall i :: 0 <= i < n ==> !r[i]
  {
    seq(n, _ => false)
  }

  function Produce(v: Pipeline, p: Pid, s: ProducerStep): Pipeline {
    match s
    case Submit(op, _) => v.(holding := v.holding[p := op])
    case EnqueueCas =>
      if p !in v.holding then v else
      var op := v.holding[p];
      var (f, wake) := v.fifo.Enqueue(op);
      v.(fifo := f, holding := v.holding - {p},
         log := v.log + if wake then [Pushed(p, op), Woke(p)] else [Pushed(p, op)])
    case StopMark =>
      var (f, wake) := v.fifo.MarkActive();
      v.(fifo := f, log := v.log + if wake then [Woke(p)] else [])
    case _ => v
  }

  function Dequeue(v: Pipeline, s: DequeueStep): Pipeline {
    match s
    case LoadHead => v
    case TryDeactivate =>
      if v.fifo.items == [] then v.(fifo := v.fifo.TakeAll().0, log := v.log + [Deactivated]) else v
    case ExchangeHead =>
      var (f, taken) := v.fifo.TakeAll();
      v.(fifo := f, batch := taken, unreversed := |taken|)
    case ReverseOne => if v.unreversed > 0 then v.(unreversed := v.unreversed - 1) else v
    case AppendBatch =>
      v.(local := v.local + v.batch, arrivals := v.arrivals + Remotes(v.batch), batch := [])
  }

  function Handle(v: Pipeline, s: HandlerStep): Pipeline {
    match s
    case PushLocal(op, _) =>
      v.(local := v.local + [op], arrivals := v.arrivals + [Arrival(op, false)],
         log := v.log + [LocalPushed(op)])
    case Throw =>
      v.(processing := [], fates := v.fates + Dropped(|v.processing|))
    case _ => v
  }

  function Loop(v: Pipeline, s: LoopStep): Pipeline {
    match s
    case TakeLocal => v.(processing := v.local, local := [])
    case PopFront =>
      if v.processing == [] then v
      else v.(processing := v.processing[1..], fates := v.fates + [true],
              log := v.log + [Completed(v.processing[0])])
    case _ => v
  }

  function Step(v: Pipeline, s: EventLoop.Step): Pipeline {
    match s
    case Produce(p, a) => Produce(v, p, a)
    case Dequeue(a) => Dequeue(v, a)
    case Handle(a) => Handle(v, a)
    case Loop(a) => Loop(v, a)
    case Ambient(_) => v
  }

  function Run(v: Pipeline, steps: seq<EventLoop.Step>): Pipeline
    decreases |steps|
  {
    if steps == [] then v else Run(Step(v, steps[0]), steps[1..])
  }
}
