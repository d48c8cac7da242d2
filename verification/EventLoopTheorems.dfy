/** The main results about the event loop, each over every run from a fresh context. */
module EventLoopTheorems {
  import opened Sequences
  import opened LinkedCells
  import opened EventLoop
  import opened EventLoopRefinement
  import opened EventLoopSafety
  import WP = WorkPipeline

  lemma StepKeepsGood(c: State, v: WP.Pipeline, s: Step)
    requires Good(c, v) && Enabled(c, s)
    ensures Good(Apply(c, s), WP.Step(v, s))
  {
    StepRefines(c, v, s);
    StepKeepsOrder(c, v, s);
    StepKeepsWork(c, v, s);
    StepKeepsStop(c, s);
  }

  lemma StepKeepsWork(c: State, v: WP.Pipeline, s: Step)
    requires Refines(c, v) && Order(v) && WorkCounted(c, v) && Enabled(c, s)
    ensures WorkCounted(Apply(c, s), WP.Step(v, s))
  {
    match s
    case Produce(p, a) => ProduceKeepsWork(c, v, p, a);
    case Dequeue(a) => DequeueKeepsWork(c, v, a);
    case Handle(a) => HandleKeepsWork(c, v, a);
    case Loop(a) => LoopKeepsWork(c, v, a);
    case Ambient(a) => AmbientKeepsWork(c, v, a);
  }

  lemma AmbientKeepsWork(c: State, v: WP.Pipeline, a: AmbientStep)
    requires WorkCounted(c, v)
    ensures WorkCounted(ApplyAmbient(c, a), v)
  {
  }

  lemma {:induction false} RunKeepsGood(c: State, v: WP.Pipeline, steps: seq<Step>)
    requires Good(c, v) && CanRun(c, steps)
    ensures Good(After(c, steps), WP.Run(v, steps))
    decreases |steps|
  {
    if steps != [] {
      StepKeepsGood(c, v, steps[0]);
      RunKeepsGood(Apply(c, steps[0]), WP.Step(v, steps[0]), steps[1..]);
    }
  }

  lemma ReachableGood(c0: State, steps: seq<Step>)
    requires Initial(c0) && CanRun(c0, steps)
    ensures Good(After(c0, steps), WP.Run(WP.START, steps))
  {
    InitialRefines(c0);
    RunKeepsGood(c0, WP.START, steps);
  }

  // ---- order and wake-ups --------------------------------------------------------------

  /** FIFO: what has reached the local queue, then the batch in transit, then the chain hanging
      off `head` read backwards, is the sequence of pushes in the order their CAS succeeded. */
  lemma RemoteOrder(c0: State, steps: seq<Step>)
    requires Initial(c0) && CanRun(c0, steps)
    ensures var c, v := After(c0, steps), WP.Run(WP.START, steps);
      && Pushes(c.log) == From(v.arrivals, true) + v.batch + v.fifo.items
      && ListFrom(c.mem.next, ItemOf(c.mem.head), Reverse(v.fifo.items))
      && LocalPushes(c.log) == From(v.arrivals, false)
      && NoDup(v.All())
  {
    ReachableGood(c0, steps);
  }

  /** Completion order: the operations completed are, in every run, the arrivals that were not lost,
      in the order of their arrival; if none was lost, exactly the first arrivals, so remotely
      submitted ones complete in the order of their CAS. */
  lemma CompletionOrder(c0: State, steps: seq<Step>)
    requires Initial(c0) && CanRun(c0, steps)
    ensures var c, v := After(c0, steps), WP.Run(WP.START, steps);
      && |v.fates| <= |v.arrivals|
      && Completions(c.log) == Survivors(v.arrivals, v.fates)
      && From(v.arrivals[..|v.fates|], true) <= Pushes(c.log)
      && From(v.arrivals[..|v.fates|], false) <= LocalPushes(c.log)
      && (Lost(v.fates) == 0 ==> Completions(c.log) == Ops(v.arrivals[..|v.fates|]))
  {
    ReachableGood(c0, steps);
    var v := WP.Run(WP.START, steps);
    var n := |v.fates|;
    if Lost(v.fates) == 0 {
      AllSurvive(v.arrivals, v.fates);
    }
    FromPrefix(v.arrivals, n, true);
    FromPrefix(v.arrivals, n, false);
    PrefixOfSum(From(v.arrivals[..n], true), From(v.arrivals, true), v.batch, v.fifo.items);
  }

  lemma FromPrefix(a: seq<WP.Arrival>, n: nat, remote: bool)
    requires n <= |a|
    ensures From(a[..n], remote) <= From(a, remote)
  {
    assert a == a[..n] + a[n..];
    FromAppend(a[..n], a[n..], remote);
  }

  lemma PrefixOfSum(p: seq<Op>, a: seq<Op>, b: seq<Op>, c: seq<Op>)
    requires p <= a
    ensures p <= a + b + c
  {
  }

  /** The operations that `p` pushed, in the order of their CAS. */
  function PushedBy(log: seq<Event>, p: Pid): seq<Op> {
    if log == [] then [] else
      PushedBy(log[..|log| - 1], p)
      + match log[|log| - 1] case Pushed(q, op) => (if q == p then [op] else []) case _ => []
  }

  /** The operations that `p` submitted, in order. */
  function SubmittedBy(steps: seq<Step>, p: Pid): seq<Op>
    decreases |steps|
  {
    if steps == [] then [] else
      Submission(steps[0], p) + SubmittedBy(steps[1..], p)
  }

  function HeldBy(c: State, p: Pid): seq<Op> {
    if p in c.producers && c.producers[p].HoldsOp() then [c.producers[p].op] else []
  }

  lemma PushedByOne(log: seq<Event>, e: Event, p: Pid)
    ensures PushedBy(log + [e], p)
         == PushedBy(log, p) + match e case Pushed(q, op) => (if q == p then [op] else []) case _ => []
  {
    assert (log + [e])[..|log|] == log;
  }

  /** Logging something that is no push leaves the pushes alone. */
  lemma PushedByOther(log: seq<Event>, log': seq<Event>, p: Pid)
    requires log' == log || (log' != [] && log' == log + [log'[|log'| - 1]] && !log'[|log'| - 1].Pushed?)
    ensures PushedBy(log', p) == PushedBy(log, p)
  {
    if log' != log {
      PushedByOne(log, log'[|log'| - 1], p);
    }
  }

  function Submission(s: Step, p: Pid): seq<Op> {
    match s case Produce(q, Submit(op, _)) => (if q == p then [op] else []) case _ => []
  }

  /** A push that may wake. */
  lemma PushedByCas(log: seq<Event>, q: Pid, op: Op, wakes: bool, p: Pid)
    ensures PushedBy(log + (if wakes then [Pushed(q, op), Woke(q)] else [Pushed(q, op)]), p)
         == PushedBy(log, p) + if q == p then [op] else []
  {
    var pushed := log + [Pushed(q, op)];
    PushedByOne(log, Pushed(q, op), p);
    if wakes {
      assert log + [Pushed(q, op), Woke(q)] == pushed + [Woke(q)];
      PushedByOne(pushed, Woke(q), p);
    }
  }

  lemma CasInOrder(c: State, q: Pid, p: Pid)
    requires CanProduce(c, q, EnqueueCas)
    ensures var c' := ApplyProduce(c, q, EnqueueCas);
      PushedBy(c'.log, p) + HeldBy(c', p) == PushedBy(c.log, p) + HeldBy(c, p)
  {
    var me := c.producers[q];
    PushedByCas(c.log, q, me.op, me.seen == Inactive, p);
    var c' := ApplyProduce(c, q, EnqueueCas);
    assert c'.log == c.log + if me.seen == Inactive then [Pushed(q, me.op), Woke(q)] else [Pushed(q, me.op)];
    assert HeldBy(c', p) == if q == p then [] else HeldBy(c, p);
  }

  lemma ProduceInOrder(c: State, q: Pid, a: ProducerStep, p: Pid)
    requires CanProduce(c, q, a) && !a.EnqueueCas?
    ensures var c' := ApplyProduce(c, q, a);
      PushedBy(c'.log, p) == PushedBy(c.log, p) && HeldBy(c', p) == HeldBy(c, p) + Submission(Produce(q, a), p)
  {
    PushedByOther(c.log, ApplyProduce(c, q, a).log, p);
  }

  /** A step adds to what `p` has pushed and holds exactly what `p` submits. */
  lemma ProducerStepInOrder(c: State, s: Step, p: Pid)
    requires Enabled(c, s)
    ensures PushedBy(Apply(c, s).log, p) + HeldBy(Apply(c, s), p)
         == PushedBy(c.log, p) + HeldBy(c, p) + Submission(s, p)
  {
    if s.Produce? {
      if s.produce.EnqueueCas? {
        CasInOrder(c, s.pid, p);
      } else {
        ProduceInOrder(c, s.pid, s.produce, p);
      }
    } else {
      PushedByOther(c.log, Apply(c, s).log, p);
      assert HeldBy(Apply(c, s), p) == HeldBy(c, p);
    }
  }

  lemma {:induction false} ProducerOrderFrom(c: State, steps: seq<Step>, p: Pid)
    requires CanRun(c, steps)
    ensures PushedBy(After(c, steps).log, p) + HeldBy(After(c, steps), p)
         == PushedBy(c.log, p) + HeldBy(c, p) + SubmittedBy(steps, p)
    decreases |steps|
  {
    if steps != [] {
      ProducerStepInOrder(c, steps[0], p);
      ProducerOrderFrom(Apply(c, steps[0]), steps[1..], p);
    }
  }

  /** Each producer's operations stay in order: what it submitted is what it pushed, in that order,
      followed by the one it is still pushing; and all pushes are delivered in order. */
  lemma ProducerOrder(c0: State, steps: seq<Step>, p: Pid)
    requires Initial(c0) && CanRun(c0, steps)
    ensures var c := After(c0, steps);
      SubmittedBy(steps, p) == PushedBy(c.log, p) + HeldBy(c, p)
  {
    ProducerOrderFrom(c0, steps, p);
  }

  lemma {:induction false} AllSurvive(a: seq<WP.Arrival>, fates: seq<bool>)
    requires |fates| <= |a| && Lost(fates) == 0
    ensures Survivors(a, fates) == Ops(a[..|fates|])
    decreases |fates|
  {
    if fates != [] {
      var n := |fates| - 1;
      AllSurvive(a, fates[..n]);
      assert a[..n + 1] == a[..n] + [a[n]];
    }
  }

  /** Wake-up token: an inactive queue is empty; an active one has exactly one pending look at it.
      Over the whole run, wake-ups and deactivations balance. */
  lemma WakeUpToken(c0: State, steps: seq<Step>)
    requires Initial(c0) && CanRun(c0, steps)
    ensures var c, v := After(c0, steps), WP.Run(WP.START, steps);
      && (c.mem.head == Inactive ==> v.fifo.items == [])
      && AsNat(c.mem.head != Inactive) == c.ctx.alarms + AsNat(c.ctx.checkRemote) + |Signallers(c.producers)|
      && Balance(c.log) == AsNat(c.mem.head != Inactive)
  {
    ReachableGood(c0, steps);
  }

  /** `work_alarm.Set` is never called while the alarm is still pending, and the dequeue function
      is never entered on an inactive queue. */
  lemma CallsAreLegal(c0: State, steps: seq<Step>, p: Pid)
    requires Initial(c0) && CanRun(c0, steps)
    ensures var c := After(c0, steps);
      && (p in c.producers && c.producers[p].Signalling? ==> c.ctx.alarms == 0 && !c.ctx.checkRemote)
      && (c.consumer.Dequeuing() ==> c.mem.head != Inactive)
      && (c.consumer == Exchanging ==> c.mem.head.At?)
  {
    ReachableGood(c0, steps);
    var c, v := After(c0, steps), WP.Run(WP.START, steps);
    if p in c.producers && c.producers[p].Signalling? {
      assert p in Signallers(c.producers);
      assert |Signallers(c.producers)| > 0;
    }
    if c.consumer == Exchanging {
      assert |Reverse(v.fifo.items)| > 0;
    }
  }

  /** The consumer is about to block in `get_next_event` without deadline; any number of gRPC
      operations may be in flight. */
  predicate Blocked(c: State) {
    c.consumer == Polling(false) && c.mode == Run && c.ctx.alarms == 0
  }

  /** Nor is any gRPC operation in flight that could wake it. */
  predicate Asleep(c: State) {
    Blocked(c) && c.ctx.tags == 0
  }

  ghost predicate SomeSignalling(c: State) {
    exists p :: p in c.producers && c.producers[p].Signalling?
  }

  ghost predicate SomeStopping(c: State) {
    exists p :: p in c.producers && c.producers[p].StopMarking?
  }

  lemma SleepIsSafe(c: State, v: WP.Pipeline)
    requires Good(c, v) && Blocked(c)
    ensures v.processing == [] && v.local == [] && v.batch == []
    ensures v.fifo.items != [] ==> SomeSignalling(c)
    ensures c.ctx.stopped ==> SomeSignalling(c) || SomeStopping(c)
  {
    if c.mem.head != Inactive {
      assert |Signallers(c.producers)| == 1;
      var p :| p in Signallers(c.producers);
      assert p in c.producers && c.producers[p].Signalling?;
    }
  }

  /** No lost wake-up: the consumer never sleeps on queued work or on a stop request, unless the
      thread that will wake it is still inside `enqueue` or `stop`. */
  lemma NoLostWakeUp(c0: State, steps: seq<Step>)
    requires Initial(c0) && CanRun(c0, steps) && Blocked(After(c0, steps))
    ensures var c, v := After(c0, steps), WP.Run(WP.START, steps);
      && v.processing == [] && v.local == [] && v.batch == []
      && (v.fifo.items != [] ==> SomeSignalling(c))
      && (c.ctx.stopped ==> SomeSignalling(c) || SomeStopping(c))
  {
    ReachableGood(c0, steps);
    SleepIsSafe(After(c0, steps), WP.Run(WP.START, steps));
  }

  // ---- one call of try_mark_inactive_or_dequeue_all -------------------------------------

  /** `steps` starts inside the call and ends with the call's last step, any other thread's
      steps in between. */
  predicate DuringCall(c: State, steps: seq<Step>)
    decreases |steps|
  {
    && steps != [] && c.consumer.Dequeuing() && Enabled(c, steps[0])
    && var c' := Apply(c, steps[0]);
       if |steps| == 1 then !c'.consumer.Dequeuing() else DuringCall(c', steps[1..])
  }

  lemma {:induction false} CallRuns(c: State, steps: seq<Step>)
    requires DuringCall(c, steps)
    ensures CanRun(c, steps)
    decreases |steps|
  {
    if |steps| > 1 {
      CallRuns(Apply(c, steps[0]), steps[1..]);
    }
  }

  lemma CallContinues(c: State, v: WP.Pipeline, s: Step)
    requires c.consumer.Dequeuing() && Enabled(c, s) && Apply(c, s).consumer.Dequeuing()
    ensures WP.Step(v, s).local == v.local && WP.Step(v, s).arrivals == v.arrivals
    ensures c.consumer.Reversing? ==> Apply(c, s).consumer.Reversing? && WP.Step(v, s).batch == v.batch
  {
    match s
    case Produce(p, a) => assert ApplyProduce(c, p, a).consumer == c.consumer;
    case Dequeue(a) => assert a != AppendBatch;
    case Ambient(a) =>
    case _ =>
  }

  lemma CallEnds(c: State, v: WP.Pipeline, a: DequeueStep)
    requires Refines(c, v) && CanDequeue(c, a) && !ApplyDequeue(c, a).consumer.Dequeuing()
    ensures var c', v' := ApplyDequeue(c, a), WP.Dequeue(v, a);
      && v'.local == v.local + v.batch
      && v'.arrivals == v.arrivals + WP.Remotes(v.batch)
      && (v.batch == [] <==> c'.mem.head == Inactive)
      && (v.batch == [] <==> !c'.ctx.checkRemote)
  {
    if a == AppendBatch {
      ListsAfterAppend(c.mem, c.consumer, v);
    } else {
      assert v.local + [] == v.local;
    }
  }

  lemma CallEndsByConsumer(c: State, s: Step)
    requires c.consumer.Dequeuing() && Enabled(c, s) && !Apply(c, s).consumer.Dequeuing()
    ensures s.Dequeue?
  {
  }

  /** From inside the call to its end. */
  lemma {:induction false} CallMoves(c: State, v: WP.Pipeline, steps: seq<Step>) returns (taken: seq<Op>)
    requires Good(c, v) && DuringCall(c, steps)
    ensures CanRun(c, steps)
    ensures var c', v' := After(c, steps), WP.Run(v, steps);
      && v'.local == v.local + taken
      && v'.arrivals == v.arrivals + WP.Remotes(taken)
      && (taken == [] <==> c'.mem.head == Inactive)
      && (taken == [] <==> !c'.ctx.checkRemote)
    ensures c.consumer.Reversing? ==> taken == v.batch
    decreases |steps|
  {
    CallRuns(c, steps);
    var c1, v1 := Apply(c, steps[0]), WP.Step(v, steps[0]);
    if |steps| == 1 {
      CallEndsByConsumer(c, steps[0]);
      CallEnds(c, v, steps[0].dequeue);
      taken := v.batch;
      assert After(c1, steps[1..]) == c1 && WP.Run(v1, steps[1..]) == v1;
    } else {
      StepKeepsGood(c, v, steps[0]);
      CallContinues(c, v, steps[0]);
      taken := CallMoves(c1, v1, steps[1..]);
    }
  }

  lemma CallEndsOutside(c: State, steps: seq<Step>)
    requires DuringCall(c, steps)
    ensures CanRun(c, steps) && !After(c, steps).consumer.Dequeuing()
    decreases |steps|
  {
    CallRuns(c, steps);
    if |steps| == 1 {
      assert After(Apply(c, steps[0]), steps[1..]) == Apply(c, steps[0]);
    } else {
      CallEndsOutside(Apply(c, steps[0]), steps[1..]);
    }
  }

  /** A call made on an active queue, with producers interfering at every step: it returns an
      empty batch exactly when it leaves the queue inactive, and otherwise the oldest waiting
      operations in enqueue order; what was waiting or arrived meanwhile is taken or still waiting. */
  lemma DequeueAllContract(c0: State, before: seq<Step>, call: seq<Step>) returns (taken: seq<Op>)
    requires Initial(c0) && CanRun(c0, before)
    requires After(c0, before).consumer == LoadingHead
    requires DuringCall(After(c0, before), call)
    ensures CanRun(After(c0, before), call)
    ensures var c, v := After(c0, before), WP.Run(WP.START, before);
      var c', v' := After(c, call), WP.Run(v, call);
      && v'.local == v.local + taken
      && (taken == [] <==> c'.mem.head == Inactive)
      && (taken == [] <==> !c'.ctx.checkRemote)
      && Pushes(c.log) <= Pushes(c'.log)
      && v.fifo.items + Pushes(c'.log)[|Pushes(c.log)|..] == taken + v'.fifo.items
  {
    ReachableGood(c0, before);
    var c, v := After(c0, before), WP.Run(WP.START, before);
    taken := CallMoves(c, v, call);
    RunKeepsGood(c, v, call);
    CallEndsOutside(c, call);
    PushesGrow(v, call);
    CallAccounts(v, WP.Run(v, call), taken);
  }

  lemma CallAccounts(v: WP.Pipeline, v': WP.Pipeline, taken: seq<Op>)
    requires Order(v) && Order(v') && v.batch == v'.batch == []
    requires v'.arrivals == v.arrivals + WP.Remotes(taken)
    requires Pushes(v.log) <= Pushes(v'.log)
    ensures v.fifo.items + Pushes(v'.log)[|Pushes(v.log)|..] == taken + v'.fifo.items
  {
    var a := From(v.arrivals, true);
    assert From(v'.arrivals, true) == a + taken by {
      FromAppend(v.arrivals, WP.Remotes(taken), true);
      FromRemotes(taken);
    }
    assert a + [] == a && a + taken + [] == a + taken;
    TakenOrWaiting(Pushes(v.log), Pushes(v'.log), a, v.fifo.items, taken, v'.fifo.items);
  }

  lemma TakenOrWaiting(p: seq<Op>, p': seq<Op>, a: seq<Op>, items: seq<Op>, taken: seq<Op>, items': seq<Op>)
    requires p == a + items && p' == a + taken + items' && p <= p'
    ensures items + p'[|p|..] == taken + items'
  {
    assert p'[|a|..] == taken + items';
    assert p' == p + p'[|p|..];
    assert p'[|a|..] == items + p'[|p|..];
  }

  lemma {:induction false} PushesGrow(v: WP.Pipeline, steps: seq<Step>)
    ensures Pushes(v.log) <= Pushes(WP.Run(v, steps).log)
    decreases |steps|
  {
    if steps != [] {
      LogGrows(v, steps[0]);
      PushesOfPrefix(v.log, WP.Step(v, steps[0]).log);
      PushesGrow(WP.Step(v, steps[0]), steps[1..]);
    }
  }

  lemma LogGrows(v: WP.Pipeline, s: Step)
    ensures v.log <= WP.Step(v, s).log
  {
  }

  lemma {:induction false} PushesOfPrefix(log: seq<Event>, longer: seq<Event>)
    requires log <= longer
    ensures Pushes(log) <= Pushes(longer)
    decreases |longer|
  {
    if |log| == |longer| {
      assert log == longer;
    } else {
      PushesOfPrefix(log, longer[..|longer| - 1]);
    }
  }

  // ---- work ----------------------------------------------------------------------------

  /** Nothing is queued, in flight, running, being submitted, held or lost. */
  ghost predicate Idle(c: State, v: WP.Pipeline) {
    && v.All() == [] && c.ctx.tags == 0 && !c.consumer.Running? && v.holding == map[]
    && c.ctx.guards == 0 && Lost(v.fates) == 0
  }

  lemma ZeroIffIdle(c: State, v: WP.Pipeline)
    requires WorkCounted(c, v)
    ensures c.ctx.work >= 0 && (c.ctx.work == 0 <==> Idle(c, v))
  {
    assert |v.holding.Keys| == 0 <==> v.holding == map[];
  }

  /** The count is zero exactly when nothing is left to do. */
  lemma ZeroWorkIffIdle(c0: State, steps: seq<Step>)
    requires Initial(c0) && CanRun(c0, steps)
    ensures var c, v := After(c0, steps), WP.Run(WP.START, steps);
      c.ctx.work >= 0 && (c.ctx.work == 0 <==> Idle(c, v))
  {
    ReachableGood(c0, steps);
    ZeroIffIdle(After(c0, steps), WP.Run(WP.START, steps));
  }

  /** Steps that return a unit of work: the loop's after a completion, a handler's, another thread's. */
  predicate ReturnsUnit(s: Step) {
    || s == Handle(Finish) || s == Handle(Throw) || s == Handle(GuardEndSelf)
    || (s.Produce? && s.produce == GuardEnd)
  }

  /** The thread that took step `s` is now on its way to stop the context. */
  predicate WillStop(c: State, s: Step) {
    if s.Produce? then s.pid in c.producers && c.producers[s.pid] == StopPending else c.ctx.stopDue
  }

  lemma WillStopIffZero(c: State, s: Step)
    requires ReturnsUnit(s) && Enabled(c, s)
    ensures WillStop(Apply(c, s), s) <==> Apply(c, s).ctx.work == 0
  {
  }

  /** Whoever returns a unit of work goes on to stop the context exactly when that was the last unit
      anywhere. */
  lemma StopIffLastUnit(c0: State, steps: seq<Step>, s: Step)
    requires Initial(c0) && CanRun(c0, steps)
    requires ReturnsUnit(s) && Enabled(After(c0, steps), s)
    ensures var c, v := Apply(After(c0, steps), s), WP.Step(WP.Run(WP.START, steps), s);
      WillStop(c, s) <==> Idle(c, v)
  {
    var c, v := After(c0, steps), WP.Run(WP.START, steps);
    ReachableGood(c0, steps);
    StepKeepsGood(c, v, s);
    WillStopIffZero(c, s);
    ZeroIffIdle(Apply(c, s), WP.Step(v, s));
  }

  /** The drain of the destructor, with no other thread inside the context, ends only when every
      queue is empty, no event is pending and the remote queue is inactive; the work that remains
      counted is held by trackers or was lost. */
  lemma DrainLeavesNothing(c0: State, steps: seq<Step>)
    requires Initial(c0) && CanRun(c0, steps)
    requires var c := After(c0, steps);
      && c.mode == Drain && c.consumer == Polling(false) && c.producers == map[]
      && CanLoop(c, PollTimeout)
    ensures var c, v := After(c0, steps), WP.Run(WP.START, steps);
      && ApplyLoop(c, PollTimeout).consumer == Outside
      && v.All() == [] && c.ctx.tags == 0 && c.mem.head == Inactive
      && c.ctx.work == c.ctx.guards + Lost(v.fates)
  {
    ReachableGood(c0, steps);
    var c, v := After(c0, steps), WP.Run(WP.START, steps);
    assert Signallers(c.producers) == {};
    assert v.holding.Keys == {};
  }

  // ---- lost operations -----------------------------------------------------------------

  /** Some handler throws while operations popped together with its own are still waiting. */
  predicate ThrowsMidBatch(c: State, steps: seq<Step>)
    requires CanRun(c, steps)
    decreases |steps|
  {
    && steps != []
    && ((steps[0] == Handle(Throw) && c.mem.queue.head != Null)
        || ThrowsMidBatch(Apply(c, steps[0]), steps[1..]))
  }

  lemma FatesOnlyGrowBy(v: WP.Pipeline, s: Step)
    requires s != Handle(Throw)
    ensures Lost(WP.Step(v, s).fates) == Lost(v.fates)
  {
    if s == Loop(PopFront) {
      assert (v.fates + [true])[..|v.fates|] == v.fates;
    }
  }

  lemma LostGrows(c: State, v: WP.Pipeline, s: Step)
    requires Order(v) && QueueOf(c.mem.next, c.mem.queue, v.processing)
    ensures Lost(WP.Step(v, s).fates) >= Lost(v.fates)
    ensures Lost(WP.Step(v, s).fates) > Lost(v.fates) <==> s == Handle(Throw) && c.mem.queue.head != Null
  {
    if s == Handle(Throw) {
      ThrowKeepsOrder(v);
    } else {
      FatesOnlyGrowBy(v, s);
    }
  }

  lemma {:induction false} LostFrom(c: State, v: WP.Pipeline, steps: seq<Step>)
    requires Good(c, v) && CanRun(c, steps)
    ensures Lost(WP.Run(v, steps).fates) >= Lost(v.fates)
    ensures Lost(WP.Run(v, steps).fates) > Lost(v.fates) <==> ThrowsMidBatch(c, steps)
    decreases |steps|
  {
    if steps != [] {
      StepKeepsGood(c, v, steps[0]);
      LostGrows(c, v, steps[0]);
      LostFrom(Apply(c, steps[0]), WP.Step(v, steps[0]), steps[1..]);
    }
  }

  /** `process_local_queue` moves the local queue into a variable whose destructor drops it, so
      operations are lost, and their work never returned, exactly when a handler throws there
      before the last of them was popped. */
  lemma LostIffThrowMidBatch(c0: State, steps: seq<Step>)
    requires Initial(c0) && CanRun(c0, steps)
    ensures Lost(WP.Run(WP.START, steps).fates) > 0 <==> ThrowsMidBatch(c0, steps)
  {
    InitialRefines(c0);
    LostFrom(c0, WP.START, steps);
  }

  // ---- progress ------------------------------------------------------------------------

  /** Inside `process_work` the consumer can always take its next step: every pointer it follows is
      an operation, never null and never the sentinel. It waits only in `get_next_event`, and only with
      nothing to do of its own and no alarm pending. */
  lemma ConsumerNeverStuck(c0: State, steps: seq<Step>)
    requires Initial(c0) && CanRun(c0, steps)
    ensures var c := After(c0, steps);
      if c.ctx.stopDue then CanLoop(c, StopOwn) else
      && (c.consumer.Reversing? ==> CanDequeue(c, ReverseOne) || CanDequeue(c, AppendBatch))
      && (c.consumer == Processing ==> CanLoop(c, PopFront))
      && (c.mem.local.tail != Null ==> c.mem.local.tail.At?)
      && (c.consumer.Polling? && c.mode == Run ==>
            Blocked(c) || CanLoop(c, PollTimeout) || CanLoop(c, PollAlarm))
  {
    ReachableGood(c0, steps);
    if !After(c0, steps).ctx.stopDue {
      NotStuck(After(c0, steps), WP.Run(WP.START, steps));
    }
  }

  lemma NotStuck(c: State, v: WP.Pipeline)
    requires Refines(c, v) && !c.ctx.stopDue
    ensures c.consumer.Reversing? ==> CanDequeue(c, ReverseOne) || CanDequeue(c, AppendBatch)
    ensures c.consumer == Processing ==> CanLoop(c, PopFront)
    ensures c.mem.local.tail != Null ==> c.mem.local.tail.At?
    ensures c.consumer.Polling? && c.mode == Run ==>
      Blocked(c) || CanLoop(c, PollTimeout) || CanLoop(c, PollAlarm)
  {
    if c.consumer.Reversing? {
      assert |Reverse(v.batch[..v.unreversed])| == v.unreversed;
    }
  }

  predicate InEnqueue(c: State, p: Pid) {
    p in c.producers && (c.producers[p].Loaded? || c.producers[p].Linked?)
  }

  /** CAS failures of `p` that were not spurious. */
  function RealRetries(c: State, steps: seq<Step>, p: Pid): nat
    requires CanRun(c, steps)
    decreases |steps|
  {
    if steps == [] then 0 else
      AsNat(steps[0] == Produce(p, EnqueueRetry) && c.mem.head != c.producers[p].seen)
      + RealRetries(Apply(c, steps[0]), steps[1..], p)
  }

  /** Steps that changed `head`. */
  function HeadChanges(c: State, steps: seq<Step>): nat
    requires CanRun(c, steps)
    decreases |steps|
  {
    if steps == [] then 0 else
      AsNat(Apply(c, steps[0]).mem.head != c.mem.head) + HeadChanges(Apply(c, steps[0]), steps[1..])
  }

  lemma {:induction false} RetriesCharged(c: State, steps: seq<Step>, p: Pid)
    requires CanRun(c, steps) && InEnqueue(c, p) && Produce(p, EnqueueCas) !in steps
    ensures InEnqueue(After(c, steps), p)
    ensures RealRetries(c, steps, p) + AsNat(After(c, steps).mem.head != After(c, steps).producers[p].seen)
         <= HeadChanges(c, steps) + AsNat(c.mem.head != c.producers[p].seen)
    decreases |steps|
  {
    if steps != [] {
      var c1 := Apply(c, steps[0]);
      assert steps[0] in steps;
      OthersLeaveAlone(c, steps[0], p);
      RetriesCharged(c1, steps[1..], p);
    }
  }

  lemma OthersLeaveAlone(c: State, s: Step, p: Pid)
    requires Enabled(c, s) && InEnqueue(c, p) && s != Produce(p, EnqueueCas)
    ensures InEnqueue(Apply(c, s), p)
    ensures s == Produce(p, EnqueueRetry) ==>
      Apply(c, s).mem.head == c.mem.head == Apply(c, s).producers[p].seen
    ensures s != Produce(p, EnqueueRetry) ==> Apply(c, s).producers[p].seen == c.producers[p].seen
  {
  }

  /** Lock-freedom: from the moment `p` has loaded `head`, each non-spurious failure of its CAS is
      paid for by a change of `head` that another thread made meanwhile. */
  lemma LockFree(c: State, steps: seq<Step>, p: Pid)
    requires p in c.producers && c.producers[p].Starting? && CanRun(ApplyProduce(c, p, EnqueueLoad), steps)
    requires Produce(p, EnqueueCas) !in steps
    ensures var c1 := ApplyProduce(c, p, EnqueueLoad);
      RealRetries(c1, steps, p) <= HeadChanges(c1, steps)
  {
    RetriesCharged(ApplyProduce(c, p, EnqueueLoad), steps, p);
  }
}
