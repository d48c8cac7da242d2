/** When the loop is entered and left, and what each of its rounds gets done. */
module EventLoopRounds {
  import opened Sequences
  import opened LinkedCells
  import opened EventLoop
  import opened EventLoopRefinement
  import opened EventLoopSafety
  import opened EventLoopTheorems
  import WP = WorkPipeline

  // ---- entering and leaving ------------------------------------------------------------

  /** The consumer enters the loop, in the mode asked for, exactly when it is called to drain, or called
      at a count other than zero. */
  lemma Entry(c: State, s: Step)
    requires Enabled(c, s) && c.consumer == Outside
    ensures Apply(c, s).consumer != Outside <==>
      s.Loop? && s.loop.Enter? && (s.loop.mode == Drain || c.ctx.work != 0)
    ensures Apply(c, s).consumer != Outside ==> Apply(c, s).mode == s.loop.mode
  {
  }

  /** The consumer leaves the loop exactly when a handler throws, when the check finds the context
      stopped and it is not draining, or when a poll or a drain times out with nothing waiting. */
  lemma Exit(c: State, s: Step)
    requires Enabled(c, s) && c.consumer != Outside
    ensures Apply(c, s).consumer == Outside <==>
      || s == Handle(Throw)
      || (s == Loop(CheckStop) && c.ctx.stopped && c.mode != Drain)
      || (s == Loop(PollTimeout) && !c.consumer.pending)
    ensures Apply(c, s).mode == c.mode
    ensures s == Loop(PollTimeout) && !c.consumer.pending ==> c.mode != Run
  {
  }

  /** Operations wait that the consumer knows of. */
  ghost predicate Waiting(c: State, v: WP.Pipeline) {
    c.ctx.checkRemote || v.local != []
  }

  /** `run` returns only by a handler's exception or because it found the context stopped; `poll` and the
      drain also when there is nothing left that they know of. */
  lemma Returns(c0: State, steps: seq<Step>, s: Step)
    requires Initial(c0) && CanRun(c0, steps) && Enabled(After(c0, steps), s)
    requires After(c0, steps).consumer != Outside && Apply(After(c0, steps), s).consumer == Outside
    ensures var c, v := After(c0, steps), WP.Run(WP.START, steps);
      && (c.mode == Run ==> s == Handle(Throw) || c.ctx.stopped)
      && (s == Loop(PollTimeout) ==> !Waiting(c, v) && c.mode != Run)
      && (c.mode == Drain ==> s == Loop(PollTimeout))
  {
    ReachableGood(c0, steps);
    Exit(After(c0, steps), s);
  }

  /** If the check finds the context not stopped, or draining, and operations are waiting, the loop goes on:
      it polls without blocking, and whatever the poll yields, a new round follows, after a gRPC
      completion if there was one. */
  lemma GoesOn(c0: State, steps: seq<Step>)
    requires Initial(c0) && CanRun(c0, steps) && CanLoop(After(c0, steps), CheckStop)
    requires !After(c0, steps).ctx.stopped || After(c0, steps).mode == Drain
    ensures var c, v := After(c0, steps), WP.Run(WP.START, steps);
      var p := ApplyLoop(c, CheckStop);
      && p.consumer == Polling(Waiting(c, v))
      && (Waiting(c, v) ==>
            && CanLoop(p, PollTimeout) && ApplyLoop(p, PollTimeout).consumer == Top
            && (CanLoop(p, PollAlarm) ==> ApplyLoop(p, PollAlarm).consumer == Top)
            && (CanLoop(p, PollTag) ==> ApplyLoop(p, PollTag).consumer == Running(true)))
  {
    ReachableGood(c0, steps);
    CheckPolls(After(c0, steps), WP.Run(WP.START, steps));
  }

  lemma CheckPolls(c: State, v: WP.Pipeline)
    requires CanLoop(c, CheckStop) && (!c.ctx.stopped || c.mode == Drain)
    requires c.mem.local.head == Null <==> v.local == []
    ensures var p := ApplyLoop(c, CheckStop);
      && p.consumer == Polling(Waiting(c, v))
      && (Waiting(c, v) ==>
            && CanLoop(p, PollTimeout) && ApplyLoop(p, PollTimeout).consumer == Top
            && (CanLoop(p, PollAlarm) ==> ApplyLoop(p, PollAlarm).consumer == Top)
            && (CanLoop(p, PollTag) ==> ApplyLoop(p, PollTag).consumer == Running(true)))
  {
  }

  // ---- one round -----------------------------------------------------------------------

  /** The run stays within one round, which it ends at the stop check. */
  predicate Round(c: State, steps: seq<Step>)
    decreases |steps|
  {
    if c.consumer == StopCheck then steps == []
    else
      && steps != [] && InRound(c.consumer) && Enabled(c, steps[0])
      && Round(Apply(c, steps[0]), steps[1..])
  }

  predicate InRound(k: Consumer) {
    k == Top || k.Dequeuing() || k == TakingLocal || k == Processing || k == Running(false)
  }

  /** The operations that will have been popped by the end of the round, in order, as far as is
      settled: those that arrived, and those waiting in the remote queue once it is to be emptied. */
  ghost function Due(c: State, v: WP.Pipeline): seq<Op>
    requires |v.fates| <= |v.arrivals|
  {
    if c.consumer == Top then Ops(v.arrivals) + (if c.ctx.checkRemote then v.fifo.items else [])
    else if c.consumer.Reversing? then Ops(v.arrivals) + v.batch
    else if c.consumer.Dequeuing() then Ops(v.arrivals) + v.fifo.items
    else if c.consumer == TakingLocal then Ops(v.arrivals)
    else Ops(v.arrivals[..|v.fates|]) + v.processing
  }

  lemma OpsSplit(a: seq<WP.Arrival>, n: nat)
    requires n <= |a|
    ensures Ops(a) == Ops(a[..n]) + Ops(a[n..])
  {
  }

  lemma OpsJoin(a: seq<WP.Arrival>, ops: seq<Op>)
    ensures Ops(a + WP.Remotes(ops)) == Ops(a) + ops
  {
  }

  lemma ProduceKeepsDue(c: State, v: WP.Pipeline, p: Pid, a: ProducerStep)
    requires |v.fates| <= |v.arrivals| && CanProduce(c, p, a)
    ensures |WP.Produce(v, p, a).fates| <= |WP.Produce(v, p, a).arrivals|
    ensures Due(c, v) <= Due(ApplyProduce(c, p, a), WP.Produce(v, p, a))
  {
    var c', v' := ApplyProduce(c, p, a), WP.Produce(v, p, a);
    assert c'.consumer == c.consumer && c'.ctx.checkRemote == c.ctx.checkRemote;
    assert v'.arrivals == v.arrivals && v'.fates == v.fates && v'.batch == v.batch && v'.processing == v.processing;
    assert v.fifo.items <= v'.fifo.items;
  }

  lemma TryDeactivateKeepsDue(c: State, v: WP.Pipeline)
    requires |v.fates| <= |v.arrivals| && CanDequeue(c, TryDeactivate) && (c.mem.head == Null <==> v.fifo.items == [])
    ensures Due(c, v) == Due(ApplyDequeue(c, TryDeactivate), WP.Dequeue(v, TryDeactivate))
  {
    assert Ops(v.arrivals) + [] == Ops(v.arrivals);
  }

  lemma AppendKeepsDue(c: State, v: WP.Pipeline)
    requires |v.fates| <= |v.arrivals| && CanDequeue(c, AppendBatch)
    ensures Due(c, v) == Due(ApplyDequeue(c, AppendBatch), WP.Dequeue(v, AppendBatch))
  {
    OpsJoin(v.arrivals, v.batch);
  }

  lemma OtherDequeueKeepsDue(c: State, v: WP.Pipeline, a: DequeueStep)
    requires |v.fates| <= |v.arrivals| && CanDequeue(c, a) && (a == LoadHead || a == ExchangeHead || a == ReverseOne)
    ensures Due(c, v) == Due(ApplyDequeue(c, a), WP.Dequeue(v, a))
  {
  }

  lemma DequeueKeepsDue(c: State, v: WP.Pipeline, a: DequeueStep)
    requires Lists(c.mem, c.consumer, v) && (c.consumer.Dequeuing() ==> v.fifo.active)
    requires |v.fates| <= |v.arrivals| && CanDequeue(c, a)
    ensures |WP.Dequeue(v, a).fates| <= |WP.Dequeue(v, a).arrivals|
    ensures Due(c, v) == Due(ApplyDequeue(c, a), WP.Dequeue(v, a))
  {
    if a == AppendBatch {
      AppendKeepsDue(c, v);
    } else if a == TryDeactivate {
      ListsAfterTryDeactivate(c.mem, v, TakingLocal);
      TryDeactivateKeepsDue(c, v);
    } else {
      OtherDequeueKeepsDue(c, v, a);
    }
  }

  lemma PopKeepsDue(v: WP.Pipeline)
    requires Order(v) && v.processing != []
    ensures var v' := WP.Loop(v, PopFront);
      |v'.fates| <= |v'.arrivals| && Ops(v'.arrivals[..|v'.fates|]) + v'.processing == Ops(v.arrivals[..|v.fates|]) + v.processing
  {
    var n := |v.fates|;
    assert |Ops(v.arrivals[n..])| == |v.processing + v.local|;
    assert Ops(v.arrivals[n..])[0] == v.arrivals[n].op == v.processing[0];
    assert Ops(v.arrivals[..n + 1]) == Ops(v.arrivals[..n]) + [v.processing[0]];
  }

  lemma TakeKeepsDue(v: WP.Pipeline)
    requires Order(v) && v.processing == []
    ensures Ops(v.arrivals) == Ops(v.arrivals[..|v.fates|]) + v.local
  {
    OpsSplit(v.arrivals, |v.fates|);
    assert [] + v.local == v.local;
  }

  lemma BeginKeepsDue(c: State, v: WP.Pipeline)
    requires |v.fates| <= |v.arrivals| && CanLoop(c, BeginRound)
    ensures Due(c, v) == Due(ApplyLoop(c, BeginRound), v)
  {
    assert Ops(v.arrivals) + [] == Ops(v.arrivals);
  }

  lemma LoopKeepsDue(c: State, v: WP.Pipeline, a: LoopStep)
    requires Order(v) && CanLoop(c, a) && InRound(c.consumer)
    requires (c.mem.queue.head == Null <==> v.processing == []) && (c.consumer == TakingLocal ==> v.processing == [])
    ensures |WP.Loop(v, a).fates| <= |WP.Loop(v, a).arrivals|
    ensures Due(c, v) == Due(ApplyLoop(c, a), WP.Loop(v, a))
  {
    if a == BeginRound {
      BeginKeepsDue(c, v);
    } else if a == PopFront && v.processing != [] {
      PopKeepsDue(v);
    } else if a == TakeLocal {
      TakeKeepsDue(v);
    }
  }

  lemma HandleKeepsDue(c: State, v: WP.Pipeline, a: HandlerStep)
    requires Order(v) && CanHandle(c, a) && c.consumer == Running(false) && a != Throw
    ensures |WP.Handle(v, a).fates| <= |WP.Handle(v, a).arrivals|
    ensures Due(c, v) == Due(ApplyHandle(c, a), WP.Handle(v, a))
  {
    assert WP.Handle(v, a).arrivals[..|v.fates|] == v.arrivals[..|v.fates|];
  }

  /** What the consumer's own steps need to know. */
  ghost predicate Knows(c: State, v: WP.Pipeline) {
    && Order(v)
    && Lists(c.mem, c.consumer, v) && (c.consumer.Dequeuing() ==> v.fifo.active)
    && (c.mem.queue.head == Null <==> v.processing == []) && (c.consumer == TakingLocal ==> v.processing == [])
  }

  lemma RefinesKnows(c: State, v: WP.Pipeline)
    requires Refines(c, v) && Order(v)
    ensures Knows(c, v)
  {
  }

  lemma StepKeepsDue(c: State, v: WP.Pipeline, s: Step)
    requires Knows(c, v) && Enabled(c, s) && InRound(c.consumer) && s != Handle(Throw)
    ensures |WP.Step(v, s).fates| <= |WP.Step(v, s).arrivals|
    ensures Due(c, v) <= Due(Apply(c, s), WP.Step(v, s))
  {
    match s
    case Produce(p, a) => ProduceKeepsDue(c, v, p, a);
    case Dequeue(a) => DequeueKeepsDue(c, v, a);
    case Handle(a) => HandleKeepsDue(c, v, a);
    case Loop(a) => LoopKeepsDue(c, v, a);
    case Ambient(a) => AmbientKeepsDue(c, v, a);
  }

  lemma AmbientKeepsDue(c: State, v: WP.Pipeline, a: AmbientStep)
    requires |v.fates| <= |v.arrivals|
    ensures Due(ApplyAmbient(c, a), v) == Due(c, v)
  {
  }

  lemma NoThrowInRound(c: State, steps: seq<Step>)
    requires Round(c, steps) && c.consumer != StopCheck
    ensures steps[0] != Handle(Throw)
  {
  }

  lemma {:induction false} RoundKeepsDue(c: State, v: WP.Pipeline, steps: seq<Step>)
    requires Good(c, v) && Round(c, steps)
    ensures CanRun(c, steps)
    ensures var v' := WP.Run(v, steps);
      |v'.fates| <= |v'.arrivals| && Due(c, v) <= Due(After(c, steps), v') && Lost(v'.fates) == Lost(v.fates)
    ensures Good(After(c, steps), WP.Run(v, steps)) && After(c, steps).consumer == StopCheck
    decreases |steps|
  {
    if c.consumer != StopCheck {
      NoThrowInRound(c, steps);
      RefinesKnows(c, v);
      StepKeepsDue(c, v, steps[0]);
      FatesOnlyGrowBy(v, steps[0]);
      StepKeepsGood(c, v, steps[0]);
      RoundKeepsDue(Apply(c, steps[0]), WP.Step(v, steps[0]), steps[1..]);
    }
  }

  /** What a round gets done: by its stop check, with producers interfering at every step, everything
      that had reached the local queue when the round began, and, if the consumer was to look at the
      remote queue, everything that waited there, has been completed, in that order. */
  lemma RoundCompletes(c0: State, before: seq<Step>, round: seq<Step>)
    requires Initial(c0) && CanRun(c0, before)
    requires After(c0, before).consumer == Top && Round(After(c0, before), round)
    ensures CanRun(After(c0, before), round)
    ensures var c, v := After(c0, before), WP.Run(WP.START, before);
      var v' := WP.Run(v, round);
      && |v'.fates| <= |v'.arrivals|
      && Ops(v.arrivals) + (if c.ctx.checkRemote then v.fifo.items else []) <= Ops(v'.arrivals[..|v'.fates|])
      && Lost(v'.fates) == Lost(v.fates)
  {
    var c, v := After(c0, before), WP.Run(WP.START, before);
    ReachableGood(c0, before);
    RoundKeepsDue(c, v, round);
    DueAtCheck(After(c, round), WP.Run(v, round));
  }

  lemma DueAtCheck(c: State, v: WP.Pipeline)
    requires Stage(c, v) && c.consumer == StopCheck && |v.fates| <= |v.arrivals|
    ensures Due(c, v) == Ops(v.arrivals[..|v.fates|])
  {
  }

  // ---- the stop flag -------------------------------------------------------------------

  /** Writes of `true` to `stopped`: by another thread's `stop`, by a handler's, by the consumer's own
      `work_finished` or entry. */
  predicate Stops(s: Step) {
    || (s.Produce? && s.produce.StopExchange?)
    || s == Handle(StopSelf)
    || s == Loop(StopOwn)
  }

  predicate Clears(s: Step) {
    s == Loop(ResetOnEntry) || s == Ambient(Reset)
  }

  /** The last of the writes in the run, if any, was a stop. */
  predicate StoppedLast(was: bool, steps: seq<Step>)
    decreases |steps|
  {
    if steps == [] then was
    else StoppedLast(if Clears(steps[0]) then false else was || Stops(steps[0]), steps[1..])
  }

  /** `stopped` holds in every run exactly if it was set, by whomever, and not reset since. */
  lemma {:induction false} StoppedUntilReset(c: State, steps: seq<Step>)
    requires CanRun(c, steps)
    ensures After(c, steps).ctx.stopped <==> StoppedLast(c.ctx.stopped, steps)
    decreases |steps|
  {
    if steps != [] {
      StoppedUntilReset(Apply(c, steps[0]), steps[1..]);
    }
  }

  /** The consumer owes a write to `stopped` exactly after it found the count at zero on entry, or
      returned the last unit itself, until it has made that write. */
  lemma DueOnlyAtZero(c: State, s: Step)
    requires Enabled(c, s)
    ensures Apply(c, s).ctx.stopDue <==>
      || (s.Loop? && s.loop.Enter? && s.loop.mode != Drain && c.ctx.work == 0)
      || ((s == Handle(Finish) || s == Handle(Throw) || s == Handle(GuardEndSelf)) && c.ctx.work == 1)
      || (c.ctx.stopDue && s != Loop(StopOwn))
  {
  }

  // ---- deliveries ----------------------------------------------------------------------

  /** How many steps of the run satisfy `counts` in the state they find. */
  function Tally(c: State, steps: seq<Step>, counts: (State, Step) -> bool): nat
    requires CanRun(c, steps)
    decreases |steps|
  {
    if steps == [] then 0 else AsNat(counts(c, steps[0])) + Tally(Apply(c, steps[0]), steps[1..], counts)
  }

  predicate TagStarted(c: State, s: Step) { s == Ambient(TagStart) }

  predicate TagTaken(c: State, s: Step) { s == Loop(PollTag) }

  predicate OpTaken(c: State, s: Step) { s == Loop(PopFront) && c.mem.queue.head != Null }

  predicate HandlerLeft(c: State, s: Step) { s == Handle(Finish) || s == Handle(Throw) }

  predicate AlarmSet(c: State, s: Step) { s.Produce? && s.produce.Signal? }

  predicate AlarmTaken(c: State, s: Step) { s == Loop(PollAlarm) }

  ghost predicate Delivers(c: State, s: Step, c': State) {
    && c'.ctx.tags + AsNat(TagTaken(c, s)) == c.ctx.tags + AsNat(TagStarted(c, s))
    && c'.ctx.alarms + AsNat(AlarmTaken(c, s)) == c.ctx.alarms + AsNat(AlarmSet(c, s))
    && AsNat(c'.consumer.Running?) + AsNat(HandlerLeft(c, s))
       == AsNat(c.consumer.Running?) + AsNat(TagTaken(c, s)) + AsNat(OpTaken(c, s))
  }

  lemma ProduceDelivers(c: State, p: Pid, a: ProducerStep)
    requires CanProduce(c, p, a)
    ensures Delivers(c, Produce(p, a), ApplyProduce(c, p, a))
  {
  }

  lemma DequeueDelivers(c: State, a: DequeueStep)
    requires CanDequeue(c, a)
    ensures Delivers(c, Dequeue(a), ApplyDequeue(c, a))
  {
  }

  lemma HandleDelivers(c: State, a: HandlerStep)
    requires CanHandle(c, a)
    ensures Delivers(c, Handle(a), ApplyHandle(c, a))
  {
  }

  lemma LoopDelivers(c: State, a: LoopStep)
    requires CanLoop(c, a)
    ensures Delivers(c, Loop(a), ApplyLoop(c, a))
  {
  }

  lemma StepDelivers(c: State, s: Step)
    requires Enabled(c, s)
    ensures Delivers(c, s, Apply(c, s))
  {
    match s
    case Produce(p, a) => ProduceDelivers(c, p, a);
    case Dequeue(a) => DequeueDelivers(c, a);
    case Handle(a) => HandleDelivers(c, a);
    case Loop(a) => LoopDelivers(c, a);
    case Ambient(_) =>
  }

  lemma {:induction false} NothingCompleted(log: seq<Event>, more: seq<Event>)
    requires forall i :: 0 <= i < |more| ==> !more[i].Completed?
    ensures Completions(log + more) == Completions(log)
    decreases |more|
  {
    if more == [] {
      assert log + more == log;
    } else {
      var m := |more| - 1;
      assert (log + more)[..|log| + m] == log + more[..m];
      NothingCompleted(log, more[..m]);
    }
  }

  /** What a step that completes nothing logs. */
  function Logged(c: State, s: Step): seq<Event>
    requires Enabled(c, s)
  {
    match s
    case Produce(p, EnqueueCas) =>
      var me := c.producers[p];
      if me.seen == Inactive then [Pushed(p, me.op), Woke(p)] else [Pushed(p, me.op)]
    case Produce(p, StopMark) => if c.mem.head == Inactive then [Woke(p)] else []
    case Dequeue(TryDeactivate) => if c.mem.head == Null then [Deactivated] else []
    case Handle(PushLocal(op, _)) => [LocalPushed(op)]
    case _ => []
  }

  lemma LogIs(c: State, s: Step)
    requires Enabled(c, s) && !OpTaken(c, s)
    ensures Apply(c, s).log == c.log + Logged(c, s)
  {
  }

  lemma StepCompletes(c: State, s: Step)
    requires Enabled(c, s)
    ensures |Completions(Apply(c, s).log)| == |Completions(c.log)| + AsNat(OpTaken(c, s))
  {
    if OpTaken(c, s) {
      Extend(c.log, Completed(c.mem.queue.head.op));
    } else {
      LogIs(c, s);
      NothingCompleted(c.log, Logged(c, s));
    }
  }

  lemma {:induction false} RunDelivers(c: State, steps: seq<Step>)
    requires CanRun(c, steps)
    ensures var c' := After(c, steps);
      && c'.ctx.tags + Tally(c, steps, TagTaken) == c.ctx.tags + Tally(c, steps, TagStarted)
      && c'.ctx.alarms + Tally(c, steps, AlarmTaken) == c.ctx.alarms + Tally(c, steps, AlarmSet)
      && AsNat(c'.consumer.Running?) + Tally(c, steps, HandlerLeft)
         == AsNat(c.consumer.Running?) + Tally(c, steps, TagTaken) + Tally(c, steps, OpTaken)
      && |Completions(c'.log)| == |Completions(c.log)| + Tally(c, steps, OpTaken)
    decreases |steps|
  {
    if steps != [] {
      StepDelivers(c, steps[0]);
      StepCompletes(c, steps[0]);
      RunDelivers(Apply(c, steps[0]), steps[1..]);
    }
  }

  /** Deliveries in every run: each gRPC completion and each operation taken runs its handler once, and
      every handler run is one of them; what was started and not taken is still in the completion queue. */
  lemma Deliveries(c0: State, steps: seq<Step>)
    requires Initial(c0) && CanRun(c0, steps)
    ensures var c := After(c0, steps);
      && c.ctx.tags + Tally(c0, steps, TagTaken) == Tally(c0, steps, TagStarted)
      && c.ctx.alarms + Tally(c0, steps, AlarmTaken) == Tally(c0, steps, AlarmSet)
      && AsNat(c.consumer.Running?) + Tally(c0, steps, HandlerLeft)
         == Tally(c0, steps, TagTaken) + |Completions(c.log)|
  {
    RunDelivers(c0, steps);
  }

  // ---- every thread can go on ----------------------------------------------------------

  /** A thread other than the consumer is never stuck: each has exactly one kind of next step, and its
      CAS succeeds, spurious failures aside, exactly when `head` is what it read. */
  lemma ProducerNeverStuck(c: State, p: Pid)
    requires p in c.producers
    ensures match c.producers[p]
      case Starting(_) => CanProduce(c, p, EnqueueLoad)
      case Loaded(_, _) => CanProduce(c, p, EnqueueLink)
      case Linked(_, seen) => CanProduce(c, p, EnqueueRetry) && (CanProduce(c, p, EnqueueCas) <==> c.mem.head == seen)
      case Signalling => CanProduce(c, p, Signal)
      case StopPending => CanProduce(c, p, StopExchange)
      case StopMarking => CanProduce(c, p, StopMark)
  {
  }

  /** Nor is the consumer, at any point of the loop other than `get_next_event`. */
  lemma ConsumerGoesOn(c0: State, steps: seq<Step>)
    requires Initial(c0) && CanRun(c0, steps) && !After(c0, steps).ctx.stopDue
    ensures var c := After(c0, steps);
      match c.consumer
      case Outside => forall m :: CanLoop(c, Enter(m))
      case Entering => CanLoop(c, ResetOnEntry)
      case Top => CanLoop(c, BeginRound)
      case LoadingHead => CanDequeue(c, LoadHead)
      case CasInactive => CanDequeue(c, TryDeactivate)
      case Exchanging => CanDequeue(c, ExchangeHead)
      case Reversing(_, _, _) => CanDequeue(c, ReverseOne) || CanDequeue(c, AppendBatch)
      case TakingLocal => CanLoop(c, TakeLocal)
      case Processing => CanLoop(c, PopFront)
      case Running(_) => CanHandle(c, Finish) && (c.mode != Drain ==> CanHandle(c, Throw))
      case StopCheck => CanLoop(c, CheckStop)
      case Polling(pending) => pending ==> CanLoop(c, PollTimeout)
  {
    ReachableGood(c0, steps);
    NotStuck(After(c0, steps), WP.Run(WP.START, steps));
  }
}
