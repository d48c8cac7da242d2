/** Runs of the event loop in which a promise fails, step by step. */
module EventLoopExamples {
  import opened LinkedCells
  import opened EventLoop
  import opened EventLoopSafety
  import opened EventLoopTheorems
  import opened EventLoopStopping
  import WP = WorkPipeline

  const FRESH := State(
    Memory(Inactive, map[], EMPTY_QUEUE, EMPTY_QUEUE), {}, map[], Outside, Run,
    Counters(false, 0, 0, 0, 0, false, false), [])

  /** A run so far, with the states it leads to. */
  datatype Trace = Trace(steps: seq<Step>, c: State, v: WP.Pipeline)

  ghost predicate Follows(r: Trace) {
    CanRun(FRESH, r.steps) && After(FRESH, r.steps) == r.c && WP.Run(WP.START, r.steps) == r.v
  }

  lemma {:induction false} Longer(c: State, v: WP.Pipeline, steps: seq<Step>, s: Step)
    requires CanRun(c, steps) && Enabled(After(c, steps), s)
    ensures CanRun(c, steps + [s]) && After(c, steps + [s]) == Apply(After(c, steps), s)
    ensures WP.Run(v, steps + [s]) == WP.Step(WP.Run(v, steps), s)
    decreases |steps|
  {
    if steps == [] {
      assert [] + [s] == [s] && [s][1..] == [];
    } else {
      assert (steps + [s])[1..] == steps[1..] + [s];
      Longer(Apply(c, steps[0]), WP.Step(v, steps[0]), steps[1..], s);
    }
  }

  lemma Go(r: Trace, s: Step) returns (r': Trace)
    requires Follows(r) && Enabled(r.c, s)
    ensures Follows(r') && r' == Trace(r.steps + [s], Apply(r.c, s), WP.Step(r.v, s))
  {
    Longer(FRESH, WP.START, r.steps, s);
    r' := Trace(r.steps + [s], Apply(r.c, s), WP.Step(r.v, s));
  }

  predicate NothingLocal(r: Trace) {
    && r.c.mem.local == EMPTY_QUEUE && r.c.mem.queue == EMPTY_QUEUE && r.v.local == [] && r.v.processing == []
  }

  /** One round of the loop with nothing to do, up to `get_next_event`. */
  lemma IdleRound(r: Trace) returns (r': Trace)
    requires Follows(r) && NothingLocal(r) && !r.c.ctx.stopped && !r.c.ctx.stopDue && !r.c.ctx.checkRemote
    requires r.c.consumer == Top
    ensures Follows(r') && r'.c == r.c.(consumer := Polling(false)) && r'.v == r.v
  {
    r' := Go(r, Loop(BeginRound));
    r' := Go(r', Loop(TakeLocal));
    r' := Go(r', Loop(PopFront));
    r' := Go(r', Loop(CheckStop));
  }

  /** A gRPC operation completes in a context that has no other work. */
  lemma RunningRun() returns (r: Trace)
    ensures Follows(r) && r.v == WP.START
    ensures r.c == FRESH.(consumer := Running(true), ctx := FRESH.ctx.(work := 1))
  {
    r := Trace([], FRESH, WP.START);
    r := Go(r, Ambient(TagStart));
    r := Go(r, Loop(Enter(Run)));
    r := Go(r, Loop(ResetOnEntry));
    r := IdleRound(r);
    r := Go(r, Loop(PollTag));
  }

  /** Its handler submits two more. */
  lemma TwoLocalRun() returns (r: Trace)
    ensures Follows(r)
    ensures r.c == FRESH.(consumer := Top, ctx := FRESH.ctx.(work := 2), live := {1, 2},
                          mem := Memory(Inactive, map[1 := At(2), 2 := Null], CellQueue(At(1), At(2)), EMPTY_QUEUE),
                          log := [LocalPushed(1), LocalPushed(2)])
    ensures r.v.local == [1, 2] && r.v.processing == [] && r.v.batch == [] && r.v.fifo.items == [] && r.v.fates == []
  {
    r := RunningRun();
    r := Go(r, Handle(PushLocal(1, false)));
    assert r.c.mem == Memory(Inactive, map[1 := Null], CellQueue(At(1), At(1)), EMPTY_QUEUE);
    assert r.c.live == {1} && r.c.log == [LocalPushed(1)] && r.c.ctx == FRESH.ctx.(work := 2);
    r := Go(r, Handle(PushLocal(2, false)));
    assert r.c.mem.next == map[1 := At(2), 2 := Null];
    assert r.c.live == {1, 2} && r.c.log == [LocalPushed(1), LocalPushed(2)];
    r := Go(r, Handle(Finish));
  }

  /** The handler of the first one throws while the second still waits: that one is lost, and its unit
      of work stays counted. */
  lemma LostRun() returns (r: Trace)
    ensures Initial(FRESH) && Follows(r)
    ensures Lost(r.v.fates) == 1 && r.v.All() == [] && r.c.ctx.work == 1 && r.c.consumer == Outside
  {
    r := TwoLocalRun();
    r := Go(r, Loop(BeginRound));
    r := Go(r, Loop(TakeLocal));
    r := Go(r, Loop(PopFront));
    assert r.v.fates == [true] && r.v.processing == [2] && r.v.local == [];
    r := Go(r, Handle(Throw));
    assert r.v.fates == [true] + WP.Dropped(1) == [true, false];
    assert [true, false][..1] == [true] && [true][..0] == [];
  }

  /** A guard is the only work; `run` sees it, then another thread returns it. */
  lemma ReturnedTooEarlyRun() returns (r: Trace)
    ensures Follows(r) && r.v == WP.START
    ensures r.c == FRESH.(consumer := Entering, producers := map[0 := StopPending])
  {
    r := Trace([], FRESH, WP.START);
    r := Go(r, Ambient(GuardStart));
    r := Go(r, Loop(Enter(Run)));
    r := Go(r, Produce(0, GuardEnd));
  }

  /** That thread stops the context. */
  lemma StoppedTooEarlyRun() returns (r: Trace)
    ensures Follows(r) && NothingLocal(r)
    ensures r.c == FRESH.(consumer := Entering, mem := FRESH.mem.(head := Null), log := [Woke(0)],
                          ctx := FRESH.ctx.(alarms := 1, stopped := true))
    ensures r.v.fifo.items == []
  {
    r := ReturnedTooEarlyRun();
    r := Go(r, Produce(0, StopExchange));
    r := Go(r, Produce(0, StopMark));
    r := Go(r, Produce(0, Signal));
    assert r.c.producers == map[];
  }

  /** The reset on entry erases the stop, and `run` falls asleep for good. */
  lemma StrandedRun() returns (r: Trace)
    ensures Initial(FRESH) && Follows(r)
    ensures Stranded(r.c) && Asleep(r.c) && r.c.producers == map[] && r.c.mem.head == Inactive
  {
    r := StoppedTooEarlyRun();
    r := Go(r, Loop(ResetOnEntry));
    r := IdleRound(r);
    r := Go(r, Loop(PollAlarm));
    r := Go(r, Loop(BeginRound));
    r := Go(r, Dequeue(LoadHead));
    r := Go(r, Dequeue(TryDeactivate));
    r := Go(r, Loop(TakeLocal));
    r := Go(r, Loop(PopFront));
    r := Go(r, Loop(CheckStop));
  }

  /** Another thread enqueues an operation on the inactive queue, and wakes the consumer. */
  lemma EnqueuedRun() returns (r: Trace)
    ensures Follows(r) && NothingLocal(r) && r.v.fifo.items == [1] && r.v.batch == [] && r.v.fates == []
    ensures r.c == FRESH.(live := {1}, mem := FRESH.mem.(head := At(1), next := map[1 := Null]),
                          ctx := FRESH.ctx.(work := 1, alarms := 1), log := [Pushed(0, 1), Woke(0)])
  {
    r := Trace([], FRESH, WP.START);
    r := Go(r, Produce(0, Submit(1, false)));
    r := Go(r, Produce(0, EnqueueLoad));
    assert r.c == FRESH.(live := {1}, producers := map[0 := Loaded(1, Inactive)], ctx := FRESH.ctx.(work := 1));
    r := Go(r, Produce(0, EnqueueLink));
    r := Go(r, Produce(0, EnqueueCas));
    assert r.c.producers == map[0 := Signalling] && r.c.log == [Pushed(0, 1), Woke(0)] && r.v.fifo.items == [1];
    r := Go(r, Produce(0, Signal));
    assert r.c.producers == map[];
  }

  /** The consumer enters and sees the alarm. */
  lemma AwakeRun() returns (r: Trace)
    ensures Follows(r) && NothingLocal(r) && r.v.fifo.items == [1] && r.v.batch == [] && r.v.fates == []
    ensures r.c == FRESH.(live := {1}, mem := FRESH.mem.(head := At(1), next := map[1 := Null]), consumer := Top,
                          ctx := FRESH.ctx.(work := 1, checkRemote := true), log := [Pushed(0, 1), Woke(0)])
  {
    r := EnqueuedRun();
    r := Go(r, Loop(Enter(Run)));
    r := Go(r, Loop(ResetOnEntry));
    r := IdleRound(r);
    r := Go(r, Loop(PollAlarm));
  }

  /** It takes the queue. */
  lemma TakenRun() returns (r: Trace)
    ensures Follows(r) && r.v.processing == [] && r.v.local == [1]
    ensures r.c.consumer == TakingLocal && r.c.mem.local == CellQueue(At(1), At(1)) && r.c.mem.next == map[1 := Null]
    ensures r.c.log == [Pushed(0, 1), Woke(0)] && !r.c.ctx.stopDue && r.c.mode == Run
  {
    r := AwakeRun();
    r := Go(r, Loop(BeginRound));
    r := Go(r, Dequeue(LoadHead));
    r := Go(r, Dequeue(ExchangeHead));
    assert r.c.consumer == Reversing(At(1), Null, At(1)) && r.v.batch == [1] && r.v.local == [];
    r := Go(r, Dequeue(ReverseOne));
    assert r.c.consumer == Reversing(Null, At(1), At(1)) && r.c.mem.next == map[1 := Null];
    r := Go(r, Dequeue(AppendBatch));
  }

  /** The usual case: an operation enqueued by another thread is completed by `run`. */
  lemma RemoteRun() returns (r: Trace)
    ensures Initial(FRESH) && Follows(r) && r.c.consumer == Running(false) && Completed(1) in r.c.log
  {
    r := TakenRun();
    r := Go(r, Loop(TakeLocal));
    r := Go(r, Loop(PopFront));
  }
}
