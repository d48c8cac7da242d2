/** When a context without work is stopped, and when it is not. */
module EventLoopStopping {
  import opened EventLoop
  import opened EventLoopRefinement
  import opened EventLoopSafety
  import opened EventLoopTheorems
  import WP = WorkPipeline

  ghost predicate SomePending(c: State) {
    exists p :: p in c.producers && c.producers[p].StopPending?
  }

  /** The context is stopped, or a thread that saw the count reach zero is about to stop it. */
  ghost predicate StopComes(c: State) {
    c.ctx.stopped || c.ctx.stopDue || SomePending(c)
  }

  predicate Resets(s: Step) {
    s == Loop(ResetOnEntry) || s == Ambient(Reset)
  }

  predicate InLoop(c: State) {
    c.consumer != Outside && c.mode != Drain
  }

  // ---- without a reset at zero work ----------------------------------------------------

  predicate ResetsAtZero(c: State, steps: seq<Step>)
    requires CanRun(c, steps)
    decreases |steps|
  {
    && steps != []
    && ((Resets(steps[0]) && c.ctx.work == 0) || ResetsAtZero(Apply(c, steps[0]), steps[1..]))
  }

  /** Another thread's step: a unit returned last leaves that thread about to stop, and it does. */
  lemma ProduceKeepsStopComing(c: State, p: Pid, a: ProducerStep)
    requires CanProduce(c, p, a) && c.ctx.work >= 0
    requires c.ctx.work == 0 ==> StopComes(c)
    ensures ApplyProduce(c, p, a).ctx.work == 0 ==> StopComes(ApplyProduce(c, p, a))
  {
    var c' := ApplyProduce(c, p, a);
    if c'.ctx.work == 0 {
      if a.GuardEnd? {
        assert p in c'.producers && c'.producers[p].StopPending?;
      } else if c.ctx.work == 0 && !c.ctx.stopped && !c.ctx.stopDue {
        var q :| q in c.producers && c.producers[q].StopPending?;
        if q != p {
          assert q in c'.producers && c'.producers[q].StopPending?;
        }
      }
    }
  }

  /** Between resets, a count of zero always has a stop coming. */
  lemma StepKeepsStopComing(c: State, s: Step)
    requires Enabled(c, s) && c.ctx.work >= 0 && !(Resets(s) && c.ctx.work == 0)
    requires c.ctx.work == 0 ==> StopComes(c)
    ensures Apply(c, s).ctx.work == 0 ==> StopComes(Apply(c, s))
  {
    if s.Produce? {
      ProduceKeepsStopComing(c, s.pid, s.produce);
    } else {
      assert Apply(c, s).producers == c.producers;
    }
  }

  lemma StepKeepsStopInLoop(c: State, s: Step)
    requires Enabled(c, s) && c.ctx.work >= 0 && !(Resets(s) && c.ctx.work == 0)
    requires InLoop(c) && c.ctx.work == 0 ==> StopComes(c)
    ensures var c' := Apply(c, s); InLoop(c') && c'.ctx.work == 0 ==> StopComes(c')
  {
    if InLoop(c) {
      StepKeepsStopComing(c, s);
    } else if s.Produce? && InLoop(Apply(c, s)) {
      assert InLoop(c);
    }
  }

  lemma {:induction false} ZeroWorkStopsFrom(c: State, v: WP.Pipeline, steps: seq<Step>)
    requires Good(c, v) && CanRun(c, steps) && !ResetsAtZero(c, steps)
    requires InLoop(c) && c.ctx.work == 0 ==> StopComes(c)
    ensures var c' := After(c, steps); InLoop(c') && c'.ctx.work == 0 ==> StopComes(c')
    decreases |steps|
  {
    if steps != [] {
      ZeroIffIdle(c, v);
      StepKeepsStopInLoop(c, steps[0]);
      StepKeepsGood(c, v, steps[0]);
      ZeroWorkStopsFrom(Apply(c, steps[0]), WP.Step(v, steps[0]), steps[1..]);
    }
  }

  /** The documented promise: in a run that never resets the context at zero work, a loop whose count
      is zero is stopped or about to be; and if it is about to block, some thread will wake it. */
  lemma ZeroWorkStops(c0: State, steps: seq<Step>)
    requires Initial(c0) && CanRun(c0, steps) && !ResetsAtZero(c0, steps)
    requires After(c0, steps).ctx.work == 0 && InLoop(After(c0, steps))
    ensures var c := After(c0, steps);
      StopComes(c) && (Asleep(c) ==> SomePending(c) || SomeStopping(c) || SomeSignalling(c))
  {
    InitialRefines(c0);
    ZeroWorkStopsFrom(c0, WP.START, steps);
    ReachableGood(c0, steps);
    if Asleep(After(c0, steps)) {
      SleepIsSafe(After(c0, steps), WP.Run(WP.START, steps));
    }
  }

  // ---- exactly when no stop comes -------------------------------------------------------

  /** Steps from outside that bring work or a stop: new work, and calls of `stop` other than those of
      a thread that saw the count reach zero. */
  predicate Disturbs(c: State, s: Step) {
    || s == Handle(StopSelf)
    || (s.Handle? && s.handle.PushLocal?)
    || (s.Produce? && s.produce.Submit?)
    || (s.Produce? && s.produce.StopExchange? && s.pid !in c.producers)
    || s == Ambient(GuardStart) || s == Ambient(TagStart)
  }

  predicate Undisturbed(c: State, steps: seq<Step>)
    requires CanRun(c, steps)
    decreases |steps|
  {
    steps == [] || (!Disturbs(c, steps[0]) && Undisturbed(Apply(c, steps[0]), steps[1..]))
  }

  /** The step resets `stopped` at zero work, and nobody is about to set it again. */
  ghost predicate ErasesStop(c: State, s: Step) {
    Resets(s) && c.ctx.work == 0 && !c.ctx.stopDue && !SomePending(c)
  }

  /** Some such reset was taken, and neither work nor a stop was brought after it. */
  ghost predicate Erased(c: State, steps: seq<Step>)
    requires CanRun(c, steps)
    decreases |steps|
  {
    && steps != []
    && var c' := Apply(c, steps[0]);
       (ErasesStop(c, steps[0]) && Undisturbed(c', steps[1..])) || Erased(c', steps[1..])
  }

  /** The loop runs with nothing to do and nobody about to stop it. */
  ghost predicate Stranded(c: State) {
    InLoop(c) && c.ctx.work == 0 && !StopComes(c)
  }

  lemma ProduceKeepsStranded(c: State, p: Pid, a: ProducerStep)
    requires Stranded(c) && c.ctx.guards == 0 && CanProduce(c, p, a) && !Disturbs(c, Produce(p, a))
    ensures Stranded(ApplyProduce(c, p, a))
  {
    var c' := ApplyProduce(c, p, a);
    assert forall q :: q in c'.producers && c'.producers[q].StopPending? ==>
             q in c.producers && c.producers[q].StopPending?;
  }

  /** With zero work and nothing brought, a stranded loop stays stranded until it is left, and a loop
      that was left is not entered again. */
  lemma UndisturbedStep(c: State, v: WP.Pipeline, s: Step)
    requires Good(c, v) && c.ctx.work == 0 && (InLoop(c) ==> Stranded(c))
    requires Enabled(c, s) && !Disturbs(c, s)
    ensures Apply(c, s).ctx.work == 0 && (InLoop(Apply(c, s)) ==> Stranded(Apply(c, s)))
  {
    ZeroIffIdle(c, v);
    if s.Produce? {
      if InLoop(c) {
        ProduceKeepsStranded(c, s.pid, s.produce);
      }
    } else if s.Loop? {
      LoopKeepsStranded(c, s.loop);
    } else if s.Dequeue? {
      DequeueKeepsStranded(c, s.dequeue);
    }
  }

  lemma LoopKeepsStranded(c: State, a: LoopStep)
    requires c.ctx.work == 0 && c.ctx.tags == 0 && (InLoop(c) ==> Stranded(c)) && CanLoop(c, a)
    ensures var c' := ApplyLoop(c, a); c'.ctx.work == 0 && (InLoop(c') ==> Stranded(c'))
  {
    assert ApplyLoop(c, a).producers == c.producers;
  }

  lemma DequeueKeepsStranded(c: State, a: DequeueStep)
    requires c.ctx.work == 0 && (InLoop(c) ==> Stranded(c)) && CanDequeue(c, a)
    ensures var c' := ApplyDequeue(c, a); c'.ctx.work == 0 && (InLoop(c') ==> Stranded(c'))
  {
    assert ApplyDequeue(c, a).producers == c.producers;
  }

  lemma {:induction false} UndisturbedRun(c: State, v: WP.Pipeline, steps: seq<Step>)
    requires Good(c, v) && c.ctx.work == 0 && (InLoop(c) ==> Stranded(c))
    requires CanRun(c, steps) && Undisturbed(c, steps)
    ensures After(c, steps).ctx.work == 0 && (InLoop(After(c, steps)) ==> Stranded(After(c, steps)))
    decreases |steps|
  {
    if steps != [] {
      UndisturbedStep(c, v, steps[0]);
      StepKeepsGood(c, v, steps[0]);
      UndisturbedRun(Apply(c, steps[0]), WP.Step(v, steps[0]), steps[1..]);
    }
  }

  lemma ErasureStrands(c: State, s: Step)
    requires Enabled(c, s) && ErasesStop(c, s)
    ensures Apply(c, s).ctx.work == 0 && !StopComes(Apply(c, s))
  {
    assert Apply(c, s).producers == c.producers;
  }

  lemma StrandedByReset(c: State, s: Step)
    requires Enabled(c, s) && Resets(s) && Stranded(Apply(c, s))
    ensures ErasesStop(c, s)
  {
    assert Apply(c, s).producers == c.producers && Apply(c, s).ctx.stopDue == c.ctx.stopDue;
  }

  /** A loop is stranded by an erasing reset only, and nothing was brought in the step. */
  lemma StrandedBefore(c: State, s: Step)
    requires c.ctx.work >= 0 && (c.ctx.work == 0 ==> !c.consumer.Running? && c.ctx.guards == 0)
    requires Enabled(c, s) && Stranded(Apply(c, s))
    ensures ErasesStop(c, s) || (Stranded(c) && !Disturbs(c, s))
  {
    if Resets(s) {
      StrandedByReset(c, s);
    } else if !Stranded(c) {
      StepKeepsStopInLoop(c, s);
    } else if Disturbs(c, s) {
      DisturbanceFrees(c, s);
    }
  }

  /** New work, or a call of `stop`, ends the stranded state. */
  lemma DisturbanceFrees(c: State, s: Step)
    requires Stranded(c) && !c.consumer.Running? && c.ctx.guards == 0 && Enabled(c, s) && Disturbs(c, s)
    ensures !Stranded(Apply(c, s))
  {
    if s.Produce? && s.produce.Submit? {
      assert ApplyProduce(c, s.pid, s.produce).ctx.work == 1;
    } else if s.Produce? {
      assert ApplyProduce(c, s.pid, StopExchange).ctx.stopped;
    } else {
      assert Apply(c, s).ctx.work == 1;
    }
  }

  lemma {:induction false} StrandedFrom(c: State, v: WP.Pipeline, steps: seq<Step>)
    requires Good(c, v) && CanRun(c, steps) && InLoop(After(c, steps)) && After(c, steps).ctx.work == 0
    ensures Stranded(After(c, steps)) <==> (Stranded(c) && Undisturbed(c, steps)) || Erased(c, steps)
    decreases |steps|
  {
    if steps != [] {
      var s := steps[0];
      var c', v' := Apply(c, s), WP.Step(v, s);
      StepKeepsGood(c, v, s);
      StrandedFrom(c', v', steps[1..]);
      if Stranded(c') {
        ZeroIffIdle(c, v);
        StrandedBefore(c, s);
      }
      if ErasesStop(c, s) && Undisturbed(c', steps[1..]) {
        ErasureStrands(c, s);
        UndisturbedRun(c', v', steps[1..]);
      }
      if Stranded(c) && Undisturbed(c, steps) {
        UndisturbedRun(c, v, steps);
      }
    }
  }

  /** The documented promise, exactly: in every run, a loop whose count is zero is stopped or about to
      be if and only if it is not the case that a reset was taken at zero work with nobody about to
      stop, and neither work nor a call of `stop` came after it. */
  lemma StrandedIffErased(c0: State, steps: seq<Step>)
    requires Initial(c0) && CanRun(c0, steps)
    requires InLoop(After(c0, steps)) && After(c0, steps).ctx.work == 0
    ensures StopComes(After(c0, steps)) <==> !Erased(c0, steps)
  {
    InitialRefines(c0);
    StrandedFrom(c0, WP.START, steps);
  }

  /** And then `run` never returns: it stays in its loop in every continuation that brings nothing. */
  lemma {:induction false} StrandedForGood(c: State, v: WP.Pipeline, steps: seq<Step>)
    requires Good(c, v) && Stranded(c) && c.mode == Run && CanRun(c, steps) && Undisturbed(c, steps)
    ensures Stranded(After(c, steps)) && After(c, steps).mode == Run
    decreases |steps|
  {
    if steps != [] {
      UndisturbedStep(c, v, steps[0]);
      StaysInRun(c, v, steps[0]);
      StepKeepsGood(c, v, steps[0]);
      StrandedForGood(Apply(c, steps[0]), WP.Step(v, steps[0]), steps[1..]);
    }
  }

  lemma StaysInRun(c: State, v: WP.Pipeline, s: Step)
    requires Good(c, v) && Stranded(c) && c.mode == Run && Enabled(c, s)
    ensures Apply(c, s).consumer != Outside && Apply(c, s).mode == Run
  {
    ZeroIffIdle(c, v);
  }
}
