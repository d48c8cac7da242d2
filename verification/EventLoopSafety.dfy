/** What every run of the event loop keeps: order, wake-ups, work, and nothing left behind. */
module EventLoopSafety {
  import opened Sequences
  import opened LinkedCells
  import opened EventLoop
  import opened EventLoopRefinement
  import WP = WorkPipeline

  // ---- projections of the observable history --------------------------------------------

  function Pushes(log: seq<Event>): seq<Op> {
    if log == [] then [] else
      Pushes(log[..|log| - 1])
      + match log[|log| - 1] case Pushed(_, op) => [op] case _ => []
  }

  function LocalPushes(log: seq<Event>): seq<Op> {
    if log == [] then [] else
      LocalPushes(log[..|log| - 1])
      + match log[|log| - 1] case LocalPushed(op) => [op] case _ => []
  }

  function Completions(log: seq<Event>): seq<Op> {
    if log == [] then [] else
      Completions(log[..|log| - 1])
      + match log[|log| - 1] case Completed(op) => [op] case _ => []
  }

  /** Wake-ups minus deactivations. */
  function Balance(log: seq<Event>): int {
    if log == [] then 0 else
      Balance(log[..|log| - 1])
      + match log[|log| - 1] case Woke(_) => 1 case Deactivated => -1 case _ => 0
  }

  lemma Extend(log: seq<Event>, e: Event)
    ensures Pushes(log + [e]) == Pushes(log) + match e case Pushed(_, op) => [op] case _ => []
    ensures LocalPushes(log + [e]) == LocalPushes(log) + match e case LocalPushed(op) => [op] case _ => []
    ensures Completions(log + [e]) == Completions(log) + match e case Completed(op) => [op] case _ => []
    ensures Balance(log + [e]) == Balance(log) + match e case Woke(_) => 1 case Deactivated => -1 case _ => 0
  {
    assert (log + [e])[..|log|] == log;
  }

  // ---- projections of the arrivals ------------------------------------------------------

  function From(a: seq<WP.Arrival>, remote: bool): seq<Op> {
    if a == [] then [] else
      From(a[..|a| - 1], remote) + if a[|a| - 1].remote == remote then [a[|a| - 1].op] else []
  }

  lemma {:induction false} FromAppend(a: seq<WP.Arrival>, b: seq<WP.Arrival>, remote: bool)
    ensures From(a + b, remote) == From(a, remote) + From(b, remote)
    decreases |b|
  {
    if b == [] {
      assert a + b == a;
    } else {
      var b' := b[..|b| - 1];
      assert (a + b)[..|a + b| - 1] == a + b';
      FromAppend(a, b', remote);
    }
  }

  lemma {:induction false} FromRemotes(ops: seq<Op>)
    ensures From(WP.Remotes(ops), true) == ops && From(WP.Remotes(ops), false) == []
    decreases |ops|
  {
    if ops != [] {
      var ops' := ops[..|ops| - 1];
      assert WP.Remotes(ops)[..|ops| - 1] == WP.Remotes(ops');
      FromRemotes(ops');
      assert ops == ops' + [ops[|ops| - 1]];
    }
  }

  function Ops(a: seq<WP.Arrival>): (r: seq<Op>)
    ensures |r| == |a| && forall i :: 0 <= i < |a| ==> r[i] == a[i].op
  {
    seq(|a|, i requires 0 <= i < |a| => a[i].op)
  }

  /** The operations of the arrivals whose fate is `true`. */
  function Survivors(a: seq<WP.Arrival>, fates: seq<bool>): seq<Op>
    requires |fates| <= |a|
    decreases |fates|
  {
    if fates == [] then [] else
      var n := |fates| - 1;
      Survivors(a, fates[..n]) + if fates[n] then [a[n].op] else []
  }

  function Lost(fates: seq<bool>): nat {
    if fates == [] then 0 else Lost(fates[..|fates| - 1]) + if fates[|fates| - 1] then 0 else 1
  }

  lemma {:induction false} SurvivorsFrame(a: seq<WP.Arrival>, b: seq<WP.Arrival>, fates: seq<bool>)
    requires |fates| <= |a|
    ensures Survivors(a + b, fates) == Survivors(a, fates)
    decreases |fates|
  {
    if fates != [] {
      SurvivorsFrame(a, b, fates[..|fates| - 1]);
    }
  }

  lemma {:induction false} DropRest(a: seq<WP.Arrival>, fates: seq<bool>, n: nat)
    requires |fates| + n <= |a|
    ensures Survivors(a, fates + WP.Dropped(n)) == Survivors(a, fates)
    ensures Lost(fates + WP.Dropped(n)) == Lost(fates) + n
    decreases n
  {
    var more := fates + WP.Dropped(n);
    if n == 0 {
      assert more == fates;
    } else {
      assert more[..|more| - 1] == fates + WP.Dropped(n - 1);
      DropRest(a, fates, n - 1);
    }
  }

  // ---- order ---------------------------------------------------------------------------

  /** Where every operation that ever entered the pipeline is, and in which order. */
  ghost predicate Order(v: WP.Pipeline) {
    && |v.fates| <= |v.arrivals|
    && Ops(v.arrivals[|v.fates|..]) == v.processing + v.local
    && Pushes(v.log) == From(v.arrivals, true) + v.batch + v.fifo.items
    && LocalPushes(v.log) == From(v.arrivals, false)
    && Completions(v.log) == Survivors(v.arrivals, v.fates)
    && Balance(v.log) == if v.fifo.active then 1 else 0
  }

  lemma Associate(a: seq<Op>, b: seq<Op>, c: seq<Op>)
    ensures a + (b + c) == a + b + c
  {
  }

  lemma CasKeepsOrder(v: WP.Pipeline, p: Pid)
    requires Order(v) && p in v.holding
    ensures Order(WP.Produce(v, p, EnqueueCas))
  {
    var e := Pushed(p, v.holding[p]);
    Extend(v.log, e);
    Associate(From(v.arrivals, true) + v.batch, v.fifo.items, [v.holding[p]]);
    if !v.fifo.active {
      Extend(v.log + [e], Woke(p));
      assert v.log + [e, Woke(p)] == v.log + [e] + [Woke(p)];
    }
  }

  lemma ProduceKeepsOrder(v: WP.Pipeline, p: Pid, a: ProducerStep)
    requires Order(v)
    ensures Order(WP.Produce(v, p, a))
  {
    if a.EnqueueCas? && p in v.holding {
      CasKeepsOrder(v, p);
    } else if a.StopMark? {
      if v.fifo.active {
        assert v.log + [] == v.log;
      } else {
        Extend(v.log, Woke(p));
      }
    }
  }

  lemma OpsAppend(a: seq<WP.Arrival>, b: seq<WP.Arrival>, n: nat)
    requires n <= |a|
    ensures Ops((a + b)[n..]) == Ops(a[n..]) + Ops(b)
  {
    assert (a + b)[n..] == a[n..] + b;
  }

  lemma OpsDrop(a: seq<WP.Arrival>, n: nat, k: nat)
    requires n + k <= |a|
    ensures Ops(a[n + k..]) == Ops(a[n..])[k..]
  {
  }

  /** Operations reach the end of the local queue. */
  lemma ArriveKeepsOrder(v: WP.Pipeline, b: seq<WP.Arrival>, w: WP.Pipeline)
    requires Order(v)
    requires w == v.(local := v.local + Ops(b), arrivals := v.arrivals + b, batch := w.batch, log := w.log)
    requires Pushes(w.log) == From(v.arrivals, true) + From(b, true) + w.batch + v.fifo.items
    requires LocalPushes(w.log) == From(v.arrivals, false) + From(b, false)
    requires Completions(w.log) == Completions(v.log) && Balance(w.log) == Balance(v.log)
    ensures Order(w)
  {
    FromAppend(v.arrivals, b, true);
    FromAppend(v.arrivals, b, false);
    SurvivorsFrame(v.arrivals, b, v.fates);
    OpsAppend(v.arrivals, b, |v.fates|);
    Associate(v.processing, v.local, Ops(b));
  }

  lemma DequeueKeepsOrder(v: WP.Pipeline, a: DequeueStep)
    requires Order(v)
    requires a.TryDeactivate? ==> v.fifo.active
    requires a.ExchangeHead? ==> v.batch == [] && v.fifo.active && v.fifo.items != []
    ensures Order(WP.Dequeue(v, a))
  {
    match a
    case TryDeactivate => Extend(v.log, Deactivated);
    case AppendBatch =>
      var b := WP.Remotes(v.batch);
      FromRemotes(v.batch);
      assert Ops(b) == v.batch;
      ArriveKeepsOrder(v, b, WP.Dequeue(v, a));
    case _ =>
  }

  lemma HandleKeepsOrder(v: WP.Pipeline, a: HandlerStep)
    requires Order(v)
    ensures Order(WP.Handle(v, a))
  {
    if a.PushLocal? {
      var b := [WP.Arrival(a.op, false)];
      Extend(v.log, LocalPushed(a.op));
      assert From(b[..0], true) == [] && From(b[..0], false) == [];
      assert Ops(b) == [a.op];
      ArriveKeepsOrder(v, b, WP.Handle(v, a));
    } else if a.Throw? {
      ThrowKeepsOrder(v);
    }
  }

  /** The rest of the batch is dropped: what is left are the arrivals in the local queue. */
  lemma DropBatch(a: seq<WP.Arrival>, fates: seq<bool>, processing: seq<Op>, local: seq<Op>)
    requires |fates| <= |a| && Ops(a[|fates|..]) == processing + local
    ensures var fates' := fates + WP.Dropped(|processing|);
      && |fates'| <= |a| && Ops(a[|fates'|..]) == local
      && Survivors(a, fates') == Survivors(a, fates)
      && Lost(fates') == Lost(fates) + |processing|
  {
    ArrivalsLeft(a, |fates|, processing, local);
    DropRest(a, fates, |processing|);
  }

  lemma ThrowKeepsOrder(v: WP.Pipeline)
    requires Order(v)
    ensures Order(WP.Handle(v, Throw))
    ensures Lost(WP.Handle(v, Throw).fates) == Lost(v.fates) + |v.processing|
  {
    DropBatch(v.arrivals, v.fates, v.processing, v.local);
    var v' := WP.Handle(v, Throw);
    assert v'.processing + v'.local == v.local;
    assert v'.arrivals == v.arrivals && v'.fates == v.fates + WP.Dropped(|v.processing|);
    assert v'.log == v.log && v'.batch == v.batch && v'.fifo == v.fifo;
  }

  lemma ArrivalsLeft(a: seq<WP.Arrival>, n: nat, front: seq<Op>, back: seq<Op>)
    requires n <= |a| && Ops(a[n..]) == front + back
    ensures n + |front| <= |a| && Ops(a[n + |front|..]) == back
  {
    assert |Ops(a[n..])| == |front| + |back|;
    OpsDrop(a, n, |front|);
    DropFront(front, back);
  }

  lemma DropFront(a: seq<Op>, b: seq<Op>)
    ensures (a + b)[|a|..] == b
  {
  }

  lemma PopKeepsOrder(v: WP.Pipeline)
    requires Order(v) && v.processing != []
    ensures Order(WP.Loop(v, PopFront))
  {
    var n, op := |v.fates|, v.processing[0];
    Extend(v.log, Completed(op));
    assert Ops(v.arrivals[n..])[0] == op;
    assert (v.fates + [true])[..n] == v.fates;
    OpsDrop(v.arrivals, n, 1);
    DropFirst(v.processing, v.local);
  }

  lemma DropFirst(a: seq<Op>, b: seq<Op>)
    requires a != []
    ensures (a + b)[1..] == a[1..] + b
  {
  }

  lemma LoopKeepsOrder(v: WP.Pipeline, a: LoopStep)
    requires Order(v)
    requires a.TakeLocal? ==> v.processing == []
    ensures Order(WP.Loop(v, a))
  {
    if a.PopFront? && v.processing != [] {
      PopKeepsOrder(v);
    } else if a.TakeLocal? {
      assert v.local + [] == [] + v.local;
    }
  }

  // ---- work ----------------------------------------------------------------------------

  /** `outstanding_work` counts exactly: queued operations, gRPC operations, the operation being
      completed, submissions under way, held units, and operations lost to a throw. */
  ghost predicate WorkCounted(c: State, v: WP.Pipeline) {
    c.ctx.work == |v.All()| + c.ctx.tags + AsNat(c.consumer.Running?) + |v.holding.Keys| + c.ctx.guards + Lost(v.fates)
  }

  /** Once `stopped` is set and its setter has finished `stop`, a polling consumer has an
      alarm to come. */
  ghost predicate StopSeen(c: State) {
    && (c.ctx.stopDue ==> !c.consumer.Polling?)
    && (c.ctx.stopped && c.consumer.Polling? && c.mode != Drain
        && (forall p :: p in c.producers ==> !c.producers[p].StopMarking?)
        ==> c.mem.head != Inactive)
  }

  ghost predicate Good(c: State, v: WP.Pipeline) {
    Refines(c, v) && Order(v) && WorkCounted(c, v) && StopSeen(c)
  }

  // ---- every step ----------------------------------------------------------------------

  lemma StepKeepsOrder(c: State, v: WP.Pipeline, s: Step)
    requires Refines(c, v) && Order(v) && Enabled(c, s)
    ensures Order(WP.Step(v, s))
  {
    match s
    case Produce(p, a) => ProduceKeepsOrder(v, p, a);
    case Dequeue(a) => DequeueKeepsOrder(v, a);
    case Handle(a) => HandleKeepsOrder(v, a);
    case Loop(a) => LoopKeepsOrder(v, a);
    case Ambient(_) =>
  }

  lemma SubmitKeepsWork(c: State, v: WP.Pipeline, p: Pid, op: Op, prepaid: bool)
    requires p !in v.holding && WorkCounted(c, v) && CanProduce(c, p, Submit(op, prepaid))
    ensures WorkCounted(ApplyProduce(c, p, Submit(op, prepaid)), WP.Produce(v, p, Submit(op, prepaid)))
  {
    assert WP.Produce(v, p, Submit(op, prepaid)).holding.Keys == v.holding.Keys + {p};
  }

  lemma CasKeepsWork(c: State, v: WP.Pipeline, p: Pid)
    requires p in v.holding && WorkCounted(c, v) && CanProduce(c, p, EnqueueCas)
    ensures WorkCounted(ApplyProduce(c, p, EnqueueCas), WP.Produce(v, p, EnqueueCas))
  {
    assert WP.Produce(v, p, EnqueueCas).holding.Keys == v.holding.Keys - {p};
  }

  lemma ProduceKeepsWork(c: State, v: WP.Pipeline, p: Pid, a: ProducerStep)
    requires p in v.holding <==> p in c.producers && c.producers[p].HoldsOp()
    requires WorkCounted(c, v) && CanProduce(c, p, a)
    ensures WorkCounted(ApplyProduce(c, p, a), WP.Produce(v, p, a))
  {
    if a.Submit? {
      SubmitKeepsWork(c, v, p, a.op, a.prepaid);
    } else if a.EnqueueCas? {
      CasKeepsWork(c, v, p);
    }
  }

  lemma DequeueKeepsWork(c: State, v: WP.Pipeline, a: DequeueStep)
    requires Refines(c, v) && WorkCounted(c, v) && CanDequeue(c, a)
    ensures WorkCounted(ApplyDequeue(c, a), WP.Dequeue(v, a))
  {
    assert |WP.Dequeue(v, a).All()| == |v.All()|;
  }

  lemma HandleKeepsWork(c: State, v: WP.Pipeline, a: HandlerStep)
    requires Order(v) && WorkCounted(c, v) && CanHandle(c, a)
    ensures WorkCounted(ApplyHandle(c, a), WP.Handle(v, a))
  {
    if a.Throw? {
      ThrowKeepsOrder(v);
    }
  }

  lemma PopKeepsWork(c: State, v: WP.Pipeline)
    requires WorkCounted(c, v) && CanLoop(c, PopFront)
    requires c.mem.queue.head == Null <==> v.processing == []
    ensures WorkCounted(ApplyLoop(c, PopFront), WP.Loop(v, PopFront))
  {
    if v.processing != [] {
      assert (v.fates + [true])[..|v.fates|] == v.fates;
      assert |WP.Loop(v, PopFront).All()| == |v.All()| - 1;
    }
  }

  lemma LoopKeepsWork(c: State, v: WP.Pipeline, a: LoopStep)
    requires WorkCounted(c, v) && CanLoop(c, a)
    requires c.mem.queue.head == Null <==> v.processing == []
    requires a.TakeLocal? ==> v.processing == []
    ensures WorkCounted(ApplyLoop(c, a), WP.Loop(v, a))
  {
    if a.PopFront? {
      PopKeepsWork(c, v);
    } else {
      assert |WP.Loop(v, a).All()| == |v.All()|;
    }
  }

  lemma StepKeepsStop(c: State, s: Step)
    requires StopSeen(c) && Enabled(c, s)
    ensures StopSeen(Apply(c, s))
  {
    if s.Produce? {
      var c' := ApplyProduce(c, s.pid, s.produce);
      if s.produce == StopExchange && !c.ctx.stopped {
        assert s.pid in c'.producers && c'.producers[s.pid].StopMarking?;
      } else if s.produce != StopMark {
        assert forall q :: q in c.producers && c.producers[q].StopMarking? ==>
                 q != s.pid && q in c'.producers && c'.producers[q] == c.producers[q];
      }
    }
  }
}
