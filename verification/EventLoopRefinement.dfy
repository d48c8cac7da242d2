/** Every run of the event loop on `next` pointers is a run of the abstract pipeline. */
module EventLoopRefinement {
  import opened Sequences
  import opened LinkedCells
  import opened EventLoop
  import WP = WorkPipeline

  /** The pointers represent the sequences; no operation is in two places. */
  ghost predicate Lists(m: Memory, k: Consumer, v: WP.Pipeline) {
    && v.fifo.Valid()
    && (v.fifo.active <==> m.head != Inactive)
    && ListFrom(m.next, ItemOf(m.head), Reverse(v.fifo.items))
    && QueueOf(m.next, m.local, v.local)
    && QueueOf(m.next, m.queue, v.processing)
    && BatchOf(m, k, v)
    && NoDup(v.All())
  }

  /** `make_reversed` half way: the unreversed part hangs off `list` newest first, the
      reversed part off `newHead` oldest first. */
  ghost predicate BatchOf(m: Memory, k: Consumer, v: WP.Pipeline) {
    if k.Reversing? then
      && v.batch != [] && v.unreversed <= |v.batch|
      && ListFrom(m.next, k.list, Reverse(v.batch[..v.unreversed]))
      && ListFrom(m.next, k.newHead, v.batch[v.unreversed..])
      && k.newTail == At(v.batch[|v.batch| - 1])
    else
      v.batch == []
  }

  /** Operations still held by a producer are in no list, and by one producer only. */
  ghost predicate Held(c: State, v: WP.Pipeline) {
    && (forall op :: op in v.All() ==> op in c.live)
    && (forall p :: p in v.holding <==> p in c.producers && c.producers[p].HoldsOp())
    && (forall p :: p in v.holding ==>
          v.holding[p] == c.producers[p].op && v.holding[p] in c.live && v.holding[p] !in v.All())
    && (forall p, q :: p in v.holding && q in v.holding && p != q ==> v.holding[p] != v.holding[q])
    && (forall p :: p in c.producers && c.producers[p].Linked? ==>
          c.producers[p].op in c.mem.next && c.mem.next[c.producers[p].op] == ItemOf(c.producers[p].seen))
  }

  /** What the consumer knows at each point of `process_work`. */
  ghost predicate Stage(c: State, v: WP.Pipeline) {
    && (c.consumer.Dequeuing() ==> c.ctx.checkRemote)
    && (c.consumer == Exchanging ==> v.fifo.items != [])
    && (c.consumer != Processing && c.consumer != Running(false) ==> v.processing == [])
    && (c.consumer.Polling? ==> (c.consumer.pending <==> c.ctx.checkRemote || v.local != []))
  }

  ghost function Signallers(producers: map<Pid, Producer>): set<Pid> {
    set p | p in producers && producers[p].Signalling?
  }

  /** The wake-up token: the queue is inactive, or exactly one obligation to look at it exists.
      It is an alarm on its way, the consumer's own flag, or a producer about to set the alarm. */
  ghost predicate Token(c: State) {
    (if c.mem.head == Inactive then 0 else 1)
    == c.ctx.alarms + (if c.ctx.checkRemote then 1 else 0) + |Signallers(c.producers)|
  }

  ghost predicate Refines(c: State, v: WP.Pipeline) {
    && Lists(c.mem, c.consumer, v) && Held(c, v) && Stage(c, v) && Token(c)
    && c.log == v.log
  }

  lemma InitialRefines(c: State)
    requires Initial(c)
    ensures Refines(c, WP.START)
  {
    assert Signallers(c.producers) == {};
  }

  // ---- lists ---------------------------------------------------------------------------

  /** An operation of one part of the pipeline is in none of the others. */
  lemma Parts(v: WP.Pipeline)
    requires NoDup(v.All())
    ensures NoDup(v.processing) && NoDup(v.local) && NoDup(v.batch)
    ensures NoDup(v.local + v.batch)
    ensures forall x :: x in v.processing ==> x !in v.local && x !in v.batch && x !in v.fifo.items
    ensures forall x :: x in v.local ==> x !in v.batch && x !in v.fifo.items
    ensures forall x :: x in v.batch ==> x !in v.fifo.items
  {
    NoDupSplit(v.processing + v.local + v.batch, v.fifo.items);
    NoDupSplit(v.processing + v.local, v.batch);
    NoDupSplit(v.processing, v.local);
    assert v.processing + v.local + v.batch == v.processing + (v.local + v.batch);
    NoDupSplit(v.processing, v.local + v.batch);
  }

  /** Writing the `next` field of an operation that is in no list leaves every list alone. */
  lemma FrameAll(m: Memory, k: Consumer, v: WP.Pipeline, op: Op, q: Ptr)
    requires Lists(m, k, v) && op !in v.All()
    ensures Lists(m.(next := m.next[op := q]), k, v)
  {
    assert op !in v.fifo.items && op !in v.local && op !in v.processing && op !in v.batch;
    FrameQueues(m, k, v, op, q);
    FrameList(m.next, m.local.head, v.local, op, q);
    if k.Reversing? {
      ReverseMembers(v.batch[..v.unreversed], op);
      FrameList(m.next, k.list, Reverse(v.batch[..v.unreversed]), op, q);
      FrameList(m.next, k.newHead, v.batch[v.unreversed..], op, q);
    }
  }

  lemma FrameQueues(m: Memory, k: Consumer, v: WP.Pipeline, op: Op, q: Ptr)
    requires Lists(m, k, v) && op !in v.fifo.items && op !in v.processing
    ensures ListFrom(m.next[op := q], ItemOf(m.head), Reverse(v.fifo.items))
    ensures QueueOf(m.next[op := q], m.queue, v.processing)
  {
    ReverseMembers(v.fifo.items, op);
    FrameList(m.next, ItemOf(m.head), Reverse(v.fifo.items), op, q);
    FrameList(m.next, m.queue.head, v.processing, op, q);
  }

  lemma ReversePush(s: seq<Op>, op: Op)
    ensures Reverse(s + [op]) == [op] + Reverse(s)
  {
    assert (s + [op])[..|s|] == s;
  }

  /** A successful CAS: whatever happened to `head` since it was read, including a return to
      the same pointer, the new chain is the item followed by the current chain. */
  lemma CasPushes(m: Memory, k: Consumer, v: WP.Pipeline, p: Pid, op: Op)
    requires Lists(m, k, v) && p in v.holding && v.holding[p] == op && op !in v.All()
    requires op in m.next && m.next[op] == ItemOf(m.head)
    ensures Lists(m.(head := At(op)), k, WP.Produce(v, p, EnqueueCas))
  {
    ChainPush(m.next, ItemOf(m.head), v.fifo.items, op);
    PushKeepsNoDup(v.processing + v.local + v.batch, v.fifo.items, op);
  }

  lemma ChainPush(next: Cells, head: Ptr, items: seq<Op>, op: Op)
    requires ListFrom(next, head, Reverse(items)) && op in next && next[op] == head
    ensures ListFrom(next, At(op), Reverse(items + [op]))
  {
    ReversePush(items, op);
    assert ([op] + Reverse(items))[1..] == Reverse(items);
  }

  lemma PushKeepsNoDup(a: seq<Op>, b: seq<Op>, op: Op)
    requires NoDup(a + b) && op !in a + b
    ensures NoDup(a + (b + [op]))
  {
    assert a + b + [] == a + b;
    NoDupInsert(a + b, op, []);
    assert a + (b + [op]) == a + b + [op] + [];
  }

  lemma StopMarkActivates(m: Memory, k: Consumer, v: WP.Pipeline, p: Pid)
    requires Lists(m, k, v)
    ensures Lists(m.(head := ItemOf(m.head)), k, WP.Produce(v, p, StopMark))
  {
    assert WP.Produce(v, p, StopMark).All() == v.All();
  }

  /** One turn of the loop of `make_reversed`. */
  lemma ReverseOneCells(next: Cells, list: Ptr, newHead: Ptr, batch: seq<Op>, k: nat)
    requires 0 < k <= |batch| && NoDup(batch)
    requires ListFrom(next, list, Reverse(batch[..k])) && ListFrom(next, newHead, batch[k..])
    ensures var op := batch[k - 1];
      && list == At(op) && op in next
      && var next' := next[op := newHead];
      && ListFrom(next', next[op], Reverse(batch[..k - 1]))
      && ListFrom(next', list, batch[k - 1..])
  {
    var op := batch[k - 1];
    var todo, done := batch[..k - 1], batch[k..];
    assert batch[..k] == todo + [op];
    ReversePush(todo, op);
    assert Reverse(batch[..k])[1..] == Reverse(todo);
    assert op !in todo && op !in done;
    ReverseMembers(todo, op);
    FrameList(next, next[op], Reverse(todo), op, newHead);
    FrameList(next, newHead, done, op, newHead);
    assert batch[k - 1..][1..] == done;
  }

  lemma BatchAfterReverseOne(m: Memory, k: Consumer, v: WP.Pipeline)
    requires BatchOf(m, k, v) && NoDup(v.batch) && k.Reversing? && k.list.At?
    ensures v.unreversed > 0 && k.list.op in m.next && k.list.op in v.batch
    ensures var op := k.list.op;
      BatchOf(m.(next := m.next[op := k.newHead]), Reversing(m.next[op], k.list, k.newTail),
              WP.Dequeue(v, ReverseOne))
  {
    var n := v.unreversed;
    assert |Reverse(v.batch[..n])| == n;
    ReverseOneCells(m.next, k.list, k.newHead, v.batch, n);
    assert v.batch[n - 1] in v.batch;
  }

  lemma ListsAfterReverseOne(m: Memory, k: Consumer, v: WP.Pipeline)
    requires Lists(m, k, v) && k.Reversing? && k.list.At?
    ensures v.unreversed > 0 && k.list.op in m.next
    ensures var op := k.list.op;
      Lists(m.(next := m.next[op := k.newHead]), Reversing(m.next[op], k.list, k.newTail),
            WP.Dequeue(v, ReverseOne))
  {
    Parts(v);
    BatchAfterReverseOne(m, k, v);
    FrameQueues(m, k, v, k.list.op, k.newHead);
    FrameList(m.next, m.local.head, v.local, k.list.op, k.newHead);
  }

  /** `append` on cells concatenates the represented sequences. */
  lemma AppendCellsJoins(next: Cells, q: CellQueue, s: seq<Op>, r: CellQueue, t: seq<Op>)
    requires QueueOf(next, q, s) && QueueOf(next, r, t) && NoDup(s + t)
    ensures QueueOf(AppendCells(next, q, r).0, AppendCells(next, q, r).1, s + t)
  {
    if t == [] {
      assert s + t == s;
    } else if s == [] {
      assert s + t == t;
    } else {
      JoinLists(next, q.head, s, r.head, t);
    }
  }

  lemma AppendCellsFrame(next: Cells, q: CellQueue, s: seq<Op>, r: CellQueue, p: Ptr, t: seq<Op>)
    requires QueueOf(next, q, s) && ListFrom(next, p, t)
    requires forall x :: x in s ==> x !in t
    ensures ListFrom(AppendCells(next, q, r).0, p, t)
  {
    if s != [] {
      FrameList(next, p, t, s[|s| - 1], r.head);
    }
  }

  lemma ListsAfterAppend(m: Memory, k: Consumer, v: WP.Pipeline)
    requires Lists(m, k, v) && k.Reversing? && k.list == Null
    ensures k.newHead != Null
    ensures var (n, l) := AppendCells(m.next, m.local, CellQueue(k.newHead, k.newTail));
      Lists(m.(next := n, local := l), TakingLocal, WP.Dequeue(v, AppendBatch))
  {
    assert |Reverse(v.batch[..v.unreversed])| == v.unreversed;
    assert v.batch[v.unreversed..] == v.batch;
    var r := CellQueue(k.newHead, k.newTail);
    assert QueueOf(m.next, r, v.batch);
    var (n, l) := AppendCells(m.next, m.local, r);
    assert QueueOf(n, l, v.local + v.batch) by {
      Parts(v);
      AppendCellsJoins(m.next, m.local, v.local, r, v.batch);
    }
    AppendLeavesOthers(m, k, v, r);
    AppendKeepsAll(v);
  }

  lemma AppendKeepsAll(v: WP.Pipeline)
    ensures WP.Dequeue(v, AppendBatch).All() == v.All()
  {
    assert v.processing + v.local + v.batch == v.processing + (v.local + v.batch) + [];
  }

  lemma AppendLeavesOthers(m: Memory, k: Consumer, v: WP.Pipeline, r: CellQueue)
    requires Lists(m, k, v)
    ensures var n := AppendCells(m.next, m.local, r).0;
      && ListFrom(n, ItemOf(m.head), Reverse(v.fifo.items))
      && ListFrom(n, m.queue.head, v.processing)
  {
    Parts(v);
    forall x | x in v.local ensures x !in Reverse(v.fifo.items) { ReverseMembers(v.fifo.items, x); }
    AppendCellsFrame(m.next, m.local, v.local, r, ItemOf(m.head), Reverse(v.fifo.items));
    AppendCellsFrame(m.next, m.local, v.local, r, m.queue.head, v.processing);
  }

  lemma ListsAfterExchange(m: Memory, v: WP.Pipeline)
    requires Lists(m, Exchanging, v) && v.fifo.items != []
    ensures m.head.At?
    ensures Lists(m.(head := Null), Reversing(m.head, Null, m.head), WP.Dequeue(v, ExchangeHead))
  {
    var items := v.fifo.items;
    assert items[..|items|] == items;
    assert WP.Dequeue(v, ExchangeHead).All() == v.All();
  }

  lemma ListsAfterTryDeactivate(m: Memory, v: WP.Pipeline, k: Consumer)
    requires Lists(m, CasInactive, v) && v.fifo.active && !k.Reversing?
    ensures m.head == Null <==> v.fifo.items == []
    ensures Lists(m.(head := if m.head == Null then Inactive else m.head), k, WP.Dequeue(v, TryDeactivate))
  {
    assert |Reverse(v.fifo.items)| == |v.fifo.items|;
    assert WP.Dequeue(v, TryDeactivate).All() == v.All();
  }

  lemma ListsAfterTakeLocal(m: Memory, v: WP.Pipeline)
    requires Lists(m, TakingLocal, v) && v.processing == []
    ensures Lists(m.(queue := m.local, local := EMPTY_QUEUE), Processing, WP.Loop(v, TakeLocal))
  {
    assert WP.Loop(v, TakeLocal).All() == v.All();
  }

  /** `pop_front` on cells removes the first element. */
  lemma PopFrontCellsDrops(next: Cells, q: CellQueue, s: seq<Op>)
    requires QueueOf(next, q, s) && s != []
    ensures QueueOf(next, PopFrontCells(next, q), s[1..])
  {
    if |s| > 1 {
      assert s[1..] != [] && s[1..][|s| - 2] == s[|s| - 1];
    }
  }

  lemma ListsAfterPop(m: Memory, v: WP.Pipeline)
    requires Lists(m, Processing, v) && v.processing != []
    ensures m.queue.head == At(v.processing[0]) && v.processing[0] in m.next
    ensures Lists(m.(queue := PopFrontCells(m.next, m.queue)), Running(false), WP.Loop(v, PopFront))
    ensures v.All() == [v.processing[0]] + WP.Loop(v, PopFront).All()
    ensures v.processing[0] !in WP.Loop(v, PopFront).All()
  {
    var v' := WP.Loop(v, PopFront);
    assert v.processing == [v.processing[0]] + v'.processing;
    assert v.All() == [v.processing[0]] + v'.All();
    NoDupSplit([v.processing[0]], v'.All());
    PopFrontCellsDrops(m.next, m.queue, v.processing);
  }

  /** `push_back` on cells appends to the represented sequence. */
  lemma PushBackCellsAppends(next: Cells, q: CellQueue, s: seq<Op>, op: Op)
    requires QueueOf(next, q, s) && NoDup(s) && op !in s
    ensures QueueOf(PushBackCells(next, q, op).0, PushBackCells(next, q, op).1, s + [op])
  {
    FrameList(next, q.head, s, op, Null);
    var cleared := next[op := Null];
    if s == [] {
      assert s + [op] == [op];
    } else {
      assert s + [] == s;
      NoDupInsert(s, op, []);
      assert s + [op] + [] == s + [op];
      assert ListFrom(cleared, At(op), [op]);
      JoinLists(cleared, q.head, s, At(op), [op]);
    }
  }

  lemma PushBackCellsFrame(next: Cells, q: CellQueue, s: seq<Op>, op: Op, p: Ptr, t: seq<Op>)
    requires QueueOf(next, q, s) && ListFrom(next, p, t) && op !in t
    requires forall x :: x in s ==> x !in t
    ensures ListFrom(PushBackCells(next, q, op).0, p, t)
  {
    FrameList(next, p, t, op, Null);
    if s != [] {
      FrameList(next[op := Null], p, t, s[|s| - 1], At(op));
    }
  }

  lemma PushLeavesOthers(m: Memory, k: Consumer, v: WP.Pipeline, op: Op)
    requires Lists(m, k, v) && op !in v.All()
    ensures var (n, l) := PushBackCells(m.next, m.local, op);
      && QueueOf(n, l, v.local + [op])
      && ListFrom(n, ItemOf(m.head), Reverse(v.fifo.items))
      && ListFrom(n, m.queue.head, v.processing)
  {
    Parts(v);
    assert op !in v.local && op !in v.processing && op !in v.fifo.items;
    PushBackCellsAppends(m.next, m.local, v.local, op);
    PushBackCellsFrame(m.next, m.local, v.local, op, m.queue.head, v.processing);
    ReverseMembers(v.fifo.items, op);
    forall x | x in v.local ensures x !in Reverse(v.fifo.items) { ReverseMembers(v.fifo.items, x); }
    PushBackCellsFrame(m.next, m.local, v.local, op, ItemOf(m.head), Reverse(v.fifo.items));
  }

  lemma ListsAfterPushLocal(m: Memory, k: Consumer, v: WP.Pipeline, op: Op, prepaid: bool)
    requires Lists(m, k, v) && k.Running? && op !in v.All()
    ensures m.local.tail != Null ==> m.local.tail.At?
    ensures var (n, l) := PushBackCells(m.next, m.local, op);
      Lists(m.(next := n, local := l), k, WP.Handle(v, PushLocal(op, prepaid)))
  {
    PushLeavesOthers(m, k, v, op);
    PushMiddleKeepsNoDup(v.processing, v.local, v.batch, v.fifo.items, op);
  }

  lemma PushMiddleKeepsNoDup(a: seq<Op>, b: seq<Op>, c: seq<Op>, d: seq<Op>, op: Op)
    requires NoDup(a + b + c + d) && op !in a + b + c + d
    ensures NoDup(a + (b + [op]) + c + d)
  {
    assert a + b + c + d == (a + b) + (c + d);
    NoDupInsert(a + b, op, c + d);
    assert a + (b + [op]) + c + d == (a + b) + [op] + (c + d);
  }

  lemma ListsAfterThrow(m: Memory, k: Consumer, v: WP.Pipeline)
    requires Lists(m, k, v) && k.Running?
    ensures Lists(m.(queue := EMPTY_QUEUE), Outside, WP.Handle(v, Throw))
    ensures v.All() == v.processing + WP.Handle(v, Throw).All()
  {
    var v' := WP.Handle(v, Throw);
    assert v.All() == v.processing + v'.All();
    NoDupSplit(v.processing, v'.All());
  }

  // ---- wake-up token -------------------------------------------------------------------

  lemma SignallersRemove(producers: map<Pid, Producer>, p: Pid)
    ensures |Signallers(producers - {p})|
         == |Signallers(producers)| - if p in producers && producers[p].Signalling? then 1 else 0
  {
    assert Signallers(producers - {p}) == Signallers(producers) - {p};
  }

  lemma SignallersSet(producers: map<Pid, Producer>, p: Pid, x: Producer)
    ensures |Signallers(producers[p := x])|
         == |Signallers(producers - {p})| + if x.Signalling? then 1 else 0
  {
    assert Signallers(producers[p := x])
        == Signallers(producers - {p}) + (if x.Signalling? then {p} else {});
  }

  // ---- every step ----------------------------------------------------------------------

  lemma ProduceKeepsLists(c: State, v: WP.Pipeline, p: Pid, a: ProducerStep)
    requires Lists(c.mem, c.consumer, v) && Held(c, v) && CanProduce(c, p, a)
    ensures Lists(ApplyProduce(c, p, a).mem, c.consumer, WP.Produce(v, p, a))
  {
    if a.EnqueueLink? {
      FrameAll(c.mem, c.consumer, v, v.holding[p], ItemOf(c.producers[p].seen));
    } else if a.EnqueueCas? {
      CasPushes(c.mem, c.consumer, v, p, v.holding[p]);
    } else if a.StopMark? {
      StopMarkActivates(c.mem, c.consumer, v, p);
    }
  }

  lemma ProduceKeepsHeld(c: State, v: WP.Pipeline, p: Pid, a: ProducerStep)
    requires Held(c, v) && CanProduce(c, p, a)
    ensures Held(ApplyProduce(c, p, a), WP.Produce(v, p, a))
  {
    match a
    case Submit(op, prepaid) => SubmitKeepsHeld(c, v, p, op, prepaid);
    case EnqueueLoad => LoadKeepsHeld(c, v, p, a);
    case EnqueueLink => LinkKeepsHeld(c, v, p);
    case EnqueueCas => CasKeepsHeld(c, v, p);
    case EnqueueRetry => LoadKeepsHeld(c, v, p, a);
    case Signal => SignalKeepsHeld(c, v, p);
    case StopExchange => StopExchangeKeepsHeld(c, v, p);
    case StopMark => StopMarkKeepsHeld(c, v, p);
    case GuardEnd => GuardEndKeepsHeld(c, v, p);
  }

  /** One producer went on without changing what it holds, and no link was written. */
  lemma HeldAfterMove(c: State, v: WP.Pipeline, c': State, v': WP.Pipeline, p: Pid)
    requires Held(c, v) && c'.live == c.live && c'.mem.next == c.mem.next
    requires v'.holding == v.holding && v'.All() == v.All()
    requires forall q :: q != p ==>
      (q in c'.producers <==> q in c.producers) && (q in c.producers ==> c'.producers[q] == c.producers[q])
    requires p in c'.producers ==> !c'.producers[p].Linked?
    requires HeldOp(c', p) == HeldOp(c, p)
    ensures Held(c', v')
  {
  }

  function HeldOp(c: State, p: Pid): Ptr {
    if p in c.producers && c.producers[p].HoldsOp() then At(c.producers[p].op) else Null
  }

  /** Loading `head`, or reloading it after a failed CAS. */
  lemma LoadKeepsHeld(c: State, v: WP.Pipeline, p: Pid, a: ProducerStep)
    requires Held(c, v) && CanProduce(c, p, a) && (a.EnqueueLoad? || a.EnqueueRetry?)
    ensures Held(ApplyProduce(c, p, a), v)
  {
    HeldAfterMove(c, v, ApplyProduce(c, p, a), v, p);
  }

  lemma SignalKeepsHeld(c: State, v: WP.Pipeline, p: Pid)
    requires Held(c, v) && CanProduce(c, p, Signal)
    ensures Held(ApplyProduce(c, p, Signal), v)
  {
    HeldAfterMove(c, v, ApplyProduce(c, p, Signal), v, p);
  }

  lemma StopExchangeKeepsHeld(c: State, v: WP.Pipeline, p: Pid)
    requires Held(c, v) && CanProduce(c, p, StopExchange)
    ensures Held(ApplyProduce(c, p, StopExchange), v)
  {
    HeldAfterMove(c, v, ApplyProduce(c, p, StopExchange), v, p);
  }

  lemma StopMarkKeepsHeld(c: State, v: WP.Pipeline, p: Pid)
    requires Held(c, v) && CanProduce(c, p, StopMark)
    ensures Held(ApplyProduce(c, p, StopMark), WP.Produce(v, p, StopMark))
  {
    assert WP.Produce(v, p, StopMark).All() == v.All();
    HeldAfterMove(c, v, ApplyProduce(c, p, StopMark), WP.Produce(v, p, StopMark), p);
  }

  lemma GuardEndKeepsHeld(c: State, v: WP.Pipeline, p: Pid)
    requires Held(c, v) && CanProduce(c, p, GuardEnd)
    ensures Held(ApplyProduce(c, p, GuardEnd), v)
  {
    HeldAfterMove(c, v, ApplyProduce(c, p, GuardEnd), v, p);
  }

  lemma LinkKeepsHeld(c: State, v: WP.Pipeline, p: Pid)
    requires Held(c, v) && CanProduce(c, p, EnqueueLink)
    ensures Held(ApplyProduce(c, p, EnqueueLink), v)
  {
  }

  lemma SubmitKeepsHeld(c: State, v: WP.Pipeline, p: Pid, op: Op, prepaid: bool)
    requires Held(c, v) && CanProduce(c, p, Submit(op, prepaid))
    ensures Held(ApplyProduce(c, p, Submit(op, prepaid)), WP.Produce(v, p, Submit(op, prepaid)))
  {
    assert WP.Produce(v, p, Submit(op, prepaid)).All() == v.All();
  }

  lemma CasKeepsHeld(c: State, v: WP.Pipeline, p: Pid)
    requires Held(c, v) && CanProduce(c, p, EnqueueCas)
    ensures Held(ApplyProduce(c, p, EnqueueCas), WP.Produce(v, p, EnqueueCas))
  {
    var v' := WP.Produce(v, p, EnqueueCas);
    assert v'.All() == v.All() + [v.holding[p]];
    assert forall op :: op in v'.All() <==> op in v.All() || op == v.holding[p];
  }

  lemma ProduceKeepsStage(c: State, v: WP.Pipeline, p: Pid, a: ProducerStep)
    requires Stage(c, v) && CanProduce(c, p, a)
    ensures Stage(ApplyProduce(c, p, a), WP.Produce(v, p, a))
  {
  }

  lemma ProduceKeepsLog(c: State, v: WP.Pipeline, p: Pid, a: ProducerStep)
    requires Held(c, v) && c.log == v.log && CanProduce(c, p, a)
    requires v.fifo.active <==> c.mem.head != Inactive
    ensures ApplyProduce(c, p, a).log == WP.Produce(v, p, a).log
  {
  }

  lemma ProduceKeepsToken(c: State, p: Pid, a: ProducerStep)
    requires Token(c) && CanProduce(c, p, a)
    ensures Token(ApplyProduce(c, p, a))
  {
    var c' := ApplyProduce(c, p, a);
    SignallersRemove(c.producers, p);
    if p in c'.producers {
      SignallersSet(c.producers, p, c'.producers[p]);
    } else {
      assert c'.producers == c.producers - {p};
    }
  }

  lemma ProduceRefines(c: State, v: WP.Pipeline, p: Pid, a: ProducerStep)
    requires Refines(c, v) && CanProduce(c, p, a)
    ensures Refines(ApplyProduce(c, p, a), WP.Produce(v, p, a))
  {
    ProduceKeepsLists(c, v, p, a);
    ProduceKeepsHeld(c, v, p, a);
    ProduceKeepsStage(c, v, p, a);
    ProduceKeepsToken(c, p, a);
    ProduceKeepsLog(c, v, p, a);
  }

  lemma DequeueKeepsLists(c: State, v: WP.Pipeline, a: DequeueStep)
    requires Lists(c.mem, c.consumer, v) && Stage(c, v) && Token(c) && CanDequeue(c, a)
    ensures Lists(ApplyDequeue(c, a).mem, ApplyDequeue(c, a).consumer, WP.Dequeue(v, a))
    ensures a == TryDeactivate ==> (c.mem.head == Null <==> v.fifo.items == [])
    ensures a == AppendBatch ==> c.consumer.newHead != Null
  {
    match a
    case LoadHead =>
    case TryDeactivate => ListsAfterTryDeactivate(c.mem, v, ApplyDequeue(c, a).consumer);
    case ExchangeHead => ListsAfterExchange(c.mem, v);
    case ReverseOne => ListsAfterReverseOne(c.mem, c.consumer, v);
    case AppendBatch => ListsAfterAppend(c.mem, c.consumer, v);
  }

  /** Only links of queued operations were written. */
  lemma HeldFrame(c: State, v: WP.Pipeline, c': State, v': WP.Pipeline)
    requires Held(c, v) && c'.live == c.live && c'.producers == c.producers
    requires v'.holding == v.holding && v'.All() == v.All()
    requires forall op :: op in c.mem.next && op !in v.All() ==> op in c'.mem.next && c'.mem.next[op] == c.mem.next[op]
    ensures Held(c', v')
  {
  }

  /** The operations queued, and the links of those still held, are as before. */
  lemma DequeueKeepsHeld(c: State, v: WP.Pipeline, a: DequeueStep)
    requires Lists(c.mem, c.consumer, v) && Stage(c, v) && Held(c, v) && CanDequeue(c, a)
    ensures Held(ApplyDequeue(c, a), WP.Dequeue(v, a))
  {
    if a == AppendBatch {
      AppendKeepsAll(v);
    } else if a == ReverseOne {
      Parts(v);
      BatchAfterReverseOne(c.mem, c.consumer, v);
    }
    assert WP.Dequeue(v, a).All() == v.All();
    HeldFrame(c, v, ApplyDequeue(c, a), WP.Dequeue(v, a));
  }

  lemma DequeueRefines(c: State, v: WP.Pipeline, a: DequeueStep)
    requires Refines(c, v) && CanDequeue(c, a)
    ensures Refines(ApplyDequeue(c, a), WP.Dequeue(v, a))
  {
    DequeueKeepsLists(c, v, a);
    DequeueKeepsHeld(c, v, a);
    if a == LoadHead {
      assert |Reverse(v.fifo.items)| == |v.fifo.items|;
    }
  }

  lemma HandleRefines(c: State, v: WP.Pipeline, a: HandlerStep)
    requires Refines(c, v) && CanHandle(c, a)
    ensures Refines(ApplyHandle(c, a), WP.Handle(v, a))
  {
    if a.PushLocal? {
      ListsAfterPushLocal(c.mem, c.consumer, v, a.op, a.prepaid);
    } else if a.Throw? {
      ListsAfterThrow(c.mem, c.consumer, v);
    }
  }

  lemma TakeLocalRefines(c: State, v: WP.Pipeline)
    requires Refines(c, v) && CanLoop(c, TakeLocal)
    ensures Refines(ApplyLoop(c, TakeLocal), WP.Loop(v, TakeLocal))
  {
    ListsAfterTakeLocal(c.mem, v);
    assert WP.Loop(v, TakeLocal).All() == v.All();
  }

  lemma PopFrontRefines(c: State, v: WP.Pipeline)
    requires Refines(c, v) && CanLoop(c, PopFront)
    ensures Refines(ApplyLoop(c, PopFront), WP.Loop(v, PopFront))
  {
    if v.processing != [] {
      ListsAfterPop(c.mem, v);
      var v' := WP.Loop(v, PopFront);
      assert forall op :: op in v'.All() ==> op in v.All();
    }
  }

  /** The other steps of the loop move neither lists nor operations. */
  lemma PollRefines(c: State, v: WP.Pipeline, a: LoopStep)
    requires Refines(c, v) && CanLoop(c, a) && a != TakeLocal && a != PopFront
    ensures Refines(ApplyLoop(c, a), v)
  {
    PollKeepsStage(c, v, a);
    PollKeepsToken(c, a);
    HeldFrame(c, v, ApplyLoop(c, a), v);
  }

  lemma PollKeepsStage(c: State, v: WP.Pipeline, a: LoopStep)
    requires Stage(c, v) && QueueOf(c.mem.next, c.mem.local, v.local) && QueueOf(c.mem.next, c.mem.queue, v.processing)
    requires CanLoop(c, a) && a != TakeLocal && a != PopFront
    ensures Stage(ApplyLoop(c, a), v)
  {
  }

  lemma PollKeepsToken(c: State, a: LoopStep)
    requires Token(c) && CanLoop(c, a) && a != TakeLocal && a != PopFront
    ensures Token(ApplyLoop(c, a))
    ensures var c' := ApplyLoop(c, a);
      && c'.mem == c.mem && c'.live == c.live && c'.producers == c.producers && c'.log == c.log
      && c'.consumer.Reversing? == c.consumer.Reversing?
  {
  }

  lemma LoopRefines(c: State, v: WP.Pipeline, a: LoopStep)
    requires Refines(c, v) && CanLoop(c, a)
    ensures Refines(ApplyLoop(c, a), WP.Loop(v, a))
  {
    if a == TakeLocal {
      TakeLocalRefines(c, v);
    } else if a == PopFront {
      PopFrontRefines(c, v);
    } else {
      PollRefines(c, v, a);
    }
  }

  lemma AmbientRefines(c: State, v: WP.Pipeline, a: AmbientStep)
    requires Refines(c, v)
    ensures Refines(ApplyAmbient(c, a), v)
  {
  }

  /** Refinement: every step of the pointer machine, by any thread and with any outcome of its
      CAS, is the same step of the abstract pipeline, with the same visible effects. */
  lemma StepRefines(c: State, v: WP.Pipeline, s: Step)
    requires Refines(c, v) && Enabled(c, s)
    ensures Refines(Apply(c, s), WP.Step(v, s))
  {
    match s
    case Produce(p, a) => ProduceRefines(c, v, p, a);
    case Dequeue(a) => DequeueRefines(c, v, a);
    case Handle(a) => HandleRefines(c, v, a);
    case Loop(a) => LoopRefines(c, v, a);
    case Ambient(a) => AmbientRefines(c, v, a);
  }

  lemma {:induction false} RunRefines(c: State, v: WP.Pipeline, steps: seq<Step>)
    requires Refines(c, v) && CanRun(c, steps)
    ensures Refines(After(c, steps), WP.Run(v, steps))
    decreases |steps|
  {
    if steps != [] {
      StepRefines(c, v, steps[0]);
      RunRefines(Apply(c, steps[0]), WP.Step(v, steps[0]), steps[1..]);
    }
  }
}
