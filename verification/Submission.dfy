/** Submitting an operation to the context, completing it, and what either leaves behind. */
module Submission {
  import opened Ownership

  /** The operations the context will complete: queue entries and completion-queue tags. */
  class Context {
    const counter: WorkCounter
    const memory: Memory
    var pending: set<nat>
    var handled: seq<nat>

    constructor (counter: WorkCounter, memory: Memory)
      ensures this.counter == counter && this.memory == memory && pending == {} && handled == []
    {
      this.counter := counter;
      this.memory := memory;
      pending, handled := {}, [];
    }

    /** Every pending operation is still allocated. */
    ghost predicate Valid()
      reads this, memory
    {
      memory.Valid() && pending <= memory.live
    }

    /** `default_do_complete` followed by the loop's `work_finished`: the handler is moved out and
        the operation freed before the handler runs, and it runs iff that was asked for. */
    method Complete(op: nat, invoke: bool) returns (liveAtHandler: set<nat>)
      requires Valid() && op in pending
      modifies this`pending, this`handled, counter, memory
      ensures Valid() && pending == old(pending) - {op}
      ensures memory.live == old(memory.live) - {op} && memory.next == old(memory.next)
      ensures memory.freed == old(memory.freed) + [op]
      ensures counter.work == old(counter.work) - 1
      ensures handled == old(handled) + if invoke then [op] else []
      ensures op !in liveAtHandler && liveAtHandler <= old(memory.live)
      decreases 1
    {
      var _, atHandler := CompleteWith(op, invoke, FreeFirst, false);
      liveAtHandler := atHandler;
    }

    /** Completion with a handler that may submit the next operation of a chain. `order` says whether
        the operation is freed before the handler runs, as the source does, or after it. */
    method CompleteWith(op: nat, invoke: bool, order: FreeOrder, submits: bool)
      returns (next: nat, liveAtHandler: set<nat>)
      requires Valid() && op in pending
      modifies this`pending, this`handled, counter, memory
      ensures Valid()
      ensures memory.freed == old(memory.freed) + [op]
      ensures handled == old(handled) + if invoke then [op] else []
      ensures invoke && submits ==>
        && next !in old(memory.live) && next != op
        && pending == old(pending) - {op} + {next} && memory.live == old(memory.live) - {op} + {next}
        && counter.work == old(counter.work)
        && liveAtHandler == (if order == FreeFirst then old(memory.live) - {op} else old(memory.live)) + {next}
      ensures !(invoke && submits) ==>
        && pending == old(pending) - {op} && memory.live == old(memory.live) - {op}
        && memory.next == old(memory.next) && counter.work == old(counter.work) - 1
        && liveAtHandler <= old(memory.live) && (order == FreeFirst ==> op !in liveAtHandler)
      decreases if submits then 6 else 0
    {
      pending := pending - {op};
      var onExit := new WorkGuard(counter);
      var ptr := new AllocatedPointer(To(op), memory);
      liveAtHandler, next := {}, 0;
      if invoke {
        if order == FreeFirst {
          ptr.Reset();
        }
        handled := handled + [op];
        if submits {
          var _, o := AllocateOperationAndInvoke(this, Allocates, true, Later, true);
          next := o;
        }
        liveAtHandler := memory.live;
        if order == FreeLast {
          ptr.Reset();
        }
      }
      ptr.Destroy();
      onExit.Destroy();
    }
  }

  datatype FreeOrder = FreeFirst | FreeLast

  /** When, relative to the submitter's own steps, the consumer completes the new operation. */
  datatype Turn = Later | BeforeRelease | AfterRelease | AfterGuard

  /** `allocate_operation_and_invoke`, with an exception or not at each throwing point and the
      consumer free to complete the operation as soon as it is published. */
  method AllocateOperationAndInvoke(context: Context, outcome: Allocation, initiates: bool, turn: Turn, invoke: bool)
    returns (threw: bool, op: nat)
    requires context.Valid()
    modifies context`pending, context`handled, context.counter, context.memory
    ensures context.Valid()
    ensures threw <==> outcome != Allocates || !initiates
    ensures context.memory.next == old(context.memory.next) + if outcome == AllocationThrows then 0 else 1
    ensures !threw ==> op == old(context.memory.next)
    ensures outcome == AllocationThrows ==> context.memory.freed == old(context.memory.freed)
    ensures threw && outcome != AllocationThrows ==>
      context.memory.freed == old(context.memory.freed) + [old(context.memory.next)]
    ensures threw || turn != Later ==>
      && context.counter.work == old(context.counter.work)
      && context.memory.live == old(context.memory.live)
      && context.pending == old(context.pending)
    ensures !threw && turn == Later ==>
      && context.counter.work == old(context.counter.work) + 1
      && context.memory.live == old(context.memory.live) + {op} && op !in old(context.memory.live)
      && context.pending == old(context.pending) + {op}
    ensures !threw && turn != Later ==>
      context.memory.freed == old(context.memory.freed) + [op] && op !in old(context.memory.freed)
    ensures !threw && turn == Later ==> context.memory.freed == old(context.memory.freed)
    ensures context.handled == old(context.handled) + if !threw && turn != Later && invoke then [op] else []
    decreases 4
  {
    op := 0;
    context.counter.Started();
    var onExit := new WorkGuard(context.counter);
    var operation := AllocateObject(context.memory, outcome);
    if operation == null {
      onExit.Destroy();
      return true, op;
    }
    if !initiates {
      operation.Destroy();
      onExit.Destroy();
      return true, op;
    }
    op := operation.ptr.block;
    PublishAndRelease(context, operation, onExit, turn, invoke);
    return false, op;
  }

  /** The tail of the function: the operation is handed to the context, then both guards are
      released. Releasing and destroying them touches only the guards, never the operation. */
  method PublishAndRelease(context: Context, operation: AllocatedPointer, onExit: WorkGuard, turn: Turn, invoke: bool)
    requires context.Valid() && operation.memory == context.memory && onExit.counter == context.counter
    requires operation.ptr.To? && operation.ptr.block in context.memory.live - context.pending
    requires onExit.isArmed
    modifies context`pending, context`handled, context.counter, context.memory, operation, onExit
    ensures context.Valid() && context.memory.next == old(context.memory.next)
    ensures var op := old(operation.ptr.block);
      if turn == Later then
        && context.counter.work == old(context.counter.work)
        && context.memory.live == old(context.memory.live) && context.memory.freed == old(context.memory.freed)
        && context.pending == old(context.pending) + {op} && context.handled == old(context.handled)
      else
        && context.counter.work == old(context.counter.work) - 1
        && context.memory.live == old(context.memory.live) - {op}
        && context.memory.freed == old(context.memory.freed) + [op]
        && context.pending == old(context.pending)
        && context.handled == old(context.handled) + if invoke then [op] else []
    decreases 3
  {
    var op := operation.ptr.block;
    context.pending := context.pending + {op};
    assert context.pending - {op} == old(context.pending);
    ConsumerTurn(context, op, turn == BeforeRelease, invoke);
    operation.Release();
    ConsumerTurn(context, op, turn == AfterRelease, invoke);
    onExit.Release();
    ConsumerTurn(context, op, turn == AfterGuard, invoke);
    operation.Destroy();
    onExit.Destroy();
  }

  /** The consumer completes `op` here, or not. */
  method ConsumerTurn(context: Context, op: nat, now: bool, invoke: bool)
    requires context.Valid() && (now ==> op in context.pending)
    modifies context`pending, context`handled, context.counter, context.memory
    ensures context.Valid() && context.memory.next == old(context.memory.next)
    ensures !now ==>
      && context.pending == old(context.pending) && context.handled == old(context.handled)
      && context.memory.live == old(context.memory.live) && context.memory.freed == old(context.memory.freed)
      && context.counter.work == old(context.counter.work)
    ensures now ==>
      && context.pending == old(context.pending) - {op}
      && context.handled == old(context.handled) + (if invoke then [op] else [])
      && context.memory.live == old(context.memory.live) - {op}
      && context.memory.freed == old(context.memory.freed) + [op]
      && context.counter.work == old(context.counter.work) - 1
    decreases 2
  {
    if now {
      var _ := context.Complete(op, invoke);
    }
  }

  /** The storage behind a `OneShotAllocator`: it is handed out without looking whether an object
      still lives there, and deallocation does nothing, so only an object's destructor vacates it. */
  class OneShotBuffer {
    var live: nat                   // objects alive in the storage
    var peak: nat                   // most objects ever alive there at once
    var constructed: nat

    constructor ()
      ensures live == 0 && peak == 0 && constructed == 0
    {
      live, peak, constructed := 0, 0, 0;
    }

    method Construct()
      modifies this
      ensures live == old(live) + 1 && constructed == old(constructed) + 1
      ensures peak == if old(peak) < live then live else old(peak)
    {
      live, constructed := live + 1, constructed + 1;
      if peak < live {
        peak := live;
      }
    }

    method DestroyObject()
      requires live > 0
      modifies this`live
      ensures live == old(live) - 1
    {
      live := live - 1;
    }
  }

  function Larger(a: nat, b: nat): nat {
    if a < b then b else a
  }

  /** A chain of `links` handlers, each submitting the next operation from inside its own completion,
      where all operations live in one buffer: `context.memory` is that buffer, its blocks the objects
      successively placed in it. With completion freeing first, no submission ever finds an operation
      alive in the buffer; freeing after the handler, the second submission would. Either way every
      operation is handled and freed once, in order. */
  method RunHandlerChain(context: Context, links: nat, order: FreeOrder)
    returns (peak: nat, ghost done: seq<nat>)
    requires context.Valid() && context.memory.live == {} && context.pending == {}
    modifies context`pending, context`handled, context.counter, context.memory
    ensures context.Valid() && context.memory.live == {} && context.pending == {}
    ensures context.counter.work == old(context.counter.work)
    ensures |done| == links && context.handled == old(context.handled) + done
    ensures context.memory.freed == old(context.memory.freed) + done
    ensures order == FreeFirst ==> peak == if links == 0 then 0 else 1
    ensures order == FreeLast ==> peak == if links < 2 then links else 2
  {
    peak, done := 0, [];
    if links == 0 {
      return;
    }
    var _, op := AllocateOperationAndInvoke(context, Allocates, true, Later, true);
    peak := |context.memory.live|;
    for i := 1 to links
      invariant context.Valid() && context.memory.live == {op} && context.pending == {op}
      invariant context.counter.work == old(context.counter.work) + 1
      invariant |done| == i - 1
      invariant context.handled == old(context.handled) + done
      invariant context.memory.freed == old(context.memory.freed) + done
      invariant peak == if order == FreeLast && i > 1 then 2 else 1
    {
      var next, atHandler := context.CompleteWith(op, true, order, true);
      peak := Larger(peak, |atHandler|);
      done := done + [op];
      op := next;
    }
    var _, _ := context.CompleteWith(op, true, order, false);
    done := done + [op];
  }

  /** A submission with one of its outcomes, or the completion of a pending operation. */
  datatype Action =
    | Submit(outcome: Allocation, initiates: bool, turn: Turn, invoke: bool)
    | Finish(op: nat, invoke: bool)

  /** What has become of the operations so far. */
  datatype Book = Book(next: nat, pending: set<nat>, freed: seq<nat>, handled: seq<nat>)

  /** The submission leaves an operation pending. */
  predicate Leaves(a: Action) {
    a.Submit? && a.outcome == Allocates && a.initiates && a.turn == Later
  }

  function Posted(b: Book, a: Action): Book {
    if a.Finish? then
      if a.op !in b.pending then b
      else b.(pending := b.pending - {a.op}, freed := b.freed + [a.op],
              handled := b.handled + if a.invoke then [a.op] else [])
    else if a.outcome == AllocationThrows then b
    else if Leaves(a) then b.(next := b.next + 1, pending := b.pending + {b.next})
    else b.(next := b.next + 1, freed := b.freed + [b.next],
            handled := b.handled + if a.outcome == Allocates && a.initiates && a.invoke then [b.next] else [])
  }

  function PostedAll(b: Book, script: seq<Action>): Book
    decreases |script|
  {
    if script == [] then b else PostedAll(Posted(b, script[0]), script[1..])
  }

  ghost function BookOf(context: Context): Book
    reads context, context.memory
  {
    Book(context.memory.next, context.pending, context.memory.freed, context.handled)
  }

  /** The ledger: what is allocated is what is pending, and each pending operation is one unit of work
      above the base. */
  ghost predicate Balanced(context: Context, base: int)
    reads context, context.memory, context.counter
  {
    && context.Valid() && context.memory.live == context.pending
    && context.counter.work == base + |context.pending|
  }

  method Act(context: Context, a: Action, ghost base: int)
    requires Balanced(context, base)
    modifies context`pending, context`handled, context.counter, context.memory
    ensures Balanced(context, base) && BookOf(context) == Posted(old(BookOf(context)), a)
  {
    if a.Submit? {
      var _, _ := AllocateOperationAndInvoke(context, a.outcome, a.initiates, a.turn, a.invoke);
    } else if a.op in context.pending {
      var _ := context.Complete(a.op, a.invoke);
    }
  }

  /** Any script of submissions, throwing or not, and completions, in any order, keeps the ledger and
      leaves the operations where the book says. */
  method RunLedger(context: Context, script: seq<Action>, ghost base: int)
    requires Balanced(context, base)
    modifies context`pending, context`handled, context.counter, context.memory
    ensures Balanced(context, base) && BookOf(context) == PostedAll(old(BookOf(context)), script)
  {
    for i := 0 to |script|
      invariant Balanced(context, base)
      invariant PostedAll(BookOf(context), script[i..]) == PostedAll(old(BookOf(context)), script)
    {
      assert script[i..][0] == script[i] && script[i..][1..] == script[i + 1..];
      Act(context, script[i], base);
    }
  }

  function Left(script: seq<Action>): nat
    decreases |script|
  {
    if script == [] then 0 else (if Leaves(script[0]) then 1 else 0) + Left(script[1..])
  }

  function Finished(b: Book, script: seq<Action>): nat
    decreases |script|
  {
    if script == [] then 0
    else (if script[0].Finish? && script[0].op in b.pending then 1 else 0) + Finished(Posted(b, script[0]), script[1..])
  }

  /** Every operation left pending is finished or still pending, and nothing else is. */
  lemma {:induction false} BooksBalance(b: Book, script: seq<Action>)
    requires forall op :: op in b.pending ==> op < b.next
    ensures |PostedAll(b, script).pending| + Finished(b, script) == |b.pending| + Left(script)
    decreases |script|
  {
    if script != [] {
      BooksBalance(Posted(b, script[0]), script[1..]);
    }
  }
}
