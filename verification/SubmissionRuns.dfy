/** Any number of threads inside `allocate_operation_and_invoke` at once, with a consumer completing
    what they publish: where every block and every unit of work is. */
module SubmissionRuns {
  import opened Sequences

  type Tid = nat

  /** How far a submitting thread has come. */
  datatype Submitter =
    | Counted                       // work counted, `on_exit` armed
    | Allocated(op: nat)            // the operation exists, owned by the local pointer
    | Published                     // handed to the context, pointer and guard to be released
    | Released                      // pointer released, guard to be released
  {
    /** The thread still owes the unit of work it counted. */
    predicate HoldsUnit() { Counted? || Allocated? }
  }

  datatype State = State(
    threads: map<Tid, Submitter>,
    next: nat,                      // operations allocated so far
    pending: set<nat>,              // queue entries and tags
    freed: seq<nat>,
    handled: seq<nat>,
    work: int)

  datatype Step =
    | Count(t: Tid)
    | AllocationThrows(t: Tid)
    | ConstructorThrows(t: Tid)
    | Allocate(t: Tid)
    | InitiationThrows(t: Tid)
    | Publish(t: Tid)
    | ReleasePointer(t: Tid)
    | ReleaseGuard(t: Tid)
    | Complete(op: nat, invoke: bool)

  predicate Enabled(s: State, e: Step) {
    match e
    case Count(t) => t !in s.threads
    case AllocationThrows(t) => t in s.threads && s.threads[t].Counted?
    case ConstructorThrows(t) => t in s.threads && s.threads[t].Counted?
    case Allocate(t) => t in s.threads && s.threads[t].Counted?
    case InitiationThrows(t) => t in s.threads && s.threads[t].Allocated?
    case Publish(t) => t in s.threads && s.threads[t].Allocated?
    case ReleasePointer(t) => t in s.threads && s.threads[t].Published?
    case ReleaseGuard(t) => t in s.threads && s.threads[t].Released?
    case Complete(op, _) => op in s.pending
  }

  function Apply(s: State, e: Step): State
    requires Enabled(s, e)
  {
    match e
    case Count(t) => s.(threads := s.threads[t := Counted], work := s.work + 1)
    case AllocationThrows(t) => s.(threads := s.threads - {t}, work := s.work - 1)
    case ConstructorThrows(t) =>
      s.(threads := s.threads - {t}, work := s.work - 1, next := s.next + 1, freed := s.freed + [s.next])
    case Allocate(t) => s.(threads := s.threads[t := Allocated(s.next)], next := s.next + 1)
    case InitiationThrows(t) =>
      s.(threads := s.threads - {t}, work := s.work - 1, freed := s.freed + [s.threads[t].op])
    case Publish(t) =>
      s.(threads := s.threads[t := Published], pending := s.pending + {s.threads[t].op})
    case ReleasePointer(t) => s.(threads := s.threads[t := Released])
    case ReleaseGuard(t) => s.(threads := s.threads - {t})
    case Complete(op, invoke) =>
      s.(pending := s.pending - {op}, freed := s.freed + [op], work := s.work - 1,
         handled := s.handled + if invoke then [op] else [])
  }

  predicate CanRun(s: State, steps: seq<Step>)
    decreases |steps|
  {
    steps == [] || (Enabled(s, steps[0]) && CanRun(Apply(s, steps[0]), steps[1..]))
  }

  function After(s: State, steps: seq<Step>): State
    requires CanRun(s, steps)
    decreases |steps|
  {
    if steps == [] then s else After(Apply(s, steps[0]), steps[1..])
  }

  // ---- work ----------------------------------------------------------------------------

  ghost function Owing(threads: map<Tid, Submitter>): set<Tid> {
    set t | t in threads && threads[t].HoldsUnit()
  }

  ghost predicate WorkCounted(s: State, base: int) {
    s.work == base + |Owing(s.threads)| + |s.pending|
  }

  function Unit(threads: map<Tid, Submitter>, t: Tid): nat {
    if t in threads && threads[t].HoldsUnit() then 1 else 0
  }

  lemma OwingLeft(threads: map<Tid, Submitter>, t: Tid)
    ensures |Owing(threads - {t})| == |Owing(threads)| - Unit(threads, t)
  {
    assert Owing(threads - {t}) == Owing(threads) - {t};
  }

  lemma OwingMoved(threads: map<Tid, Submitter>, t: Tid, x: Submitter)
    ensures |Owing(threads[t := x])| == |Owing(threads)| - Unit(threads, t) + if x.HoldsUnit() then 1 else 0
  {
    OwingLeft(threads, t);
    assert Owing(threads[t := x]) == Owing(threads - {t}) + if x.HoldsUnit() then {t} else {};
  }

  /** Units move between threads, operations and nowhere else. */
  lemma StepKeepsWork(s: State, e: Step, base: int)
    requires WorkCounted(s, base) && Enabled(s, e)
    requires e.Publish? ==> s.threads[e.t].op !in s.pending
    ensures WorkCounted(Apply(s, e), base)
  {
    if !e.Complete? {
      OwingLeft(s.threads, e.t);
      OwingMoved(s.threads, e.t, if e.t in Apply(s, e).threads then Apply(s, e).threads[e.t] else Released);
    }
  }

  // ---- memory --------------------------------------------------------------------------

  /** Operations owned by a submitting thread are owned by it alone, and nothing is in two places. */
  ghost predicate Placed(s: State) {
    && (forall t :: t in s.threads && s.threads[t].Allocated? ==>
          s.threads[t].op < s.next && s.threads[t].op !in s.pending && s.threads[t].op !in s.freed)
    && (forall t, u :: t in s.threads && u in s.threads && t != u && s.threads[t].Allocated? && s.threads[u].Allocated?
          ==> s.threads[t].op != s.threads[u].op)
    && (forall op :: op in s.pending ==> op < s.next && op !in s.freed)
    && (forall op :: op in s.freed ==> op < s.next)
    && NoDup(s.freed)
  }

  /** Every operation allocated is owned by a thread, pending, or freed. */
  ghost predicate Accounted(s: State) {
    forall op :: 0 <= op < s.next ==>
      op in s.pending || op in s.freed || exists t :: t in s.threads && s.threads[t] == Allocated(op)
  }

  lemma FreedOnceMore(freed: seq<nat>, op: nat)
    requires NoDup(freed) && op !in freed
    ensures NoDup(freed + [op])
  {
  }

  lemma StepKeepsPlaced(s: State, e: Step)
    requires Placed(s) && Enabled(s, e)
    ensures Placed(Apply(s, e))
  {
    if e.ConstructorThrows? {
      FreedOnceMore(s.freed, s.next);
    } else if e.InitiationThrows? {
      FreedOnceMore(s.freed, s.threads[e.t].op);
    } else if e.Complete? {
      FreedOnceMore(s.freed, e.op);
    }
  }

  lemma StepKeepsAccounted(s: State, e: Step)
    requires Accounted(s) && Enabled(s, e)
    ensures Accounted(Apply(s, e))
  {
    var s' := Apply(s, e);
    forall op | 0 <= op < s'.next
      ensures op in s'.pending || op in s'.freed || exists t :: t in s'.threads && s'.threads[t] == Allocated(op)
    {
      if op == s.next {
        if e.Allocate? {
          assert s'.threads[e.t] == Allocated(op);
        }
      } else if op !in s.pending && op !in s.freed {
        var t :| t in s.threads && s.threads[t] == Allocated(op);
        assert (t in s'.threads && s'.threads[t] == Allocated(op)) || op in s'.pending || op in s'.freed;
      }
    }
  }

  lemma {:induction false} RunKeepsLedger(s: State, steps: seq<Step>, base: int)
    requires CanRun(s, steps) && WorkCounted(s, base) && Placed(s) && Accounted(s)
    ensures WorkCounted(After(s, steps), base) && Placed(After(s, steps)) && Accounted(After(s, steps))
    decreases |steps|
  {
    if steps != [] {
      StepKeepsWork(s, steps[0], base);
      StepKeepsPlaced(s, steps[0]);
      StepKeepsAccounted(s, steps[0]);
      RunKeepsLedger(Apply(s, steps[0]), steps[1..], base);
    }
  }

  /** The ledger, over every interleaving of any number of submissions, throwing or not, with
      completions, a completion before its submitter has returned included: the work is the base plus
      one unit per pending operation and per thread that has not yet published, and every operation
      ever allocated is owned by one thread, pending, or freed, exactly one of these, and freed once.
      With no thread inside, what is not freed is pending, and nothing else is counted. */
  lemma Ledger(base: int, steps: seq<Step>)
    requires CanRun(State(map[], 0, {}, [], [], base), steps)
    ensures var s := After(State(map[], 0, {}, [], [], base), steps);
      && s.work == base + |Owing(s.threads)| + |s.pending|
      && Placed(s) && Accounted(s)
      && (s.threads == map[] ==>
            && s.work == base + |s.pending|
            && forall op :: 0 <= op < s.next ==> (op in s.pending <==> op !in s.freed))
  {
    var s0 := State(map[], 0, {}, [], [], base);
    assert Owing(s0.threads) == {};
    RunKeepsLedger(s0, steps, base);
    var s := After(s0, steps);
    if s.threads == map[] {
      assert Owing(s.threads) == {};
    }
  }

  // ---- what a run did, told from its steps ----------------------------------------------

  /** How many steps of the run satisfy `counts`. */
  function Tally(steps: seq<Step>, counts: Step -> bool): nat
    decreases |steps|
  {
    if steps == [] then 0 else AsNat(counts(steps[0])) + Tally(steps[1..], counts)
  }

  /** The operations completed with their handler called, in order. */
  function Invoked(steps: seq<Step>): seq<nat>
    decreases |steps|
  {
    if steps == [] then []
    else InvokedBy(steps[0]) + Invoked(steps[1..])
  }

  function InvokedBy(e: Step): seq<nat> {
    if e.Complete? && e.invoke then [e.op] else []
  }

  lemma Regroup(a: seq<nat>, b: seq<nat>, c: seq<nat>)
    ensures a + b + c == a + (b + c)
  {
  }

  predicate IsPublish(e: Step) { e.Publish? }
  predicate IsComplete(e: Step) { e.Complete? }
  predicate IsAllocation(e: Step) { e.Allocate? || e.ConstructorThrows? }
  predicate IsFailure(e: Step) { e.ConstructorThrows? || e.InitiationThrows? }

  lemma StepHistory(s: State, e: Step)
    requires Placed(s) && Enabled(s, e)
    ensures var t := Apply(s, e);
      && t.handled == s.handled + InvokedBy(e)
      && |t.pending| + AsNat(IsComplete(e)) == |s.pending| + AsNat(IsPublish(e))
      && t.next == s.next + AsNat(IsAllocation(e))
      && |t.freed| == |s.freed| + AsNat(IsFailure(e)) + AsNat(IsComplete(e))
  {
    assert s.handled + [] == s.handled;
    if e.Publish? {
      assert s.threads[e.t].op !in s.pending;
    }
  }

  lemma {:induction false} RunHistory(s: State, steps: seq<Step>)
    requires CanRun(s, steps) && Placed(s)
    ensures var t := After(s, steps);
      && t.handled == s.handled + Invoked(steps)
      && |t.pending| + Tally(steps, IsComplete) == |s.pending| + Tally(steps, IsPublish)
      && t.next == s.next + Tally(steps, IsAllocation)
      && |t.freed| == |s.freed| + Tally(steps, IsFailure) + Tally(steps, IsComplete)
    decreases |steps|
  {
    if steps != [] {
      StepHistory(s, steps[0]);
      StepKeepsPlaced(s, steps[0]);
      RunHistory(Apply(s, steps[0]), steps[1..]);
      Regroup(s.handled, InvokedBy(steps[0]), Invoked(steps[1..]));
    }
  }

  /** The history of every run: the handlers called are, in order, those of the operations completed with
      invocation; as many operations are pending as were published and not completed; and an operation
      is freed exactly by its completion or by a throw before it was published. */
  lemma History(base: int, steps: seq<Step>)
    requires CanRun(State(map[], 0, {}, [], [], base), steps)
    ensures var s := After(State(map[], 0, {}, [], [], base), steps);
      && s.handled == Invoked(steps)
      && |s.pending| + Tally(steps, IsComplete) == Tally(steps, IsPublish)
      && s.next == Tally(steps, IsAllocation)
      && |s.freed| == Tally(steps, IsFailure) + Tally(steps, IsComplete)
  {
    RunHistory(State(map[], 0, {}, [], [], base), steps);
  }

  /** A throw is without trace: counting, allocating and failing leaves work and pending operations as
      they were, and the memory freed. */
  lemma ThrowLeavesNothing(s: State, t: Tid)
    requires t !in s.threads
    ensures var c := Apply(s, Count(t)); var a := Apply(c, Allocate(t)); var f := Apply(a, InitiationThrows(t));
      f == s.(next := s.next + 1, freed := s.freed + [s.next])
    ensures Apply(Apply(s, Count(t)), AllocationThrows(t)) == s
    ensures Apply(Apply(s, Count(t)), ConstructorThrows(t)) == s.(next := s.next + 1, freed := s.freed + [s.next])
  {
    assert s.threads[t := Counted] - {t} == s.threads;
    assert s.threads[t := Counted][t := Allocated(s.next)] - {t} == s.threads;
  }
}
