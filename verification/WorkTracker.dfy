/** Executors that count as work while they exist: `GrpcExecutorWorkTrackerBase`. */
module WorkTrackers {
  import opened Sequences

  class GrpcContext {
    var work: int
    var stops: nat                  // how often the count reached zero, stopping the context

    constructor (work: int)
      ensures this.work == work && stops == 0
    {
      this.work, stops := work, 0;
    }

    method WorkStarted()
      modifies this
      ensures work == old(work) + 1 && stops == old(stops)
    {
      work := work + 1;
    }

    method WorkFinished()
      modifies this
      ensures work == old(work) - 1
      ensures stops == old(stops) + if old(work) == 1 then 1 else 0
    {
      if work == 1 {
        stops := stops + 1;
      }
      work := work - 1;
    }
  }

  /** A slot for a tracking executor; a moved-from or destroyed tracker has no context. */
  class WorkTracker {
    var context: GrpcContext?

    constructor ()
      ensures context == null
    {
      context := null;
    }

    method Construct(c: GrpcContext)
      requires context == null
      modifies this, c
      ensures context == c && c.work == old(c.work) + 1 && c.stops == old(c.stops)
    {
      context := c;
      context.WorkStarted();
    }

    /** Copying dereferences the source's context, so it must not have been moved from. */
    method CopyConstruct(other: WorkTracker)
      requires context == null && other.context != null
      modifies this, other.context
      ensures context == old(other.context)
      ensures context.work == old(other.context.work) + 1 && context.stops == old(other.context.stops)
    {
      context := other.context;
      context.WorkStarted();
    }

    method MoveConstruct(other: WorkTracker)
      requires context == null
      modifies this, other
      ensures context == old(other.context) && (this != other ==> other.context == null)
    {
      var c := other.context;
      other.context := null;
      context := c;
    }

    /** Returns the old unit before taking the new one, even on the same context. */
    method CopyAssign(other: WorkTracker)
      requires this != other ==> other.context != null
      modifies this, context, other.context
      ensures context == old(other.context)
      ensures this == other ==> context != null ==> context.work == old(context.work) && context.stops == old(context.stops)
      ensures this != other && old(context) == old(other.context) ==>
        && context.work == old(context.work)
        && context.stops == old(context.stops) + if old(context.work) == 1 then 1 else 0
      ensures this != other && old(context) != old(other.context) ==>
        && context.work == old(other.context.work) + 1 && context.stops == old(other.context.stops)
        && (old(context) != null ==>
              && old(context).work == old(context.work) - 1
              && old(context).stops == old(context.stops) + if old(context.work) == 1 then 1 else 0)
    {
      if this != other {
        if context != null {
          context.WorkFinished();
        }
        context := other.context;
        context.WorkStarted();
      }
    }

    method MoveAssign(other: WorkTracker)
      modifies this, other, context
      ensures context == old(other.context) && (this != other ==> other.context == null)
      ensures old(context) != null ==> old(context).work == old(context.work) - if this == other then 0 else 1
      ensures old(context) != null ==>
        old(context).stops == old(context.stops) + if this != other && old(context.work) == 1 then 1 else 0
    {
      if this != other {
        if context != null {
          context.WorkFinished();
        }
        context := other.context;
        other.context := null;
      }
    }

    method Destroy()
      modifies this, context
      ensures context == null
      ensures old(context) != null ==>
        && old(context).work == old(context.work) - 1
        && old(context).stops == old(context.stops) + if old(context.work) == 1 then 1 else 0
    {
      if context != null {
        context.WorkFinished();
      }
      context := null;
    }
  }

  datatype Command =
    | Make(t: nat, context: GrpcContext)
    | Copy(t: nat, from: nat)
    | Move(t: nat, from: nat)
    | Assign(t: nat, from: nat)
    | MoveTo(t: nat, from: nat)
    | Drop(t: nat)

  type Slots = seq<GrpcContext?>

  ghost function View(slots: seq<WorkTracker>): (v: Slots)
    reads slots
    ensures |v| == |slots| && forall i :: 0 <= i < |slots| ==> v[i] == slots[i].context
  {
    seq(|slots|, i requires 0 <= i < |slots| reads slots => slots[i].context)
  }

  ghost predicate Legal(v: Slots, contexts: set<GrpcContext>, m: Command) {
    match m
    case Make(t, c) => t < |v| && v[t] == null && c in contexts
    case Copy(t, from) => t < |v| && from < |v| && v[t] == null && v[from] != null
    case Move(t, from) => t < |v| && from < |v| && v[t] == null
    case Assign(t, from) => t < |v| && from < |v| && (t != from ==> v[from] != null)
    case MoveTo(t, from) => t < |v| && from < |v|
    case Drop(t) => t < |v|
  }

  /** Which context each tracker points at afterwards. */
  ghost function Execute(v: Slots, contexts: set<GrpcContext>, m: Command): Slots
    requires Legal(v, contexts, m)
  {
    match m
    case Make(t, c) => v[t := c]
    case Copy(t, from) => v[t := v[from]]
    case Move(t, from) => if t == from then v else v[t := v[from]][from := null]
    case Assign(t, from) => v[t := v[from]]
    case MoveTo(t, from) => if t == from then v else v[t := v[from]][from := null]
    case Drop(t) => v[t := null]
  }

  /** How many trackers point at `c`. */
  ghost function Live(v: Slots, c: GrpcContext): nat {
    if v == [] then 0 else Live(v[..|v| - 1], c) + if v[|v| - 1] == c then 1 else 0
  }

  lemma {:induction false} LiveUpdate(v: Slots, t: nat, x: GrpcContext?, c: GrpcContext)
    requires t < |v|
    ensures Live(v[t := x], c) + (if v[t] == c then 1 else 0) == Live(v, c) + if x == c then 1 else 0
    decreases |v|
  {
    var n := |v| - 1;
    if t == n {
      assert v[t := x][..n] == v[..n];
    } else {
      assert v[t := x][..n] == v[..n][t := x];
      LiveUpdate(v[..n], t, x, c);
    }
  }

  lemma {:induction false} LiveAtLeast(v: Slots, i: nat, j: nat, c: GrpcContext)
    requires i < j < |v| && v[i] == c && v[j] == c
    ensures Live(v, c) >= 2
    decreases |v|
  {
    var n := |v| - 1;
    if j < n {
      LiveAtLeast(v[..n], i, j, c);
    } else {
      LiveUpdate(v[..n], i, null, c);
    }
  }

  /** The balance: every context's count is what it was without trackers, plus one per tracker that
      points at it. */
  ghost predicate Balanced(slots: seq<WorkTracker>, contexts: set<GrpcContext>, base: map<GrpcContext, nat>)
    reads slots, contexts
  {
    && NoDup(slots)
    && (forall i :: 0 <= i < |slots| && slots[i].context != null ==> slots[i].context in contexts)
    && (forall c :: c in contexts ==> c in base && c.work == base[c] + Live(View(slots), c))
  }

  /** What a single command does to the balance: the count of each context changes with the number
      of trackers that point at it. */
  twostate predicate Follows(slots: seq<WorkTracker>, contexts: set<GrpcContext>, v': Slots)
    reads slots, contexts
  {
    && View(slots) == v'
    && forall c :: c in contexts ==> c.work - old(c.work) == Live(v', c) - Live(old(View(slots)), c)
  }

  method PerformMake(slots: seq<WorkTracker>, contexts: set<GrpcContext>, t: nat, c: GrpcContext)
    requires NoDup(slots) && Legal(View(slots), contexts, Make(t, c))
    modifies slots, contexts
    ensures Follows(slots, contexts, old(View(slots))[t := c])
  {
    ghost var v := View(slots);
    slots[t].Construct(c);
    forall d | d in contexts ensures d.work - old(d.work) == Live(v[t := c], d) - Live(v, d) {
      LiveUpdate(v, t, c, d);
    }
  }

  method PerformCopy(slots: seq<WorkTracker>, contexts: set<GrpcContext>, t: nat, from: nat)
    requires NoDup(slots) && Legal(View(slots), contexts, Copy(t, from)) && slots[from].context in contexts
    modifies slots, contexts
    ensures Follows(slots, contexts, old(View(slots))[t := old(slots[from].context)])
  {
    ghost var v := View(slots);
    slots[t].CopyConstruct(slots[from]);
    forall d | d in contexts ensures d.work - old(d.work) == Live(v[t := v[from]], d) - Live(v, d) {
      LiveUpdate(v, t, v[from], d);
    }
  }

  method PerformMove(slots: seq<WorkTracker>, contexts: set<GrpcContext>, t: nat, from: nat)
    requires NoDup(slots) && Legal(View(slots), contexts, Move(t, from))
    modifies slots
    ensures Follows(slots, contexts, Execute(old(View(slots)), contexts, Move(t, from)))
  {
    ghost var v := View(slots);
    slots[t].MoveConstruct(slots[from]);
    ghost var v' := Execute(v, contexts, Move(t, from));
    forall d | d in contexts ensures Live(v', d) == Live(v, d) {
      if t != from {
        LiveUpdate(v, t, v[from], d);
        LiveUpdate(v[t := v[from]], from, null, d);
      }
    }
  }

  method PerformAssign(slots: seq<WorkTracker>, contexts: set<GrpcContext>, t: nat, from: nat)
    requires NoDup(slots) && Legal(View(slots), contexts, Assign(t, from))
    requires forall i :: 0 <= i < |slots| && slots[i].context != null ==> slots[i].context in contexts
    modifies slots[t], slots[t].context, slots[from].context
    ensures Follows(slots, contexts, old(View(slots))[t := old(slots[from].context)])
    ensures t != from && old(slots[t].context) == old(slots[from].context) && old(slots[t].context.work) != 1 ==>
      forall c :: c in contexts ==> c.stops == old(c.stops)
  {
    ghost var v := View(slots);
    slots[t].CopyAssign(slots[from]);
    forall d | d in contexts ensures d.work - old(d.work) == Live(v[t := v[from]], d) - Live(v, d) {
      LiveUpdate(v, t, v[from], d);
    }
  }

  method PerformMoveTo(slots: seq<WorkTracker>, contexts: set<GrpcContext>, t: nat, from: nat)
    requires NoDup(slots) && Legal(View(slots), contexts, MoveTo(t, from))
    requires slots[t].context != null ==> slots[t].context in contexts
    modifies slots, contexts
    ensures Follows(slots, contexts, Execute(old(View(slots)), contexts, MoveTo(t, from)))
  {
    ghost var v := View(slots);
    slots[t].MoveAssign(slots[from]);
    ghost var v' := Execute(v, contexts, MoveTo(t, from));
    forall d | d in contexts ensures d.work - old(d.work) == Live(v', d) - Live(v, d) {
      if t != from {
        LiveUpdate(v, t, v[from], d);
        LiveUpdate(v[t := v[from]], from, null, d);
      }
    }
  }

  method PerformDrop(slots: seq<WorkTracker>, contexts: set<GrpcContext>, t: nat)
    requires NoDup(slots) && Legal(View(slots), contexts, Drop(t))
    requires slots[t].context != null ==> slots[t].context in contexts
    modifies slots, contexts
    ensures Follows(slots, contexts, old(View(slots))[t := null])
  {
    ghost var v := View(slots);
    slots[t].Destroy();
    forall d | d in contexts ensures d.work - old(d.work) == Live(v[t := null], d) - Live(v, d) {
      LiveUpdate(v, t, null, d);
    }
  }

  /** One command keeps the balance; copy assignment within one context never lets its count reach
      zero, although it returns a unit before taking one. */
  method Perform(slots: seq<WorkTracker>, contexts: set<GrpcContext>, m: Command, ghost base: map<GrpcContext, nat>)
    requires Balanced(slots, contexts, base) && Legal(View(slots), contexts, m)
    modifies slots, contexts
    ensures View(slots) == Execute(old(View(slots)), contexts, m)
    ensures Balanced(slots, contexts, base)
    ensures m.Assign? && old(slots[m.t].context) == old(slots[m.from].context) ==>
      forall c :: c in contexts ==> c.stops == old(c.stops)
  {
    ghost var v := View(slots);
    if m.Make? {
      PerformMake(slots, contexts, m.t, m.context);
    } else if m.Copy? {
      PerformCopy(slots, contexts, m.t, m.from);
    } else if m.Move? {
      PerformMove(slots, contexts, m.t, m.from);
    } else if m.Assign? {
      if m.t != m.from {
        AssignNeverReachesZero(slots, contexts, base, m.t, m.from);
        PerformAssign(slots, contexts, m.t, m.from);
      } else {
        assert v[m.t := v[m.from]] == v;
      }
    } else if m.MoveTo? {
      PerformMoveTo(slots, contexts, m.t, m.from);
    } else {
      PerformDrop(slots, contexts, m.t);
    }
  }

  lemma AssignNeverReachesZero(slots: seq<WorkTracker>, contexts: set<GrpcContext>, base: map<GrpcContext, nat>, t: nat, from: nat)
    requires Balanced(slots, contexts, base) && t < |slots| && from < |slots| && t != from
    ensures slots[t].context != null && slots[t].context == slots[from].context ==> slots[t].context.work >= 2
  {
    if slots[t].context != null && slots[t].context == slots[from].context {
      LiveAtLeast(View(slots), if t < from then t else from, if t < from then from else t, slots[t].context);
    }
  }

  ghost predicate LegalAll(v: Slots, contexts: set<GrpcContext>, script: seq<Command>)
    decreases |script|
  {
    script == [] ||
    (Legal(v, contexts, script[0]) && LegalAll(Execute(v, contexts, script[0]), contexts, script[1..]))
  }

  ghost function ExecuteAll(v: Slots, contexts: set<GrpcContext>, script: seq<Command>): Slots
    requires LegalAll(v, contexts, script)
    decreases |script|
  {
    if script == [] then v else ExecuteAll(Execute(v, contexts, script[0]), contexts, script[1..])
  }

  /** Any script of constructions, copies, moves, assignments and destructions over any contexts
      keeps the balance. */
  method RunScript(slots: seq<WorkTracker>, contexts: set<GrpcContext>, script: seq<Command>, ghost base: map<GrpcContext, nat>)
    requires Balanced(slots, contexts, base) && LegalAll(View(slots), contexts, script)
    modifies slots, contexts
    ensures View(slots) == ExecuteAll(old(View(slots)), contexts, script)
    ensures Balanced(slots, contexts, base)
  {
    for i := 0 to |script|
      invariant Balanced(slots, contexts, base)
      invariant LegalAll(View(slots), contexts, script[i..])
      invariant ExecuteAll(View(slots), contexts, script[i..]) == ExecuteAll(old(View(slots)), contexts, script)
    {
      assert script[i..][0] == script[i] && script[i..][1..] == script[i + 1..];
      Perform(slots, contexts, script[i], base);
    }
  }
}
