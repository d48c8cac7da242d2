/** `IntrusiveQueue`: a singly linked queue through the `next` field of its items. */
module IntrusiveQueues {
  import opened Sequences

  /** `IntrusiveQueueHook`: the link lives in the item. */
  class Item {
    var next: Item?

    constructor ()
      ensures next == null
    {
      next := null;
    }
  }

  /** Following `next` from `list` visits exactly `chain`, all distinct, and arrives at `end`. */
  ghost predicate Path(list: Item?, chain: seq<Item>, end: Item?)
    reads chain
    decreases |chain|
  {
    if chain == [] then list == end
    else list == chain[0] && chain[0] !in chain[1..] && Path(chain[0].next, chain[1..], end)
  }

  ghost predicate Linked(list: Item?, chain: seq<Item>)
    reads chain
  {
    Path(list, chain, null)
  }

  lemma {:induction false} PathSplit(list: Item?, s: seq<Item>, u: seq<Item>, end: Item?)
    requires Path(list, s + u, end) && u != []
    ensures Path(list, s, u[0]) && Path(u[0], u, end)
    ensures forall x :: x in s ==> x !in u
    decreases |s|
  {
    if s == [] {
      assert s + u == u;
    } else {
      assert (s + u)[1..] == s[1..] + u;
      PathSplit(s[0].next, s[1..], u, end);
      assert s == [s[0]] + s[1..];
      assert forall x :: x in s[1..] ==> x in s[1..] + u;
      assert forall x :: x in u ==> x in s[1..] + u;
    }
  }

  lemma {:induction false} PathJoin(list: Item?, s: seq<Item>, mid: Item?, u: seq<Item>, end: Item?)
    requires Path(list, s, mid) && Path(mid, u, end)
    requires forall x :: x in s ==> x !in u
    ensures Path(list, s + u, end)
    decreases |s|
  {
    if s == [] {
      assert s + u == u;
    } else {
      assert (s + u)[1..] == s[1..] + u;
      PathJoin(s[0].next, s[1..], mid, u, end);
    }
  }

  class IntrusiveQueue {
    var head: Item?
    var tail: Item?
    ghost var items: seq<Item>

    /** Head is null iff tail is null, and tail is the last item reached from head. */
    ghost predicate Valid()
      reads this, items
    {
      && Linked(head, items)
      && tail == if items == [] then null else items[|items| - 1]
    }

    constructor ()
      ensures Valid() && items == []
    {
      head, tail := null, null;
      items := [];
    }

    /** Move construction empties the source. */
    constructor Move(other: IntrusiveQueue)
      requires other.Valid()
      modifies other
      ensures Valid() && items == old(other.items)
      ensures other.Valid() && other.items == []
    {
      head, tail := other.head, other.tail;
      items := other.items;
      new;
      other.head, other.tail := null, null;
      other.items := [];
    }

    /** Move assignment swaps, also with itself. */
    method MoveAssign(other: IntrusiveQueue)
      requires Valid() && other.Valid()
      modifies this, other
      ensures Valid() && items == old(other.items)
      ensures other.Valid() && other.items == old(items)
    {
      var h := head;
      head := other.head;
      other.head := h;
      var t := tail;
      tail := other.tail;
      other.tail := t;
      ghost var mine := items;
      items := other.items;
      other.items := mine;
    }

    /** Reverses a chain in place and wraps it. */
    static method MakeReversed(list: Item?, ghost chain: seq<Item>) returns (result: IntrusiveQueue)
      requires Linked(list, chain)
      modifies chain
      ensures fresh(result) && result.Valid() && result.items == Reverse(chain)
    {
      var newHead: Item? := null;
      var newTail := list;
      var rest := list;
      ghost var k, todo, done := 0, chain, [];
      while rest != null
        invariant k <= |chain| && todo == chain[k..] && done == Reverse(chain[..k])
        invariant Linked(rest, todo) && Linked(newHead, done)
        invariant forall x :: x in done ==> x !in todo
        invariant forall x :: x in done ==> x in chain
        invariant newTail == if done == [] then rest else done[|done| - 1]
        decreases |todo|
      {
        ReverseNext(chain, k);
        assert rest == todo[0] && rest in chain;
        var next := rest.next;
        rest.next := newHead;
        k, todo, done := k + 1, todo[1..], [rest] + done;
        newHead := rest;
        rest := next;
      }
      assert chain[..|chain|] == chain;
      result := new IntrusiveQueue();
      result.head := newHead;
      result.tail := newTail;
      result.items := done;
    }

    method Empty() returns (r: bool)
      requires Valid()
      ensures r <==> items == []
    {
      r := head == null;
    }

    /** Dereferences `head`, so the queue must not be empty. */
    method PopFront() returns (item: Item)
      requires Valid() && items != []
      modifies this
      ensures Valid() && [item] + items == old(items)
    {
      item := head;
      head := head.next;
      if head == null {
        tail := null;
      }
      items := items[1..];
    }

    method PushBack(item: Item)
      requires Valid() && item !in items
      modifies this, items, item
      ensures Valid() && items == old(items) + [item]
    {
      item.next := null;
      assert Linked(item, [item]);
      if tail == null {
        head := item;
        items := [item];
      } else {
        LinkTail(item, [item]);
      }
      tail := item;
    }

    /** `tail->next = list`. */
    method LinkTail(list: Item, ghost chain: seq<Item>)
      requires Valid() && items != []
      requires Linked(list, chain) && forall x :: x in items ==> x !in chain
      modifies this`items, tail
      ensures items == old(items) + chain && Linked(head, items)
    {
      ghost var front, last := items[..|items| - 1], [tail];
      assert items == front + last;
      PathSplit(head, front, last, null);
      assert tail in last && tail in items;
      assert tail !in front && tail !in chain;
      tail.next := list;
      assert Path(tail, last, list);
      PathJoin(head, front, tail, last, list);
      PathJoin(head, items, list, chain, null);
      items := items + chain;
    }

    /** `append` takes its argument by value: the source is moved from. */
    method Append(source: IntrusiveQueue)
      requires Valid() && source.Valid()
      requires source != this ==> forall x :: x in items ==> x !in source.items
      modifies this, source, items
      ensures Valid() && items == if source == this then old(items) else old(items) + old(source.items)
      ensures source != this ==> source.Valid() && source.items == []
    {
      var other := new IntrusiveQueue.Move(source);
      if other.head == null {
        return;
      }
      if head == null {
        head := other.head;
        items := other.items;
      } else {
        LinkTail(other.head, other.items);
      }
      tail := other.tail;
      other.head, other.tail, other.items := null, null, [];
    }
  }

  lemma ReverseNext(s: seq<Item>, k: nat)
    requires k < |s|
    ensures Reverse(s[..k + 1]) == [s[k]] + Reverse(s[..k])
    ensures s[k] == s[k..][0] && s[k] in s && s[k + 1..] == s[k..][1..]
  {
    assert s[..k + 1][..k] == s[..k];
  }

  // ---- any number of queues ------------------------------------------------------------

  datatype Command =
    | Push(q: nat, item: Item)
    | Pop(q: nat)
    | Append(q: nat, r: nat)
    | Swap(q: nat, r: nat)          // move assignment
    | Shift(q: nat, r: nat)         // move construction of r from q, r having been empty
    | ReverseAll(q: nat)            // the chain of q is detached, reversed and wrapped again

  type Contents = seq<seq<Item>>

  ghost predicate Legal(c: Contents, free: set<Item>, m: Command) {
    match m
    case Push(q, item) => q < |c| && item in free
    case Pop(q) => q < |c| && c[q] != []
    case Append(q, r) => q < |c| && r < |c|
    case Swap(q, r) => q < |c| && r < |c|
    case Shift(q, r) => q < |c| && r < |c| && q != r && c[r] == []
    case ReverseAll(q) => q < |c|
  }

  /** The sequence semantics of a command: contents, and the items outside every queue. */
  ghost function Execute(c: Contents, free: set<Item>, m: Command): (Contents, set<Item>)
    requires Legal(c, free, m)
  {
    match m
    case Push(q, item) => (c[q := c[q] + [item]], free - {item})
    case Pop(q) => (c[q := c[q][1..]], free + {c[q][0]})
    case Append(q, r) => (if q == r then c else c[q := c[q] + c[r]][r := []], free)
    case Swap(q, r) => (c[q := c[r]][r := c[q]], free)
    case Shift(q, r) => (c[r := c[q]][q := []], free)
    case ReverseAll(q) => (c[q := Reverse(c[q])], free)
  }

  /** How often `x` occurs in the queues together. */
  ghost function Count(c: Contents, x: Item): nat {
    if c == [] then 0 else Count(c[..|c| - 1], x) + Times(c[|c| - 1], x)
  }

  /** Every item of the universe is in exactly one place: once in one queue, or free. */
  ghost predicate OnePlace(c: Contents, free: set<Item>, universe: set<Item>) {
    && free <= universe
    && (forall i, x :: 0 <= i < |c| && x in c[i] ==> x in universe)
    && (forall x :: x in universe ==> Count(c, x) + (if x in free then 1 else 0) == 1)
  }

  lemma {:induction false} CountUpdate(c: Contents, q: nat, s: seq<Item>, x: Item)
    requires q < |c|
    ensures Count(c[q := s], x) + Times(c[q], x) == Count(c, x) + Times(s, x)
    decreases |c|
  {
    var n := |c| - 1;
    if q == n {
      assert c[q := s][..n] == c[..n];
    } else {
      assert c[q := s][..n] == c[..n][q := s];
      CountUpdate(c[..n], q, s, x);
    }
  }

  lemma {:induction false} CountAtLeast(c: Contents, i: nat, j: nat, x: Item)
    requires i < |c| && j < |c|
    ensures Count(c, x) >= Times(c[i], x) + if i == j then 0 else Times(c[j], x)
    decreases |c|
  {
    var n := |c| - 1;
    if i < n && j < n {
      CountAtLeast(c[..n], i, j, x);
    } else if i < n {
      CountAtLeast(c[..n], i, i, x);
    } else if j < n {
      CountAtLeast(c[..n], j, j, x);
    }
  }

  lemma {:induction false} ReverseTimes(s: seq<Item>, x: Item)
    ensures Times(Reverse(s), x) == Times(s, x)
  {
    if s != [] {
      var front, last := s[..|s| - 1], s[|s| - 1];
      ReverseTimes(front, x);
      assert s == front + [last];
    }
  }

  /** A command moves items between places: for each item, what the queues lose the free items
      gain, and the other way round. */
  lemma CommandMoves(c: Contents, free: set<Item>, m: Command, x: Item)
    requires Legal(c, free, m)
    requires m.Pop? ==> c[m.q][0] !in free
    ensures var (c', free') := Execute(c, free, m);
      Count(c', x) + (if x in free' then 1 else 0) == Count(c, x) + (if x in free then 1 else 0)
  {
    match m
    case Push(q, item) => CountUpdate(c, q, c[q] + [item], x);
    case Pop(q) =>
      CountUpdate(c, q, c[q][1..], x);
      assert c[q] == [c[q][0]] + c[q][1..];
    case Append(q, r) =>
      if q != r {
        CountUpdate(c, q, c[q] + c[r], x);
        CountUpdate(c[q := c[q] + c[r]], r, [], x);
      }
    case Swap(q, r) =>
      CountUpdate(c, q, c[r], x);
      CountUpdate(c[q := c[r]], r, c[q], x);
    case Shift(q, r) =>
      CountUpdate(c, r, c[q], x);
      CountUpdate(c[r := c[q]], q, [], x);
    case ReverseAll(q) =>
      CountUpdate(c, q, Reverse(c[q]), x);
      ReverseTimes(c[q], x);
  }

  /** Conservation: no command drops an item, or puts it in two queues, or twice in one. */
  lemma ExecuteConserves(c: Contents, free: set<Item>, universe: set<Item>, m: Command)
    requires OnePlace(c, free, universe) && Legal(c, free, m)
    ensures OnePlace(Execute(c, free, m).0, Execute(c, free, m).1, universe)
  {
    var (c', free') := Execute(c, free, m);
    if m.Pop? {
      var item := c[m.q][0];
      assert item in c[m.q];
      CountAtLeast(c, m.q, m.q, item);
    }
    forall x | x in universe ensures Count(c', x) + (if x in free' then 1 else 0) == 1 {
      CommandMoves(c, free, m, x);
    }
    if m.ReverseAll? {
      forall x ensures x in Reverse(c[m.q]) <==> x in c[m.q] { ReverseMembers(c[m.q], x); }
    }
  }

  /** Different queues share no item, and no queued item is free. */
  lemma OnePlaceApart(c: Contents, free: set<Item>, universe: set<Item>)
    requires OnePlace(c, free, universe)
    ensures forall i, j, x :: 0 <= i < |c| && 0 <= j < |c| && i != j && x in c[i] ==> x !in c[j]
    ensures forall i, x :: 0 <= i < |c| && x in c[i] ==> x !in free
  {
    forall i, j, x | 0 <= i < |c| && 0 <= j < |c| && i != j && x in c[i] ensures x !in c[j] {
      CountAtLeast(c, i, j, x);
    }
    forall i, x | 0 <= i < |c| && x in c[i] ensures x !in free {
      CountAtLeast(c, i, i, x);
    }
  }

  ghost function View(queues: seq<IntrusiveQueue>): (c: Contents)
    reads queues
    ensures |c| == |queues| && forall i :: 0 <= i < |queues| ==> c[i] == queues[i].items
  {
    seq(|queues|, i requires 0 <= i < |queues| reads queues => queues[i].items)
  }

  ghost predicate BankValid(queues: seq<IntrusiveQueue>, free: set<Item>, universe: set<Item>)
    reads queues, universe
  {
    && NoDup(queues) && OnePlace(View(queues), free, universe)
    && forall i :: 0 <= i < |queues| ==> queues[i].Valid()
  }

  /** Separate queues without a common item. */
  ghost predicate Separate(queues: seq<IntrusiveQueue>, universe: set<Item>)
    reads queues, universe
  {
    && (forall q, x :: q in queues && x in q.items ==> x in universe)
    && (forall i, j :: 0 <= i < j < |queues| ==> queues[i] != queues[j])
    && (forall q :: q in queues ==> q.Valid())
    && (forall q, r, x :: q in queues && r in queues && q != r && x in q.items ==> x !in r.items)
  }

  lemma ViewIs(queues: seq<IntrusiveQueue>, c: Contents)
    requires |c| == |queues| && forall i :: 0 <= i < |c| ==> queues[i].items == c[i]
    ensures View(queues) == c
  {
  }

  method ReverseWhole(queue: IntrusiveQueue)
    requires queue.Valid()
    modifies queue, queue.items
    ensures queue.Valid() && queue.items == Reverse(old(queue.items))
  {
    var detached := new IntrusiveQueue.Move(queue);
    var reversed := IntrusiveQueue.MakeReversed(detached.head, detached.items);
    queue.MoveAssign(reversed);
  }

  /** Move construction into a fresh queue, then move assignment from it. */
  method ShiftInto(from: IntrusiveQueue, to: IntrusiveQueue)
    requires from != to && from.Valid() && to.Valid() && to.items == []
    modifies from, to
    ensures from.Valid() && to.Valid() && from.items == [] && to.items == old(from.items)
  {
    var moved := new IntrusiveQueue.Move(from);
    to.MoveAssign(moved);
  }

  method PushInto(queues: seq<IntrusiveQueue>, q: nat, item: Item, ghost universe: set<Item>)
    requires Separate(queues, universe) && q < |queues|
    requires forall r :: r in queues ==> item !in r.items
    modifies queues[q], queues[q].items, item
    ensures forall r :: r in queues ==> r.Valid()
    ensures View(queues) == old(View(queues))[q := old(queues[q].items) + [item]]
  {
    queues[q].PushBack(item);
    forall r | r in queues && r != queues[q] ensures r.Valid() {
      assert old(r.Valid());
      assert forall x :: x in r.items ==> x !in old(queues[q].items) && x != item;
      assert unchanged(r);
      forall i | 0 <= i < |r.items| ensures unchanged(r.items[i]) {
        assert r.items[i] in r.items;
      }
    }
    ViewIs(queues, old(View(queues))[q := old(queues[q].items) + [item]]);
  }

  method AppendInto(queues: seq<IntrusiveQueue>, q: nat, r: nat, ghost universe: set<Item>)
    requires Separate(queues, universe) && q < |queues| && r < |queues|
    modifies queues[q], queues[r], queues[q].items
    ensures forall t :: t in queues ==> t.Valid()
    ensures View(queues) == if q == r then old(View(queues)) else
      old(View(queues))[q := old(queues[q].items) + old(queues[r].items)][r := []]
  {
    assert queues[q] in queues && queues[r] in queues;
    queues[q].Append(queues[r]);
    forall t | t in queues && t != queues[q] && t != queues[r] ensures t.Valid() {
      assert old(t.Valid());
      assert forall x :: x in t.items ==> x !in old(queues[q].items);
      assert unchanged(t);
      forall i | 0 <= i < |t.items| ensures unchanged(t.items[i]) {
        assert t.items[i] in t.items;
      }
    }
    ViewIs(queues, if q == r then old(View(queues)) else
      old(View(queues))[q := old(queues[q].items) + old(queues[r].items)][r := []]);
  }

  method PopFrom(queues: seq<IntrusiveQueue>, q: nat, ghost universe: set<Item>) returns (item: Item)
    requires Separate(queues, universe) && q < |queues| && queues[q].items != []
    modifies queues[q]
    ensures forall t :: t in queues ==> t.Valid()
    ensures item == old(queues[q].items)[0]
    ensures View(queues) == old(View(queues))[q := old(queues[q].items)[1..]]
  {
    item := queues[q].PopFront();
    forall t | t in queues && t != queues[q] ensures t.Valid() {
      assert old(t.Valid());
      assert unchanged(t);
      forall i | 0 <= i < |t.items| ensures unchanged(t.items[i]) {
        assert t.items[i] in t.items;
      }
    }
    ViewIs(queues, old(View(queues))[q := old(queues[q].items)[1..]]);
  }

  method SwapIn(queues: seq<IntrusiveQueue>, q: nat, r: nat, ghost universe: set<Item>)
    requires Separate(queues, universe) && q < |queues| && r < |queues|
    modifies queues[q], queues[r]
    ensures forall t :: t in queues ==> t.Valid()
    ensures View(queues) == old(View(queues))[q := old(queues[r].items)][r := old(queues[q].items)]
  {
    queues[q].MoveAssign(queues[r]);
    forall t | t in queues && t != queues[q] && t != queues[r] ensures t.Valid() {
      assert old(t.Valid());
      assert unchanged(t);
      forall i | 0 <= i < |t.items| ensures unchanged(t.items[i]) {
        assert t.items[i] in t.items;
      }
    }
    ViewIs(queues, old(View(queues))[q := old(queues[r].items)][r := old(queues[q].items)]);
  }

  method ShiftIn(queues: seq<IntrusiveQueue>, q: nat, r: nat, ghost universe: set<Item>)
    requires Separate(queues, universe) && q < |queues| && r < |queues| && q != r && queues[r].items == []
    modifies queues[q], queues[r]
    ensures forall t :: t in queues ==> t.Valid()
    ensures View(queues) == old(View(queues))[r := old(queues[q].items)][q := []]
  {
    ShiftInto(queues[q], queues[r]);
    forall t | t in queues && t != queues[q] && t != queues[r] ensures t.Valid() {
      assert old(t.Valid());
      assert unchanged(t);
      forall i | 0 <= i < |t.items| ensures unchanged(t.items[i]) {
        assert t.items[i] in t.items;
      }
    }
    ViewIs(queues, old(View(queues))[r := old(queues[q].items)][q := []]);
  }

  method ReverseIn(queues: seq<IntrusiveQueue>, q: nat, ghost universe: set<Item>)
    requires Separate(queues, universe) && q < |queues|
    modifies queues[q], queues[q].items
    ensures forall t :: t in queues ==> t.Valid()
    ensures View(queues) == old(View(queues))[q := Reverse(old(queues[q].items))]
  {
    ReverseWhole(queues[q]);
    forall t | t in queues && t != queues[q] ensures t.Valid() {
      assert old(t.Valid());
      assert forall x :: x in t.items ==> x !in old(queues[q].items);
      assert unchanged(t);
      forall i | 0 <= i < |t.items| ensures unchanged(t.items[i]) {
        assert t.items[i] in t.items;
      }
    }
    ViewIs(queues, old(View(queues))[q := Reverse(old(queues[q].items))]);
  }

  lemma BankSeparate(queues: seq<IntrusiveQueue>, free: set<Item>, universe: set<Item>)
    requires BankValid(queues, free, universe)
    ensures Separate(queues, universe)
    ensures forall r, x :: r in queues && x in r.items ==> x in universe && x !in free
  {
    OnePlaceApart(View(queues), free, universe);
  }

  /** One command on one of any number of queues: the named queues change as the sequences do,
      and no other queue notices. */
  method Perform(queues: seq<IntrusiveQueue>, m: Command, ghost free: set<Item>, ghost universe: set<Item>)
    requires BankValid(queues, free, universe) && Legal(View(queues), free, m)
    modifies queues, universe
    ensures View(queues) == Execute(old(View(queues)), free, m).0
    ensures BankValid(queues, Execute(old(View(queues)), free, m).1, universe)
  {
    ghost var c := View(queues);
    BankSeparate(queues, free, universe);
    ExecuteConserves(c, free, universe, m);
    if m.Push? {
      PushInto(queues, m.q, m.item, universe);
    } else if m.Pop? {
      var _ := PopFrom(queues, m.q, universe);
    } else if m.Append? {
      AppendInto(queues, m.q, m.r, universe);
    } else if m.Swap? {
      SwapIn(queues, m.q, m.r, universe);
    } else if m.Shift? {
      ShiftIn(queues, m.q, m.r, universe);
    } else {
      ReverseIn(queues, m.q, universe);
    }
  }

  ghost predicate LegalAll(c: Contents, free: set<Item>, script: seq<Command>)
    decreases |script|
  {
    script == [] ||
    (Legal(c, free, script[0]) && var (c', free') := Execute(c, free, script[0]); LegalAll(c', free', script[1..]))
  }

  ghost function ExecuteAll(c: Contents, free: set<Item>, script: seq<Command>): (Contents, set<Item>)
    requires LegalAll(c, free, script)
    decreases |script|
  {
    if script == [] then (c, free)
    else var (c', free') := Execute(c, free, script[0]); ExecuteAll(c', free', script[1..])
  }

  /** Any script of commands on any number of queues: each queue ends up with exactly the
      sequence the script computes, and every item is still in exactly one place. */
  method RunScript(queues: seq<IntrusiveQueue>, script: seq<Command>, ghost free: set<Item>, ghost universe: set<Item>)
    requires BankValid(queues, free, universe) && LegalAll(View(queues), free, script)
    modifies queues, universe
    ensures View(queues) == ExecuteAll(old(View(queues)), free, script).0
    ensures BankValid(queues, ExecuteAll(old(View(queues)), free, script).1, universe)
  {
    ghost var now := free;
    for i := 0 to |script|
      invariant BankValid(queues, now, universe)
      invariant LegalAll(View(queues), now, script[i..])
      invariant ExecuteAll(View(queues), now, script[i..]) == ExecuteAll(old(View(queues)), free, script)
    {
      ghost var c, was := View(queues), now;
      assert script[i..][0] == script[i] && script[i..][1..] == script[i + 1..];
      now := Execute(c, was, script[i]).1;
      Perform(queues, script[i], was, universe);
    }
  }
}
