/**
 The memory of the intrusive lists as a map of `next` fields, one per operation. The same
 field links an operation into whichever list it currently sits in, so every list below
 lives in the same map.
 */
module LinkedCells {
  import opened Sequences

  type Op = nat

  /** A value of `AtomicIntrusiveQueue::head`: null, the sentinel (the address of `head`
      itself), or an item. A `next` field uses the same type. */
  datatype Ptr = Null | Inactive | At(op: Op)

  type Cells = map<Op, Ptr>

  /** What a producer stores in `item->next` after reading `p` from `head`. */
  function ItemOf(p: Ptr): Ptr {
    if p == Inactive then Null else p
  }

  /** Following `next` from `p` visits exactly the operations of `s`, in order, and ends in null. */
  ghost predicate ListFrom(next: Cells, p: Ptr, s: seq<Op>)
    decreases |s|
  {
    if s == [] then p == Null
    else p == At(s[0]) && s[0] in next && ListFrom(next, next[s[0]], s[1..])
  }

  /** `IntrusiveQueue`: two pointers into the cells. */
  datatype CellQueue = CellQueue(head: Ptr, tail: Ptr)

  const EMPTY_QUEUE := CellQueue(Null, Null)

  /** Head is null iff tail is null, and tail is the last operation of the list. */
  ghost predicate QueueOf(next: Cells, q: CellQueue, s: seq<Op>) {
    && ListFrom(next, q.head, s)
    && q.tail == if s == [] then Null else At(s[|s| - 1])
  }

  lemma {:induction false} FrameList(next: Cells, p: Ptr, s: seq<Op>, i: Op, q: Ptr)
    requires ListFrom(next, p, s) && i !in s
    ensures ListFrom(next[i := q], p, s)
    decreases |s|
  {
    if s != [] {
      FrameList(next, next[s[0]], s[1..], i, q);
    }
  }

  /** Redirecting the last cell of a list to another list concatenates the two. */
  lemma {:induction false} JoinLists(next: Cells, p: Ptr, s: seq<Op>, q: Ptr, u: seq<Op>)
    requires s != [] && ListFrom(next, p, s) && ListFrom(next, q, u)
    requires NoDup(s + u)
    ensures ListFrom(next[s[|s| - 1] := q], p, s + u)
    decreases |s|
  {
    var last := s[|s| - 1];
    var next' := next[last := q];
    if |s| == 1 {
      assert s + u == [s[0]] + u;
      assert (s + u)[0] == s[0];
      assert forall k :: 0 <= k < |u| ==> u[k] == (s + u)[k + 1];
      assert last !in u;
      FrameList(next, q, u, last, q);
      assert (s + u)[1..] == u;
    } else {
      var t := s[1..];
      assert (s + u)[1..] == t + u;
      assert NoDup(t + u) by {
        assert forall k :: 0 <= k < |t + u| ==> (t + u)[k] == (s + u)[k + 1];
      }
      assert t[|t| - 1] == last;
      JoinLists(next, next[s[0]], t, q, u);
      assert s[0] != last by { assert (s + u)[0] == s[0] && (s + u)[|s| - 1] == last; }
    }
  }

  /** The list reached from a pointer is unique, so "the chain from `head`" is well defined. */
  lemma {:induction false} ListUnique(next: Cells, p: Ptr, s: seq<Op>, t: seq<Op>)
    requires ListFrom(next, p, s) && ListFrom(next, p, t)
    ensures s == t
    decreases |s|
  {
    if s != [] && t != [] {
      ListUnique(next, next[s[0]], s[1..], t[1..]);
      assert s == [s[0]] + s[1..] && t == [t[0]] + t[1..];
    }
  }
}
