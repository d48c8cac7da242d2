/** Any use of any number of owning pointers, of any number of allocators: who frees which block. */
module PointerScripts {
  import opened Sequences
  import opened Ownership

  /** A block is known by the memory it came from and its number there. */
  datatype Block = Block(memory: nat, number: nat)

  datatype Holding = Nothing | Owns(block: Block)

  /** The pointers, and where the blocks went that no pointer owns any more. A slot without a
      constructed pointer holds nothing. */
  datatype State = State(
    allocators: seq<nat>,           // for each slot, the memory its pointer deallocates through
    held: seq<Holding>,             // and what it owns
    next: seq<nat>,                 // for each memory, the blocks allocated so far
    freed: seq<Block>,
    released: seq<Block>,           // given up by `release`, to be freed by someone else
    abandoned: seq<Block>)          // overwritten by a move assignment

  datatype Command =
    | Allocate(t: nat, memory: nat)
    | MoveConstruct(t: nat, from: nat)
    | MoveAssign(t: nat, from: nat)
    | Release(t: nat)
    | Reset(t: nat)
    | Destroy(t: nat)

  predicate WellFormed(s: State) {
    && |s.allocators| == |s.held|
    && forall i :: 0 <= i < |s.allocators| ==> s.allocators[i] < |s.next|
  }

  /** The pointer in slot `t` owns nothing, or a block of the memory it deallocates through. */
  predicate Matches(s: State, t: nat)
    requires WellFormed(s) && t < |s.held|
  {
    s.held[t].Owns? ==> s.held[t].block.memory == s.allocators[t]
  }

  /** What the language asks of the commands: pointers are constructed in empty slots, `reset` needs
      a block, and a block must not be deallocated through another allocator. */
  predicate Legal(s: State, c: Command)
    requires WellFormed(s)
  {
    && c.t < |s.held|
    && match c
       case Allocate(t, m) => s.held[t] == Nothing && m < |s.next|
       case MoveConstruct(t, from) => from < |s.held| && t != from && s.held[t] == Nothing
       case MoveAssign(_, from) => from < |s.held|
       case Release(_) => true
       case Reset(t) => s.held[t].Owns? && Matches(s, t)
       case Destroy(t) => Matches(s, t)
  }

  function Blocks(h: Holding): seq<Block> {
    if h.Owns? then [h.block] else []
  }

  function Freed(s: State, t: nat): State
    requires t < |s.held|
  {
    s.(held := s.held[t := Nothing], freed := s.freed + Blocks(s.held[t]))
  }

  /** Move construction copies the source's allocator; move assignment keeps the target's. */
  function Execute(s: State, c: Command): (r: State)
    requires WellFormed(s) && Legal(s, c)
    ensures WellFormed(r) && |r.held| == |s.held| && |r.next| == |s.next|
  {
    match c
    case Allocate(t, m) =>
      s.(allocators := s.allocators[t := m], held := s.held[t := Owns(Block(m, s.next[m]))],
         next := s.next[m := s.next[m] + 1])
    case MoveConstruct(t, from) =>
      s.(allocators := s.allocators[t := s.allocators[from]], held := s.held[t := s.held[from]][from := Nothing])
    case MoveAssign(t, from) =>
      if t == from then s
      else s.(held := s.held[t := s.held[from]][from := Nothing], abandoned := s.abandoned + Blocks(s.held[t]))
    case Release(t) => s.(held := s.held[t := Nothing], released := s.released + Blocks(s.held[t]))
    case Reset(t) => Freed(s, t)
    case Destroy(t) => Freed(s, t)
  }

  predicate LegalAll(s: State, script: seq<Command>)
    requires WellFormed(s)
    decreases |script|
  {
    script == [] || (Legal(s, script[0]) && LegalAll(Execute(s, script[0]), script[1..]))
  }

  function ExecuteAll(s: State, script: seq<Command>): (r: State)
    requires WellFormed(s) && LegalAll(s, script)
    ensures WellFormed(r) && |r.held| == |s.held|
    decreases |script|
  {
    if script == [] then s else ExecuteAll(Execute(s, script[0]), script[1..])
  }

  // ---- every block has one place -------------------------------------------------------

  function Places(s: State, b: Block): nat {
    Times(s.held, Owns(b)) + Times(s.freed, b) + Times(s.released, b) + Times(s.abandoned, b)
  }

  predicate Allocated(s: State, b: Block) {
    b.memory < |s.next| && b.number < s.next[b.memory]
  }

  /** Every allocated block is owned by one pointer, or was freed, released or abandoned, once. */
  ghost predicate OnePlace(s: State) {
    forall b :: Places(s, b) == if Allocated(s, b) then 1 else 0
  }

  lemma SlotWritten(v: seq<Holding>, t: nat, x: Holding, b: Block)
    requires t < |v|
    ensures Times(v[t := x], Owns(b)) + (if v[t] == Owns(b) then 1 else 0)
         == Times(v, Owns(b)) + if x == Owns(b) then 1 else 0
  {
  }

  lemma BlocksAdded(s: seq<Block>, h: Holding, b: Block)
    ensures Times(s + Blocks(h), b) == Times(s, b) + if h == Owns(b) then 1 else 0
  {
  }

  predicate Makes(s: State, c: Command, b: Block)
    requires WellFormed(s) && Legal(s, c)
  {
    c.Allocate? && b == Block(c.memory, s.next[c.memory])
  }

  lemma CommandMoves(s: State, c: Command, b: Block)
    requires WellFormed(s) && Legal(s, c)
    ensures Places(Execute(s, c), b) == Places(s, b) + if Makes(s, c, b) then 1 else 0
  {
    var v, t := s.held, c.t;
    if c.Allocate? {
      SlotWritten(v, t, Owns(Block(c.memory, s.next[c.memory])), b);
    } else if c.MoveConstruct? || c.MoveAssign? {
      if t != c.from {
        SlotWritten(v, t, v[c.from], b);
        SlotWritten(v[t := v[c.from]], c.from, Nothing, b);
        BlocksAdded(s.abandoned, v[t], b);
      }
    } else {
      SlotWritten(v, t, Nothing, b);
      BlocksAdded(s.released, v[t], b);
      BlocksAdded(s.freed, v[t], b);
    }
  }

  lemma CommandKeepsOnePlace(s: State, c: Command)
    requires WellFormed(s) && Legal(s, c) && OnePlace(s)
    ensures OnePlace(Execute(s, c))
  {
    var s' := Execute(s, c);
    forall b ensures Places(s', b) == if Allocated(s', b) then 1 else 0 {
      CommandMoves(s, c, b);
      assert Allocated(s', b) <==> Allocated(s, b) || Makes(s, c, b);
    }
  }

  lemma {:induction false} ScriptKeepsOnePlace(s: State, script: seq<Command>)
    requires WellFormed(s) && OnePlace(s) && LegalAll(s, script)
    ensures OnePlace(ExecuteAll(s, script))
    decreases |script|
  {
    if script != [] {
      CommandKeepsOnePlace(s, script[0]);
      ScriptKeepsOnePlace(Execute(s, script[0]), script[1..]);
    }
  }

  // ---- what is never freed -------------------------------------------------------------

  /** Some move assignment meets a target that still owns a block. */
  predicate Overwrites(s: State, script: seq<Command>)
    requires WellFormed(s) && LegalAll(s, script)
    decreases |script|
  {
    && script != []
    && var c := script[0];
       (c.MoveAssign? && c.t != c.from && s.held[c.t].Owns?) || Overwrites(Execute(s, c), script[1..])
  }

  /** Blocks are abandoned exactly when a move assignment overwrites an owner. */
  lemma {:induction false} AbandonedIffOverwritten(s: State, script: seq<Command>)
    requires WellFormed(s) && LegalAll(s, script)
    ensures ExecuteAll(s, script).abandoned != s.abandoned <==> Overwrites(s, script)
    ensures |ExecuteAll(s, script).abandoned| >= |s.abandoned|
    decreases |script|
  {
    if script != [] {
      AbandonedIffOverwritten(Execute(s, script[0]), script[1..]);
    }
  }

  /** `n` empty slots and `m` fresh memories. */
  predicate Vacant(s: State, n: nat, m: nat) {
    && WellFormed(s) && |s.held| == n && |s.next| == m
    && s.freed == [] && s.released == [] && s.abandoned == []
    && (forall h :: h in s.held ==> h == Nothing)
    && (forall k :: 0 <= k < m ==> s.next[k] == 0)
  }

  lemma VacantOnePlace(s: State, n: nat, m: nat)
    requires Vacant(s, n, m)
    ensures OnePlace(s)
  {
    forall b ensures Places(s, b) == if Allocated(s, b) then 1 else 0 {
      assert Owns(b) !in s.held;
    }
  }

  /** Freed exactly once: in every script over any number of pointers and allocators that begins and
      ends with no pointer owning anything, each block is freed exactly once unless it was released,
      if and only if no move assignment overwrote an owner. */
  lemma FreedOnceIffNeverOverwritten(s0: State, n: nat, m: nat, script: seq<Command>)
    requires Vacant(s0, n, m) && LegalAll(s0, script)
    requires forall h :: h in ExecuteAll(s0, script).held ==> h == Nothing
    ensures var s := ExecuteAll(s0, script);
      (forall b :: Times(s.freed, b) == if Allocated(s, b) && b !in s.released then 1 else 0)
      <==> !Overwrites(s0, script)
  {
    var s := ExecuteAll(s0, script);
    VacantOnePlace(s0, n, m);
    ScriptKeepsOnePlace(s0, script);
    AbandonedIffOverwritten(s0, script);
    forall b
      ensures Times(s.freed, b) + Times(s.released, b) + Times(s.abandoned, b) == if Allocated(s, b) then 1 else 0
    {
      assert Places(s, b) == if Allocated(s, b) then 1 else 0;
      assert Owns(b) !in s.held;
    }
    if s.abandoned == [] {
      forall b ensures Times(s.freed, b) == if Allocated(s, b) && b !in s.released then 1 else 0 {
        assert b in multiset(s.released) <==> b in s.released;
      }
    } else {
      var b := s.abandoned[0];
      assert b in s.abandoned && b in multiset(s.abandoned);
      assert Times(s.freed, b) + Times(s.released, b) + Times(s.abandoned, b) == 1;
      assert b !in multiset(s.released);
      assert b !in s.released;
    }
  }

  /** A leak, concretely: one owner assigned over another. */
  lemma OverwriteExample()
    ensures var s0 := State([0, 0], [Nothing, Nothing], [0], [], [], []);
      var script := [Allocate(0, 0), Allocate(1, 0), MoveAssign(0, 1), Destroy(0)];
      && Vacant(s0, 2, 1) && LegalAll(s0, script)
      && ExecuteAll(s0, script).freed == [Block(0, 1)] && ExecuteAll(s0, script).abandoned == [Block(0, 0)]
  {
  }

  // ---- where every block goes ----------------------------------------------------------

  /** The blocks freed, released and abandoned by a script, in order. */
  function FreedIn(s: State, script: seq<Command>): seq<Block>
    requires WellFormed(s) && LegalAll(s, script)
    decreases |script|
  {
    if script == [] then []
    else
      (if script[0].Reset? || script[0].Destroy? then Blocks(s.held[script[0].t]) else [])
      + FreedIn(Execute(s, script[0]), script[1..])
  }

  function ReleasedIn(s: State, script: seq<Command>): seq<Block>
    requires WellFormed(s) && LegalAll(s, script)
    decreases |script|
  {
    if script == [] then []
    else (if script[0].Release? then Blocks(s.held[script[0].t]) else []) + ReleasedIn(Execute(s, script[0]), script[1..])
  }

  lemma Regroup(a: seq<Block>, b: seq<Block>, c: seq<Block>)
    ensures a + b + c == a + (b + c) && a + [] == a && [] + c == c
  {
  }

  /** Exactly `reset` and destruction free, and exactly `release` releases, what the pointer owns. */
  lemma {:induction false} Destinations(s: State, script: seq<Command>)
    requires WellFormed(s) && LegalAll(s, script)
    ensures ExecuteAll(s, script).freed == s.freed + FreedIn(s, script)
    ensures ExecuteAll(s, script).released == s.released + ReleasedIn(s, script)
    decreases |script|
  {
    if script != [] {
      var s', rest := Execute(s, script[0]), script[1..];
      Destinations(s', rest);
      Regroup(s.freed, Blocks(s.held[script[0].t]), FreedIn(s', rest));
      Regroup(s.released, Blocks(s.held[script[0].t]), ReleasedIn(s', rest));
    }
  }

  datatype Trail = In(slot: nat) | LetGo

  /** Where a command takes what slot `i` owns. */
  function Follow(c: Command, i: nat): Trail {
    if (c.MoveConstruct? || c.MoveAssign?) && c.from == i && c.t != i then In(c.t)
    else if c.MoveAssign? && c.t == i && c.from != i then LetGo
    else if (c.Release? || c.Reset? || c.Destroy?) && c.t == i then LetGo
    else In(i)
  }

  function FollowAll(script: seq<Command>, i: nat): Trail
    decreases |script|
  {
    if script == [] then In(i)
    else
      var f := Follow(script[0], i);
      if f.LetGo? then LetGo else FollowAll(script[1..], f.slot)
  }

  lemma CommandFollows(s: State, c: Command, i: nat)
    requires WellFormed(s) && Legal(s, c) && OnePlace(s) && i < |s.held| && s.held[i].Owns?
    ensures var f := Follow(c, i);
      if f.In? then f.slot < |s.held| && Execute(s, c).held[f.slot] == s.held[i]
      else s.held[i] !in Execute(s, c).held
  {
    forall j | 0 <= j < |s.held| && j != i ensures s.held[j] != s.held[i] {
      OwnersDiffer(s, i, j);
    }
  }

  lemma {:induction false} StaysAway(s: State, script: seq<Command>, b: Block)
    requires WellFormed(s) && LegalAll(s, script) && Allocated(s, b) && Owns(b) !in s.held
    ensures Owns(b) !in ExecuteAll(s, script).held
    decreases |script|
  {
    if script != [] {
      StaysAway(Execute(s, script[0]), script[1..], b);
    }
  }

  /** A block is where the moves took it: following the moves from its owner leads to the slot that owns
      it at the end, and nothing owns it once it was let go. */
  lemma {:induction false} BlocksFollowMoves(s: State, script: seq<Command>, i: nat)
    requires WellFormed(s) && LegalAll(s, script) && OnePlace(s) && i < |s.held| && s.held[i].Owns?
    ensures var f := FollowAll(script, i);
      if f.In? then f.slot < |s.held| && ExecuteAll(s, script).held[f.slot] == s.held[i]
      else s.held[i] !in ExecuteAll(s, script).held
    decreases |script|
  {
    if script != [] {
      var s', f := Execute(s, script[0]), Follow(script[0], i);
      CommandFollows(s, script[0], i);
      CommandKeepsOnePlace(s, script[0]);
      if f.In? {
        BlocksFollowMoves(s', script[1..], f.slot);
      } else {
        assert Places(s, s.held[i].block) == if Allocated(s, s.held[i].block) then 1 else 0;
        SlotWritten(s.held, i, Nothing, s.held[i].block);
        StaysAway(s', script[1..], s.held[i].block);
      }
    }
  }

  // ---- freeing through the wrong allocator ---------------------------------------------

  /** Every pointer could be destroyed, now and after every prefix of the script. */
  ghost predicate MatchedThroughout(s: State, script: seq<Command>)
    requires WellFormed(s) && LegalAll(s, script)
    decreases |script|
  {
    && AllMatch(s)
    && (script != [] ==> MatchedThroughout(Execute(s, script[0]), script[1..]))
  }

  /** Some move assignment takes a block from a pointer into one of another allocator. */
  predicate Crosses(s: State, script: seq<Command>)
    requires WellFormed(s) && LegalAll(s, script)
    decreases |script|
  {
    && script != []
    && (Crossing(s, script[0]) || Crosses(Execute(s, script[0]), script[1..]))
  }

  ghost predicate AllMatch(s: State)
    requires WellFormed(s)
  {
    forall t :: 0 <= t < |s.held| ==> Matches(s, t)
  }

  predicate Crossing(s: State, c: Command)
    requires WellFormed(s) && Legal(s, c)
  {
    c.MoveAssign? && c.t != c.from && s.held[c.from].Owns? && s.allocators[c.t] != s.allocators[c.from]
  }

  lemma CommandMatches(s: State, c: Command)
    requires WellFormed(s) && Legal(s, c) && AllMatch(s)
    ensures AllMatch(Execute(s, c)) <==> !Crossing(s, c)
  {
    var s' := Execute(s, c);
    if Crossing(s, c) {
      assert Matches(s, c.from) && !Matches(s', c.t);
    } else {
      forall t | 0 <= t < |s'.held| ensures Matches(s', t) {
        assert Matches(s, t);
        if c.MoveAssign? || c.MoveConstruct? {
          assert Matches(s, c.from);
        }
      }
    }
  }

  /** No pointer ever owns a block it would free through the wrong allocator exactly when no move
      assignment takes a block across allocators. */
  lemma {:induction false} MatchedIffNeverCrossed(s: State, script: seq<Command>)
    requires WellFormed(s) && LegalAll(s, script) && AllMatch(s)
    ensures MatchedThroughout(s, script) <==> !Crosses(s, script)
    decreases |script|
  {
    if script != [] {
      var s' := Execute(s, script[0]);
      CommandMatches(s, script[0]);
      if AllMatch(s') {
        MatchedIffNeverCrossed(s', script[1..]);
      }
    }
  }

  /** A crossing, concretely: the second pointer would free the first memory's block through the
      second memory, so destroying it is not legal. */
  lemma CrossingExample()
    ensures var s0 := State([0, 1], [Nothing, Nothing], [0, 0], [], [], []);
      var script := [Allocate(0, 0), MoveAssign(1, 0)];
      && Vacant(s0, 2, 2) && LegalAll(s0, script)
      && ExecuteAll(s0, script).held == [Nothing, Owns(Block(0, 0))]
      && !Legal(ExecuteAll(s0, script), Destroy(1))
  {
  }

  // ---- the pointers themselves ---------------------------------------------------------

  function NumbersIn(blocks: seq<Block>, m: nat): seq<nat> {
    if blocks == [] then [] else
      var n := |blocks| - 1;
      NumbersIn(blocks[..n], m) + if blocks[n].memory == m then [blocks[n].number] else []
  }

  lemma NumbersAdded(blocks: seq<Block>, h: Holding, m: nat)
    ensures NumbersIn(blocks + Blocks(h), m)
         == NumbersIn(blocks, m) + if h.Owns? && h.block.memory == m then [h.block.number] else []
  {
    if h.Owns? {
      assert (blocks + [h.block])[..|blocks|] == blocks;
    } else {
      assert blocks + [] == blocks;
    }
  }

  function PointerTo(h: Holding): Pointer {
    if h.Owns? then To(h.block.number) else Null
  }

  /** The pointer objects are as the state says. */
  ghost predicate PointersAre(pointers: seq<AllocatedPointer>, memories: seq<Memory>, s: State)
    reads pointers
  {
    && WellFormed(s) && NoDup(pointers) && |s.held| == |pointers| && |s.next| == |memories|
    && forall i :: 0 <= i < |pointers| ==>
         pointers[i].memory == memories[s.allocators[i]] && pointers[i].ptr == PointerTo(s.held[i])
  }

  /** The memories are as the state says, and every owned block is live. */
  ghost predicate MemoriesAre(memories: seq<Memory>, s: State)
    reads memories
  {
    && NoDup(memories) && |s.next| == |memories|
    && (forall m :: 0 <= m < |memories| ==>
          memories[m].Valid() && memories[m].next == s.next[m] && memories[m].freed == NumbersIn(s.freed, m))
    && (forall h :: h in s.held && h.Owns? ==>
          h.block.memory < |memories| && h.block.number in memories[h.block.memory].live)
  }

  /** No two pointers own the same block. */
  lemma OwnersDiffer(s: State, i: nat, j: nat)
    requires OnePlace(s) && i < |s.held| && j < |s.held| && i != j && s.held[i].Owns?
    ensures s.held[i] != s.held[j]
  {
    var b := s.held[i].block;
    assert Places(s, b) <= 1;
    SlotWritten(s.held, i, Nothing, b);
    SlotWritten(s.held[i := Nothing], j, Nothing, b);
  }

  lemma OwningLess(memories: seq<Memory>, s: State, s': State)
    requires MemoriesAre(memories, s) && s'.next == s.next && s'.freed == s.freed
    requires forall i :: 0 <= i < |s'.held| ==> s'.held[i] == Nothing || s'.held[i] in s.held
    ensures MemoriesAre(memories, s')
  {
  }

  /** A command that frees and allocates nothing needs nothing new of the memories. */
  lemma MemoriesUnaffected(memories: seq<Memory>, s: State, c: Command)
    requires WellFormed(s) && MemoriesAre(memories, s) && Legal(s, c) && Rearranges(s, c)
    ensures MemoriesAre(memories, Execute(s, c))
  {
    assert s.freed + [] == s.freed;
    OwningLess(memories, s, Execute(s, c));
  }

  predicate Rearranges(s: State, c: Command)
    requires WellFormed(s) && Legal(s, c)
  {
    !c.Allocate? && (c.Reset? || c.Destroy? ==> s.held[c.t] == Nothing)
  }

  method FreeOwned(p: AllocatedPointer, destroys: bool)
    requires p.memory.Valid() && p.ptr.To? && p.ptr.block in p.memory.live
    modifies p`ptr, p.memory
    ensures p.ptr == Null && p.memory.Valid() && p.memory.next == old(p.memory.next)
    ensures p.memory.live == old(p.memory.live) - {old(p.ptr.block)}
    ensures p.memory.freed == old(p.memory.freed) + [old(p.ptr.block)]
  {
    if destroys {
      p.Destroy();
      p.Release();
    } else {
      p.Reset();
    }
  }

  /** Freeing the block of slot `t`, by `reset` or by the destructor, leaves the others' blocks live. */
  method Free(pointers: seq<AllocatedPointer>, memories: seq<Memory>, t: nat, destroys: bool, ghost s: State)
    requires PointersAre(pointers, memories, s) && MemoriesAre(memories, s) && OnePlace(s)
    requires t < |pointers| && s.held[t].Owns? && Matches(s, t)
    modifies pointers[t], memories[s.allocators[t]]
    ensures PointersAre(pointers, memories, Freed(s, t)) && MemoriesAre(memories, Freed(s, t))
  {
    forall i | 0 <= i < |s.held| && i != t ensures s.held[i] != s.held[t] {
      OwnersDiffer(s, t, i);
    }
    forall m: nat ensures NumbersIn(s.freed + Blocks(s.held[t]), m)
      == NumbersIn(s.freed, m) + if s.held[t].block.memory == m then [s.held[t].block.number] else []
    {
      NumbersAdded(s.freed, s.held[t], m);
    }
    assert s.held[t] in s.held;
    FreeOwned(pointers[t], destroys);
  }

  method Make(pointers: seq<AllocatedPointer>, memories: seq<Memory>, t: nat, m: nat, ghost s: State)
    returns (r: seq<AllocatedPointer>)
    requires PointersAre(pointers, memories, s) && MemoriesAre(memories, s) && Legal(s, Allocate(t, m))
    modifies memories
    ensures PointersAre(r, memories, Execute(s, Allocate(t, m))) && MemoriesAre(memories, Execute(s, Allocate(t, m)))
    ensures forall i :: 0 <= i < |r| ==> r[i] in pointers || fresh(r[i])
  {
    var p := AllocateObject(memories[m], Allocates);
    r := pointers[t := p];
  }

  /** The commands that free and allocate nothing. */
  method Rearrange(pointers: seq<AllocatedPointer>, memories: seq<Memory>, c: Command, ghost s: State)
    returns (r: seq<AllocatedPointer>)
    requires PointersAre(pointers, memories, s) && Legal(s, c)
    requires Rearranges(s, c)
    modifies pointers
    ensures PointersAre(r, memories, Execute(s, c))
    ensures forall i :: 0 <= i < |r| ==> r[i] in pointers || fresh(r[i])
  {
    r := pointers;
    if c.MoveConstruct? {
      var p := new AllocatedPointer.Move(pointers[c.from]);
      r := pointers[c.t := p];
    } else if c.MoveAssign? {
      pointers[c.t].MoveAssign(pointers[c.from]);
    } else if c.Release? {
      pointers[c.t].Release();
    }
  }

  /** One command on real pointers and memories: only live blocks are freed, through their own
      memory, and everything ends up as the state says. */
  method Perform(pointers: seq<AllocatedPointer>, memories: seq<Memory>, c: Command, ghost s: State)
    returns (r: seq<AllocatedPointer>)
    requires PointersAre(pointers, memories, s) && MemoriesAre(memories, s) && OnePlace(s) && Legal(s, c)
    modifies pointers, memories
    ensures PointersAre(r, memories, Execute(s, c)) && MemoriesAre(memories, Execute(s, c))
    ensures forall i :: 0 <= i < |r| ==> r[i] in pointers || fresh(r[i])
  {
    r := pointers;
    if c.Allocate? {
      r := Make(pointers, memories, c.t, c.memory, s);
    } else if (c.Reset? || c.Destroy?) && pointers[c.t].ptr.To? {
      Free(pointers, memories, c.t, c.Destroy?, s);
    } else {
      MemoriesUnaffected(memories, s, c);
      r := Rearrange(pointers, memories, c, s);
    }
  }

  /** Any script that frees nothing through a foreign allocator. */
  method RunScript(pointers: seq<AllocatedPointer>, memories: seq<Memory>, script: seq<Command>, ghost s: State)
    returns (r: seq<AllocatedPointer>)
    requires PointersAre(pointers, memories, s) && MemoriesAre(memories, s) && OnePlace(s) && LegalAll(s, script)
    modifies pointers, memories
    ensures PointersAre(r, memories, ExecuteAll(s, script)) && MemoriesAre(memories, ExecuteAll(s, script))
    decreases |script|
  {
    r := pointers;
    if script != [] {
      CommandKeepsOnePlace(s, script[0]);
      r := Perform(pointers, memories, script[0], s);
      r := RunScript(r, memories, script[1..], Execute(s, script[0]));
    }
  }
}
