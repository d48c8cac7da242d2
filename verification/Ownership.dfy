/** Allocator memory, owning pointers and scope guards, with destructors as explicit calls. */
module Ownership {

  /** One allocator's blocks. `Deallocate` demands a live block, so a double free or a free of a
      foreign pointer cannot be verified. Block numbers are never reused. */
  class Memory {
    var live: set<nat>
    var next: nat
    ghost var freed: seq<nat>       // in the order of their destruction

    ghost predicate Valid()
      reads this
    {
      && (forall p :: p in live ==> p < next && p !in freed)
      && (forall p :: p in freed ==> p < next)
      && (forall p :: 0 <= p < next && p !in live ==> p in freed)
      && (forall i, j :: 0 <= i < j < |freed| ==> freed[i] != freed[j])
    }

    constructor ()
      ensures Valid() && live == {} && next == 0 && freed == []
    {
      live, next, freed := {}, 0, [];
    }

    method Allocate() returns (p: nat)
      requires Valid()
      modifies this
      ensures Valid() && p == old(next) && next == old(next) + 1
      ensures live == old(live) + {p} && freed == old(freed)
    {
      p := next;
      next := next + 1;
      live := live + {p};
    }

    /** Destroys the object and returns its block. */
    method Deallocate(p: nat)
      requires Valid() && p in live
      modifies this
      ensures Valid() && next == old(next)
      ensures live == old(live) - {p} && freed == old(freed) + [p]
    {
      live := live - {p};
      freed := freed + [p];
    }
  }

  datatype Pointer = Null | To(block: nat)

  /** `AllocatedPointer`: the owner of at most one block. */
  class AllocatedPointer {
    const memory: Memory
    var ptr: Pointer

    constructor (ptr: Pointer, memory: Memory)
      ensures this.ptr == ptr && this.memory == memory
    {
      this.ptr := ptr;
      this.memory := memory;
    }

    /** Move construction: the source no longer owns anything. */
    constructor Move(other: AllocatedPointer)
      modifies other`ptr
      ensures ptr == old(other.ptr) && memory == other.memory && other.ptr == Null
    {
      ptr := other.ptr;
      memory := other.memory;
      new;
      other.ptr := Null;
    }

    /** Move assignment overwrites the target without freeing what it owned. */
    method MoveAssign(other: AllocatedPointer)
      modifies this`ptr, other`ptr
      ensures this == other ==> ptr == old(ptr)
      ensures this != other ==> ptr == old(other.ptr) && other.ptr == Null
    {
      if this != other {
        ptr := other.ptr;
        other.ptr := Null;
      }
    }

    method Destroy()
      requires memory.Valid() && (ptr.To? ==> ptr.block in memory.live)
      modifies memory
      ensures memory.Valid() && memory.next == old(memory.next)
      ensures ptr == Null ==> memory.live == old(memory.live) && memory.freed == old(memory.freed)
      ensures ptr.To? ==>
        && memory.live == old(memory.live) - {ptr.block}
        && memory.freed == old(memory.freed) + [ptr.block]
    {
      if ptr.To? {
        memory.Deallocate(ptr.block);
      }
    }

    method Release()
      modifies this`ptr
      ensures ptr == Null
    {
      ptr := Null;
    }

    /** Frees unconditionally, so the pointer must own a block. */
    method Reset()
      requires memory.Valid() && ptr.To? && ptr.block in memory.live
      modifies this`ptr, memory
      ensures ptr == Null
      ensures memory.Valid() && memory.next == old(memory.next)
      ensures memory.live == old(memory.live) - {old(ptr.block)}
      ensures memory.freed == old(memory.freed) + [old(ptr.block)]
    {
      memory.Deallocate(ptr.block);
      ptr := Null;
    }
  }

  /** `AllocationGuard`: returns raw memory unless construction succeeded. */
  class AllocationGuard {
    const memory: Memory
    const block: nat
    var isAllocated: bool

    constructor (block: nat, memory: Memory)
      ensures this.block == block && this.memory == memory && isAllocated
    {
      this.block := block;
      this.memory := memory;
      isAllocated := true;
    }

    method Release() returns (p: AllocatedPointer)
      modifies this`isAllocated
      ensures !isAllocated && fresh(p) && p.ptr == To(block) && p.memory == memory
    {
      isAllocated := false;
      p := new AllocatedPointer(To(block), memory);
    }

    method Destroy()
      requires memory.Valid() && (isAllocated ==> block in memory.live)
      modifies memory
      ensures memory.Valid() && memory.next == old(memory.next)
      ensures !isAllocated ==> memory.live == old(memory.live) && memory.freed == old(memory.freed)
      ensures isAllocated ==>
        && memory.live == old(memory.live) - {block}
        && memory.freed == old(memory.freed) + [block]
    {
      if isAllocated {
        memory.Deallocate(block);
      }
    }
  }

  /** How an attempt to allocate and construct ends. */
  datatype Allocation = Allocates | AllocationThrows | ConstructorThrows

  /** How an attempt to make the next request ends. */
  datatype Initiation = Repeated | Stopped | Threw

  /** `allocate`: a pointer to a constructed object, or an exception and no memory kept. */
  method AllocateObject(memory: Memory, outcome: Allocation) returns (p: AllocatedPointer?)
    requires memory.Valid()
    modifies memory
    ensures memory.Valid()
    ensures outcome != Allocates ==> p == null && memory.live == old(memory.live)
    ensures outcome == AllocationThrows ==> memory.next == old(memory.next) && memory.freed == old(memory.freed)
    ensures outcome == ConstructorThrows ==>
      memory.next == old(memory.next) + 1 && memory.freed == old(memory.freed) + [old(memory.next)]
    ensures outcome == Allocates ==>
      && p != null && fresh(p) && p.memory == memory && p.ptr == To(old(memory.next))
      && memory.next == old(memory.next) + 1
      && memory.live == old(memory.live) + {old(memory.next)} && memory.freed == old(memory.freed)
  {
    if outcome == AllocationThrows {
      return null;
    }
    var block := memory.Allocate();
    var guard := new AllocationGuard(block, memory);
    if outcome == ConstructorThrows {
      p := null;
    } else {
      p := guard.Release();
    }
    guard.Destroy();
  }

  /** The counter `outstanding_work`. */
  class WorkCounter {
    var work: int

    constructor (work: int)
      ensures this.work == work
    {
      this.work := work;
    }

    method Started()
      modifies this
      ensures work == old(work) + 1
    {
      work := work + 1;
    }

    method Finished()
      modifies this
      ensures work == old(work) - 1
    {
      work := work - 1;
    }
  }

  /** `WorkFinishedOnExit`: a `ScopeGuard` that returns one unit of work. */
  class WorkGuard {
    const counter: WorkCounter
    var isArmed: bool

    constructor (counter: WorkCounter)
      ensures this.counter == counter && isArmed
    {
      this.counter := counter;
      isArmed := true;
    }

    method Release()
      modifies this`isArmed
      ensures !isArmed
    {
      isArmed := false;
    }

    method Destroy()
      modifies counter
      ensures counter.work == old(counter.work) - if isArmed then 1 else 0
    {
      if isArmed {
        counter.Finished();
      }
    }
  }
}
