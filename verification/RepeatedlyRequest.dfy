/** The callback form of `repeatedly_request`, field by field and guard by guard. */
module RepeatedlyRequest {
  import opened Ownership
  import RS = RequestSpec

  class CallbackOperation {
    const memory: Memory            // of RPC contexts
    const counter: WorkCounter
    var started: bool
    var alive: bool                 // the operation object exists
    var stopped: bool
    var rpcContext: Pointer         // the raw pointer field; overwritten by each re-arming
    var tags: nat                   // completion-queue entries whose tag is this operation
    var queued: nat                 // work-queue entries that are this operation
    var handed: set<nat>
    var requests: nat
    var handled: nat
    var completed: nat

    ghost predicate Valid()
      reads this, memory
    {
      && memory.Valid()
      && (alive ==> started && tags + queued <= 1)
      && (!alive ==> tags == 0 && queued == 0)
      && (tags == 1 ==> rpcContext.To? && rpcContext.block in memory.live && rpcContext.block !in handed)
      && handed <= memory.live
    }

    ghost function Place(): RS.Where
      requires Valid()
      reads this, memory
    {
      if !started then RS.NotStarted
      else if !alive then RS.Gone
      else if tags == 1 then RS.InFlight(rpcContext.block)
      else if queued == 1 then RS.Queued
      else RS.Lost
    }

    ghost function View(): RS.State
      requires Valid()
      reads this, memory, counter
    {
      RS.State(Place(), stopped, memory.next, handed, memory.freed, counter.work, requests, handled, completed)
    }

    constructor ()
      ensures Valid() && View() == RS.FRESH && fresh(memory) && fresh(counter)
    {
      memory := new Memory();
      counter := new WorkCounter(0);
      started, alive, stopped := false, false, false;
      rpcContext, tags, queued, handed := Null, 0, 0, {};
      requests, handled, completed := 0, 0, 0;
    }

    method Cancel()
      requires Valid()
      modifies this`stopped
      ensures Valid() && View() == RS.Step(old(View()), RS.Cancel)
    {
      stopped := true;
    }

    /** `initiate_repeatedly_request`. On success the field names the new context, the request owns
        it, and one more unit of work is counted. */
    method Initiate(allocates: bool) returns (r: Initiation)
      requires Valid() && alive && tags == 0 && queued == 0
      modifies this`rpcContext, this`tags, this`requests, memory, counter
      ensures Valid()
      ensures r == if stopped then Stopped else if allocates then Repeated else Threw
      ensures r == Repeated ==>
        && tags == 1 && rpcContext == To(old(memory.next)) && requests == old(requests) + 1
        && memory.next == old(memory.next) + 1 && memory.live == old(memory.live) + {old(memory.next)}
        && memory.freed == old(memory.freed) && counter.work == old(counter.work) + 1
      ensures r != Repeated ==>
        && tags == 0 && rpcContext == old(rpcContext) && requests == old(requests)
        && memory.next == old(memory.next) && memory.live == old(memory.live)
        && memory.freed == old(memory.freed) && counter.work == old(counter.work)
    {
      if stopped {
        return Stopped;
      }
      var nextContext := AllocateObject(memory, if allocates then Allocates else AllocationThrows);
      if nextContext == null {
        return Threw;
      }
      rpcContext := nextContext.ptr;
      counter.Started();
      tags := tags + 1;
      requests := requests + 1;
      nextContext.Release();
      nextContext.Destroy();
      return Repeated;
    }

    /** The initiating function: the operation's own unit of work is counted first, and returned if
        it throws. */
    method Start(allocates: bool, connects: bool, contextAllocates: bool, stopEarly: bool) returns (threw: bool)
      requires Valid() && !started
      modifies this, memory, counter
      ensures Valid() && View() == RS.Step(old(View()), RS.Start(allocates, connects, contextAllocates, stopEarly))
      ensures threw == RS.Launch(old(View()), RS.Start(allocates, connects, contextAllocates, stopEarly)).1
    {
      counter.Started();
      var onExit := new WorkGuard(counter);
      threw := Launch(allocates, connects, contextAllocates, stopEarly);
      if !threw {
        onExit.Release();
      }
      onExit.Destroy();
    }

    /** Allocate the operation, connect cancellation, and make the first request or queue the
        operation if it is already cancelled; the allocation guard destroys it on a throw. */
    method Launch(allocates: bool, connects: bool, contextAllocates: bool, stopEarly: bool) returns (threw: bool)
      requires Valid() && !started
      modifies this, memory, counter
      ensures Valid()
      ensures (View(), threw) == RS.Launch(old(View()), RS.Start(allocates, connects, contextAllocates, stopEarly))
    {
      if !allocates {
        return true;
      }
      var wasStopped := stopped;
      started, alive := true, true;
      if !connects {
        started, alive := false, false;
        return true;
      }
      stopped := stopped || stopEarly;
      var r := FirstRequest(contextAllocates);
      if r == Threw {
        started, alive, stopped := false, false, wasStopped;
      }
      return r == Threw;
    }

    /** The free function `initiate_repeatedly_request`: queue the operation if not initiated. */
    method FirstRequest(allocates: bool) returns (r: Initiation)
      requires Valid() && alive && tags == 0 && queued == 0
      modifies this`rpcContext, this`tags, this`requests, this`queued, memory, counter
      ensures Valid() && memory.freed == old(memory.freed)
      ensures r == if stopped then Stopped else if allocates then Repeated else Threw
      ensures queued == if r == Stopped then 1 else 0
      ensures tags == if r == Repeated then 1 else 0
      ensures r == Repeated ==> rpcContext == To(old(memory.next))
      ensures requests == old(requests) + tags && memory.next == old(memory.next) + tags
      ensures counter.work == old(counter.work) + tags
    {
      r := Initiate(allocates);
      if r == Stopped {
        queued := queued + 1;
      }
    }

    /** The loop takes the tag out of the completion queue, completes the operation and returns the
        unit of work that the request had. */
    method TakeTag(d: RS.Delivery)
      returns (threw: bool, given: Pointer)
      requires Valid() && tags == 1
      modifies this, memory, counter
      ensures Valid() && View() == RS.Step(old(View()), RS.RequestDone(d))
      ensures given.To? ==> given == old(rpcContext) && (tags == 1 ==> rpcContext != given)
      ensures given.To? <==> d.invoke && d.ok && (old(stopped) || d.rearmAllocates)
      ensures handled == old(handled) + (if given.To? then 1 else 0) && (given.To? ==> given.block in handed)
      ensures threw <==> d.invoke && d.ok && (d.handlerThrows || (!old(stopped) && !d.rearmAllocates))
    {
      tags := tags - 1;
      var onExit := new WorkGuard(counter);
      threw, given := OnRequestComplete(d);
      onExit.Destroy();
    }

    /** `on_request_complete`. The context handed over is the one of the finished request, although
        the field may by then name the next one. */
    method OnRequestComplete(d: RS.Delivery)
      returns (threw: bool, given: Pointer)
      requires Valid() && alive && tags == 0 && queued == 0
      requires rpcContext.To? && rpcContext.block in memory.live && rpcContext.block !in handed
      modifies this, memory, counter
      ensures Valid()
      ensures View() == RS.OnRequest(old(View()), old(rpcContext.block), d)
      ensures given.To? ==> given == old(rpcContext) && (tags == 1 ==> rpcContext != given)
      ensures given.To? <==> d.invoke && d.ok && (old(stopped) || d.rearmAllocates)
      ensures handled == old(handled) + (if given.To? then 1 else 0) && (given.To? ==> given.block in handed)
      ensures threw <==> d.invoke && d.ok && (d.handlerThrows || (!old(stopped) && !d.rearmAllocates))
    {
      given, threw := Null, false;
      var ptr := new AllocatedPointer(rpcContext, memory);
      if d.invoke && d.ok {
        threw, given := OnRequestOk(ptr, d);
      } else if d.invoke {
        ptr.Reset();
        queued := queued + 1;
      } else {
        OnDrained(ptr);
      }
      ptr.Destroy();
    }

    /** A request arrived: re-arm first, then call the handler; whether or not it throws, the
        operation is queued afterwards if it was not re-armed. */
    method OnRequestOk(ptr: AllocatedPointer, d: RS.Delivery)
      returns (threw: bool, given: Pointer)
      requires Valid() && alive && tags == 0 && queued == 0 && ptr.memory == memory
      requires ptr.ptr.To? && ptr.ptr.block in memory.live && ptr.ptr.block !in handed
      modifies this`rpcContext, this`tags, this`requests, this`queued, this`handed, this`handled, this`stopped, memory, counter, ptr
      ensures Valid() && memory.freed == old(memory.freed)
      ensures old(stopped) ==>
        && queued == 1 && tags == 0 && memory.next == old(memory.next) && requests == old(requests)
        && counter.work == old(counter.work)
      ensures !old(stopped) && d.rearmAllocates ==>
        && queued == 0 && tags == 1 && rpcContext == To(old(memory.next))
        && memory.next == old(memory.next) + 1 && requests == old(requests) + 1
        && counter.work == old(counter.work) + 1
      ensures threw <==> d.handlerThrows || (!old(stopped) && !d.rearmAllocates)
      ensures old(stopped) || d.rearmAllocates ==>
        && given == old(ptr.ptr) && ptr.ptr == Null
        && handed == old(handed) + {given.block} && handled == old(handled) + 1
        && stopped == (old(stopped) || d.cancelInHandler)
      ensures !old(stopped) && !d.rearmAllocates ==>
        && threw && given == Null && tags == 0 && queued == 0 && ptr.ptr == old(ptr.ptr)
        && ptr.ptr.block in memory.live && memory.next == old(memory.next) && requests == old(requests)
        && counter.work == old(counter.work) && handed == old(handed) && handled == old(handled) && !stopped
    {
      given := Null;
      var r := Initiate(d.rearmAllocates);
      if r == Threw {
        return true, given;
      }
      given := HandOver(ptr, d.cancelInHandler);
      threw := d.handlerThrows;
      if r == Stopped {
        queued := queued + 1;
      }
    }

    /** The context is being destroyed: free the RPC context and the operation, unsignalled. */
    method OnDrained(ptr: AllocatedPointer)
      requires Valid() && alive && tags == 0 && queued == 0 && ptr.memory == memory
      requires ptr.ptr.To? && ptr.ptr.block in memory.live && ptr.ptr.block !in handed
      modifies this`alive, memory, counter, ptr
      ensures Valid() && !alive && ptr.ptr == Null && counter.work == old(counter.work) - 1
      ensures memory.next == old(memory.next) && memory.freed == old(memory.freed) + [old(ptr.ptr.block)]
    {
      ptr.Reset();
      var onExit := new WorkGuard(counter);
      alive := false;
      onExit.Destroy();
    }

    /** The pointer is moved into the request context given to the handler, which may cancel. */
    method HandOver(ptr: AllocatedPointer, cancels: bool) returns (given: Pointer)
      requires ptr.ptr.To?
      modifies this`handed, this`handled, this`stopped, ptr`ptr
      ensures given == old(ptr.ptr) && ptr.ptr == Null && stopped == (old(stopped) || cancels)
      ensures handed == old(handed) + {given.block} && handled == old(handled) + 1
    {
      var requestContext := new AllocatedPointer.Move(ptr);
      given := requestContext.ptr;
      handed := handed + {given.block};
      handled := handled + 1;
      stopped := stopped || cancels;
    }

    /** The loop pops the queued operation: it destroys itself, then runs its completion handler
        unless the context is draining. */
    method OnDequeued(invoke: bool)
      requires Valid() && alive && queued == 1
      modifies this, counter
      ensures Valid() && View() == RS.Step(old(View()), RS.Dequeued(invoke))
    {
      queued := queued - 1;
      var loopGuard := new WorkGuard(counter);
      alive := false;
      if invoke {
        completed := completed + 1;
      }
      loopGuard.Destroy();
    }

    /** A throw elsewhere makes the loop drop the queue this operation waits in: nothing is destroyed
        and no work is returned. */
    method OnLoopDrops()
      requires Valid() && alive && queued == 1
      modifies this`queued
      ensures Valid() && View() == RS.Step(old(View()), RS.LoopDrops)
    {
      queued := queued - 1;
    }

    /** The handler's side destroys a request context it was given. */
    method OnDropped(context: nat)
      requires Valid() && context in handed
      modifies this`handed, memory
      ensures Valid() && View() == RS.Step(old(View()), RS.Dropped(context))
    {
      var owner := new AllocatedPointer(To(context), memory);
      handed := handed - {context};
      owner.Destroy();
    }
  }
}
