/** The coroutine form of `repeatedly_request`, with destructors as explicit calls. */
module RepeatedlyRequestAwaitable {
  import opened Ownership
  import opened Submission
  import AS = RequestAwaitableSpec

  class AwaitableOperation {
    const counter: WorkCounter
    const buffer: OneShotBuffer     // the storage inside buffer_operation
    var started: bool
    var alive: bool                 // the operation object exists
    var stopped: bool
    var entries: nat                // queued first resumptions of spawned coroutines
    var tags: nat                   // requests in flight
    var queued: nat                 // work-queue entries that are this operation
    var bufferQueued: nat           // work-queue entries that are the buffer operation
    var bufferLive: bool
    var leaked: nat                 // entries of coroutines that the loop dropped
    var handlers: nat
    var handled: nat
    var completed: nat

    ghost predicate Valid()
      reads this, buffer
    {
      && (alive ==> started && bufferLive && bufferQueued == 0 && entries + tags + queued + leaked <= 1)
      && (!alive ==> entries == 0 && tags == 0 && queued == 0)
      && (started && !alive ==> bufferQueued <= 1 && (bufferQueued == 1 ==> bufferLive))
      && (!started ==> !bufferLive && bufferQueued == 0 && leaked == 0)
      && buffer.live == tags && buffer.peak <= 1
    }

    ghost function Place(): AS.Where
      reads this
    {
      if !started then AS.NotStarted
      else if !alive then AS.Gone
      else if entries == 1 then AS.Spawned
      else if tags == 1 then AS.Suspended
      else if queued == 1 then AS.Queued
      else if leaked == 1 then AS.LostSpawned
      else AS.Lost
    }

    ghost function BufferPlace(): AS.BufferPlace
      reads this
    {
      if !started then AS.Unallocated
      else if alive then AS.Owned
      else if bufferQueued == 1 then AS.BufferQueued
      else if bufferLive then AS.BufferLost
      else AS.Freed
    }

    ghost function View(): AS.State
      reads this, buffer, counter
    {
      AS.State(Place(), BufferPlace(), buffer.live > 0, stopped, counter.work, buffer.constructed,
               handlers, handled, completed)
    }

    constructor ()
      ensures Valid() && View() == AS.FRESH && fresh(counter) && fresh(buffer)
    {
      counter := new WorkCounter(0);
      buffer := new OneShotBuffer();
      started, alive, stopped, bufferLive := false, false, false, false;
      entries, tags, queued, bufferQueued, leaked := 0, 0, 0, 0, 0;
      handlers, handled, completed := 0, 0, 0;
    }

    method Cancel()
      requires Valid()
      modifies this`stopped
      ensures Valid() && View() == AS.Step(old(View()), AS.Cancel)
    {
      stopped := true;
    }

    /** `initiate_repeatedly_request`: spawning queues the coroutine, which counts as work. Making the
        coroutine's frame, or spawning it, may throw. */
    method Initiate(spawns: bool) returns (r: Initiation)
      requires alive && entries == 0
      modifies this`entries, counter
      ensures r == if stopped then Stopped else if spawns then Repeated else Threw
      ensures entries == if r == Repeated then 1 else 0
      ensures counter.work == old(counter.work) + entries
    {
      if stopped {
        return Stopped;
      }
      if !spawns {
        return Threw;
      }
      counter.Started();
      entries := entries + 1;
      return Repeated;
    }

    /** The initiating function: the operation's own unit of work is counted first, and returned if
        it throws. */
    method Start(l: AS.Launch) returns (threw: bool)
      requires Valid() && !started
      modifies this, counter
      ensures Valid() && View() == AS.Step(old(View()), AS.Start(l))
      ensures threw <==> AS.LaunchThrows(old(View()), l)
    {
      counter.Started();
      var onExit := new WorkGuard(counter);
      threw := true;
      if l.allocates {
        threw := Launch(l);
        if !threw {
          onExit.Release();
        }
      }
      onExit.Destroy();
    }

    /** Constructing the operation allocates the buffer and counts it; a throw after that destroys the
        operation through its owning pointer. */
    method Launch(l: AS.Launch) returns (threw: bool)
      requires Valid() && !started && l.allocates
      modifies this, counter
      ensures Valid() && View() == AS.Launched(old(View()), l)
      ensures threw <==> AS.LaunchThrows(old(View()), l)
    {
      started, alive, bufferLive := true, true, true;
      counter.Started();
      if !l.connects {
        DestroyOperation();
        return true;
      }
      stopped := stopped || l.stopEarly;
      threw := SpawnFirst(l.spawns);
    }

    /** The free function `initiate_repeatedly_request`: queue the operation if not initiated. */
    method SpawnFirst(spawns: bool) returns (threw: bool)
      requires Valid() && alive && entries == 0 && tags == 0 && queued == 0 && leaked == 0
      modifies this, counter
      ensures Valid() && threw == (!old(stopped) && !spawns)
      ensures View() == if threw then AS.Destroyed(old(View())) else AS.SpawnOrQueue(old(View()))
    {
      var r := Initiate(spawns);
      if r == Threw {
        DestroyOperation();
      } else if r == Stopped {
        queued := queued + 1;
      }
      return r == Threw;
    }

    /** The body runs up to its `co_await`: the RPC context is made, then the guard is armed and the
        request's operation is placed in the buffer. */
    method EnterBody(constructs: bool)
      requires Valid() && entries == 1
      modifies this`entries, this`tags, buffer, counter
      ensures Valid() && View() == AS.Step(old(View()), AS.EnterBody(constructs))
    {
      entries := entries - 1;
      var loopGuard := new WorkGuard(counter);
      if constructs {
        counter.Started();
        buffer.Construct();
        tags := tags + 1;
      }
      loopGuard.Destroy();
    }

    /** The queued first resumption is destroyed unrun: no guard exists yet. */
    method DrainEntry()
      requires Valid() && entries == 1
      modifies this`entries, counter
      ensures Valid() && View() == AS.Step(old(View()), AS.DrainEntry)
    {
      entries := entries - 1;
      var loopGuard := new WorkGuard(counter);
      loopGuard.Destroy();
    }

    /** The request completes: its operation leaves the buffer, then the coroutine resumes. */
    method OnAnswered(a: AS.Answer) returns (threw: bool)
      requires Valid() && tags == 1
      modifies this, buffer, counter
      ensures Valid() && View() == AS.Step(old(View()), AS.Answered(a))
      ensures threw <==> AS.ResumeThrows(old(View()), a)
    {
      tags := tags - 1;
      var loopGuard := new WorkGuard(counter);
      buffer.DestroyObject();
      threw := Resume(a);
      loopGuard.Destroy();
    }

    /** The body after its `co_await`: the guard is released, then the handler is copied and the
        successor spawned, into the vacated buffer, before the request is handled. */
    method Resume(a: AS.Answer) returns (threw: bool)
      requires Valid() && alive && entries == 0 && tags == 0 && queued == 0 && leaked == 0
      modifies this, counter
      ensures Valid() && View() == AS.Resumed(old(View()), a)
      ensures threw <==> AS.ResumeThrows(old(View()), a)
    {
      if !a.ok {
        queued := queued + 1;
        return false;
      }
      if !a.copies {
        return true;
      }
      var r := Initiate(a.spawns);
      if r == Threw {
        return true;
      }
      if r == Stopped {
        queued := queued + 1;
      }
      handlers, handled := handlers + 1, handled + 1;
      stopped := stopped || a.cancelInHandler;
      return false;
    }

    /** `~RepeatedlyRequestAwaitableOperation` queues the buffer; its memory is still there. */
    method DestroyOperation()
      requires alive && bufferLive && bufferQueued == 0 && entries == 0 && queued == 0
      modifies this`alive, this`bufferQueued
      ensures !alive && bufferQueued == 1
    {
      bufferQueued := bufferQueued + 1;
      alive := false;
    }

    /** The request is discarded: destroying its handler destroys the suspended coroutine, whose guard
        destroys the operation and returns its work, all while the request's own operation is being
        destroyed in the buffer. */
    method OnDrainRequest()
      requires Valid() && tags == 1
      modifies this, buffer, counter
      ensures Valid() && View() == AS.Step(old(View()), AS.DrainRequest)
    {
      tags := tags - 1;
      var loopGuard := new WorkGuard(counter);
      var onExit := new WorkGuard(counter);
      DestroyOperation();
      onExit.Destroy();
      assert bufferLive;
      buffer.DestroyObject();
      loopGuard.Destroy();
    }

    method OnDequeued(invoke: bool)
      requires Valid() && queued == 1
      modifies this, counter
      ensures Valid() && View() == AS.Step(old(View()), AS.Dequeued(invoke))
    {
      queued := queued - 1;
      var loopGuard := new WorkGuard(counter);
      DestroyOperation();
      if invoke {
        completed := completed + 1;
      }
      loopGuard.Destroy();
    }

    /** `BufferOperation::do_complete` frees the storage: only ever an empty one. */
    method OnBufferDequeued()
      requires Valid() && bufferQueued == 1
      modifies this`bufferQueued, this`bufferLive, counter
      ensures Valid() && View() == AS.Step(old(View()), AS.BufferDequeued)
      ensures buffer.live == 0
    {
      bufferQueued := bufferQueued - 1;
      var loopGuard := new WorkGuard(counter);
      bufferLive := false;
      loopGuard.Destroy();
    }

    /** A throw elsewhere makes the loop drop the queue this entry waits in: nothing is destroyed and no
        work is returned. */
    method OnLoopDrops(what: AS.Entry)
      requires Valid() && AS.Waits(View(), what)
      modifies this`queued, this`entries, this`leaked, this`bufferQueued
      ensures Valid() && View() == AS.Step(old(View()), AS.LoopDrops(what))
    {
      if what == AS.TheOperation {
        queued := queued - 1;
      } else if what == AS.TheCoroutine {
        entries, leaked := entries - 1, leaked + 1;
      } else {
        bufferQueued := bufferQueued - 1;
      }
    }

    method OnHandlerEnds()
      requires Valid() && handlers > 0
      modifies this`handlers
      ensures Valid() && View() == AS.Step(old(View()), AS.HandlerEnds)
    {
      handlers := handlers - 1;
    }
  }
}
