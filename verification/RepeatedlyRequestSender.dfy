/** The sender form of `repeatedly_request`, field by field and guard by guard. */
module RepeatedlyRequestSender {
  import opened Ownership
  import SS = RequestSenderSpec

  /** How far `start` has come; other threads may request stop between any two of its steps. */
  datatype Phase = NotStarted | CheckingStop | Emplacing | Initiating | Returned

  class SenderOperation {
    const memory: Memory            // of handler operations
    const counter: WorkCounter
    var phase: Phase
    var requested: bool             // the receiver's stop token
    var registered: bool            // stop_callback engaged
    var stopped: bool
    var slot: Pointer               // request_handler_operation
    var tags: nat
    var live: set<nat>              // started handler operations
    var requests: nat
    var handled: nat
    var signals: seq<SS.Completion>

    ghost predicate Valid()
      reads this, memory
    {
      && memory.Valid() && live <= memory.live
      && tags + |signals| <= 1
      && (phase != Returned ==> tags == 0 && signals == [])
      && (tags == 1 ==> slot.To? && slot.block in memory.live && slot.block !in live)
    }

    ghost function Place(): SS.Where
      requires Valid()
      reads this, memory
    {
      match phase
      case NotStarted => SS.NotStarted
      case CheckingStop => SS.CheckingStop
      case Emplacing => SS.Emplacing
      case Initiating => SS.Initiating
      case Returned =>
        if tags == 1 then SS.InFlight(slot.block) else if |signals| == 1 then SS.Finished else SS.Silent
    }

    ghost function View(): SS.State
      requires Valid()
      reads this, memory, counter
    {
      SS.State(Place(), requested, registered, stopped, memory.next, live, memory.freed, counter.work,
               requests, handled, signals)
    }

    constructor ()
      ensures Valid() && View() == SS.FRESH && fresh(memory) && fresh(counter)
    {
      memory := new Memory();
      counter := new WorkCounter(0);
      phase, requested, registered, stopped := NotStarted, false, false, false;
      slot, tags, live := Null, 0, {};
      requests, handled, signals := 0, 0, [];
    }

    /** `stop_context().reset()`, then the receiver is consumed. */
    method SignalReceiver(how: SS.Completion)
      requires tags == 0 && signals == []
      modifies this`registered, this`signals
      ensures !registered && signals == [how]
    {
      registered := false;
      signals := [how];
    }

    /** `start`: nothing is started on a context that is shut down. */
    method StartBegin(shutdown: bool)
      requires Valid() && phase == NotStarted
      modifies this`phase, this`registered, this`signals
      ensures Valid() && View() == SS.Step(old(View()), SS.Begin(shutdown))
    {
      if shutdown {
        phase := Returned;
        SignalReceiver(SS.Done);
      } else {
        phase := CheckingStop;
      }
    }

    method StartCheckStop()
      requires Valid() && phase == CheckingStop
      modifies this`phase, this`registered, this`signals
      ensures Valid() && View() == SS.Step(old(View()), SS.CheckStop)
    {
      if requested {
        phase := Returned;
        SignalReceiver(SS.Done);
      } else {
        phase := Emplacing;
      }
    }

    /** Registering a callback on a token that is already stopped runs it at once; the callback
        sets the flag and deregisters itself. */
    method StartEmplace()
      requires Valid() && phase == Emplacing
      modifies this`phase, this`registered, this`stopped
      ensures Valid() && View() == SS.Step(old(View()), SS.Emplace)
    {
      registered := true;
      if requested {
        stopped := true;
        registered := false;
      }
      phase := Initiating;
    }

    /** The last step of `start`, which drops the result of the initiation. `start` is `noexcept`, so
        its allocation succeeds or the program ends. */
    method StartInitiate()
      requires Valid() && phase == Initiating
      modifies this`phase, this`slot, this`tags, this`requests, memory, counter
      ensures Valid() && View() == SS.Step(old(View()), SS.Initiate)
    {
      phase := Returned;
      var _ := Initiate(true);
    }

    /** The stop source runs the registered callback, if any. */
    method RequestStop()
      requires Valid()
      modifies this`requested, this`registered, this`stopped
      ensures Valid() && View() == SS.Step(old(View()), SS.RequestStop)
    {
      requested := true;
      if registered {
        stopped := true;
        registered := false;
      }
    }

    /** `initiate_repeatedly_request`. */
    method Initiate(allocates: bool) returns (r: Initiation)
      requires Valid() && phase == Returned && tags == 0 && signals == []
      modifies this`slot, this`tags, this`requests, memory, counter
      ensures Valid() && memory.freed == old(memory.freed)
      ensures r == if stopped then Stopped else if allocates then Repeated else Threw
      ensures tags == if r == Repeated then 1 else 0
      ensures r == Repeated ==> slot == To(old(memory.next))
      ensures memory.live == old(memory.live) + if r == Repeated then {old(memory.next)} else {}
      ensures memory.next == old(memory.next) + tags && requests == old(requests) + tags
      ensures counter.work == old(counter.work) + tags
    {
      if stopped {
        return Stopped;
      }
      var ptr := AllocateObject(memory, if allocates then Allocates else AllocationThrows);
      if ptr == null {
        return Threw;
      }
      slot := ptr.ptr;
      counter.Started();
      tags := tags + 1;
      requests := requests + 1;
      ptr.Release();
      ptr.Destroy();
      return Repeated;
    }

    /** The loop takes the tag out of the completion queue, completes the operation and returns the
        unit of work that the request had. */
    method TakeTag(d: SS.Delivery)
      requires Valid() && tags == 1
      modifies this, memory, counter
      ensures Valid() && View() == SS.Step(old(View()), SS.RequestDone(d))
    {
      tags := tags - 1;
      CompleteAndReturn(d, old(View()));
    }

    /** The loop's guard around the completion. */
    method CompleteAndReturn(d: SS.Delivery, ghost was: SS.State)
      requires Valid() && phase == Returned && tags == 0 && signals == []
      requires slot.To? && slot.block in memory.live && slot.block !in live
      requires View() == was.(place := SS.Silent)
      modifies this, memory, counter
      ensures Valid() && View() == SS.UnitReturned(SS.OnRequest(was, old(slot.block), d))
    {
      var onExit := new WorkGuard(counter);
      OnRequestComplete(d, was);
      ghost var done := View();
      onExit.Destroy();
      assert View() == SS.UnitReturned(done);
    }

    /** `on_request_complete`; `was` is the state before the tag was taken. */
    method OnRequestComplete(d: SS.Delivery, ghost was: SS.State)
      requires Valid() && phase == Returned && tags == 0 && signals == []
      requires slot.To? && slot.block in memory.live && slot.block !in live
      requires View() == was.(place := SS.Silent)
      modifies this, memory, counter
      ensures Valid() && View() == SS.OnRequest(was, old(slot.block), d)
    {
      var ptr := new AllocatedPointer(slot, memory);
      var threw := false;
      ghost var now := was;
      if d.invoke && d.ok {
        now := if d.stopInHandler then SS.StopRequested(was) else was;
        threw := OnAccepted(ptr, d, was);
      } else {
        FreeAndSignal(ptr, if !d.invoke then SS.Done else if d.valueThrows then SS.Error else SS.Value, was);
      }
      Leave(ptr, old(slot), now, SS.OnRequest(was, old(slot.block), d), threw);
    }

    /** The owning pointer goes out of scope, by an exception or not. */
    method Leave(ptr: AllocatedPointer, ghost owned: Pointer, ghost now: SS.State, ghost result: SS.State, ghost threw: bool)
      requires Valid() && ptr.memory == memory && phase == Returned && tags <= 1
      requires threw ==> tags == 0 && signals == []
      requires Settled(ptr, owned, now, result, threw)
      modifies memory
      ensures Valid() && View() == result
    {
      ptr.Destroy();
    }

    /** The request will not be handled: free its handler operation and signal the receiver. */
    method FreeAndSignal(ptr: AllocatedPointer, how: SS.Completion, ghost was: SS.State)
      requires Valid() && phase == Returned && tags == 0 && signals == [] && ptr.memory == memory
      requires ptr.ptr.To? && ptr.ptr.block in memory.live && ptr.ptr.block !in live
      requires View() == was.(place := SS.Silent)
      modifies this`registered, this`signals, memory, ptr
      ensures Valid() && ptr.ptr == Null
      ensures View() == SS.Signal(SS.Free(was, old(ptr.ptr.block)), how)
    {
      ptr.Reset();
      SignalReceiver(how);
    }

    /** The handler function is called and its sender connected before anything is re-armed. */
    method OnAccepted(ptr: AllocatedPointer, d: SS.Delivery, ghost was: SS.State) returns (threw: bool)
      requires Valid() && phase == Returned && tags == 0 && signals == [] && ptr.memory == memory
      requires ptr.ptr.To? && ptr.ptr.block in memory.live && ptr.ptr.block !in live
      requires View() == was.(place := SS.Silent)
      modifies this`slot, this`tags, this`requests, this`live, this`handled
      modifies this`requested, this`registered, this`stopped, this`signals, memory, counter, ptr
      ensures Valid()
      ensures var now := if d.stopInHandler then SS.StopRequested(was) else was;
        Settled(ptr, old(ptr.ptr), now, SS.Handle(now, old(ptr.ptr.block), d), threw)
    {
      if d.stopInHandler {
        RequestStop();
      }
      ghost var now := if d.stopInHandler then SS.StopRequested(was) else was;
      if d.connectThrows {
        threw := false;
        FreeAndSignal(ptr, SS.Error, now);
      } else {
        threw := OnConnected(ptr, d, now);
      }
    }

    /** Either nothing was thrown and `result` holds, or the pointer still owns its block, which its
        destructor will free, and nothing else has changed. */
    ghost predicate Settled(ptr: AllocatedPointer, owned: Pointer, was: SS.State, result: SS.State, threw: bool)
      requires Valid()
      reads this, memory, counter, ptr
    {
      if threw then
        && ptr.ptr == owned && owned.To? && owned.block in memory.live && owned.block !in live
        && View() == was.(place := SS.Silent) && result == SS.Free(was, owned.block).(place := SS.Silent)
      else
        ptr.ptr == Null && View() == result
    }

    /** Re-arm, start the handler's operation, give up the pointer to it, and signal if this was the
        last request. The handler's operation may have freed itself before the pointer is given up. */
    method OnConnected(ptr: AllocatedPointer, d: SS.Delivery, ghost was: SS.State) returns (threw: bool)
      requires Valid() && phase == Returned && tags == 0 && signals == [] && ptr.memory == memory
      requires ptr.ptr.To? && ptr.ptr.block in memory.live && ptr.ptr.block !in live
      requires View() == was.(place := SS.Silent)
      modifies this`slot, this`tags, this`requests, this`live, this`handled, this`registered, this`signals
      modifies memory, counter, ptr
      ensures Valid() && Settled(ptr, old(ptr.ptr), was, SS.Connected(was, old(ptr.ptr.block), d), threw)
    {
      var r := Initiate(d.rearmAllocates);
      if r == Threw {
        return true;
      }
      Proceed(ptr, r == Repeated, d, was);
      return false;
    }

    /** Start the handler's operation, give up the pointer to it, and signal if this was the last
        request. */
    method Proceed(ptr: AllocatedPointer, repeated: bool, d: SS.Delivery, ghost was: SS.State)
      requires Valid() && phase == Returned && signals == [] && ptr.memory == memory && repeated == !stopped
      requires tags == (if repeated then 1 else 0) && (d.rearmAllocates || stopped)
      requires ptr.ptr.To? && ptr.ptr.block in memory.live && ptr.ptr.block !in live
      requires repeated ==> slot != ptr.ptr
      requires View() == SS.Arm(was, was.(place := SS.Silent))
      modifies this`live, this`handled, this`registered, this`signals, memory, counter, ptr
      ensures Valid() && ptr.ptr == Null && View() == SS.Connected(was, old(ptr.ptr.block), d)
    {
      StartHandler(ptr.ptr.block, d.endsAtOnce);
      ptr.Release();
      if !repeated {
        SignalReceiver(SS.Done);
      }
    }

    /** `start_request_handler_operation`. */
    method StartHandler(handler: nat, endsAtOnce: bool)
      requires Valid() && handler in memory.live && handler !in live && (tags == 1 ==> slot != To(handler))
      modifies this`live, this`handled, memory, counter
      ensures Valid() && memory.next == old(memory.next) && handled == old(handled) + 1
      ensures live == old(live) + if endsAtOnce then {} else {handler}
      ensures memory.freed == old(memory.freed) + if endsAtOnce then [handler] else []
      ensures counter.work == old(counter.work) + if endsAtOnce then 0 else 1
    {
      counter.Started();
      handled := handled + 1;
      live := live + {handler};
      if endsAtOnce {
        HandlerEnded(handler);
        assert old(live) + {handler} - {handler} == old(live);
      }
    }

    /** Value, error or done from the handler's sender: free its operation, then return its work. */
    method HandlerEnded(handler: nat)
      requires Valid() && handler in live
      modifies this`live, memory, counter
      ensures Valid() && View() == SS.Step(old(View()), SS.HandlerEnds(handler))
    {
      var owner := new AllocatedPointer(To(handler), memory);
      live := live - {handler};
      owner.Destroy();
      counter.Finished();
    }
  }
}
