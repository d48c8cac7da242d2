/** Vocabulary and specification of the callback form of `repeatedly_request`. */
module RequestSpec {
  import opened Sequences

  /** Where the operation is between two events. */
  datatype Where =
    | NotStarted
    | InFlight(context: nat)        // one gRPC request pending, writing into this RPC context
    | Queued                        // in a work queue, about to complete
    | Gone
    | Lost                          // in no queue and not in flight, yet never destroyed

  datatype State = State(
    place: Where,
    stopped: bool,                  // the flag behind the cancellation slot
    next: nat,                      // RPC contexts allocated so far
    handed: set<nat>,               // RPC contexts owned by the request handler's side
    freed: seq<nat>,                // RPC contexts destroyed
    work: int,                      // contribution to outstanding_work
    requests: nat,                  // requests initiated
    handled: nat,                   // calls of the request handler
    completed: nat)                 // calls of the completion handler

  const FRESH := State(NotStarted, false, 0, {}, [], 0, 0, 0, 0)

  /** What happens when the loop delivers the tag. `invoke` is false while draining. */
  datatype Delivery = Delivery(
    invoke: bool,
    ok: bool,
    rearmAllocates: bool,           // the next RPC context can be allocated
    cancelInHandler: bool,          // the request handler itself cancels the operation
    handlerThrows: bool)

  datatype Event =
    /** The initiating function. `connects`: the cancellation slot takes the stop function;
        `stopEarly`: cancellation arrives before the first request. */
    | Start(allocates: bool, connects: bool, contextAllocates: bool, stopEarly: bool)
    | Cancel
    | RequestDone(how: Delivery)
    /** The loop delivers the queued operation. */
    | Dequeued(invoke: bool)
    /** Another handler throws while the queued operation waits in the batch popped with its own, and
        the loop drops the rest of the batch. */
    | LoopDrops
    /** The handler's side destroys a request context. */
    | Dropped(context: nat)

  predicate Enabled(s: State, e: Event) {
    match e
    case Start(_, _, _, _) => s.place == NotStarted
    case Cancel => true
    case RequestDone(_) => s.place.InFlight?
    case Dequeued(_) => s.place == Queued
    case LoopDrops => s.place == Queued
    case Dropped(c) => c in s.handed
  }

  /** One more request: a fresh context and one more unit of work. */
  function Rearm(s: State): State {
    s.(place := InFlight(s.next), next := s.next + 1, work := s.work + 1, requests := s.requests + 1)
  }

  function Free(s: State, c: nat): State {
    s.(freed := s.freed + [c])
  }

  /** Creating the operation and making its first request, if not yet cancelled, and whether this
      threw, which leaves everything as it was. */
  function Launch(s: State, e: Event): (State, bool)
    requires e.Start?
  {
    var t := s.(stopped := s.stopped || e.stopEarly);
    if !e.allocates || !e.connects then (s, true)
    else if t.stopped then (t.(place := Queued), false)
    else if e.contextAllocates then (Rearm(t), false)
    else (s, true)
  }

  /** The request into context `c` is done, and the loop has returned its unit of work. The handler
      runs after re-arming. */
  function OnRequest(s: State, c: nat, d: Delivery): State {
    if !d.invoke then Free(s, c).(place := Gone, work := s.work - 1)
    else if !d.ok then Free(s, c).(place := Queued)
    else if !s.stopped && !d.rearmAllocates then Free(s, c).(place := Lost)
    else Handled(if s.stopped then s.(place := Queued) else Rearm(s), c, d)
  }

  function Handled(s: State, c: nat, d: Delivery): State {
    s.(handed := s.handed + {c}, handled := s.handled + 1, stopped := s.stopped || d.cancelInHandler)
  }

  function Step(s: State, e: Event): State
    requires Enabled(s, e)
  {
    match e
    case Start(_, _, _, _) =>
      var (t, threw) := Launch(s, e);
      if threw then t else t.(work := t.work + 1)
    case Cancel => s.(stopped := true)
    case RequestDone(d) => OnRequest(s.(work := s.work - 1), s.place.context, d)
    case Dequeued(invoke) =>
      s.(place := Gone, work := s.work - 1, completed := s.completed + if invoke then 1 else 0)
    case LoopDrops => s.(place := Lost)
    case Dropped(c) => Free(s, c).(handed := s.handed - {c})
  }

  predicate CanRun(s: State, events: seq<Event>)
    decreases |events|
  {
    events == [] || (Enabled(s, events[0]) && CanRun(Step(s, events[0]), events[1..]))
  }

  function After(s: State, events: seq<Event>): State
    requires CanRun(s, events)
    decreases |events|
  {
    if events == [] then s else After(Step(s, events[0]), events[1..])
  }

  // ---- what every run keeps ------------------------------------------------------------

  function Contribution(p: Where): nat {
    match p
    case NotStarted => 0
    case InFlight(_) => 2
    case Queued => 1
    case Gone => 0
    case Lost => 1
  }

  function Owners(s: State, c: nat): nat {
    (if s.place.InFlight? && s.place.context == c then 1 else 0) + (if c in s.handed then 1 else 0) + Times(s.freed, c)
  }

  /** The context `c` is owned once if it was allocated. */
  predicate OwnedOnce(s: State, c: nat) {
    Owners(s, c) == if c < s.next then 1 else 0
  }

  ghost predicate Inv(s: State) {
    && s.work == Contribution(s.place)
    && (forall c: nat :: OwnedOnce(s, c))
    && s.completed <= (if s.place == Gone then 1 else 0)
    && s.requests == s.next
  }

  /** Steps that move no context. */
  lemma OwnedAfterQuiet(s: State, t: State, c: nat)
    requires OwnedOnce(s, c) && t.next == s.next && t.handed == s.handed && t.freed == s.freed
    requires t.place == s.place || (!t.place.InFlight? && !s.place.InFlight?)
    ensures OwnedOnce(t, c)
  {
  }

  lemma OwnedAfterStart(s: State, e: Event, c: nat)
    requires s.place == NotStarted && e.Start? && OwnedOnce(s, c)
    ensures OwnedOnce(Step(s, e), c)
  {
  }

  lemma OwnedAfterFree(s: State, x: nat, place: Where, c: nat)
    requires s.place == InFlight(x) && !place.InFlight? && OwnedOnce(s, c)
    ensures OwnedOnce(Free(s, x).(place := place), c)
  {
    TimesSnoc(s.freed, x, c);
  }

  lemma OwnedAfterHandled(s: State, x: nat, d: Delivery, c: nat)
    requires s.place == InFlight(x) && x < s.next && OwnedOnce(s, c)
    ensures OwnedOnce(Handled(if s.stopped then s.(place := Queued) else Rearm(s), x, d), c)
  {
  }

  lemma OwnedAfterRequest(s: State, x: nat, d: Delivery, c: nat)
    requires s.place == InFlight(x) && x < s.next && OwnedOnce(s, c)
    ensures OwnedOnce(OnRequest(s, x, d), c)
  {
    if !d.invoke {
      OwnedAfterFree(s, x, Gone, c);
    } else if !d.ok {
      OwnedAfterFree(s, x, Queued, c);
    } else if !s.stopped && !d.rearmAllocates {
      OwnedAfterFree(s, x, Lost, c);
    } else {
      OwnedAfterHandled(s, x, d, c);
    }
  }

  lemma OwnedAfterStep(s: State, e: Event, c: nat)
    requires Enabled(s, e) && OwnedOnce(s, c) && (s.place.InFlight? ==> s.place.context < s.next)
    ensures OwnedOnce(Step(s, e), c)
  {
    if e.RequestDone? {
      OwnedAfterQuiet(s, s.(work := s.work - 1), c);
      OwnedAfterRequest(s.(work := s.work - 1), s.place.context, e.how, c);
    } else if e.Dropped? {
      TimesSnoc(s.freed, e.context, c);
    } else if e.Start? {
      OwnedAfterStart(s, e, c);
    } else {
      OwnedAfterQuiet(s, Step(s, e), c);
    }
  }

  lemma StepKeepsInv(s: State, e: Event)
    requires Inv(s) && Enabled(s, e)
    ensures Inv(Step(s, e))
  {
    if s.place.InFlight? {
      assert OwnedOnce(s, s.place.context);
    }
    forall c: nat ensures OwnedOnce(Step(s, e), c) {
      OwnedAfterStep(s, e, c);
    }
  }

  lemma {:induction false} RunKeepsInv(s: State, events: seq<Event>)
    requires Inv(s) && CanRun(s, events)
    ensures Inv(After(s, events))
    decreases |events|
  {
    if events != [] {
      StepKeepsInv(s, events[0]);
      RunKeepsInv(Step(s, events[0]), events[1..]);
    }
  }

  /** Work: in every run, whatever throws, is cancelled or drained, the operation accounts for two
      units while a request is in flight, one while queued and none once gone. */
  lemma WorkMatchesPlace(events: seq<Event>)
    requires CanRun(FRESH, events)
    ensures var s := After(FRESH, events);
      && s.work == Contribution(s.place)
      && (s.work == 0 <==> s.place == NotStarted || s.place == Gone)
  {
    RunKeepsInv(FRESH, events);
  }

  /** Ownership: in every run each RPC context ever allocated has exactly one owner (the pending
      request or the handler's side) or has been freed, once. */
  lemma ContextsOwnedOnce(events: seq<Event>, c: nat)
    requires CanRun(FRESH, events)
    ensures var s := After(FRESH, events);
      OwnedOnce(s, c)
  {
    RunKeepsInv(FRESH, events);
  }

  predicate RearmThrows(s: State, e: Event) {
    e.RequestDone? && e.how.invoke && e.how.ok && !s.stopped && !e.how.rearmAllocates
  }

  predicate RearmFails(s: State, events: seq<Event>)
    requires CanRun(s, events)
    decreases |events|
  {
    && events != []
    && (RearmThrows(s, events[0])
        || RearmFails(Step(s, events[0]), events[1..]))
  }

  /** The operation itself is lost exactly when a successful request, not yet cancelled, could not
      allocate the context for the next one, or the loop dropped it from its queue. */
  lemma {:induction false} LostExactly(s: State, events: seq<Event>)
    requires CanRun(s, events) && s.place != Lost
    ensures After(s, events).place == Lost <==> RearmFails(s, events) || LoopDrops in events
    decreases |events|
  {
    if events != [] {
      var t := Step(s, events[0]);
      assert LoopDrops in events <==> events[0] == LoopDrops || LoopDrops in events[1..];
      if t.place == Lost {
        LostForever(t, events[1..]);
      } else {
        LostExactly(t, events[1..]);
      }
    }
  }

  lemma {:induction false} LostForever(s: State, events: seq<Event>)
    requires CanRun(s, events) && s.place == Lost
    ensures After(s, events).place == Lost
    decreases |events|
  {
    if events != [] {
      LostForever(Step(s, events[0]), events[1..]);
    }
  }

  /** Lost, concretely: the first request succeeds and its successor's context cannot be allocated. One
      unit of work stays counted for ever. */
  lemma LostSchedule()
    ensures var events := [Start(true, true, true, false), RequestDone(Delivery(true, true, false, false, false))];
      CanRun(FRESH, events) && After(FRESH, events).place == Lost && After(FRESH, events).work == 1
  {
  }

  /** Lost: the request fails, the operation is queued, and the loop drops it. */
  lemma DroppedSchedule()
    ensures var events := [Start(true, true, true, false), RequestDone(Delivery(true, false, true, false, false)),
                           LoopDrops];
      && CanRun(FRESH, events) && !RearmFails(FRESH, events)
      && After(FRESH, events).place == Lost && After(FRESH, events).work == 1
  {
  }

  /** Stop bound: once the flag is set no request is ever initiated again, and at most the one
      request already in flight still reaches the handler. */
  lemma {:induction false} StopBound(s: State, events: seq<Event>)
    requires CanRun(s, events) && s.stopped
    ensures var t := After(s, events);
      && t.stopped && t.requests == s.requests
      && t.handled <= s.handled + (if s.place.InFlight? then 1 else 0)
    decreases |events|
  {
    if events != [] {
      StopBound(Step(s, events[0]), events[1..]);
    }
  }

  /** Re-arming precedes the handler: a cancellation raised by the handler comes one request too late,
      and at most that request still reaches the handler. */
  lemma CancelInHandlerTooLate(s: State, d: Delivery, events: seq<Event>)
    requires s.place.InFlight? && !s.stopped
    requires d.invoke && d.ok && d.rearmAllocates && d.cancelInHandler
    requires CanRun(Step(s, RequestDone(d)), events)
    ensures var t := After(Step(s, RequestDone(d)), events);
      t.requests == s.requests + 1 && t.handled <= s.handled + 2
  {
    StopBound(Step(s, RequestDone(d)), events);
  }

  predicate Drains(e: Event) {
    (e.RequestDone? && !e.how.invoke) || (e.Dequeued? && !e.invoke)
  }

  predicate NeverDrains(events: seq<Event>)
    decreases |events|
  {
    events == [] || (!Drains(events[0]) && NeverDrains(events[1..]))
  }

  /** The completion handler is called at most once, and exactly once when the operation ends
      otherwise than by draining. */
  lemma {:induction false} CompletedUnlessDrained(s: State, events: seq<Event>)
    requires CanRun(s, events) && s.completed == 0 && s.place != Gone
    ensures var t := After(s, events);
      t.completed == if t.place == Gone && NeverDrains(events) then 1 else 0
    decreases |events|
  {
    if events != [] {
      var t := Step(s, events[0]);
      if t.place == Gone {
        GoneForever(t, events[1..]);
      } else {
        CompletedUnlessDrained(t, events[1..]);
      }
    }
  }

  lemma {:induction false} GoneForever(s: State, events: seq<Event>)
    requires CanRun(s, events) && s.place == Gone
    ensures After(s, events).place == Gone && After(s, events).completed == s.completed
    ensures NeverDrains(events)
    decreases |events|
  {
    if events != [] {
      GoneForever(Step(s, events[0]), events[1..]);
    }
  }
}
