/** Specification of the sender form of `repeatedly_request`. */
module RequestSenderSpec {
  import opened Sequences

  datatype Where =
    | NotStarted
    | CheckingStop                  // not shut down, `stop_requested` to be read
    | Emplacing                     // stop not requested, callback to be registered
    | Initiating                    // callback registered, first request to be made
    | InFlight(handler: nat)        // one gRPC request pending, into this handler operation
    | Finished                      // receiver signalled
    | Silent                        // no request pending and no signal to come

  /** How a receiver is signalled: `set_value`, `set_error` or `set_done`. */
  datatype Completion = Value | Error | Done

  datatype State = State(
    place: Where,
    requested: bool,                // stop requested at the receiver's token
    registered: bool,               // the stop callback is registered
    stopped: bool,                  // the flag the callback sets
    next: nat,                      // handler operations allocated so far
    live: set<nat>,                 // handler operations started and not yet ended
    freed: seq<nat>,                // handler operations destroyed
    work: int,                      // contribution to outstanding_work
    requests: nat,
    handled: nat,                   // handler operations started
    signals: seq<Completion>)       // calls of the receiver

  const FRESH := State(NotStarted, false, false, false, 0, {}, [], 0, 0, 0, [])

  /** What happens when the loop delivers the tag. `invoke` is false while draining. */
  datatype Delivery = Delivery(
    invoke: bool,
    ok: bool,
    stopInHandler: bool,            // stop is requested by the time the handler function returns
    connectThrows: bool,            // the handler function or `connect` throws
    rearmAllocates: bool,           // the next handler operation can be allocated
    endsAtOnce: bool,               // the handler's operation ends inside its own `start`
    valueThrows: bool)              // the receiver's `set_value` throws, and `set_error` follows

  datatype Event =
    | Begin(shutdown: bool)
    | CheckStop
    | Emplace
    | Initiate
    | RequestStop
    | RequestDone(how: Delivery)
    | HandlerEnds(handler: nat)

  predicate Enabled(s: State, e: Event) {
    match e
    case Begin(_) => s.place == NotStarted
    case CheckStop => s.place == CheckingStop
    case Emplace => s.place == Emplacing
    case Initiate => s.place == Initiating
    case RequestStop => true
    case RequestDone(_) => s.place.InFlight?
    case HandlerEnds(h) => h in s.live
  }

  function Signal(s: State, how: Completion): State {
    s.(place := Finished, registered := false, signals := s.signals + [how])
  }

  function StopRequested(s: State): State {
    s.(requested := true, registered := false, stopped := s.stopped || s.registered)
  }

  /** One more request, into a fresh handler operation; none if the flag is set. */
  function Arm(s: State, otherwise: State): State {
    if s.stopped then otherwise
    else s.(place := InFlight(s.next), next := s.next + 1, work := s.work + 1, requests := s.requests + 1)
  }

  function Free(s: State, h: nat): State {
    s.(freed := s.freed + [h])
  }

  /** The handler is connected: re-arm or signal, and start the handler's operation. If re-arming
      throws, the handler's operation is freed unstarted. */
  function Connected(s: State, h: nat, d: Delivery): State {
    if !s.stopped && !d.rearmAllocates then Free(s, h).(place := Silent)
    else
      var t := Arm(s, Signal(s, Done)).(handled := s.handled + 1);
      if d.endsAtOnce then Free(t, h) else t.(live := t.live + {h}, work := t.work + 1)
  }

  function Handle(s: State, h: nat, d: Delivery): State {
    if d.connectThrows then Signal(Free(s, h), Error) else Connected(s, h, d)
  }

  function OnRequest(s: State, h: nat, d: Delivery): State {
    if !d.invoke then Signal(Free(s, h), Done)
    else if !d.ok then Signal(Free(s, h), if d.valueThrows then Error else Value)
    else if d.stopInHandler then Handle(StopRequested(s), h, d)
    else Handle(s, h, d)
  }

  /** The loop's guard. */
  function UnitReturned(s: State): State {
    s.(work := s.work - 1)
  }

  function Step(s: State, e: Event): State
    requires Enabled(s, e)
  {
    match e
    case Begin(shutdown) => if shutdown then Signal(s, Done) else s.(place := CheckingStop)
    case CheckStop => if s.requested then Signal(s, Done) else s.(place := Emplacing)
    case Emplace => s.(place := Initiating, registered := !s.requested, stopped := s.stopped || s.requested)
    case Initiate => Arm(s, s.(place := Silent))
    case RequestStop => StopRequested(s)
    case RequestDone(_) => UnitReturned(OnRequest(s, s.place.handler, e.how))
    case HandlerEnds(h) => Free(s, h).(live := s.live - {h}, work := s.work - 1)
  }

  predicate CanRun(s: State, events: seq<Event>)
    decreases |events|
  {
    events == [] || (Enabled(s, events[0]) && CanRun(Step(s, events[0]), events[1..]))
  }

  function After(s: State, events: seq<Event>): State
    requires CanRun(s, events)
    decreases |events|
  {
    if events == [] then s else After(Step(s, events[0]), events[1..])
  }

  // ---- what every run keeps ------------------------------------------------------------

  function Owners(s: State, h: nat): nat {
    (if s.place.InFlight? && s.place.handler == h then 1 else 0) + (if h in s.live then 1 else 0) + Times(s.freed, h)
  }

  ghost predicate Inv(s: State) {
    && s.work == (if s.place.InFlight? then 1 else 0) + |s.live|
    && |s.signals| == (if s.place == Finished then 1 else 0)
    && (forall x: nat :: OwnedOnce(s, x))
    && s.requests == s.next
  }

  /** The operation `x` is owned once if it was allocated. */
  predicate OwnedOnce(s: State, x: nat) {
    Owners(s, x) == if x < s.next then 1 else 0
  }

  lemma OwnedAfterFree(s: State, h: nat, place: Where, x: nat)
    requires s.place == InFlight(h) && !place.InFlight? && OwnedOnce(s, x)
    ensures OwnedOnce(Free(s, h).(place := place), x)
  {
    TimesSnoc(s.freed, h, x);
  }

  lemma OwnedAfterConnected(s: State, h: nat, d: Delivery, x: nat)
    requires s.place == InFlight(h) && h < s.next && OwnedOnce(s, x)
    ensures OwnedOnce(Connected(s, h, d), x)
  {
    TimesSnoc(s.freed, h, x);
  }

  lemma OwnedAfterHandle(s: State, h: nat, d: Delivery, x: nat)
    requires s.place == InFlight(h) && h < s.next && OwnedOnce(s, x)
    ensures OwnedOnce(Handle(s, h, d), x)
  {
    if d.connectThrows {
      OwnedAfterFree(s, h, Finished, x);
    } else {
      OwnedAfterConnected(s, h, d, x);
    }
  }

  lemma OwnedAfterRequest(s: State, h: nat, d: Delivery, x: nat)
    requires s.place == InFlight(h) && h < s.next && OwnedOnce(s, x)
    ensures OwnedOnce(OnRequest(s, h, d), x)
  {
    if !d.invoke || !d.ok {
      OwnedAfterFree(s, h, Finished, x);
    } else if d.stopInHandler {
      OwnedAfterHandle(StopRequested(s), h, d, x);
    } else {
      OwnedAfterHandle(s, h, d, x);
    }
  }

  /** Steps that move no handler operation. */
  lemma OwnedAfterQuiet(s: State, t: State, x: nat)
    requires OwnedOnce(s, x) && t.next == s.next && t.live == s.live && t.freed == s.freed
    requires t.place == s.place || (!t.place.InFlight? && !s.place.InFlight?)
    ensures OwnedOnce(t, x)
  {
  }

  lemma OwnedAfterInitiate(s: State, x: nat)
    requires s.place == Initiating && OwnedOnce(s, x)
    ensures OwnedOnce(Arm(s, s.(place := Silent)), x)
  {
  }

  lemma OwnedAfterEnd(s: State, h: nat, x: nat)
    requires h in s.live && OwnedOnce(s, x)
    ensures OwnedOnce(Free(s, h).(live := s.live - {h}, work := s.work - 1), x)
  {
    TimesSnoc(s.freed, h, x);
  }

  lemma OwnedAfterStep(s: State, e: Event, x: nat)
    requires Enabled(s, e) && OwnedOnce(s, x) && (s.place.InFlight? ==> s.place.handler < s.next)
    ensures OwnedOnce(Step(s, e), x)
  {
    if e.RequestDone? {
      OwnedAfterRequest(s, s.place.handler, e.how, x);
      OwnedAfterQuiet(OnRequest(s, s.place.handler, e.how), Step(s, e), x);
    } else if e.HandlerEnds? {
      OwnedAfterEnd(s, e.handler, x);
    } else if e.Initiate? {
      OwnedAfterInitiate(s, x);
    } else {
      OwnedAfterQuiet(s, Step(s, e), x);
    }
  }

  lemma StepKeepsInv(s: State, e: Event)
    requires Inv(s) && Enabled(s, e)
    ensures Inv(Step(s, e))
  {
    if s.place.InFlight? {
      assert OwnedOnce(s, s.place.handler);
    }
    forall x: nat ensures OwnedOnce(Step(s, e), x) {
      OwnedAfterStep(s, e, x);
    }
    StepKeepsWork(s, e);
  }

  ghost predicate Counted(s: State) {
    && s.work == (if s.place.InFlight? then 1 else 0) + |s.live|
    && |s.signals| == (if s.place == Finished then 1 else 0)
    && s.requests == s.next
  }

  lemma ConnectedKeepsWork(s: State, h: nat, d: Delivery)
    requires Counted(s) && s.place == InFlight(h) && h !in s.live
    ensures Counted(UnitReturned(Connected(s, h, d)))
  {
  }

  lemma RequestKeepsWork(s: State, h: nat, d: Delivery)
    requires Counted(s) && s.place == InFlight(h) && h !in s.live
    ensures Counted(UnitReturned(OnRequest(s, h, d)))
  {
    if d.invoke && d.ok && !d.connectThrows {
      ConnectedKeepsWork(if d.stopInHandler then StopRequested(s) else s, h, d);
    }
  }

  lemma StepKeepsWork(s: State, e: Event)
    requires Counted(s) && Enabled(s, e) && (s.place.InFlight? ==> s.place.handler !in s.live)
    ensures Counted(Step(s, e))
  {
    if e.RequestDone? {
      RequestKeepsWork(s, s.place.handler, e.how);
    }
  }

  lemma {:induction false} RunKeepsInv(s: State, events: seq<Event>)
    requires Inv(s) && CanRun(s, events)
    ensures Inv(After(s, events))
    decreases |events|
  {
    if events != [] {
      StepKeepsInv(s, events[0]);
      RunKeepsInv(Step(s, events[0]), events[1..]);
    }
  }

  /** Work: with any number of overlapping handler operations, the operation accounts for the
      request in flight and each live handler operation, and every handler operation is in flight,
      live, or freed once. */
  lemma WorkAndOwnership(events: seq<Event>, h: nat)
    requires CanRun(FRESH, events)
    ensures var s := After(FRESH, events);
      && s.work == (if s.place.InFlight? then 1 else 0) + |s.live|
      && OwnedOnce(s, h)
  {
    RunKeepsInv(FRESH, events);
  }

  // ---- the receiver contract -----------------------------------------------------------

  /** Stop is requested after `stop_requested` was read and before the first request is made. */
  predicate StopInWindow(s: State, events: seq<Event>)
    requires CanRun(s, events)
    decreases |events|
  {
    && events != []
    && ((events[0] == RequestStop && (s.place == Emplacing || s.place == Initiating))
        || StopInWindow(Step(s, events[0]), events[1..]))
  }

  /** A connected handler, stop not having reached the flag, cannot get its successor allocated. */
  predicate RearmThrows(s: State, e: Event) {
    && e.RequestDone? && e.how.invoke && e.how.ok && !e.how.connectThrows && !e.how.rearmAllocates
    && !s.stopped && !(e.how.stopInHandler && s.registered)
  }

  predicate RearmFails(s: State, events: seq<Event>)
    requires CanRun(s, events)
    decreases |events|
  {
    events != [] && (RearmThrows(s, events[0]) || RearmFails(Step(s, events[0]), events[1..]))
  }

  predicate Starting(p: Where) {
    p == NotStarted || p == CheckingStop || p == Emplacing || p == Initiating
  }

  /** Whether the request to stop was already seen inside the window. */
  predicate Caught(s: State) {
    (s.place == Emplacing && s.requested) || (s.place == Initiating && s.stopped) || s.place == Silent
  }

  ghost predicate FlagsAgree(s: State) {
    && (Starting(s.place) && s.place != Initiating ==> !s.registered && !s.stopped)
    && (s.place == Initiating ==> (s.stopped <==> s.requested) && (s.registered <==> !s.requested))
  }

  lemma {:induction false} SilentFrom(s: State, events: seq<Event>)
    requires CanRun(s, events) && FlagsAgree(s)
    ensures !Starting(After(s, events).place) ==>
      (After(s, events).place == Silent <==> Caught(s) || StopInWindow(s, events) || RearmFails(s, events))
    decreases |events|
  {
    if events != [] {
      SilentStep(s, events[0]);
      SilentFrom(Step(s, events[0]), events[1..]);
    }
  }

  lemma SilentAfterHandle(s: State, h: nat, d: Delivery)
    ensures var t := Handle(s, h, d);
      && !Starting(t.place)
      && (t.place == Silent <==> !d.connectThrows && !d.rearmAllocates && !s.stopped)
  {
  }

  lemma SilentAfterRequest(s: State, h: nat, d: Delivery)
    ensures var t := OnRequest(s, h, d);
      !Starting(t.place) && (t.place == Silent <==> RearmThrows(s, RequestDone(d)))
  {
    if d.invoke && d.ok {
      SilentAfterHandle(if d.stopInHandler then StopRequested(s) else s, h, d);
    }
  }

  lemma SilentAfterStart(s: State, e: Event)
    requires Enabled(s, e) && FlagsAgree(s) && (e.Begin? || e == CheckStop || e == Emplace || e == Initiate)
    ensures FlagsAgree(Step(s, e)) && (Caught(Step(s, e)) <==> Caught(s))
  {
  }

  lemma SilentAfterStop(s: State)
    requires FlagsAgree(s)
    ensures FlagsAgree(StopRequested(s))
    ensures Caught(StopRequested(s)) <==> Caught(s) || s.place == Emplacing || s.place == Initiating
  {
  }

  lemma SilentStep(s: State, e: Event)
    requires Enabled(s, e) && FlagsAgree(s)
    ensures FlagsAgree(Step(s, e))
    ensures Caught(Step(s, e)) <==>
      Caught(s) || RearmThrows(s, e) || (e == RequestStop && (s.place == Emplacing || s.place == Initiating))
  {
    if e.RequestDone? {
      SilentAfterRequest(s, s.place.handler, e.how);
      assert Step(s, e).place == OnRequest(s, s.place.handler, e.how).place;
    } else if e == RequestStop {
      SilentAfterStop(s);
    } else if !e.HandlerEnds? {
      SilentAfterStart(s, e);
    }
  }

  /** `start` ignores that no request was made, and a throw while re-arming leaves the operation
      behind; the receiver is never signalled exactly when one of the two happens. */
  lemma SilentExactly(events: seq<Event>)
    requires CanRun(FRESH, events) && !Starting(After(FRESH, events).place)
    ensures After(FRESH, events).place == Silent <==> StopInWindow(FRESH, events) || RearmFails(FRESH, events)
  {
    SilentFrom(FRESH, events);
  }

  /** The receiver contract, exactly: after `start`, at any moment without a pending request the
      receiver has been signalled once, unless stop was requested in the window or re-arming threw,
      and then never; while a request is pending it has not been signalled. */
  lemma ReceiverContract(events: seq<Event>)
    requires CanRun(FRESH, events)
    ensures var s := After(FRESH, events);
      && |s.signals| <= 1
      && (s.place.InFlight? ==> s.signals == [])
      && (!Starting(s.place) && !s.place.InFlight? ==>
            (|s.signals| == 1 <==> !StopInWindow(FRESH, events) && !RearmFails(FRESH, events)))
  {
    RunKeepsInv(FRESH, events);
    if !Starting(After(FRESH, events).place) {
      SilentExactly(events);
    }
  }

  predicate ShutDown(e: Event) {
    e.RequestDone? && e.how.invoke && !e.how.ok
  }

  predicate ConnectFailed(e: Event) {
    e.RequestDone? && e.how.invoke && e.how.ok && e.how.connectThrows
  }

  predicate SendsValue(e: Event) {
    ShutDown(e) && !e.how.valueThrows
  }

  predicate SendsError(e: Event) {
    ConnectFailed(e) || (ShutDown(e) && e.how.valueThrows)
  }

  /** The signals given by the time of the event's end, from none before it. */
  ghost predicate SignalsRightly(t: State, e: Event) {
    && (t.place != Finished ==> t.signals == [] && !SendsValue(e) && !SendsError(e))
    && (t.place == Finished ==>
          t.signals == [if SendsValue(e) then Value else if SendsError(e) then Error else Done])
  }

  lemma SignalAfterHandle(s: State, h: nat, d: Delivery)
    requires s.signals == [] && d.invoke && d.ok
    ensures SignalsRightly(Handle(s, h, d), RequestDone(d))
  {
  }

  lemma SignalAfterRequest(s: State, h: nat, d: Delivery)
    requires s.signals == []
    ensures SignalsRightly(OnRequest(s, h, d), RequestDone(d))
  {
    if d.invoke && d.ok {
      SignalAfterHandle(if d.stopInHandler then StopRequested(s) else s, h, d);
    }
  }

  lemma SignalStep(s: State, e: Event)
    requires Enabled(s, e) && s.place != Finished && s.signals == []
    ensures SignalsRightly(Step(s, e), e)
  {
    if e.RequestDone? {
      SignalAfterRequest(s, s.place.handler, e.how);
    }
  }

  /** Which signal: a value exactly when the server is shut down and the receiver takes the value, an
      error exactly when a handler could not be connected or the receiver's `set_value` threw, and done
      otherwise. */
  lemma {:induction false} SignalKind(s: State, events: seq<Event>)
    requires CanRun(s, events) && s.place != Finished && s.signals == []
    ensures var t := After(s, events);
      && (Value in t.signals <==> exists e :: e in events && SendsValue(e))
      && (Error in t.signals <==> exists e :: e in events && SendsError(e))
    decreases |events|
  {
    if events != [] {
      var t := Step(s, events[0]);
      SignalStep(s, events[0]);
      assert forall e :: e in events <==> e == events[0] || e in events[1..];
      if t.place == Finished {
        FinishedForever(t, events[1..]);
      } else {
        SignalKind(t, events[1..]);
      }
    }
  }

  /** The failing schedule, concretely: stop lands right after the check. */
  lemma SilentSchedule()
    ensures var events := [Begin(false), CheckStop, RequestStop, Emplace, Initiate];
      CanRun(FRESH, events) && After(FRESH, events).place == Silent && After(FRESH, events).signals == []
  {
  }

  /** The other one: the first request succeeds and its successor's operation cannot be allocated. */
  lemma SilentRearm()
    ensures var events := [Begin(false), CheckStop, Emplace, Initiate,
                           RequestDone(Delivery(true, true, false, false, false, false, false))];
      && CanRun(FRESH, events) && !StopInWindow(FRESH, events)
      && After(FRESH, events).place == Silent && After(FRESH, events).signals == []
  {
  }

  // ---- stopping ------------------------------------------------------------------------

  /** Once the flag is set no request is made again, and at most the one in flight is handled. */
  lemma {:induction false} StopBound(s: State, events: seq<Event>)
    requires CanRun(s, events) && s.stopped
    ensures var t := After(s, events);
      && t.stopped && t.requests == s.requests
      && t.handled <= s.handled + (if s.place.InFlight? then 1 else 0)
    decreases |events|
  {
    if events != [] {
      StopBound(Step(s, events[0]), events[1..]);
    }
  }

  /** Connecting precedes re-arming: a stop raised by the handler function itself makes its request
      the last one, in every continuation. */
  lemma StopInHandlerIsLast(s: State, d: Delivery, events: seq<Event>)
    requires s.place.InFlight? && s.registered && d.invoke && d.ok && d.stopInHandler
    requires CanRun(Step(s, RequestDone(d)), events)
    ensures var t := After(Step(s, RequestDone(d)), events);
      t.place == Finished && t.requests == s.requests
  {
    FinishedForever(Step(s, RequestDone(d)), events);
  }

  lemma {:induction false} FinishedForever(s: State, events: seq<Event>)
    requires CanRun(s, events) && s.place == Finished
    ensures After(s, events).place == Finished
    ensures After(s, events).requests == s.requests && After(s, events).signals == s.signals
    ensures forall e :: e in events ==> !e.RequestDone?
    decreases |events|
  {
    if events != [] {
      FinishedForever(Step(s, events[0]), events[1..]);
      assert events == [events[0]] + events[1..];
    }
  }
}
