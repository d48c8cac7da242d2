/** Specification of the coroutine form of `repeatedly_request`. */
module RequestAwaitableSpec {

  datatype Where =
    | NotStarted
    | Spawned                       // a coroutine was spawned, its body not yet entered
    | Suspended                     // the coroutine awaits its request
    | Queued                        // the operation is in a work queue
    | Gone
    | Lost                          // in no queue and not in flight, yet never destroyed
    | LostSpawned                   // so is the entry of its coroutine, with its unit

  /** The shared buffer: owned by the operation, queued for destruction, freed, or lost. */
  datatype BufferPlace = Unallocated | Owned | BufferQueued | Freed | BufferLost

  /** What waits in a work queue on behalf of the operation. */
  datatype Entry = TheOperation | TheCoroutine | TheBuffer

  datatype State = State(
    place: Where,
    buffer: BufferPlace,
    occupied: bool,                 // an operation lives in the buffer
    stopped: bool,
    work: int,
    requests: nat,
    handlers: nat,                  // coroutines running a request handler
    handled: nat,
    completed: nat)

  const FRESH := State(NotStarted, Unallocated, false, false, 0, 0, 0, 0, 0)

  /** How the initiating function fares. `stopEarly`: cancellation arrives before the first spawn. */
  datatype Launch = Launch(
    allocates: bool,                // operation and buffer can be allocated and constructed
    connects: bool,                 // the cancellation slot takes the stop function
    stopEarly: bool,
    spawns: bool)                   // the coroutine's frame and `co_spawn` do not throw

  /** How an answered request fares. */
  datatype Answer = Answer(
    ok: bool,
    copies: bool,                   // the request handler can be copied
    spawns: bool,                   // so can its successor be spawned
    cancelInHandler: bool)          // the request handler itself cancels the operation

  datatype Event =
    | Start(how: Launch)
    | Cancel
    | EnterBody(constructs: bool)   // the loop runs the spawned coroutine, which makes its RPC context
    | DrainEntry                    // the loop discards it unrun
    | Answered(answer: Answer)
    | DrainRequest                  // the loop discards the request, destroying the coroutine
    | Dequeued(invoke: bool)
    | BufferDequeued
    | LoopDrops(what: Entry)        // another handler throws, and the loop drops the rest of its batch
    | HandlerEnds                   // by returning or by an exception

  predicate Waits(s: State, what: Entry) {
    match what
    case TheOperation => s.place == Queued
    case TheCoroutine => s.place == Spawned
    case TheBuffer => s.buffer == BufferQueued
  }

  predicate Enabled(s: State, e: Event) {
    match e
    case Start(_) => s.place == NotStarted
    case Cancel => true
    case EnterBody(_) => s.place == Spawned
    case DrainEntry => s.place == Spawned
    case Answered(_) => s.place == Suspended
    case DrainRequest => s.place == Suspended
    case Dequeued(_) => s.place == Queued
    case BufferDequeued => s.buffer == BufferQueued
    case LoopDrops(what) => Waits(s, what)
    case HandlerEnds => s.handlers > 0
  }

  /** `co_spawn`, which queues the coroutine's first resumption, or the operation itself. */
  function SpawnOrQueue(s: State): State {
    if s.stopped then s.(place := Queued) else s.(place := Spawned, work := s.work + 1)
  }

  /** Creating the operation with its buffer and spawning its first coroutine. A throw after the
      operation exists destroys it, and its destructor queues the buffer. */
  function Launched(s: State, l: Launch): State
    requires l.allocates
  {
    var t := s.(buffer := Owned, work := s.work + 1);
    if !l.connects then Destroyed(t)
    else
      var u := t.(stopped := t.stopped || l.stopEarly);
      if !u.stopped && !l.spawns then Destroyed(u) else SpawnOrQueue(u)
  }

  /** The destructor queues the buffer, which keeps its own unit of work. */
  function Destroyed(s: State): State {
    s.(place := Gone, buffer := BufferQueued)
  }

  /** Whether the launch threw, so that the operation's own unit is returned. */
  predicate LaunchThrows(s: State, l: Launch) {
    !l.allocates || !l.connects || (!s.stopped && !l.stopEarly && !l.spawns)
  }

  /** Whether the coroutine throws after it released its guard and before the operation is spawned
      again or queued. */
  predicate ResumeThrows(s: State, a: Answer) {
    a.ok && (!a.copies || (!s.stopped && !a.spawns))
  }

  /** The coroutine goes on after its request; the handler runs after re-arming. */
  function Resumed(s: State, a: Answer): State {
    if !a.ok then s.(place := Queued)
    else if ResumeThrows(s, a) then s.(place := Lost)
    else SpawnOrQueue(s).(handlers := s.handlers + 1, handled := s.handled + 1,
                          stopped := s.stopped || a.cancelInHandler)
  }

  function Step(s: State, e: Event): State
    requires Enabled(s, e)
  {
    match e
    case Start(l) =>
      if !l.allocates then s
      else
        var t := Launched(s, l);
        if LaunchThrows(s, l) then t else t.(work := t.work + 1)
    case Cancel => s.(stopped := true)
    case EnterBody(constructs) =>
      if constructs then s.(place := Suspended, occupied := true, requests := s.requests + 1)
      else s.(place := Lost, work := s.work - 1)
    case DrainEntry => s.(place := Lost, work := s.work - 1)
    case Answered(a) => Resumed(s.(occupied := false, work := s.work - 1), a)
    case DrainRequest => Destroyed(s.(occupied := false, work := s.work - 2))
    case Dequeued(invoke) =>
      Destroyed(s.(work := s.work - 1, completed := s.completed + if invoke then 1 else 0))
    case BufferDequeued => s.(buffer := Freed, work := s.work - 1)
    case LoopDrops(TheOperation) => s.(place := Lost)
    case LoopDrops(TheCoroutine) => s.(place := LostSpawned)
    case LoopDrops(TheBuffer) => s.(buffer := BufferLost)
    case HandlerEnds => s.(handlers := s.handlers - 1)
  }

  predicate CanRun(s: State, events: seq<Event>)
    decreases |events|
  {
    events == [] || (Enabled(s, events[0]) && CanRun(Step(s, events[0]), events[1..]))
  }

  function After(s: State, events: seq<Event>): State
    requires CanRun(s, events)
    decreases |events|
  {
    if events == [] then s else After(Step(s, events[0]), events[1..])
  }

  // ---- what every run keeps ------------------------------------------------------------

  /** Units for the operation, for the buffer, and for the spawned coroutine or its request. */
  function Contribution(s: State): nat {
    (if s.place == NotStarted || s.place == Gone then 0 else 1)
    + (if s.buffer == Unallocated || s.buffer == Freed then 0 else 1)
    + (if s.place == Spawned || s.place == Suspended || s.place == LostSpawned then 1 else 0)
  }

  ghost predicate Inv(s: State) {
    && s.work == Contribution(s)
    && (s.occupied <==> s.place == Suspended)
    && (s.place == NotStarted <==> s.buffer == Unallocated)
    && (s.place == Gone <==> s.buffer == BufferQueued || s.buffer == Freed || s.buffer == BufferLost)
    && s.completed <= (if s.place == Gone then 1 else 0)
    && s.handled <= s.requests <= s.handled + 1
    && (s.place == Suspended ==> s.requests == s.handled + 1)
    && (s.place == NotStarted || s.place == Spawned ==> s.requests == s.handled)
  }

  lemma StepKeepsInv(s: State, e: Event)
    requires Inv(s) && Enabled(s, e)
    ensures Inv(Step(s, e))
  {
  }

  lemma {:induction false} RunKeepsInv(s: State, events: seq<Event>)
    requires Inv(s) && CanRun(s, events)
    ensures Inv(After(s, events))
    decreases |events|
  {
    if events != [] {
      StepKeepsInv(s, events[0]);
      RunKeepsInv(Step(s, events[0]), events[1..]);
    }
  }

  /** In every run the units of work match what is outstanding; the buffer outlives every
      operation placed in it, is vacated before it is queued for destruction, and is freed only
      after the operation is gone. */
  lemma WorkAndBuffer(events: seq<Event>)
    requires CanRun(FRESH, events)
    ensures var s := After(FRESH, events);
      && s.work == Contribution(s)
      && (s.occupied ==> s.buffer == Owned)
      && (s.buffer == BufferQueued || s.buffer == Freed || s.buffer == BufferLost ==> s.place == Gone && !s.occupied)
      && (s.work == 0 <==> s.place == NotStarted || s.buffer == Freed)
  {
    RunKeepsInv(FRESH, events);
  }

  /** Freeing is final: the buffer is freed at most once and never used again. */
  lemma {:induction false} FreedForever(s: State, events: seq<Event>)
    requires CanRun(s, events) && s.buffer == Freed && s.place == Gone
    ensures After(s, events).buffer == Freed
    ensures forall e :: e in events ==> e != BufferDequeued && !e.EnterBody? && !e.Answered?
    decreases |events|
  {
    if events != [] {
      FreedForever(Step(s, events[0]), events[1..]);
      assert events == [events[0]] + events[1..];
    }
  }

  // ---- lost operations -----------------------------------------------------------------

  /** The event leaves the operation behind: its coroutine ends, discarded or by an exception, at a
      point where the guard in its body is not armed, or the loop drops either from its queue. */
  predicate LeavesBehind(s: State, e: Event) {
    || e == LoopDrops(TheOperation)
    || e == LoopDrops(TheCoroutine)
    || e == DrainEntry
    || e == EnterBody(false)
    || (e.Answered? && ResumeThrows(s, e.answer))
  }

  predicate LeftBehind(s: State, events: seq<Event>)
    requires CanRun(s, events)
    decreases |events|
  {
    events != [] && (LeavesBehind(s, events[0]) || LeftBehind(Step(s, events[0]), events[1..]))
  }

  predicate IsLost(s: State) {
    s.place == Lost || s.place == LostSpawned
  }

  /** The operation is lost, with its unit and the buffer's, exactly when its coroutine ends before
      the guard is armed, or after it was released and before the operation is spawned or queued, or
      the loop drops the coroutine's entry or the queued operation. */
  lemma {:induction false} LostExactly(s: State, events: seq<Event>)
    requires CanRun(s, events) && !IsLost(s)
    ensures IsLost(After(s, events)) <==> LeftBehind(s, events)
    decreases |events|
  {
    if events != [] {
      var t := Step(s, events[0]);
      if IsLost(t) {
        LostForever(t, events[1..]);
      } else {
        LostExactly(t, events[1..]);
      }
    }
  }

  lemma {:induction false} LostForever(s: State, events: seq<Event>)
    requires CanRun(s, events) && IsLost(s)
    ensures IsLost(After(s, events))
    decreases |events|
  {
    if events != [] {
      LostForever(Step(s, events[0]), events[1..]);
    }
  }

  /** The buffer is lost, with its unit, exactly when the loop drops it from its queue. */
  lemma {:induction false} BufferLostExactly(s: State, events: seq<Event>)
    requires CanRun(s, events) && Inv(s) && s.buffer != BufferLost
    ensures After(s, events).buffer == BufferLost <==> LoopDrops(TheBuffer) in events
    decreases |events|
  {
    if events != [] {
      var t := Step(s, events[0]);
      StepKeepsInv(s, events[0]);
      assert LoopDrops(TheBuffer) in events <==> events[0] == LoopDrops(TheBuffer) || LoopDrops(TheBuffer) in events[1..];
      if t.buffer == BufferLost {
        BufferLostForever(t, events[1..]);
      } else {
        BufferLostExactly(t, events[1..]);
      }
    }
  }

  lemma {:induction false} BufferLostForever(s: State, events: seq<Event>)
    requires CanRun(s, events) && s.place == Gone && s.buffer == BufferLost
    ensures After(s, events).buffer == BufferLost
    decreases |events|
  {
    if events != [] {
      BufferLostForever(Step(s, events[0]), events[1..]);
    }
  }

  /** Lost, concretely: discarded before the body is entered. */
  lemma LostUnentered()
    ensures var events := [Start(Launch(true, true, false, true)), DrainEntry];
      CanRun(FRESH, events) && After(FRESH, events).place == Lost && After(FRESH, events).work == 2
  {
  }

  /** Lost: the RPC context cannot be made. */
  lemma LostUnmade()
    ensures var events := [Start(Launch(true, true, false, true)), EnterBody(false)];
      CanRun(FRESH, events) && After(FRESH, events).place == Lost && After(FRESH, events).work == 2
  {
  }

  /** Lost: the successor cannot be spawned. */
  lemma LostUnspawned()
    ensures var events := [Start(Launch(true, true, false, true)), EnterBody(true), Answered(Answer(true, true, false, false))];
      CanRun(FRESH, events) && After(FRESH, events).place == Lost && After(FRESH, events).work == 2
  {
  }

  /** Lost: the request handler cannot be copied, although the operation is already stopped. */
  lemma LostUncopied()
    ensures var events := [Start(Launch(true, true, false, true)), EnterBody(true), Cancel, Answered(Answer(true, false, true, false))];
      CanRun(FRESH, events) && After(FRESH, events).place == Lost && After(FRESH, events).work == 2
  {
  }

  /** Lost: the loop drops the queued operation. */
  lemma DroppedOperation()
    ensures var events := [Start(Launch(true, true, true, true)), LoopDrops(TheOperation)];
      CanRun(FRESH, events) && After(FRESH, events).place == Lost && After(FRESH, events).work == 2
  {
  }

  /** Lost: the loop drops the coroutine's entry, whose unit stays counted too. */
  lemma DroppedCoroutine()
    ensures var events := [Start(Launch(true, true, false, true)), LoopDrops(TheCoroutine)];
      CanRun(FRESH, events) && After(FRESH, events).place == LostSpawned && After(FRESH, events).work == 3
  {
  }

  /** The loop drops the buffer of an operation that completed. */
  lemma DroppedBuffer()
    ensures var events := [Start(Launch(true, true, true, true)), Dequeued(true), LoopDrops(TheBuffer)];
      && CanRun(FRESH, events) && After(FRESH, events).completed == 1
      && After(FRESH, events).buffer == BufferLost && After(FRESH, events).work == 1
  {
  }

  /** A throw out of the first spawn leaves nothing but the queued buffer and its unit, which the loop
      then frees. */
  lemma FailedFirstSpawn(s: State)
    requires s.place == NotStarted && !s.stopped
    ensures var t := Step(s, Start(Launch(true, true, false, false)));
      && t == s.(place := Gone, buffer := BufferQueued, work := s.work + 1)
      && Enabled(t, BufferDequeued)
      && Step(t, BufferDequeued) == s.(place := Gone, buffer := Freed)
  {
  }

  // ---- stopping ------------------------------------------------------------------------

  predicate Reaches(e: Event) {
    e.Answered? && e.answer.ok && e.answer.copies
  }

  predicate StillReached(events: seq<Event>)
    decreases |events|
  {
    events != [] && (Reaches(events[0]) || StillReached(events[1..]))
  }

  /** With the flag set, no coroutine is spawned any more, so from any place but `Spawned` no request
      is made. */
  lemma {:induction false} NoRequestOnceStopped(s: State, events: seq<Event>)
    requires CanRun(s, events) && s.stopped && s.place != Spawned
    ensures var t := After(s, events);
      && t.stopped && t.requests == s.requests
      && t.handled == s.handled + (if StillReached(events) then 1 else 0)
      && (s.place != Suspended ==> !StillReached(events))
    decreases |events|
  {
    if events != [] {
      NoRequestOnceStopped(Step(s, events[0]), events[1..]);
    }
  }

  /** Stop, exactly: after the flag is set one more request is made if a coroutine was already spawned
      and its body is then entered, and none otherwise; and one more request is handled if one is
      still answered. */
  lemma {:induction false} StopBound(s: State, events: seq<Event>)
    requires CanRun(s, events) && s.stopped
    ensures var t := After(s, events);
      && t.stopped
      && t.requests == s.requests + (if s.place == Spawned && EnterBody(true) in events then 1 else 0)
      && t.handled == s.handled + (if StillReached(events) then 1 else 0)
    decreases |events|
  {
    if s.place != Spawned {
      NoRequestOnceStopped(s, events);
    } else if events != [] {
      assert forall e :: e in events <==> e == events[0] || e in events[1..];
      if events[0].EnterBody? || events[0] == DrainEntry || events[0] == LoopDrops(TheCoroutine) {
        NoRequestOnceStopped(Step(s, events[0]), events[1..]);
        EnteredOnce(Step(s, events[0]), events[1..]);
      } else {
        StopBound(Step(s, events[0]), events[1..]);
      }
    }
  }

  lemma {:induction false} EnteredOnce(s: State, events: seq<Event>)
    requires CanRun(s, events) && s.stopped && s.place != Spawned
    ensures forall e :: e in events ==> !e.EnterBody?
    decreases |events|
  {
    if events != [] {
      assert forall e :: e in events <==> e == events[0] || e in events[1..];
      EnteredOnce(Step(s, events[0]), events[1..]);
    }
  }

  /** The late request, concretely: cancelled between spawning and entering the body. */
  lemma LateRequest()
    ensures var before := [Start(Launch(true, true, false, true)), Cancel];
      && CanRun(FRESH, before) && After(FRESH, before).stopped && After(FRESH, before).requests == 0
      && CanRun(After(FRESH, before), [EnterBody(true)])
      && After(After(FRESH, before), [EnterBody(true)]).requests == 1
  {
  }
}
