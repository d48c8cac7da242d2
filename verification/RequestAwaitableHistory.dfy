/** What a run of the coroutine form did, told from its events alone. */
module RequestAwaitableHistory {
  import opened Sequences
  import opened RequestAwaitableSpec

  /** How many events of the run satisfy `counts` in the state they find. */
  function Tally(s: State, events: seq<Event>, counts: (State, Event) -> bool): nat
    requires CanRun(s, events)
    decreases |events|
  {
    if events == [] then 0
    else AsNat(counts(s, events[0])) + Tally(Step(s, events[0]), events[1..], counts)
  }

  // ---- what an event is, by its outcome and the flag it finds ---------------------------

  /** The initiating function returns without throwing. */
  predicate Launches(s: State, e: Event) {
    e.Start? && e.how.allocates && e.how.connects && (s.stopped || e.how.stopEarly || e.how.spawns)
  }

  /** It throws after the operation was constructed. */
  predicate ThrowsLate(s: State, e: Event) {
    e.Start? && e.how.allocates && !Launches(s, e)
  }

  /** A request was answered, and no exception kept it from the handler. */
  predicate Handles(s: State, e: Event) {
    e.Answered? && e.answer.ok && e.answer.copies && (s.stopped || e.answer.spawns)
  }

  predicate Spawns(s: State, e: Event) {
    !s.stopped && ((Launches(s, e) && !e.how.stopEarly) || Handles(s, e))
  }

  predicate Unspawns(s: State, e: Event) {
    e.EnterBody? || e.DrainEntry? || e == LoopDrops(TheCoroutine)
  }

  predicate Requests(s: State, e: Event) {
    e.EnterBody? && e.constructs
  }

  predicate Answers(s: State, e: Event) {
    e.Answered? || e.DrainRequest?
  }

  /** The operation is queued to complete: stopped before a spawn, or refused a request. */
  predicate Queues(s: State, e: Event) {
    || (Launches(s, e) && (s.stopped || e.how.stopEarly))
    || (Handles(s, e) && s.stopped)
    || (e.Answered? && !e.answer.ok)
  }

  predicate Unqueues(s: State, e: Event) {
    e.Dequeued? || e == LoopDrops(TheOperation)
  }

  predicate Completes(s: State, e: Event) {
    e.Dequeued? && e.invoke
  }

  /** The operation is destroyed, and its buffer queued. */
  predicate Ends(s: State, e: Event) {
    e.Dequeued? || e.DrainRequest? || ThrowsLate(s, e)
  }

  predicate FreesBuffer(s: State, e: Event) {
    e.BufferDequeued?
  }

  predicate DropsBuffer(s: State, e: Event) {
    e == LoopDrops(TheBuffer)
  }

  predicate HandlerDone(s: State, e: Event) {
    e.HandlerEnds?
  }

  predicate Cancels(s: State, e: Event) {
    e.Cancel? || (Launches(s, e) && e.how.stopEarly) || (Handles(s, e) && e.answer.cancelInHandler)
  }

  // ---- counts --------------------------------------------------------------------------

  /** The coroutine's side. */
  ghost predicate RequestCounts(s: State, t: State, handles: nat, spawns: nat, unspawns: nat, requests: nat,
                                answers: nat, handlerDone: nat)
  {
    && t.handled == s.handled + handles
    && t.handlers + handlerDone == s.handlers + handles
    && t.requests == s.requests + requests
    && AsNat(t.place == Spawned) + unspawns == AsNat(s.place == Spawned) + spawns
    && AsNat(t.place == Suspended) + answers == AsNat(s.place == Suspended) + requests
  }

  /** The operation's and its buffer's. */
  ghost predicate LifeCounts(s: State, t: State, launches: nat, throwsLate: nat, queues: nat, unqueues: nat,
                             completes: nat, ends: nat, freesBuffer: nat, dropsBuffer: nat)
  {
    && AsNat(t.place != NotStarted) == AsNat(s.place != NotStarted) + launches + throwsLate
    && AsNat(t.place == Queued) + unqueues == AsNat(s.place == Queued) + queues
    && t.completed == s.completed + completes
    && AsNat(t.place == Gone) == AsNat(s.place == Gone) + ends
    && AsNat(t.buffer == BufferQueued) + freesBuffer + dropsBuffer == AsNat(s.buffer == BufferQueued) + ends
    && AsNat(t.buffer == Freed) == AsNat(s.buffer == Freed) + freesBuffer
  }

  lemma StepCountsRequests(s: State, e: Event)
    requires Enabled(s, e)
    ensures RequestCounts(s, Step(s, e), AsNat(Handles(s, e)), AsNat(Spawns(s, e)), AsNat(Unspawns(s, e)),
                          AsNat(Requests(s, e)), AsNat(Answers(s, e)), AsNat(HandlerDone(s, e)))
    ensures Step(s, e).stopped <==> s.stopped || Cancels(s, e)
  {
  }

  lemma StepCountsLife(s: State, e: Event)
    requires Enabled(s, e) && Inv(s)
    ensures LifeCounts(s, Step(s, e), AsNat(Launches(s, e)), AsNat(ThrowsLate(s, e)), AsNat(Queues(s, e)),
                       AsNat(Unqueues(s, e)), AsNat(Completes(s, e)), AsNat(Ends(s, e)), AsNat(FreesBuffer(s, e)),
                       AsNat(DropsBuffer(s, e)))
  {
  }

  lemma {:induction false} RunCountsRequests(s: State, events: seq<Event>)
    requires CanRun(s, events)
    ensures RequestCounts(s, After(s, events), Tally(s, events, Handles), Tally(s, events, Spawns),
                          Tally(s, events, Unspawns), Tally(s, events, Requests), Tally(s, events, Answers),
                          Tally(s, events, HandlerDone))
    ensures After(s, events).stopped <==> s.stopped || Tally(s, events, Cancels) > 0
    decreases |events|
  {
    if events != [] {
      StepCountsRequests(s, events[0]);
      RunCountsRequests(Step(s, events[0]), events[1..]);
    }
  }

  lemma {:induction false} RunCountsLife(s: State, events: seq<Event>)
    requires CanRun(s, events) && Inv(s)
    ensures LifeCounts(s, After(s, events), Tally(s, events, Launches), Tally(s, events, ThrowsLate),
                       Tally(s, events, Queues), Tally(s, events, Unqueues), Tally(s, events, Completes),
                       Tally(s, events, Ends), Tally(s, events, FreesBuffer), Tally(s, events, DropsBuffer))
    decreases |events|
  {
    if events != [] {
      StepCountsLife(s, events[0]);
      StepKeepsInv(s, events[0]);
      RunCountsLife(Step(s, events[0]), events[1..]);
    }
  }

  /** The history of requests in every run: a handler runs exactly for each answered request that no
      exception kept from it; a coroutine is spawned exactly at the launch and at each such answer that
      finds the flag clear; each entered body makes one request; what was spawned and has not left its
      queue is waiting there, and what was requested and not answered is pending. */
  lemma RequestHistory(events: seq<Event>)
    requires CanRun(FRESH, events)
    ensures var t := After(FRESH, events);
      && t.handled == Tally(FRESH, events, Handles)
      && t.handlers + Tally(FRESH, events, HandlerDone) == Tally(FRESH, events, Handles)
      && t.requests == Tally(FRESH, events, Requests)
      && Tally(FRESH, events, Spawns) == Tally(FRESH, events, Unspawns) + AsNat(t.place == Spawned)
      && Tally(FRESH, events, Requests) == Tally(FRESH, events, Answers) + AsNat(t.place == Suspended)
      && (t.stopped <==> Tally(FRESH, events, Cancels) > 0)
  {
    RunCountsRequests(FRESH, events);
  }

  /** The history of the operation: it is queued iff it was put there more often than it left; its
      completion handler is called exactly when it is dequeued outside draining; it is gone iff it was
      dequeued or drained or its launch threw late, and exactly then its buffer was queued, which is
      freed iff the loop got to it. */
  lemma LifeHistory(events: seq<Event>)
    requires CanRun(FRESH, events)
    ensures var t := After(FRESH, events);
      && AsNat(t.place != NotStarted) == Tally(FRESH, events, Launches) + Tally(FRESH, events, ThrowsLate)
      && Tally(FRESH, events, Queues) == Tally(FRESH, events, Unqueues) + AsNat(t.place == Queued)
      && t.completed == Tally(FRESH, events, Completes)
      && AsNat(t.place == Gone) == Tally(FRESH, events, Ends)
      && Tally(FRESH, events, Ends)
         == Tally(FRESH, events, FreesBuffer) + Tally(FRESH, events, DropsBuffer) + AsNat(t.buffer == BufferQueued)
      && AsNat(t.buffer == Freed) == Tally(FRESH, events, FreesBuffer)
  {
    RunCountsLife(FRESH, events);
  }

  // ---- completion ----------------------------------------------------------------------

  /** The operation ended without its completion handler: drained, or its launch threw late. */
  predicate EndsUncompleted(s: State, e: Event) {
    e.DrainRequest? || (e.Dequeued? && !e.invoke) || ThrowsLate(s, e)
  }

  lemma {:induction false} EndsSplit(s: State, events: seq<Event>)
    requires CanRun(s, events)
    ensures Tally(s, events, Ends) == Tally(s, events, Completes) + Tally(s, events, EndsUncompleted)
    decreases |events|
  {
    if events != [] {
      EndsSplit(Step(s, events[0]), events[1..]);
    }
  }

  /** The completion handler is called at most once, and exactly once iff the operation ended neither
      by draining nor by a throw out of its launch. */
  lemma CompletedUnlessDrained(events: seq<Event>)
    requires CanRun(FRESH, events)
    ensures var t := After(FRESH, events);
      t.completed == AsNat(t.place == Gone && Tally(FRESH, events, EndsUncompleted) == 0)
  {
    LifeHistory(events);
    EndsSplit(FRESH, events);
  }
}
