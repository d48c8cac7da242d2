/** What a run of the callback form did, told from its events alone. */
module RequestHistory {
  import opened Sequences
  import opened RequestSpec

  /** How many events of the run satisfy `counts` in the state they find. */
  function Tally(s: State, events: seq<Event>, counts: (State, Event) -> bool): nat
    requires CanRun(s, events)
    decreases |events|
  {
    if events == [] then 0
    else AsNat(counts(s, events[0])) + Tally(Step(s, events[0]), events[1..], counts)
  }

  // ---- what an event is, by its outcome and the flag it finds ---------------------------

  /** The initiating function returns without throwing. */
  predicate Launches(s: State, e: Event) {
    e.Start? && e.allocates && e.connects && (s.stopped || e.stopEarly || e.contextAllocates)
  }

  /** A request succeeded, and no exception kept it from the handler. */
  predicate Accepts(s: State, e: Event) {
    e.RequestDone? && e.how.invoke && e.how.ok && (s.stopped || e.how.rearmAllocates)
  }

  /** A request is made: the first one, or the successor of an accepted one, unless stopped. */
  predicate Requests(s: State, e: Event) {
    !s.stopped && ((Launches(s, e) && !e.stopEarly) || Accepts(s, e))
  }

  predicate Answers(s: State, e: Event) {
    e.RequestDone?
  }

  /** The operation is queued to complete: stopped before a request, or refused one. */
  predicate Queues(s: State, e: Event) {
    || (Launches(s, e) && (s.stopped || e.stopEarly))
    || (Accepts(s, e) && s.stopped)
    || (e.RequestDone? && e.how.invoke && !e.how.ok)
  }

  predicate Unqueues(s: State, e: Event) {
    e.Dequeued? || e.LoopDrops?
  }

  predicate Completes(s: State, e: Event) {
    e.Dequeued? && e.invoke
  }

  predicate Ends(s: State, e: Event) {
    e.Dequeued? || (e.RequestDone? && !e.how.invoke)
  }

  predicate Cancels(s: State, e: Event) {
    e.Cancel? || (Launches(s, e) && e.stopEarly) || (Accepts(s, e) && e.how.cancelInHandler)
  }

  // ---- counts --------------------------------------------------------------------------

  ghost predicate Counts(s: State, t: State, launches: nat, accepts: nat, requests: nat, answers: nat,
                         queues: nat, unqueues: nat, completes: nat, ends: nat)
  {
    && t.handled == s.handled + accepts
    && t.requests == s.requests + requests
    && AsNat(t.place.InFlight?) + answers == AsNat(s.place.InFlight?) + requests
    && AsNat(t.place == Queued) + unqueues == AsNat(s.place == Queued) + queues
    && t.completed == s.completed + completes
    && AsNat(t.place == Gone) == AsNat(s.place == Gone) + ends
    && AsNat(t.place != NotStarted) == AsNat(s.place != NotStarted) + launches
  }

  lemma StepCounts(s: State, e: Event)
    requires Enabled(s, e)
    ensures Counts(s, Step(s, e), AsNat(Launches(s, e)), AsNat(Accepts(s, e)), AsNat(Requests(s, e)), AsNat(Answers(s, e)),
                   AsNat(Queues(s, e)), AsNat(Unqueues(s, e)), AsNat(Completes(s, e)), AsNat(Ends(s, e)))
    ensures Step(s, e).stopped <==> s.stopped || Cancels(s, e)
  {
  }

  lemma {:induction false} RunCounts(s: State, events: seq<Event>)
    requires CanRun(s, events)
    ensures Counts(s, After(s, events), Tally(s, events, Launches), Tally(s, events, Accepts),
                   Tally(s, events, Requests), Tally(s, events, Answers), Tally(s, events, Queues),
                   Tally(s, events, Unqueues), Tally(s, events, Completes), Tally(s, events, Ends))
    ensures After(s, events).stopped <==> s.stopped || Tally(s, events, Cancels) > 0
    decreases |events|
  {
    if events != [] {
      StepCounts(s, events[0]);
      RunCounts(Step(s, events[0]), events[1..]);
    }
  }

  /** The history of every run: the handler is called exactly for the accepted requests; a request is
      made exactly at the launch and at each acceptance that finds the flag clear; one is pending iff
      one more was made than answered; the operation is queued iff it was put there more often than it
      left; its completion handler is called exactly when it is dequeued outside draining; it is gone
      iff it was dequeued or drained; and the flag is set iff something cancelled. */
  lemma History(events: seq<Event>)
    requires CanRun(FRESH, events)
    ensures var t := After(FRESH, events);
      && t.handled == Tally(FRESH, events, Accepts)
      && t.requests == Tally(FRESH, events, Requests)
      && t.requests == Tally(FRESH, events, Answers) + AsNat(t.place.InFlight?)
      && Tally(FRESH, events, Queues) == Tally(FRESH, events, Unqueues) + AsNat(t.place == Queued)
      && t.completed == Tally(FRESH, events, Completes)
      && AsNat(t.place == Gone) == Tally(FRESH, events, Ends)
      && AsNat(t.place != NotStarted) == Tally(FRESH, events, Launches)
      && (t.stopped <==> Tally(FRESH, events, Cancels) > 0)
  {
    RunCounts(FRESH, events);
  }

  // ---- contexts ------------------------------------------------------------------------

  /** The contexts given to the handler, and those its side has destroyed. */
  function Given(s: State, events: seq<Event>): set<nat>
    requires CanRun(s, events)
    decreases |events|
  {
    if events == [] then {}
    else
      (if Accepts(s, events[0]) && s.place.InFlight? then {s.place.context} else {})
      + Given(Step(s, events[0]), events[1..])
  }

  function Destroyed(events: seq<Event>): set<nat>
    decreases |events|
  {
    if events == [] then {}
    else (if events[0].Dropped? then {events[0].context} else {}) + Destroyed(events[1..])
  }

  /** The contexts freed, in order: those of unaccepted requests, and those the handler's side drops. */
  function FreedIn(s: State, events: seq<Event>): seq<nat>
    requires CanRun(s, events)
    decreases |events|
  {
    if events == [] then []
    else FreedBy(s, events[0]) + FreedIn(Step(s, events[0]), events[1..])
  }

  function FreedBy(s: State, e: Event): seq<nat> {
    if e.Dropped? then [e.context]
    else if e.RequestDone? && !Accepts(s, e) && s.place.InFlight? then [s.place.context]
    else []
  }

  /** A context that is not in flight is never given to the handler again. */
  lemma {:induction false} NotGivenAgain(s: State, events: seq<Event>, c: nat)
    requires CanRun(s, events) && c < s.next && !(s.place.InFlight? && s.place.context == c)
    ensures c !in Given(s, events)
    decreases |events|
  {
    if events != [] {
      StepNotAgain(s, events[0], c);
      NotGivenAgain(Step(s, events[0]), events[1..], c);
    }
  }

  lemma StepNotAgain(s: State, e: Event, c: nat)
    requires Enabled(s, e) && c < s.next && !(s.place.InFlight? && s.place.context == c)
    ensures var t := Step(s, e); c < t.next && !(t.place.InFlight? && t.place.context == c)
  {
  }

  lemma StepContexts(s: State, e: Event)
    requires Enabled(s, e)
    ensures Step(s, e).freed == s.freed + FreedBy(s, e)
    ensures Step(s, e).handed == (if e.Dropped? then s.handed - {e.context} else
                                  if Accepts(s, e) then s.handed + {s.place.context} else s.handed)
  {
  }

  lemma {:induction false} RunFrees(s: State, events: seq<Event>)
    requires CanRun(s, events)
    ensures After(s, events).freed == s.freed + FreedIn(s, events)
    decreases |events|
  {
    if events != [] {
      StepContexts(s, events[0]);
      RunFrees(Step(s, events[0]), events[1..]);
    }
  }

  /** Contexts not handed over any more are not in flight. */
  ghost predicate Apart(s: State) {
    forall c :: c in s.handed ==> c < s.next && !(s.place.InFlight? && s.place.context == c)
  }

  lemma InvApart(s: State)
    requires Inv(s)
    ensures Apart(s) && (s.place.InFlight? ==> s.place.context < s.next)
  {
    if s.place.InFlight? {
      assert OwnedOnce(s, s.place.context);
    }
    forall c | c in s.handed ensures c < s.next && !(s.place.InFlight? && s.place.context == c) {
      assert OwnedOnce(s, c);
    }
  }

  lemma {:induction false} RunHands(s: State, events: seq<Event>)
    requires CanRun(s, events) && Inv(s)
    ensures After(s, events).handed == (s.handed + Given(s, events)) - Destroyed(events)
    decreases |events|
  {
    if events != [] {
      var e := events[0];
      StepKeepsInv(s, e);
      InvApart(s);
      StepContexts(s, e);
      RunHands(Step(s, e), events[1..]);
      if e.Dropped? {
        NotGivenAgain(Step(s, e), events[1..], e.context);
      }
    }
  }

  lemma {:induction false} LatestInFlight(s: State, events: seq<Event>)
    requires CanRun(s, events) && (s.place.InFlight? ==> s.place.context + 1 == s.next) && s.requests == s.next
    ensures var t := After(s, events); t.place.InFlight? ==> t.place.context + 1 == t.requests
    decreases |events|
  {
    if events != [] {
      LatestInFlight(Step(s, events[0]), events[1..]);
    }
  }

  /** Where every context goes: the pending request has the latest one; an accepted request's context
      is with the handler's side until that destroys it; any other request's context is freed when the
      request is answered. */
  lemma Contexts(events: seq<Event>)
    requires CanRun(FRESH, events)
    ensures var t := After(FRESH, events);
      && (t.place.InFlight? ==> t.place.context + 1 == t.requests)
      && t.handed == Given(FRESH, events) - Destroyed(events)
      && t.freed == FreedIn(FRESH, events)
  {
    LatestInFlight(FRESH, events);
    RunHands(FRESH, events);
    RunFrees(FRESH, events);
  }
}
