/** What a run of the sender form did, told from its events alone. */
module RequestSenderHistory {
  import opened Sequences
  import opened RequestSenderSpec

  /** How many events of the run satisfy `counts` in the state they find. */
  function Tally(s: State, events: seq<Event>, counts: (State, Event) -> bool): nat
    requires CanRun(s, events)
    decreases |events|
  {
    if events == [] then 0
    else AsNat(counts(s, events[0])) + Tally(Step(s, events[0]), events[1..], counts)
  }

  // ---- what an event is, by its outcome and the flags it finds --------------------------

  /** A request succeeded and its handler was connected. */
  predicate Connects(e: Event) {
    e.RequestDone? && e.how.invoke && e.how.ok && !e.how.connectThrows
  }

  /** The stop flag as re-arming finds it, the handler function having run. */
  predicate StoppedByThen(s: State, e: Event) {
    s.stopped || (e.RequestDone? && e.how.stopInHandler && s.registered)
  }

  /** The connected handler's operation is started. */
  predicate Starts(s: State, e: Event) {
    Connects(e) && (StoppedByThen(s, e) || e.how.rearmAllocates)
  }

  /** A request is made: the first one, or the successor of one whose handler is started. */
  predicate Requests(s: State, e: Event) {
    !StoppedByThen(s, e) && (e.Initiate? || Starts(s, e))
  }

  predicate Answers(s: State, e: Event) {
    e.RequestDone?
  }

  /** The receiver is signalled. */
  predicate Signals(s: State, e: Event) {
    || (e.Begin? && e.shutdown)
    || (e.CheckStop? && s.requested)
    || (e.RequestDone? && (!e.how.invoke || !e.how.ok || e.how.connectThrows || StoppedByThen(s, e)))
  }

  predicate Ended(s: State, e: Event) {
    e.HandlerEnds? || (Starts(s, e) && e.how.endsAtOnce)
  }

  /** Stop is requested at the receiver's token. */
  predicate Stops(s: State, e: Event) {
    e.RequestStop? || (e.RequestDone? && e.how.invoke && e.how.ok && e.how.stopInHandler)
  }

  // ---- counts --------------------------------------------------------------------------

  ghost predicate Counts(s: State, t: State, starts: nat, requests: nat, answers: nat, signals: nat, ended: nat) {
    && t.handled == s.handled + starts
    && t.requests == s.requests + requests
    && AsNat(t.place.InFlight?) + answers == AsNat(s.place.InFlight?) + requests
    && |t.signals| == |s.signals| + signals
    && |t.live| + ended == |s.live| + starts
  }

  /** The request's handler operation is not also a started one. */
  ghost predicate Fresh(s: State) {
    s.place.InFlight? ==> s.place.handler !in s.live
  }

  lemma RequestCounts(s: State, h: nat, d: Delivery)
    requires s.place == InFlight(h) && h !in s.live
    ensures var e := RequestDone(d);
      Counts(s, UnitReturned(OnRequest(s, h, d)), AsNat(Starts(s, e)), AsNat(Requests(s, e)), 1, AsNat(Signals(s, e)), AsNat(Ended(s, e)))
    ensures UnitReturned(OnRequest(s, h, d)).requested <==> s.requested || Stops(s, RequestDone(d))
  {
  }

  lemma StepCounts(s: State, e: Event)
    requires Enabled(s, e) && Fresh(s)
    ensures Counts(s, Step(s, e), AsNat(Starts(s, e)), AsNat(Requests(s, e)), AsNat(Answers(s, e)),
                   AsNat(Signals(s, e)), AsNat(Ended(s, e)))
    ensures Step(s, e).requested <==> s.requested || Stops(s, e)
  {
    if e.RequestDone? {
      RequestCounts(s, s.place.handler, e.how);
    }
  }

  lemma InvFresh(s: State)
    requires Inv(s)
    ensures Fresh(s) && (s.place.InFlight? ==> s.place.handler < s.next)
  {
    if s.place.InFlight? {
      assert OwnedOnce(s, s.place.handler);
    }
  }

  lemma {:induction false} RunCounts(s: State, events: seq<Event>)
    requires CanRun(s, events) && Inv(s)
    ensures Counts(s, After(s, events), Tally(s, events, Starts), Tally(s, events, Requests),
                   Tally(s, events, Answers), Tally(s, events, Signals), Tally(s, events, Ended))
    ensures After(s, events).requested <==> s.requested || Tally(s, events, Stops) > 0
    decreases |events|
  {
    if events != [] {
      InvFresh(s);
      StepCounts(s, events[0]);
      StepKeepsInv(s, events[0]);
      RunCounts(Step(s, events[0]), events[1..]);
    }
  }

  /** The history of every run: a handler operation is started exactly for each connected handler that
      re-arming does not throw away; a request is made exactly by `start` and by each such event that
      finds the flag clear; one is pending iff one more was made than answered; the receiver is
      signalled exactly at a shut-down or stopped start and at each answer that ends the operation;
      and as many handler operations are live as were started and have not ended. */
  lemma History(events: seq<Event>)
    requires CanRun(FRESH, events)
    ensures var t := After(FRESH, events);
      && t.handled == Tally(FRESH, events, Starts)
      && t.requests == Tally(FRESH, events, Requests)
      && t.requests == Tally(FRESH, events, Answers) + AsNat(t.place.InFlight?)
      && |t.signals| == Tally(FRESH, events, Signals)
      && |t.live| + Tally(FRESH, events, Ended) == Tally(FRESH, events, Starts)
      && (t.requested <==> Tally(FRESH, events, Stops) > 0)
  {
    RunCounts(FRESH, events);
  }

  // ---- the stop flag -------------------------------------------------------------------

  /** While a request is pending, the callback is registered until stop is requested, and the flag is
      set from then on. */
  ghost predicate FlagsFollow(s: State) {
    && FlagsAgree(s)
    && (s.place.InFlight? ==> (s.stopped <==> s.requested) && (s.registered <==> !s.requested))
  }

  lemma RequestKeepsFlags(s: State, h: nat, d: Delivery)
    requires s.place == InFlight(h) && FlagsFollow(s)
    ensures FlagsFollow(UnitReturned(OnRequest(s, h, d)))
  {
  }

  lemma StepKeepsFlags(s: State, e: Event)
    requires Enabled(s, e) && FlagsFollow(s)
    ensures FlagsFollow(Step(s, e))
  {
    if e.RequestDone? {
      RequestKeepsFlags(s, s.place.handler, e.how);
    }
  }

  lemma {:induction false} RunKeepsFlags(s: State, events: seq<Event>)
    requires CanRun(s, events) && FlagsFollow(s)
    ensures FlagsFollow(After(s, events))
    decreases |events|
  {
    if events != [] {
      StepKeepsFlags(s, events[0]);
      RunKeepsFlags(Step(s, events[0]), events[1..]);
    }
  }

  /** A pending request is the last one exactly when stop has been requested since `start`. */
  lemma FlagFollowsToken(events: seq<Event>)
    requires CanRun(FRESH, events) && After(FRESH, events).place.InFlight?
    ensures After(FRESH, events).stopped <==> Tally(FRESH, events, Stops) > 0
  {
    RunKeepsFlags(FRESH, events);
    RunCounts(FRESH, events);
  }

  // ---- handler operations --------------------------------------------------------------

  /** The handler operations started that did not end at once, and those that ended later. */
  function Started(s: State, events: seq<Event>): set<nat>
    requires CanRun(s, events)
    decreases |events|
  {
    if events == [] then {}
    else
      (if Starts(s, events[0]) && s.place.InFlight? && !events[0].how.endsAtOnce then {s.place.handler} else {})
      + Started(Step(s, events[0]), events[1..])
  }

  function Finished(events: seq<Event>): set<nat>
    decreases |events|
  {
    if events == [] then {}
    else (if events[0].HandlerEnds? then {events[0].handler} else {}) + Finished(events[1..])
  }

  /** The handler operations freed, in order. */
  function FreedIn(s: State, events: seq<Event>): seq<nat>
    requires CanRun(s, events)
    decreases |events|
  {
    if events == [] then []
    else FreedBy(s, events[0]) + FreedIn(Step(s, events[0]), events[1..])
  }

  function FreedBy(s: State, e: Event): seq<nat> {
    if e.HandlerEnds? then [e.handler]
    else if e.RequestDone? && s.place.InFlight? && (!Starts(s, e) || e.how.endsAtOnce) then [s.place.handler]
    else []
  }

  lemma RequestMoves(s: State, h: nat, d: Delivery)
    requires s.place == InFlight(h)
    ensures var e, t := RequestDone(d), UnitReturned(OnRequest(s, h, d));
      && t.freed == s.freed + FreedBy(s, e)
      && t.live == s.live + (if Starts(s, e) && !d.endsAtOnce then {h} else {})
      && t.next >= s.next && (t.place.InFlight? ==> t.place.handler == s.next && t.next == s.next + 1)
  {
    assert s.freed + [] == s.freed;
  }

  lemma StepMoves(s: State, e: Event)
    requires Enabled(s, e)
    ensures var t := Step(s, e);
      && t.freed == s.freed + FreedBy(s, e)
      && t.live == (if e.HandlerEnds? then s.live - {e.handler}
                    else if Starts(s, e) && !e.how.endsAtOnce then s.live + {s.place.handler} else s.live)
      && t.next >= s.next
      && (t.place.InFlight? ==>
            (t.place == s.place && t.next == s.next) || (t.place.handler == s.next && t.next == s.next + 1))
  {
    if e.RequestDone? {
      RequestMoves(s, s.place.handler, e.how);
    }
  }

  lemma {:induction false} NotStartedAgain(s: State, events: seq<Event>, h: nat)
    requires CanRun(s, events) && h < s.next && !(s.place.InFlight? && s.place.handler == h)
    ensures h !in Started(s, events)
    decreases |events|
  {
    if events != [] {
      StepMoves(s, events[0]);
      NotStartedAgain(Step(s, events[0]), events[1..], h);
    }
  }

  lemma LiveIsOld(s: State, h: nat)
    requires Inv(s) && h in s.live
    ensures h < s.next && !(s.place.InFlight? && s.place.handler == h)
  {
    assert OwnedOnce(s, h);
  }

  lemma {:induction false} RunFrees(s: State, events: seq<Event>)
    requires CanRun(s, events)
    ensures After(s, events).freed == s.freed + FreedIn(s, events)
    decreases |events|
  {
    if events != [] {
      StepMoves(s, events[0]);
      RunFrees(Step(s, events[0]), events[1..]);
      Regroup(s.freed, FreedBy(s, events[0]), FreedIn(Step(s, events[0]), events[1..]));
    }
  }

  lemma Regroup(a: seq<nat>, b: seq<nat>, c: seq<nat>)
    ensures a + b + c == a + (b + c)
  {
  }

  lemma EndedStays(live: set<nat>, started: set<nat>, finished: set<nat>, h: nat)
    requires h !in started
    ensures ((live - {h}) + started) - finished == (live + started) - ({h} + finished)
  {
  }

  lemma StartedStays(live: set<nat>, more: set<nat>, started: set<nat>, finished: set<nat>)
    ensures ((live + more) + started) - finished == (live + (more + started)) - finished
    ensures {} + started == started && {} + finished == finished && live + {} == live
  {
  }

  lemma {:induction false} RunStarts(s: State, events: seq<Event>)
    requires CanRun(s, events) && Inv(s)
    ensures After(s, events).live == (s.live + Started(s, events)) - Finished(events)
    decreases |events|
  {
    if events != [] {
      var e := events[0];
      var t := Step(s, e);
      StepMoves(s, e);
      StepKeepsInv(s, e);
      RunStarts(t, events[1..]);
      if e.HandlerEnds? {
        LiveIsOld(s, e.handler);
        NotStartedAgain(t, events[1..], e.handler);
        EndedStays(s.live, Started(t, events[1..]), Finished(events[1..]), e.handler);
        StartedStays(s.live, {}, Started(t, events[1..]), Finished(events[1..]));
      } else {
        var more := if Starts(s, e) && !e.how.endsAtOnce then {s.place.handler} else {};
        StartedStays(s.live, more, Started(t, events[1..]), Finished(events[1..]));
      }
    }
  }

  lemma {:induction false} LatestInFlight(s: State, events: seq<Event>)
    requires CanRun(s, events) && (s.place.InFlight? ==> s.place.handler + 1 == s.next)
    ensures var t := After(s, events); t.place.InFlight? ==> t.place.handler + 1 == t.next
    decreases |events|
  {
    if events != [] {
      StepMoves(s, events[0]);
      LatestInFlight(Step(s, events[0]), events[1..]);
    }
  }

  /** Where every handler operation goes: the pending request has the latest one; one that was started
      is live from then until it ends, and only then freed; any other is freed when its request is
      answered. */
  lemma HandlerOperations(events: seq<Event>)
    requires CanRun(FRESH, events)
    ensures var t := After(FRESH, events);
      && (t.place.InFlight? ==> t.place.handler + 1 == t.requests)
      && t.live == Started(FRESH, events) - Finished(events)
      && t.freed == FreedIn(FRESH, events)
  {
    LatestInFlight(FRESH, events);
    RunKeepsInv(FRESH, events);
    RunStarts(FRESH, events);
    RunFrees(FRESH, events);
  }
}
