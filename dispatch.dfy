/** The request queue dispatcher as a state machine over values: one call
    of `processQueue`, the success and error handlers of the outstanding
    request, and runs of such events. The clock reading `now` and the
    completion of the network exchange are inputs. */
module Dispatch {
  import opened Requests

  /** The dispatcher's fields. `inFlight` is the request whose exchange is
      outstanding (the `query` its handlers close over). */
  datatype State = State(
    queue: seq<Request>,
    busy: bool,
    lastApiCall: int,
    inFlight: Option<Request>)

  /** The state a new client object starts in. */
  const Initial: State := State([], false, 0, None)

  /** Opaque response payload handed to a callback on success. */
  datatype Data = Data(body: string)

  /** One invocation of a request's callback: the data (`None` for the
      `null` passed on failure), the status string, and the time. */
  datatype Invocation = Invocation(request: Request, data: Option<Data>, status: string, at: int)

  /** What a call of `processQueue` did. */
  datatype Outcome =
    | Ignored           // busy: returned at once
    | Wait(ms: int)     // throttled: re-run scheduled `ms` milliseconds later
    | Stalled           // queue empty: nothing sent, busy left set
    | Sent(request: Request)

  datatype Transition = Transition(next: State, outcome: Outcome, invoked: seq<Invocation>)

  /** At most one exchange is outstanding, and only while busy. */
  predicate Valid(s: State) { s.inFlight.Some? ==> s.busy }

  /** Busy with nothing outstanding: no handler will ever clear `busy`. */
  predicate Wedged(s: State) { s.busy && s.inFlight.None? }

  /** Requests not yet delivered, in the order they will be sent. */
  function Pending(s: State): seq<Request>
  {
    (if s.inFlight.Some? then [s.inFlight.value] else []) + s.queue
  }

  /** One call of `processQueue` at time `now`. */
  function Process(s: State, timeBetween: int, now: int): (t: Transition)
    ensures t.invoked == [] && t.next.lastApiCall == s.lastApiCall
    // re-entry while busy changes nothing
    ensures s.busy ==> t.outcome == Ignored && t.next == s
    // the throttle: nothing changes, and the re-run is due exactly when
    // the spacing has elapsed
    ensures t.outcome.Wait? <==> !s.busy && now - s.lastApiCall < timeBetween
    ensures t.outcome.Wait? ==>
      t.next == s && t.outcome.ms > 0 && now + t.outcome.ms == s.lastApiCall + timeBetween
    // the stall
    ensures t.outcome.Stalled? <==> !s.busy && now - s.lastApiCall >= timeBetween && s.queue == []
    ensures t.outcome.Stalled? ==> t.next == s.(busy := true)
    // a dispatch takes exactly the head, spaced from the last success
    ensures t.outcome.Sent? <==> !s.busy && now - s.lastApiCall >= timeBetween && s.queue != []
    ensures t.outcome.Sent? ==>
      now >= s.lastApiCall + timeBetween &&
      s.queue == [t.outcome.request] + t.next.queue &&
      t.next.busy && t.next.inFlight == Some(t.outcome.request)
    // no second exchange while one is outstanding
    ensures Valid(s) && t.outcome.Sent? ==> s.inFlight.None?
    ensures Valid(s) ==> Valid(t.next) && Pending(t.next) == Pending(s)
  {
    if s.busy then Transition(s, Ignored, [])
    else if now - s.lastApiCall < timeBetween then
      Transition(s, Wait(timeBetween - (now - s.lastApiCall)), [])
    else if s.queue == [] then Transition(s.(busy := true), Stalled, [])
    else
      var query := s.queue[0];
      Transition(s.(busy := true, queue := s.queue[1..], inFlight := Some(query)), Sent(query), [])
  }

  /** The success handler of the outstanding exchange: the clock is read
      at `now` to record the call, and read again at `rerun`, after the
      callback has run, by the re-run of `processQueue`. */
  function Succeed(s: State, timeBetween: int, now: int, rerun: int, data: Data, status: string): (t: Transition)
    requires s.inFlight.Some?
    ensures t.invoked == [Invocation(s.inFlight.value, Some(data), status, now)]
    ensures t.next.lastApiCall == now
    ensures Pending(t.next) == s.queue
    // busy is cleared first, so the re-run is never ignored
    ensures t.outcome != Ignored
    // a callback quicker than the spacing: the re-run waits out the rest of
    // it and leaves the dispatcher idle
    ensures rerun - now < timeBetween <==> t.outcome.Wait?
    ensures t.outcome.Wait? ==>
      rerun + t.outcome.ms == now + timeBetween && !t.next.busy && t.next.inFlight.None?
    // otherwise the next request goes out at once, or the queue stalls
    ensures t.outcome.Sent? ==>
      rerun >= now + timeBetween && s.queue != [] && t.outcome.request == s.queue[0]
    ensures t.outcome.Stalled? ==> s.queue == [] && Wedged(t.next)
    // the whole next state, in each case
    ensures t.outcome.Wait? ==> t.next == State(s.queue, false, now, None)
    ensures t.outcome.Sent? ==> t.next == State(s.queue[1..], true, now, Some(s.queue[0]))
    ensures t.outcome.Stalled? ==> t.next == State([], true, now, None)
    ensures Valid(t.next)
  {
    var query := s.inFlight.value;
    var done := s.(lastApiCall := now, busy := false, inFlight := None);
    var t := Process(done, timeBetween, rerun);
    Transition(t.next, t.outcome, [Invocation(query, Some(data), status, now)])
  }

  /** The error handler of the outstanding exchange, failing at `now`. It
      re-queues the request at the tail but never clears `busy`. */
  function Fail(s: State, timeBetween: int, now: int, status: string): (t: Transition)
    requires s.inFlight.Some?
    ensures t.invoked == [Invocation(s.inFlight.value, None, status, now)]
    ensures t.next.lastApiCall == s.lastApiCall
    // while busy (as dispatch leaves it) the recursive call is a no-op:
    // the request moves to the tail and the dispatcher is wedged
    ensures s.busy ==>
      t.outcome == Ignored && Wedged(t.next) &&
      t.next.queue == s.queue + [s.inFlight.value] &&
      Pending(t.next) == Pending(s)[1..] + [Pending(s)[0]]
  {
    var query := s.inFlight.value;
    var requeued := s.(queue := s.queue + [query], inFlight := None);
    var t := Process(requeued, timeBetween, now);
    Transition(t.next, t.outcome, [Invocation(query, None, status, now)])
  }

  /** Everything that happens to the dispatcher from outside. Each event
      ends with a call of `processQueue`, as the source's do. */
  datatype Event =
    | Enqueue(request: Request, now: int)     // a builder pushed, the public operation re-runs
    | Trigger(now: int)                       // a timer or a caller runs processQueue
    | Succeeded(now: int, rerun: int, data: Data, status: string)
    | Failed(now: int, status: string)

  /** One event. A completion when nothing is outstanding cannot arise (the
      handlers exist only while an exchange is out) and leaves the state. */
  function Step(s: State, timeBetween: int, e: Event): (t: Transition)
    ensures Valid(s) ==> Valid(t.next)
    ensures |t.invoked| <= 1
  {
    match e
    case Enqueue(r, now) => Process(s.(queue := s.queue + [r]), timeBetween, now)
    case Trigger(now) => Process(s, timeBetween, now)
    case Succeeded(now, rerun, data, status) =>
      if s.inFlight.Some? then Succeed(s, timeBetween, now, rerun, data, status) else Transition(s, Ignored, [])
    case Failed(now, status) =>
      if s.inFlight.Some? then Fail(s, timeBetween, now, status) else Transition(s, Ignored, [])
  }

  datatype Trace = Trace(final: State, outcomes: seq<Outcome>, log: seq<Invocation>)

  /** The events applied in order: one outcome per event, and at most one
      callback invocation per event. */
  function Run(s: State, timeBetween: int, evs: seq<Event>): (r: Trace)
    ensures |r.outcomes| == |evs| && |r.log| <= |evs|
    decreases |evs|
  {
    if evs == [] then Trace(s, [], [])
    else
      var t := Step(s, timeBetween, evs[0]);
      var rest := Run(t.next, timeBetween, evs[1..]);
      Trace(rest.final, [t.outcome] + rest.outcomes, t.invoked + rest.log)
  }

  // ---------------------------------------------------------------------
  // Views of a run

  /** The requests enqueued by a run, in order. */
  function Enqueued(evs: seq<Event>): seq<Request>
    decreases |evs|
  {
    if evs == [] then []
    else (if evs[0].Enqueue? then [evs[0].request] else []) + Enqueued(evs[1..])
  }

  predicate NoFailures(evs: seq<Event>)
  {
    forall i :: 0 <= i < |evs| ==> !evs[i].Failed?
  }

  /** The requests whose callbacks received data, in order. */
  function Delivered(log: seq<Invocation>): seq<Request>
    decreases |log|
  {
    if log == [] then []
    else (if log[0].data.Some? then [log[0].request] else []) + Delivered(log[1..])
  }

  /** The times of the successful completions, in order. */
  function SuccessTimes(log: seq<Invocation>): seq<int>
    decreases |log|
  {
    if log == [] then []
    else (if log[0].data.Some? then [log[0].at] else []) + SuccessTimes(log[1..])
  }

  /** Each time is at least `gap` after the one before, the first at least
      `gap` after `prev`. */
  predicate Spaced(prev: int, gap: int, ts: seq<int>)
    decreases |ts|
  {
    ts == [] || (ts[0] >= prev + gap && Spaced(ts[0], gap, ts[1..]))
  }

  /** The last clock reading an event makes. */
  function Latest(e: Event): int
  {
    if e.Succeeded? then e.rerun else e.now
  }

  /** Clock readings never go backwards, starting from `from`. */
  predicate Monotone(from: int, evs: seq<Event>)
    decreases |evs|
  {
    evs == [] ||
    (evs[0].now >= from && evs[0].now <= Latest(evs[0]) && Monotone(Latest(evs[0]), evs[1..]))
  }

  lemma {:induction false} DeliveredAppend(a: seq<Invocation>, b: seq<Invocation>)
    ensures Delivered(a + b) == Delivered(a) + Delivered(b)
    decreases |a|
  {
    if a != [] {
      assert (a + b)[0] == a[0] && (a + b)[1..] == a[1..] + b;
      DeliveredAppend(a[1..], b);
    } else {
      assert a + b == b;
    }
  }

  lemma {:induction false} SuccessTimesAppend(a: seq<Invocation>, b: seq<Invocation>)
    ensures SuccessTimes(a + b) == SuccessTimes(a) + SuccessTimes(b)
    decreases |a|
  {
    if a != [] {
      assert (a + b)[0] == a[0] && (a + b)[1..] == a[1..] + b;
      SuccessTimesAppend(a[1..], b);
    } else {
      assert a + b == b;
    }
  }

  // ---------------------------------------------------------------------
  // Properties of runs

  /** At most one exchange is ever outstanding. */
  lemma {:induction false} RunKeepsValid(s: State, timeBetween: int, evs: seq<Event>)
    requires Valid(s)
    ensures Valid(Run(s, timeBetween, evs).final)
    decreases |evs|
  {
    if evs != [] {
      RunKeepsValid(Step(s, timeBetween, evs[0]).next, timeBetween, evs[1..]);
    }
  }

  lemma DeliveredOne(x: Invocation)
    ensures Delivered([x]) == if x.data.Some? then [x.request] else []
  {
    assert [x][1..] == [];
  }

  lemma EnqueuedOne(e: Event)
    ensures Enqueued([e]) == if e.Enqueue? then [e.request] else []
  {
    assert [e][1..] == [];
  }

  /** What one event does to the pending requests and the deliveries. */
  lemma StepPending(s: State, timeBetween: int, e: Event)
    requires Valid(s)
    ensures var t := Step(s, timeBetween, e);
      match e
      case Enqueue(r, _) => Pending(t.next) == Pending(s) + [r] && t.invoked == []
      case Trigger(_) => Pending(t.next) == Pending(s) && t.invoked == []
      case Succeeded(now, _, data, status) =>
        if s.inFlight.Some? then
          Pending(s) == [s.inFlight.value] + Pending(t.next) &&
          t.invoked == [Invocation(s.inFlight.value, Some(data), status, now)]
        else Pending(t.next) == Pending(s) && t.invoked == []
      case Failed(now, status) =>
        if s.inFlight.Some? then
          Pending(s) == [s.inFlight.value] + s.queue &&
          Pending(t.next) == s.queue + [s.inFlight.value] &&
          t.invoked == [Invocation(s.inFlight.value, None, status, now)]
        else Pending(t.next) == Pending(s) && t.invoked == []
  {
    match e
    case Enqueue(r, now) =>
      assert Pending(s.(queue := s.queue + [r])) == Pending(s) + [r];
    case Trigger(now) =>
    case Succeeded(now, _, data, status) =>
    case Failed(now, status) =>
  }

  /** Any event but a failure moves at most the delivered request out of
      the front of the pending sequence and the enqueued one onto its end. */
  lemma StepKeepsOrder(s: State, timeBetween: int, e: Event)
    requires Valid(s) && !e.Failed?
    ensures var t := Step(s, timeBetween, e);
      Delivered(t.invoked) + Pending(t.next) == Pending(s) + Enqueued([e])
  {
    var t := Step(s, timeBetween, e);
    StepPending(s, timeBetween, e);
    EnqueuedOne(e);
    match e
    case Enqueue(r, _) =>
      assert Delivered([]) == [];
    case Trigger(_) =>
      assert Delivered([]) == [];
    case Succeeded(now, _, data, status) =>
      if s.inFlight.Some? {
        DeliveredOne(Invocation(s.inFlight.value, Some(data), status, now));
      } else {
        assert Delivered([]) == [];
      }
  }

  /** A failure delivers nothing and only rotates the pending requests:
      the outstanding one moves from the front to the back. */
  lemma FailureRotates(s: State, timeBetween: int, e: Event)
    requires Valid(s) && e.Failed?
    ensures var t := Step(s, timeBetween, e);
      Delivered(t.invoked) == [] && Enqueued([e]) == [] &&
      multiset(Pending(t.next)) == multiset(Pending(s))
    ensures var t := Step(s, timeBetween, e);
      s.inFlight.Some? ==> Pending(t.next) == Pending(s)[1..] + [Pending(s)[0]]
    ensures var t := Step(s, timeBetween, e);
      s.inFlight.None? ==> Pending(t.next) == Pending(s)
  {
    var t := Step(s, timeBetween, e);
    StepPending(s, timeBetween, e);
    EnqueuedOne(e);
    if s.inFlight.Some? {
      DeliveredOne(Invocation(s.inFlight.value, None, e.status, e.now));
    } else {
      assert Delivered([]) == [];
    }
  }

  /** No event loses or duplicates a request. */
  lemma StepConserves(s: State, timeBetween: int, e: Event)
    requires Valid(s)
    ensures var t := Step(s, timeBetween, e);
      multiset(Delivered(t.invoked)) + multiset(Pending(t.next)) ==
      multiset(Pending(s)) + multiset(Enqueued([e]))
  {
    var t := Step(s, timeBetween, e);
    if e.Failed? {
      FailureRotates(s, timeBetween, e);
      assert multiset(Delivered(t.invoked)) == multiset{};
      assert multiset(Enqueued([e])) == multiset{};
    } else {
      StepKeepsOrder(s, timeBetween, e);
      calc {
        multiset(Delivered(t.invoked)) + multiset(Pending(t.next));
        multiset(Delivered(t.invoked) + Pending(t.next));
        multiset(Pending(s) + Enqueued([e]));
        multiset(Pending(s)) + multiset(Enqueued([e]));
      }
    }
  }

  lemma NoFailuresTail(evs: seq<Event>)
    requires evs != [] && NoFailures(evs)
    ensures !evs[0].Failed? && NoFailures(evs[1..])
  {
    forall i | 0 <= i < |evs[1..]| ensures !evs[1..][i].Failed? {
      assert evs[1..][i] == evs[i + 1];
    }
  }

  lemma EnqueuedCons(evs: seq<Event>)
    requires evs != []
    ensures Enqueued(evs) == Enqueued([evs[0]]) + Enqueued(evs[1..])
  {
    EnqueuedOne(evs[0]);
  }

  /** Chains the order of one event with the order of the rest of a run. */
  lemma ChainOrder<T>(d1: seq<T>, d2: seq<T>, p0: seq<T>, p1: seq<T>, p2: seq<T>, e1: seq<T>, e2: seq<T>)
    requires d1 + p1 == p0 + e1 && d2 + p2 == p1 + e2
    ensures (d1 + d2) + p2 == p0 + (e1 + e2)
  {
    calc {
      (d1 + d2) + p2;
      d1 + (d2 + p2);
      (d1 + p1) + e2;
      p0 + (e1 + e2);
    }
  }

  lemma ChainCount<T>(d1: seq<T>, d2: seq<T>, p0: seq<T>, p1: seq<T>, p2: seq<T>, e1: seq<T>, e2: seq<T>)
    requires multiset(d1) + multiset(p1) == multiset(p0) + multiset(e1)
    requires multiset(d2) + multiset(p2) == multiset(p1) + multiset(e2)
    ensures multiset(d1 + d2) + multiset(p2) == multiset(p0) + multiset(e1 + e2)
  {
    calc {
      multiset(d1 + d2) + multiset(p2);
      multiset(d1) + (multiset(d2) + multiset(p2));
      (multiset(d1) + multiset(p1)) + multiset(e2);
      multiset(p0) + multiset(e1 + e2);
    }
  }

  /** FIFO: without failures, callbacks receive data in exactly the order
      the requests were queued, and whatever is not yet delivered is still
      pending in that order. */
  lemma {:induction false} FifoWithoutFailures(s: State, timeBetween: int, evs: seq<Event>)
    requires Valid(s) && NoFailures(evs)
    ensures var r := Run(s, timeBetween, evs);
      Delivered(r.log) + Pending(r.final) == Pending(s) + Enqueued(evs)
    decreases |evs|
  {
    if evs != [] {
      var t := Step(s, timeBetween, evs[0]);
      var rest := Run(t.next, timeBetween, evs[1..]);
      NoFailuresTail(evs);
      StepKeepsOrder(s, timeBetween, evs[0]);
      FifoWithoutFailures(t.next, timeBetween, evs[1..]);
      DeliveredAppend(t.invoked, rest.log);
      EnqueuedCons(evs);
      ChainOrder(Delivered(t.invoked), Delivered(rest.log), Pending(s), Pending(t.next),
                 Pending(rest.final), Enqueued([evs[0]]), Enqueued(evs[1..]));
    }
  }

  /** With failures the order may change, but no request is ever lost or
      duplicated: every queued request is delivered or still pending. */
  lemma {:induction false} NothingLost(s: State, timeBetween: int, evs: seq<Event>)
    requires Valid(s)
    ensures var r := Run(s, timeBetween, evs);
      multiset(Delivered(r.log)) + multiset(Pending(r.final)) ==
      multiset(Pending(s)) + multiset(Enqueued(evs))
    decreases |evs|
  {
    if evs != [] {
      var t := Step(s, timeBetween, evs[0]);
      var rest := Run(t.next, timeBetween, evs[1..]);
      StepConserves(s, timeBetween, evs[0]);
      NothingLost(t.next, timeBetween, evs[1..]);
      DeliveredAppend(t.invoked, rest.log);
      EnqueuedCons(evs);
      ChainCount(Delivered(t.invoked), Delivered(rest.log), Pending(s), Pending(t.next),
                 Pending(rest.final), Enqueued([evs[0]]), Enqueued(evs[1..]));
    }
  }

  /** While wedged, an event only appends what it enqueues. */
  lemma WedgedStep(s: State, timeBetween: int, e: Event)
    requires Wedged(s)
    ensures Step(s, timeBetween, e) == Transition(s.(queue := s.queue + Enqueued([e])), Ignored, [])
  {
    EnqueuedOne(e);
  }

  /** Once wedged (after a stall or a failure), the dispatcher sends
      nothing and invokes no callback for ever; requests only pile up. */
  lemma {:induction false} WedgedForever(s: State, timeBetween: int, evs: seq<Event>)
    requires Wedged(s)
    ensures var r := Run(s, timeBetween, evs);
      Wedged(r.final) && r.log == [] && r.final.queue == s.queue + Enqueued(evs) &&
      forall i :: 0 <= i < |r.outcomes| ==> r.outcomes[i] == Ignored
    decreases |evs|
  {
    if evs != [] {
      var t := Step(s, timeBetween, evs[0]);
      WedgedStep(s, timeBetween, evs[0]);
      var rest := Run(t.next, timeBetween, evs[1..]);
      WedgedForever(t.next, timeBetween, evs[1..]);
      EnqueuedCons(evs);
      var outs := [t.outcome] + rest.outcomes;
      assert forall i :: 0 < i < |outs| ==> outs[i] == rest.outcomes[i - 1];
    }
  }

  /** A failure wedges the dispatcher: from then on nothing is sent. */
  lemma FailureWedges(s: State, timeBetween: int, now: int, status: string, evs: seq<Event>)
    requires Valid(s) && s.inFlight.Some?
    ensures var r := Run(s, timeBetween, [Failed(now, status)] + evs);
      r.log == [Invocation(s.inFlight.value, None, status, now)] &&
      forall i :: 0 <= i < |r.outcomes| ==> r.outcomes[i] == Ignored
  {
    var t := Step(s, timeBetween, Failed(now, status));
    assert ([Failed(now, status)] + evs)[1..] == evs;
    WedgedForever(t.next, timeBetween, evs);
  }

  /** A stall wedges the dispatcher: from then on nothing is sent. */
  lemma StallWedges(s: State, timeBetween: int, now: int, evs: seq<Event>)
    requires Valid(s) && Process(s, timeBetween, now).outcome.Stalled?
    ensures var r := Run(s, timeBetween, [Trigger(now)] + evs);
      r.log == [] && forall i :: 0 <= i < |r.outcomes| ==> r.outcomes[i] == Ignored || i == 0
  {
    var t := Step(s, timeBetween, Trigger(now));
    assert ([Trigger(now)] + evs)[1..] == evs;
    WedgedForever(t.next, timeBetween, evs);
  }

  /** The throttle: with a clock that never goes backwards, successive
      successful calls complete at least `timeBetween` apart, the first at
      least `timeBetween` after the last one before the run. */
  lemma {:induction false} SuccessesSpaced(s: State, timeBetween: int, from: int, evs: seq<Event>)
    requires Monotone(from, evs)
    requires s.inFlight.Some? ==> from >= s.lastApiCall + timeBetween
    ensures Spaced(s.lastApiCall, timeBetween, SuccessTimes(Run(s, timeBetween, evs).log))
    decreases |evs|
  {
    if evs != [] {
      var e := evs[0];
      var t := Step(s, timeBetween, e);
      var rest := Run(t.next, timeBetween, evs[1..]);
      SuccessTimesAppend(t.invoked, rest.log);
      if t.outcome.Sent? {
        assert t.next.inFlight.Some? ==> Latest(e) >= t.next.lastApiCall + timeBetween;
      }
      SuccessesSpaced(t.next, timeBetween, Latest(e), evs[1..]);
      if e.Succeeded? && s.inFlight.Some? {
        assert SuccessTimes(t.invoked) == [e.now];
        assert e.now >= s.lastApiCall + timeBetween;
      } else {
        assert SuccessTimes(t.invoked) == [];
        assert t.next.lastApiCall == s.lastApiCall;
        assert SuccessTimes(t.invoked) + SuccessTimes(rest.log) == SuccessTimes(rest.log);
      }
    }
  }

  /** A client starts valid, idle and with nothing pending. */
  lemma InitialIdle()
    ensures Valid(Initial) && !Wedged(Initial) && Pending(Initial) == []
  {
  }
}
