/** The client object: its fields are updated in place by `processQueue`,
    the two handlers of the outstanding exchange, the builders (which push
    onto the queue) and the public operations. Each method is proved
    against the value-level model in Dispatch and Requests. */
module Client {
  import opened Requests
  import opened Dispatch

  /** How a public operation ended: it threw, or its builder ran and
      `processQueue` was called. */
  datatype CallResult =
    | Threw(error: JsError)
    | Returned(built: BuildResult, outcome: Outcome)

  datatype Effect = Effect(result: CallResult, next: State)

  /** A public operation after its selection: throw if nothing was
      selected, run the builder (which may raise), then `processQueue`. */
  function Perform(s: State, timeBetween: int, sel: Result<Selection>, now: int): (e: Effect)
    // an exception leaves the dispatcher untouched and processQueue unrun
    ensures sel.Err? ==> e == Effect(Threw(sel.error), s)
    ensures sel.Ok? && Build(sel.value.builder, sel.value.params).Raised? ==>
      e == Effect(Threw(Build(sel.value.builder, sel.value.params).error), s)
    // otherwise processQueue runs, whether or not the builder dropped the
    // request, and the pending requests grow by exactly what was pushed
    ensures e.result.Returned? <==> sel.Ok? && !Build(sel.value.builder, sel.value.params).Raised?
    ensures e.result.Returned? ==>
      e.result.built == Build(sel.value.builder, sel.value.params) &&
      e.result.outcome == Process(s.(queue := s.queue + Pushed(e.result.built)), timeBetween, now).outcome
    // the new state is that of processQueue on the grown queue: the same
    // step as an `Enqueue` event, or a `Trigger` when nothing was pushed
    ensures e.result.Returned? ==>
      e.next == Process(s.(queue := s.queue + Pushed(e.result.built)), timeBetween, now).next
    ensures e.result.Returned? && Valid(s) ==>
      Valid(e.next) && Pending(e.next) == Pending(s) + Pushed(e.result.built)
  {
    match sel
    case Err(error) => Effect(Threw(error), s)
    case Ok(Selection(builder, params)) =>
      var b := Build(builder, params);
      if b.Raised? then Effect(Threw(b.error), s)
      else
        var pushed := s.(queue := s.queue + Pushed(b));
        assert Pending(pushed) == Pending(s) + Pushed(b);
        var t := Process(pushed, timeBetween, now);
        Effect(Returned(b, t.outcome), t.next)
  }

  /** A public call that does not throw is one step of the dispatcher: an
      `Enqueue` of what the builder queued, or a `Trigger` when it dropped
      the request. So the lemmas about runs cover public calls too. */
  lemma PerformIsStep(s: State, timeBetween: int, sel: Result<Selection>, now: int)
    requires sel.Ok? && !Build(sel.value.builder, sel.value.params).Raised?
    ensures var b := Build(sel.value.builder, sel.value.params);
      var t := if b.Queued? then Step(s, timeBetween, Enqueue(b.request, now))
               else Step(s, timeBetween, Trigger(now));
      var e := Perform(s, timeBetween, sel, now);
      e.result == Returned(b, t.outcome) && e.next == t.next && t.invoked == []
  {
  }

  class DeliciousAPI {
    const maxTries: int      // kept, never read
    const timeBetween: int   // milliseconds
    var queue: seq<Request>
    var busy: bool
    var lastApiCall: int
    /** The request whose exchange is outstanding. */
    var inFlight: Option<Request>
    /** Every callback invocation so far. */
    ghost var log: seq<Invocation>

    function Fields(): State
      reads this
    {
      State(queue, busy, lastApiCall, inFlight)
    }

    ghost predicate Valid()
      reads this
    {
      Dispatch.Valid(Fields())
    }

    /** `maxTries` and `timeBetween` fall back to 3 and 1000 when absent or 0. */
    constructor (maxTries: Option<int>, timeBetween: Option<int>)
      ensures this.maxTries == OrDefault(maxTries, DefaultMaxTries)
      ensures this.timeBetween == OrDefault(timeBetween, DefaultTimeBetween)
      ensures Fields() == Initial && log == [] && Valid()
    {
      this.maxTries := OrDefault(maxTries, DefaultMaxTries);
      this.timeBetween := OrDefault(timeBetween, DefaultTimeBetween);
      queue := [];
      busy := false;
      lastApiCall := 0;
      inFlight := None;
      log := [];
    }

    method ProcessQueue(now: int) returns (o: Outcome)
      requires Valid()
      modifies this
      ensures Valid() && log == old(log)
      ensures Fields() == Process(old(Fields()), timeBetween, now).next
      ensures o == Process(old(Fields()), timeBetween, now).outcome
    {
      if busy {
        return Ignored;
      }
      var delta := now - lastApiCall;
      if delta < timeBetween {
        return Wait(timeBetween - delta);
      }
      busy := true;
      if queue == [] {
        return Stalled;
      }
      var query := queue[0];
      queue := queue[1..];
      inFlight := Some(query);
      o := Sent(query);
    }

    /** The success handler of the outstanding exchange, which completes at
        `now`; its re-run of `processQueue` reads the clock at `rerun`. */
    method OnSuccess(now: int, rerun: int, data: Data, status: string) returns (o: Outcome)
      requires Valid() && inFlight.Some?
      modifies this
      ensures Valid()
      ensures Fields() == Succeed(old(Fields()), timeBetween, now, rerun, data, status).next
      ensures o == Succeed(old(Fields()), timeBetween, now, rerun, data, status).outcome
      ensures log == old(log) + Succeed(old(Fields()), timeBetween, now, rerun, data, status).invoked
    {
      var query := inFlight.value;
      inFlight := None;
      lastApiCall := now;
      log := log + [Invocation(query, Some(data), status, now)];
      busy := false;
      o := ProcessQueue(rerun);
    }

    /** The error handler of the outstanding exchange. */
    method OnError(now: int, status: string) returns (o: Outcome)
      requires Valid() && inFlight.Some?
      modifies this
      ensures Valid()
      ensures Fields() == Fail(old(Fields()), timeBetween, now, status).next
      ensures o == Fail(old(Fields()), timeBetween, now, status).outcome
      ensures log == old(log) + Fail(old(Fields()), timeBetween, now, status).invoked
    {
      var query := inFlight.value;
      inFlight := None;
      queue := queue + [query];
      log := log + [Invocation(query, None, status, now)];
      o := ProcessQueue(now);
    }

    // -------------------------------------------------------------------
    // The builders: each pushes at most one request, and changes nothing else

    method UrlhashInfo(p: Params) returns (r: BuildResult)
      modifies this`queue
      ensures r == BuildUrlhashInfo(p) && queue == old(queue) + Pushed(r)
    {
      r := BuildUrlhashInfo(p);
      if r.Queued? {
        queue := queue + [r.request];
      }
    }

    method BookmarksForHash(p: Params) returns (r: BuildResult)
      modifies this`queue
      ensures r == BuildBookmarksForHash(p) && queue == old(queue) + Pushed(r)
    {
      r := BuildBookmarksForHash(p);
      if r.Queued? {
        queue := queue + [r.request];
      }
    }

    method BookmarksForUser(p: Params) returns (r: BuildResult)
      modifies this`queue
      ensures r == BuildBookmarksForUser(p) && queue == old(queue) + Pushed(r)
    {
      r := BuildBookmarksForUser(p);
      if r.Queued? {
        queue := queue + [r.request];
      }
    }

    method BookmarksForTag(p: Params) returns (r: BuildResult)
      modifies this`queue
      ensures r == BuildBookmarksForTag(p) && queue == old(queue) + Pushed(r)
    {
      r := BuildBookmarksForTag(p);
      if r.Queued? {
        queue := queue + [r.request];
      }
    }

    method TagsForUser(p: Params) returns (r: BuildResult)
      modifies this`queue
      ensures r == BuildTagsForUser(p) && queue == old(queue) + Pushed(r)
    {
      r := BuildTagsForUser(p);
      if r.Queued? {
        queue := queue + [r.request];
      }
    }

    method RelatedTagsForUser(p: Params) returns (r: BuildResult)
      modifies this`queue
      ensures r == BuildRelatedTagsForUser(p) && queue == old(queue)
    {
      r := BuildRelatedTagsForUser(p);
    }

    method RunBuilder(b: Builder, p: Params) returns (r: BuildResult)
      modifies this`queue
      ensures r == Build(b, p) && queue == old(queue) + Pushed(r)
    {
      match b
      case UrlhashInfo => r := UrlhashInfo(p);
      case BookmarksForHash => r := BookmarksForHash(p);
      case BookmarksForUser => r := BookmarksForUser(p);
      case BookmarksForTag => r := BookmarksForTag(p);
      case TagsForUser => r := TagsForUser(p);
      case RelatedTagsForUser => r := RelatedTagsForUser(p);
    }

    // -------------------------------------------------------------------
    // The public operations

    /** The part every public operation shares once it has selected. */
    method Call(sel: Result<Selection>, now: int) returns (r: CallResult)
      requires Valid()
      modifies this
      ensures Valid() && log == old(log)
      ensures Effect(r, Fields()) == Perform(old(Fields()), timeBetween, sel, now)
    {
      if sel.Err? {
        return Threw(sel.error);
      }
      var b := RunBuilder(sel.value.builder, sel.value.params);
      if b.Raised? {
        return Threw(b.error);
      }
      var o := ProcessQueue(now);
      r := Returned(b, o);
    }

    /** `bookmarks(params)`, `md5` standing for `hex_md5`. */
    method Bookmarks(p: Params, md5: string -> string, now: int) returns (r: CallResult)
      requires Valid()
      modifies this
      ensures Valid() && log == old(log)
      ensures Effect(r, Fields()) == Perform(old(Fields()), timeBetween, SelectBookmarks(p, md5), now)
    {
      r := Call(SelectBookmarks(p, md5), now);
    }

    /** `tags(params)`. */
    method Tags(p: Params, now: int) returns (r: CallResult)
      requires Valid()
      modifies this
      ensures Valid() && log == old(log)
      ensures Effect(r, Fields()) == Perform(old(Fields()), timeBetween, SelectTags(p), now)
    {
      r := Call(SelectTags(p), now);
    }

    /** `info(params)`, `md5` standing for `hex_md5`. */
    method Info(p: Params, md5: string -> string, now: int) returns (r: CallResult)
      requires Valid()
      modifies this
      ensures Valid() && log == old(log)
      ensures Effect(r, Fields()) == Perform(old(Fields()), timeBetween, SelectInfo(p, md5), now)
    {
      r := Call(SelectInfo(p, md5), now);
    }
  }
}
