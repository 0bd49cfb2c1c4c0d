# deliciousapi.js in Dafny

A model of the JavaScript client for the Delicious feed API
(`deliciousapi.js`). It covers two parts of the client:

- **The request queue dispatcher.** A `DeliciousAPI` object holds a FIFO
  `queue` of `{url, callback}` records, a `busy` flag and the time of the
  last successful call, `lastApiCall`. `processQueue` does nothing while
  busy. It throttles when less than `timeBetween` milliseconds have passed
  since the last success. Otherwise it sets `busy` and shifts the head off
  the queue. If the queue was empty it stops there and leaves `busy` set
  (the stall). If not, it issues a JSONP request. The success handler
  records the completion time, calls the callback with the data, clears
  `busy` and runs `processQueue` again. The error handler pushes the request
  back onto the tail and calls the callback with `null`. It then runs
  `processQueue` again, but `busy` is still set, so nothing happens.
- **The request builders and the public operations.** `bookmarks`, `tags`
  and `info` pick one of six private builders in a fixed precedence order,
  or throw. Each builder checks its input and then either logs and drops
  the request or pushes exactly one feed URL with its callback.

Files:

- `numbers.dfy` (module `Numbers`): how JavaScript renders an integer
  concatenated into `"?count=" + max`, with a parse-back round trip.
- `requests.dfy` (module `Requests`): the records, the `params` object, the
  six builders as functions and the precedence of `bookmarks`, `tags` and
  `info`.
- `dispatch.dfy` (module `Dispatch`): the dispatcher as a state machine over
  values. `Process` is one `processQueue` call, `Succeed` and `Fail` are the
  two handlers, and `Step`/`Run` apply a sequence of events. The lemmas
  about runs cover FIFO delivery, conservation of requests, the wedge after
  a stall or failure, and throttle spacing.
- `client.dfy` (module `Client`): the class `DeliciousAPI`, whose fields are
  updated in place. Each method is proved against the functions above.

Modelling choices:

- The clock (`new Date().getTime()`) is a parameter at each place the code
  reads it. The success handler reads it twice: `now` when the exchange
  completes (stored in `lastApiCall`) and `rerun` in its re-run of
  `processQueue`, after the callback has returned. The error handler's
  re-run always finds the dispatcher busy, so its reading does not matter.
- `setTimeout` becomes the outcome `Wait(ms)`. The `$.ajax` call becomes the
  outcome `Sent(request)`. Its completion is a call of `OnSuccess` or
  `OnError` (the events `Succeeded` and `Failed`).
- `inFlight` is the request whose exchange is outstanding, which the
  handlers' closure captures as `query`. The ghost `log` records every
  callback invocation as (request, data or null, status, time).
- `hex_md5` is a function parameter `md5`. A callback is an opaque
  identifier.
- An absent `params` property is `None`. A string property is truthy when
  present and non-empty. `max`, `maxTries` and `timeBetween` are integers,
  and `x || d` is `OrDefault`: absent and 0 give the default.
- A builder that reads `.length` of an absent property raises a TypeError
  (`Raised`). Through the public operations this never happens
  (`SelectedBuildersDoNotTypeError`). A direct builder call with no `max`
  produces the text `?count=undefined`.
- The code is modelled as written, with these consequences:
  - The stall at deliciousapi.js:70 leaves `busy` set.
  - The error handler never clears `busy`, so after one failure nothing is
    ever sent again (`WedgedForever`, `FailureWedges`, `StallWedges`). The
    failed request therefore is never sent again. The re-push at line 76
    shows a retry was meant, and `maxTries` (line 37) suggests a limit of 3
    tries that the code never reads.
  - `maxTries` is stored and never read.
  - deliciousapi.js:249 reads the undeclared variable `user` instead of
    `params.user`. `related_tags_for_user` therefore raises a ReferenceError
    whenever its validation passes, and never enqueues. `tags` with a tag
    throws before it reaches `processQueue`.

## Model

| member | source | states |
|---|---|---|
| `Numbers.NatToString` | deliciousapi.js:203 | the count is written as digits only, never empty, with no leading zero except for 0 itself |
| `Numbers.IntToString` | deliciousapi.js:203 | a negative count gets a leading minus sign before the digits of its magnitude; a non-negative one is digits only; the first digit is `0` only for zero |
| `Numbers.NatToStringRoundTrip` | deliciousapi.js:185 | reading the written digits back gives the count |
| `Numbers.IntToStringRoundTrip` | deliciousapi.js:223 | parsing the `?count=` text gives back the original integer, so distinct counts give distinct URLs |
| `Requests.OrDefault` | deliciousapi.js:37-38 | `x \|\| d` on a number: an absent value or 0 gives the default; any other value, negative ones included, is kept |
| `Requests.Pushed` | deliciousapi.js:173 | a build pushes at most one request, and pushes one exactly when it queued: the request it built |
| `Requests.BuildUrlhashInfo` | deliciousapi.js:166-174 | raises when the hash is absent; queues iff the hash has length 32, as `baseHost + "urlinfo/" + hash` with the caller's callback; otherwise drops |
| `Requests.BuildBookmarksForHash` | deliciousapi.js:179-187 | raises when the hash is absent; queues iff the hash has length 32, as `baseHost + "url/" + hash + "?count=" + max`; otherwise drops |
| `Requests.BuildBookmarksForUser` | deliciousapi.js:192-205 | raises when the user is absent; queues iff the user is non-empty, as `baseHost + user [+ "/" + tag] + "?count=" + max`, the tag part present iff the tag is truthy |
| `Requests.BuildBookmarksForTag` | deliciousapi.js:210-225 | raises when the tag is absent; queues iff the tag is non-empty, as `baseHost + ("popular/" or "tag/") + tag + "?count=" + max` as `popular` is set or not |
| `Requests.BuildTagsForUser` | deliciousapi.js:230-238 | raises when the user is absent; queues iff the user is non-empty, as `baseHost + "tags/" + user` |
| `Requests.BuildRelatedTagsForUser` | deliciousapi.js:243-251 | never queues; raises the ReferenceError for `user` exactly when user and tag are both non-empty; drops exactly when the user is empty, or the user is non-empty and the tag is empty |
| `Requests.QueuedUnderBaseHost` | deliciousapi.js:166-251 | every request a builder queues carries the caller's callback and a URL that starts with the base host |
| `Requests.SelectBookmarks` | deliciousapi.js:105-119 | precedence url > hash > user > tag; a url is replaced by its MD5 hash; `max` defaults to 50; the builder receives the caller's params with only `max` (and, for a url, `hash`) rewritten; throws the "(bookmarks)" message exactly when none of the four is truthy |
| `Requests.CountSuffix` | deliciousapi.js:203 | the suffix is `?count=` followed by the text `undefined` when `max` is absent, and otherwise by the decimal rendering of `max`, which parses back to `max` |
| `Requests.SelectTags` | deliciousapi.js:132-141 | throws the "(tags)" message exactly when the user is not truthy; otherwise picks the related-tags builder iff the tag is truthy, the user-tags builder otherwise |
| `Requests.SelectInfo` | deliciousapi.js:146-154 | precedence url > hash, both to the URL-info builder, a url replaced by its MD5 hash; throws the "(info)" message exactly when neither is truthy |
| `Requests.SelectedBuildersDoNotTypeError` | deliciousapi.js:105-157 | the builders that `bookmarks` and `info` choose never raise; the one `tags` chooses raises exactly when a tag is given |
| `Requests.UrlAndHashAgree` | deliciousapi.js:108-112 | `bookmarks` with a url builds the same request as `bookmarks` with that url's MD5 hash, whenever that hash is non-empty |
| `Dispatch.Process` | deliciousapi.js:51-70 | while busy nothing changes; throttles (state unchanged, a re-run due after a positive delay at exactly `lastApiCall + timeBetween`) iff less than `timeBetween` has passed; otherwise sets busy, and stalls iff the queue is empty, or sends exactly the head and keeps the rest in order; no send while an exchange is outstanding; pending requests unchanged |
| `Dispatch.Succeed` | deliciousapi.js:80-85 | invokes the request's callback once with the data; `lastApiCall` becomes the completion time; the request leaves the pending requests; the re-run is never ignored; it waits until `timeBetween` after the completion time (leaving the dispatcher idle) exactly when its own clock reading is earlier than that, and otherwise sends the first pending request (now outstanding, the rest queued, busy), or stalls when none is pending (busy, nothing outstanding); the whole next state is given in each case |
| `Dispatch.Fail` | deliciousapi.js:74-79 | invokes the callback once with null; `lastApiCall` unchanged; when busy, the request moves to the tail, the re-run is ignored and the dispatcher is left busy with nothing outstanding |
| `Dispatch.Step` | deliciousapi.js:51-87 | every event keeps "an exchange is outstanding only while busy", and invokes at most one callback |
| `Dispatch.Run` | deliciousapi.js:51-87 | a run gives one outcome per event and no more callback invocations than events |
| `Dispatch.RunKeepsValid` | deliciousapi.js:51-87 | over any run at most one exchange is outstanding, and only while busy |
| `Dispatch.StepPending` | deliciousapi.js:66-86 | what one enqueue, trigger, success or failure does to the pending requests and the callback log |
| `Dispatch.StepKeepsOrder` | deliciousapi.js:66-86 | any event but a failure delivers at most the first pending request and appends at most the enqueued one |
| `Dispatch.FailureRotates` | deliciousapi.js:74-79 | a failure delivers nothing and only rotates the pending requests: the outstanding one moves from the front to the back |
| `Dispatch.StepConserves` | deliciousapi.js:66-86 | no event loses or duplicates a request |
| `Dispatch.FifoWithoutFailures` | deliciousapi.js:66-86 | without failures, callbacks receive data in exactly the order the requests were queued, and the undelivered ones remain pending in that order |
| `Dispatch.NothingLost` | deliciousapi.js:66-86 | over any run, delivered plus pending requests are, as a multiset, the initial pending requests plus the enqueued ones |
| `Dispatch.WedgedForever` | deliciousapi.js:52 | once busy with nothing outstanding, every later `processQueue` is ignored, no callback fires, and enqueued requests only pile up |
| `Dispatch.FailureWedges` | deliciousapi.js:74-79 | after a failure nothing is ever sent again and no further callback fires |
| `Dispatch.StallWedges` | deliciousapi.js:66-70 | after a stall nothing is ever sent again and no callback fires |
| `Dispatch.SuccessesSpaced` | deliciousapi.js:55-85 | with a clock that never goes backwards, consecutive successful calls complete at least `timeBetween` apart, the first at least `timeBetween` after the last earlier success |
| `Dispatch.InitialIdle` | deliciousapi.js:42-44 | a new object is idle, not wedged, and has nothing pending |
| `Client.Perform` | deliciousapi.js:105-157 | a throw (no selection, or a builder that raises) leaves the dispatcher untouched and skips `processQueue`; otherwise `processQueue` runs even when the builder dropped the request, and the pending requests grow by exactly what was pushed; the new state is exactly that of `processQueue` on the grown queue, so `lastApiCall` is untouched and an empty queue stalls |
| `Client.PerformIsStep` | deliciousapi.js:105-157 | a public call that does not throw is one dispatcher step: an `Enqueue` of the queued request, or a `Trigger` when the builder dropped it, with no callback invoked |
| `Client.DeliciousAPI.constructor` | deliciousapi.js:33-45 | `maxTries` and `timeBetween` default to 3 and 1000 when absent or 0; the queue is empty, not busy, `lastApiCall` 0 |
| `Client.DeliciousAPI.ProcessQueue` | deliciousapi.js:51-70 | the fields change as `Dispatch.Process` says and the log does not |
| `Client.DeliciousAPI.OnSuccess` | deliciousapi.js:80-85 | the fields and the log change as `Dispatch.Succeed` says |
| `Client.DeliciousAPI.OnError` | deliciousapi.js:74-79 | the fields and the log change as `Dispatch.Fail` says |
| `Client.DeliciousAPI.UrlhashInfo` | deliciousapi.js:166-174 | only the queue changes: the request `Requests.BuildUrlhashInfo` queues, if any, is pushed onto the tail |
| `Client.DeliciousAPI.BookmarksForHash` | deliciousapi.js:179-187 | only the queue changes, as `Requests.BuildBookmarksForHash` says |
| `Client.DeliciousAPI.BookmarksForUser` | deliciousapi.js:192-205 | only the queue changes, as `Requests.BuildBookmarksForUser` says |
| `Client.DeliciousAPI.BookmarksForTag` | deliciousapi.js:210-225 | only the queue changes, as `Requests.BuildBookmarksForTag` says |
| `Client.DeliciousAPI.TagsForUser` | deliciousapi.js:230-238 | only the queue changes, as `Requests.BuildTagsForUser` says |
| `Client.DeliciousAPI.RelatedTagsForUser` | deliciousapi.js:243-251 | the queue never changes |
| `Client.DeliciousAPI.Bookmarks` | deliciousapi.js:105-122 | result and new fields are `Client.Perform` of the `bookmarks` selection |
| `Client.DeliciousAPI.Tags` | deliciousapi.js:132-144 | result and new fields are `Client.Perform` of the `tags` selection |
| `Client.DeliciousAPI.Info` | deliciousapi.js:146-157 | result and new fields are `Client.Perform` of the `info` selection |

## Left out

- The JSONP transport (`$.ajax`) is network I/O. Sending is the outcome
  `Sent`, and completion is an explicit success or error event carrying an
  opaque payload and a status string.
- `setTimeout` and `new Date().getTime()` are a timer and the wall clock.
  The time is a parameter, and a scheduled re-run is the outcome
  `Wait(ms)`. Firing that timer is a later `processQueue` call.
- `hex_md5` is an external library function. It is a function parameter
  with no properties assumed.
- `console.error` logging is left out. A dropped request carries the logged
  message as its reason and leaves the queue unchanged.
- The `globalThis` check that forces the `new` operator is a calling
  convention with no behavioural content.
- Callback bodies are user code. Their invocations are recorded in the ghost
  log. A callback that re-enters the client before the success handler
  clears `busy` is not modelled.
- Dispatch.Succeed: assumes the callback returns. A callback that throws
  skips lines 83-84, which leaves `busy` set with nothing outstanding: a
  third way to wedge the client, not modelled because callback bodies are
  user code.
- Client.DeliciousAPI.OnSuccess: the same limit as `Dispatch.Succeed`; a
  throwing callback is not modelled.
- Dispatch.Fail: a throwing callback skips the re-run at line 78. This
  changes nothing, because that re-run always finds the dispatcher busy.
- The write-back of `max` and `hash` into the caller's `params` object is
  modelled only as the params the selection passes to the builder.
- JavaScript numbers are modelled as integers. Fractional values, `NaN`,
  and the exponent notation JavaScript uses at 1e21 and above are not
  modelled. Params properties of other types (a number given as `user`,
  say) are not modelled either.
- String lengths count characters of `seq<char>`, not UTF-16 code units.
- `baseHost` is the module constant `BaseHost`, not a reassignable field.
