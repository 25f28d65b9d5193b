# Token-refresh coordination of an axios client, in Dafny

This project models the client-side credential coordinator of
`api-client.tsx` and the expiry check of `jwtHooks.tsx`:

- **isTokenExpired**: a token is expired when it cannot be decoded, or
  when its `exp` claim (missing counts as 0) is strictly before the
  current second `floor(Date.now() / 1000)`.
- **refreshToken**: up to three POSTs to the refresh endpoint; the first
  success stores the returned `access` token and returns it; after a
  failure the attempt counter is bumped and, below the limit, the loop
  sleeps `2 ** attempt * 100` ms; after the third failure it throws.
- **the subscriber queue**: `addRefreshSubscriber` appends;
  `onTokenRefreshed` / `onTokenRefreshFailed` resolve or reject every
  waiter in order and empty the queue.
- **the request interceptor**: a present, non-empty, unexpired token is
  attached and the request proceeds; otherwise the request either raises
  `isRefreshing`, awaits its own refresh, drains the queue and lowers the
  flag, or queues behind the running refresh.
- **the response interceptor's error handler**: a 401 on a request without
  `_retry` sets `_retry` and either queues for replay behind a running
  refresh, or awaits a refresh of its own and resubmits the request
  (calling `logout` if that refresh fails); everything else is rejected
  unchanged.

The model is a sequential state machine (module `Coordinator`). The state
holds `isRefreshing`, the subscriber queue, the stored token, a logout
counter, the callers currently suspended inside their own refreshToken call,
and a log of observable effects (posts, sleeps, store writes, header
attachments, queueing, resumptions, rejections, resubmissions), in the
order the model's events produce them. Each
asynchronous step is one event: a request entering the request
interceptor, a request-interceptor refresh settling, an error reaching the
response interceptor, a response-interceptor refresh settling. A whole
refreshToken call runs inside its settle event (module `Refresh`), with
the network given as the outcome of each attempt. The JWT decoder is an
abstract function and the clock reading a parameter (module `Jwt`). The
auth store's `logout` is outside the model: the token it leaves behind is
a parameter of the event in which a response-interceptor refresh settles.

Module `Invariants` proves that every event preserves three invariants:
at most one request-interceptor refresh is in flight, exactly one while
`isRefreshing` is up; no queued waiter is lost and waiters are served in
queue order; every request the response interceptor replays carries
`_retry`. Module `Scenarios` works through concrete runs.

Behaviour of the program that a caller may not expect:

- The request that starts a successful refresh queues itself only after
  the queue has been drained and the flag lowered (api-client.tsx:47-68),
  so that round does not resume it; it waits for a later
  request-interceptor round, and the queue is non-empty while no refresh
  runs (`Scenarios.QueuedRequestsResumeInOrder`).
- After three failures refreshToken throws a new error of its own, not
  the last underlying error (api-client.tsx:90).
- The sleeps are 200 ms and then 400 ms, with none after the third
  failure; the comment at api-client.tsx:94 says 100, 200, 400
  (`Refresh.RefreshBounds`, `Refresh.RefreshGivesUp`).
- `logout` is called only when the response interceptor's own refresh
  fails (api-client.tsx:132); a failed request-interceptor round rejects
  everyone without calling it (`Scenarios.ExhaustedRefreshRejectsEveryone`).
- The response interceptor's refresh neither raises `isRefreshing` nor
  drains the queue (api-client.tsx:127-130), so concurrent 401s refresh
  once each (`Scenarios.ConcurrentUnauthorizedRefreshTwice`).

## Model

| member | source | states |
|---|---|---|
| Jwt.CurrentTime | jwtHooks.tsx:10 | the current second is the millisecond reading divided by 1000, rounded down |
| Jwt.IsTokenExpired | jwtHooks.tsx:3-27 | an undecodable token is expired; a decoded one is expired exactly when `(exp ?? 0) + 1` seconds have passed |
| Jwt.ExpiryInstantIsValid | jwtHooks.tsx:15-20 | a token whose `exp` is the current second is still valid (strict comparison) |
| Jwt.MissingExpiryClaim | jwtHooks.tsx:15 | a decoded token without `exp` is expired exactly when the current second is past 0 |
| Jwt.ExpiredStaysExpired | jwtHooks.tsx:10-20 | once expired at some clock reading, a token is expired at every later reading |
| Refresh.Attempt | api-client.tsx:77-98 | the loop never falls out to the failsafe throw; it succeeds iff some remaining attempt is granted; success stores the returned token; failure leaves the store alone; it only posts, sleeps and stores |
| Refresh.AttemptGranted | api-client.tsx:77-96 | with the first grant at attempt k, the loop stores and returns that attempt's token after the k earlier failures and their sleeps |
| Refresh.AttemptExhausted | api-client.tsx:85-96 | when every remaining attempt is refused, the loop throws after the last post with no final sleep and no store write |
| Refresh.RefreshToken | api-client.tsx:72-101 | the failsafe at line 100 is unreachable; success iff one of the three attempts is granted, and then the store holds the returned token; a failure never writes the store |
| Refresh.RefreshGranted | api-client.tsx:79-84 | the first granted attempt's token is stored and returned, after the failed attempts' posts and sleeps |
| Refresh.RefreshGivesUp | api-client.tsx:86-96 | an always-refusing endpoint gives exactly posts 0, 1, 2 with sleeps 200 and 400 between them, then the exhaustion error, store untouched |
| Refresh.RefreshBounds | api-client.tsx:74-96 | at most three posts, exactly three on failure, and every sleep is 200 or 400 ms |
| Coordinator.Start | api-client.tsx:13-17 | the flag starts down and the queue empty |
| Coordinator.AddRefreshSubscriber | api-client.tsx:31-33 | exactly one waiter is appended at the end of the queue and nothing else changes |
| Coordinator.ResolveAll | api-client.tsx:21 | one resolve per waiter, in queue order, all with the same token |
| Coordinator.RejectAll | api-client.tsx:26 | one reject per waiter, in queue order, all with the same error |
| Coordinator.OnTokenRefreshed | api-client.tsx:20-23 | every queued waiter is resumed in order with the token and the queue is left empty; nothing else changes |
| Coordinator.OnTokenRefreshFailed | api-client.tsx:25-28 | every queued waiter is rejected in order with the error and the queue is left empty; nothing else changes |
| Coordinator.InterceptRequest | api-client.tsx:36-68 | a fresh token is attached with flag, queue and frames unchanged; otherwise a request raises the flag and starts a refresh when none runs, and queues at the end when one does; the store is never written |
| Coordinator.SettleInitiator | api-client.tsx:44-68 | the flag ends down; on success the store holds the new token, the old queue is resumed in order with it and then the initiator is the only waiter; on failure the store is unchanged, the old queue is rejected in order and the initiator fails with the same error |
| Coordinator.InterceptResponseError | api-client.tsx:106-137 | a 401 without `_retry` marks the request and queues it for replay when a refresh runs, or starts a refresh of its own without raising the flag; any other error is rejected unchanged |
| Coordinator.SettleRetry | api-client.tsx:127-134 | flag and queue untouched; success stores the token, sets the default header and resubmits the request; failure calls logout exactly once, leaves the store to logout, and rejects with the refresh error |
| Invariants.StartValid | api-client.tsx:13-17 | the initial state satisfies all three invariants |
| Invariants.InterceptRequestValid | api-client.tsx:36-68 | the request interceptor preserves the invariants |
| Invariants.SettleInitiatorValid | api-client.tsx:44-68 | a settling request-interceptor refresh preserves the invariants |
| Invariants.InterceptResponseErrorValid | api-client.tsx:106-137 | the response error handler preserves the invariants |
| Invariants.SettleRetryValid | api-client.tsx:127-134 | a settling response-interceptor refresh preserves the invariants |
| Invariants.StepValid | api-client.tsx:36-137 | every event preserves the invariants |
| Invariants.RunValid | api-client.tsx:36-137 | every sequence of events preserves the invariants |
| Invariants.AtMostOneInitiator | api-client.tsx:44-54 | at most one request-interceptor refresh is in flight, and one is exactly when the flag is up |
| Invariants.ServedInQueueOrder | api-client.tsx:20-33 | waiters are served in the order they queued and every unserved waiter is still queued |
| Invariants.ReplayedOnlyOnce | api-client.tsx:109-118 | a request already replayed is rejected unchanged on a further 401, with nothing queued or refreshed |
| Invariants.LogoutOnlyOnRetryFailure | api-client.tsx:131-133 | an event calls logout once when it is a failing response-interceptor refresh, and never otherwise |
| Invariants.StoreWrittenOnlyBySuccessfulRefresh | api-client.tsx:77-134 | apart from logout after a failing response-interceptor refresh, the store changes only in a successful refresh (line 83), to the token that refresh returned |
| Scenarios.FiveQueueBehindOneRefresh | api-client.tsx:37-59 | with an expired token the first request starts the refresh and the next five queue in arrival order |
| Scenarios.QueuedRequestsResumeInOrder | api-client.tsx:46-68 | a refresh granted on its second attempt resumes the five in order with the new token after one 200 ms sleep, then queues the initiator with the flag down |
| Scenarios.ExhaustedRefreshRejectsEveryone | api-client.tsx:44-54 | an always-failing refresh rejects the three queued requests in order and the initiator with the same error, without logout |
| Scenarios.UnauthorizedIsRetriedOnce | api-client.tsx:109-130 | a 401 with no refresh running refreshes, sets the default header and resubmits once; a second 401 is rejected unchanged |
| Scenarios.FailedRetryLogsOut | api-client.tsx:127-134 | a failing response-interceptor refresh calls logout once, keeps the store logout leaves, and rejects with the exhaustion error |
| Scenarios.ConcurrentUnauthorizedRefreshTwice | api-client.tsx:109-128 | two 401s with the flag down each start a refresh and neither raises the flag |
| Scenarios.UnauthorizedDuringRefreshIsReplayed | api-client.tsx:112-124 | a 401 during a request-interceptor refresh is queued for replay and resumed with the new token |

## Left out

- The axios transport, `axios.create` configuration and the
  `import.meta.env` base URL: a POST is an outcome supplied by the
  network function, a resubmission is a logged effect.
- The response interceptor's success handler `(response) => response`:
  the identity, with no state.
- Real timers and promise scheduling: sleeps are logged durations, and a
  whole refreshToken call happens in one settle event, so no other event
  is interleaved between its attempts. A refreshToken call's posts,
  sleeps and store write are logged together at its settle event, after
  the effects of every event that happened while it ran; in the source
  the first post precedes any request queueing behind it, and the sleeps
  overlap with queueing.
- What runs after a waiter is resumed or a request resubmitted. A
  resumed request-interceptor waiter goes on to the transport, which is
  outside the coordinator. A replayed or resubmitted request goes through
  `apiClient` again (api-client.tsx:118, 130), so it passes both
  interceptors once more. The model does not feed it back by itself: the
  log records the resumption or resubmission, and the later passes are
  the `Send` and `ErrorResponse` events supplied to `Run`.
- Request objects are values, not shared mutable objects: `_retry` is a
  field of the `Request` value, not a flag set in place
  (api-client.tsx:107, 110). Events must pass back the `_retry` value
  the log shows for a request; a stale copy with `_retry` unset would be
  retried again.
- The Zustand auth store: a single optional token plus a logout counter.
  The store's code is not part of this model, so what `logout` does to
  the token is not modelled; the token after logout is an unconstrained
  parameter of the settle event.
- A refresh response without an `access` field (which would store and
  return `undefined`): a granted attempt always carries a token string.
- `jwtDecode` internals: an abstract total function from a token to
  "malformed" or a payload with an optional integer `exp`; fractional
  `exp` values (JavaScript numbers) are not modelled.
- `Date.now()`: a parameter of each request-interceptor event.
- `console.*` logging: no behavioural effect.
- Cancellation of a queued caller: the source has none.
