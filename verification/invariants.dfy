/**
  Invariants of the coordinator state machine, preserved by every event:

  - single flight: at most one request-interceptor caller is inside a
    refreshToken call, and exactly one while `isRefreshing` is up;
  - no waiter is lost: the waiters queued so far, in order, are the
    waiters resolved or rejected so far, in order, followed by the queue;
  - retry marking: every request the response interceptor will replay
    carries the `_retry` flag, so a second 401 on it is not retried.
 */
module Invariants {
  import opened Types
  import opened Coordinator
  import Jwt
  import Refresh

  /** The waiter a log entry puts into the queue, if any. */
  function Entering(e: Effect): Option<Waiter> {
    match e
    case Queued(w) => Some(w)
    case _ => None
  }

  /** The waiter a log entry takes out of the queue, if any. */
  function Leaving(e: Effect): Option<Waiter> {
    match e
    case Resumed(w, _) => Some(w)
    case Rejected(w, _) => Some(w)
    case _ => None
  }

  /** The waiters `pick` finds in the log, in log order. */
  function Collect(log: seq<Effect>, pick: Effect -> Option<Waiter>): seq<Waiter> {
    if |log| == 0 then []
    else (match pick(log[0]) case Some(w) => [w] case None => []) + Collect(log[1..], pick)
  }

  /** Waiters that have joined the queue, in order. */
  function Enqueued(log: seq<Effect>): seq<Waiter> {
    Collect(log, Entering)
  }

  /** Waiters that have been resolved or rejected, in order. */
  function Served(log: seq<Effect>): seq<Waiter> {
    Collect(log, Leaving)
  }

  ghost predicate SingleFlight(s: State) {
    |s.initiating| == if s.isRefreshing then 1 else 0
  }

  ghost predicate NoWaiterLost(s: State) {
    Enqueued(s.log) == Served(s.log) + s.subscribers
  }

  ghost predicate RetriesMarked(s: State) {
    && (forall q :: q in s.retrying ==> q.retry)
    && (forall w :: w in s.subscribers && w.resume == Replay ==> w.req.retry)
    && (forall e :: e in s.log && e.Resubmitted? ==> e.req.retry)
    && (forall e :: e in s.log && e.Resumed? && e.w.resume == Replay ==> e.w.req.retry)
  }

  ghost predicate Valid(s: State) {
    SingleFlight(s) && NoWaiterLost(s) && RetriesMarked(s)
  }

  // ---------------------------------------------------------------------
  // Reading the queue off the log

  lemma {:induction false} CollectAppend(a: seq<Effect>, b: seq<Effect>, pick: Effect -> Option<Waiter>)
    ensures Collect(a + b, pick) == Collect(a, pick) + Collect(b, pick)
  {
    if |a| == 0 {
      assert a + b == b;
    } else {
      assert (a + b)[1..] == a[1..] + b;
      CollectAppend(a[1..], b, pick);
    }
  }

  /** Effects other than queueing, resolving and rejecting a waiter,
      such as those of a refreshToken call, leave the queue alone. */
  lemma {:induction false} QueueUntouched(effects: seq<Effect>)
    requires forall e :: e in effects ==> !e.Queued? && !e.Resumed? && !e.Rejected?
    ensures Enqueued(effects) == [] && Served(effects) == []
  {
    if |effects| > 0 {
      assert effects[0] in effects;
      QueueUntouched(effects[1..]);
    }
  }

  lemma QueuedOne(w: Waiter)
    ensures Enqueued([Queued(w)]) == [w] && Served([Queued(w)]) == []
  {
    assert [Queued(w)][1..] == [];
    assert Enqueued([]) == [] && Served([]) == [];
  }

  /** Reading the queue off a log extended by three pieces. */
  lemma Append3(log: seq<Effect>, a: seq<Effect>, b: seq<Effect>, c: seq<Effect>)
    ensures Enqueued(log + a + b + c) == Enqueued(log) + Enqueued(a) + Enqueued(b) + Enqueued(c)
    ensures Served(log + a + b + c) == Served(log) + Served(a) + Served(b) + Served(c)
  {
    CollectAppend(log, a, Entering);
    CollectAppend(log, a, Leaving);
    CollectAppend(log + a, b, Entering);
    CollectAppend(log + a, b, Leaving);
    CollectAppend(log + a + b, c, Entering);
    CollectAppend(log + a + b, c, Leaving);
  }

  /** Resolving a queue serves exactly its waiters, in order, and queues none. */
  lemma {:induction false} ResolveAllServes(ws: seq<Waiter>, token: string)
    ensures Served(ResolveAll(ws, token)) == ws
    ensures Enqueued(ResolveAll(ws, token)) == []
  {
    if |ws| > 0 {
      var rest := ResolveAll(ws[1..], token);
      assert ResolveAll(ws, token)[1..] == rest;
      ResolveAllServes(ws[1..], token);
      assert ws == [ws[0]] + ws[1..];
    }
  }

  /** Rejecting a queue serves exactly its waiters, in order, and queues none. */
  lemma {:induction false} RejectAllServes(ws: seq<Waiter>, error: Error)
    ensures Served(RejectAll(ws, error)) == ws
    ensures Enqueued(RejectAll(ws, error)) == []
  {
    if |ws| > 0 {
      var rest := RejectAll(ws[1..], error);
      assert RejectAll(ws, error)[1..] == rest;
      RejectAllServes(ws[1..], error);
      assert ws == [ws[0]] + ws[1..];
    }
  }

  // ---------------------------------------------------------------------
  // Each event preserves the invariants

  lemma StartValid(store: Option<string>)
    ensures Valid(Start(store))
  {
  }

  lemma InterceptRequestValid(s: State, decode: Jwt.Decoder, req: Request, nowMs: int)
    requires Valid(s)
    ensures Valid(InterceptRequest(s, decode, req, nowMs))
  {
    var s' := InterceptRequest(s, decode, req, nowMs);
    if Fresh(s.store, decode, nowMs) {
      CollectAppend(s.log, [Authorized(req, s.store.value)], Entering);
      CollectAppend(s.log, [Authorized(req, s.store.value)], Leaving);
    } else if !s.isRefreshing {
      assert |s.initiating| == 0;
    } else {
      var w := Waiter(req, Proceed);
      CollectAppend(s.log, [Queued(w)], Entering);
      CollectAppend(s.log, [Queued(w)], Leaving);
      QueuedOne(w);
    }
  }

  /** The ledger across a drained queue: `fan` serves the old queue,
      `before` and `after` queue `added` and serve nothing. */
  lemma LedgerAcrossDrain(s: State, s': State, before: seq<Effect>, fan: seq<Effect>,
                          after: seq<Effect>, added: seq<Waiter>)
    requires NoWaiterLost(s)
    requires s'.log == s.log + before + fan + after
    requires s'.subscribers == added
    requires Enqueued(before) == [] && Served(before) == []
    requires Enqueued(fan) == [] && Served(fan) == s.subscribers
    requires Enqueued(after) == added && Served(after) == []
    ensures NoWaiterLost(s')
  {
    Append3(s.log, before, fan, after);
  }

  lemma SettleInitiatorKeepsLedger(s: State, req: Request, net: Refresh.Network)
    requires NoWaiterLost(s) && req in s.initiating
    ensures NoWaiterLost(SettleInitiator(s, req, net))
  {
    var s' := SettleInitiator(s, req, net);
    var r := Refresh.RefreshToken(net, s.store);
    QueueUntouched(r.effects);
    if r.result.Success? {
      var token := r.result.value;
      var w := Waiter(req, Proceed);
      ResolveAllServes(s.subscribers, token);
      QueuedOne(w);
      LedgerAcrossDrain(s, s', r.effects, ResolveAll(s.subscribers, token), [Queued(w)], [w]);
    } else {
      var error := r.result.error;
      RejectAllServes(s.subscribers, error);
      QueueUntouched([Failed(req, error)]);
      LedgerAcrossDrain(s, s', r.effects, RejectAll(s.subscribers, error), [Failed(req, error)], []);
    }
  }

  lemma SettleInitiatorKeepsMarks(s: State, req: Request, net: Refresh.Network)
    requires RetriesMarked(s) && req in s.initiating
    ensures RetriesMarked(SettleInitiator(s, req, net))
  {
    var s' := SettleInitiator(s, req, net);
    var r := Refresh.RefreshToken(net, s.store);
    match r.result
    case Success(token) =>
      var fan := ResolveAll(s.subscribers, token);
      assert s'.log == s.log + r.effects + fan + [Queued(Waiter(req, Proceed))];
      forall e | e in s'.log && e.Resumed? && e.w.resume == Replay
        ensures e.w.req.retry
      {
        if e in fan {
          var i :| 0 <= i < |fan| && fan[i] == e;
          assert s.subscribers[i] in s.subscribers;
        } else {
          assert e in s.log || e in r.effects;
        }
      }
    case Failure(error) =>
  }

  lemma SettleInitiatorValid(s: State, req: Request, net: Refresh.Network)
    requires Valid(s) && req in s.initiating
    ensures Valid(SettleInitiator(s, req, net))
  {
    assert s.isRefreshing;
    assert |SettleInitiator(s, req, net).initiating| == 0;
    SettleInitiatorKeepsLedger(s, req, net);
    SettleInitiatorKeepsMarks(s, req, net);
  }

  lemma InterceptResponseErrorValid(s: State, status: Option<int>, config: Request)
    requires Valid(s)
    ensures Valid(InterceptResponseError(s, status, config))
  {
    if status == Some(401) && !config.retry {
      if s.isRefreshing {
        var w := Waiter(config.(retry := true), Replay);
        CollectAppend(s.log, [Queued(w)], Entering);
        CollectAppend(s.log, [Queued(w)], Leaving);
        QueuedOne(w);
      }
    } else {
      var last := [Failed(config, Http(status, config))];
      CollectAppend(s.log, last, Entering);
      CollectAppend(s.log, last, Leaving);
      QueueUntouched(last);
    }
  }

  /** The effects a settling response-interceptor refresh appends after
      those of the refresh itself. */
  function RetryTail(result: Result<string, Error>, req: Request): seq<Effect> {
    match result
    case Success(token) => [DefaultHeader(token), Resubmitted(req)]
    case Failure(error) => [Failed(req, error)]
  }

  lemma SettleRetryLog(s: State, req: Request, net: Refresh.Network, afterLogout: Option<string>)
    requires req in s.retrying
    ensures var r := Refresh.RefreshToken(net, s.store);
            SettleRetry(s, req, net, afterLogout).log == s.log + r.effects + RetryTail(r.result, req)
  {
  }

  lemma SettleRetryKeepsLedger(s: State, req: Request, net: Refresh.Network, afterLogout: Option<string>)
    requires NoWaiterLost(s) && req in s.retrying
    ensures NoWaiterLost(SettleRetry(s, req, net, afterLogout))
  {
    var r := Refresh.RefreshToken(net, s.store);
    var tail := RetryTail(r.result, req);
    SettleRetryLog(s, req, net, afterLogout);
    var s' := SettleRetry(s, req, net, afterLogout);
    QueueUntouched(r.effects);
    QueueUntouched(tail);
    CollectAppend(s.log, r.effects, Entering);
    CollectAppend(s.log, r.effects, Leaving);
    CollectAppend(s.log + r.effects, tail, Entering);
    CollectAppend(s.log + r.effects, tail, Leaving);
    assert Enqueued(s'.log) == Enqueued(s.log) && Served(s'.log) == Served(s.log);
  }

  lemma SettleRetryKeepsMarks(s: State, req: Request, net: Refresh.Network, afterLogout: Option<string>)
    requires RetriesMarked(s) && req in s.retrying
    ensures RetriesMarked(SettleRetry(s, req, net, afterLogout))
  {
    var s' := SettleRetry(s, req, net, afterLogout);
    var r := Refresh.RefreshToken(net, s.store);
    var tail := RetryTail(r.result, req);
    SettleRetryLog(s, req, net, afterLogout);
    forall e | e in s'.log && e.Resubmitted?
      ensures e.req.retry
    {
      assert e in s.log || e in r.effects || e in tail;
    }
    assert forall q :: q in s'.retrying ==> q in s.retrying;
  }

  lemma SettleRetryValid(s: State, req: Request, net: Refresh.Network, afterLogout: Option<string>)
    requires Valid(s) && req in s.retrying
    ensures Valid(SettleRetry(s, req, net, afterLogout))
  {
    SettleRetryKeepsLedger(s, req, net, afterLogout);
    SettleRetryKeepsMarks(s, req, net, afterLogout);
  }

  /** Every event preserves the invariants. */
  lemma StepValid(s: State, decode: Jwt.Decoder, e: Event)
    requires Valid(s)
    ensures Valid(Step(s, decode, e))
  {
    match e
    case Send(req, nowMs) => InterceptRequestValid(s, decode, req, nowMs);
    case InitiatorSettles(req, net) => if req in s.initiating { SettleInitiatorValid(s, req, net); }
    case ErrorResponse(status, config) => InterceptResponseErrorValid(s, status, config);
    case RetrySettles(req, net, afterLogout) => if req in s.retrying { SettleRetryValid(s, req, net, afterLogout); }
  }

  /** Every run from a valid state, such as `Start(store)` (`StartValid`),
      keeps the invariants. */
  lemma {:induction false} RunValid(s: State, decode: Jwt.Decoder, events: seq<Event>)
    requires Valid(s)
    ensures Valid(Run(s, decode, events))
    decreases |events|
  {
    if |events| > 0 {
      StepValid(s, decode, events[0]);
      RunValid(Step(s, decode, events[0]), decode, events[1..]);
    }
  }

  // ---------------------------------------------------------------------
  // What the invariants give callers

  /** At most one refresh started by the request interceptor is in flight. */
  lemma AtMostOneInitiator(s: State)
    requires Valid(s)
    ensures |s.initiating| <= 1
    ensures s.isRefreshing <==> |s.initiating| == 1
  {
  }

  /** Waiters are served in the order they queued, and every waiter that
      has not been served is still in the queue, in order. */
  lemma ServedInQueueOrder(s: State)
    requires Valid(s)
    ensures |Served(s.log)| <= |Enqueued(s.log)|
    ensures Served(s.log) == Enqueued(s.log)[..|Served(s.log)|]
    ensures s.subscribers == Enqueued(s.log)[|Served(s.log)|..]
  {
    assert Enqueued(s.log) == Served(s.log) + s.subscribers;
  }

  /** A request the response interceptor has replayed, directly or from
      the queue, carries `_retry`, so a further 401 on it is rejected
      unchanged and nothing is queued or refreshed for it. */
  lemma ReplayedOnlyOnce(s: State, i: nat, status: Option<int>)
    requires Valid(s) && i < |s.log|
    requires s.log[i].Resubmitted? || (s.log[i].Resumed? && s.log[i].w.resume == Replay)
    ensures var req := if s.log[i].Resubmitted? then s.log[i].req else s.log[i].w.req;
            var s' := InterceptResponseError(s, status, req);
            && s'.log == s.log + [Failed(req, Http(status, req))]
            && s'.subscribers == s.subscribers
            && s'.retrying == s.retrying
  {
    assert s.log[i] in s.log;
  }

  /** logout is called by a settling response-interceptor refresh that
      fails, once, and by nothing else. */
  lemma LogoutOnlyOnRetryFailure(s: State, decode: Jwt.Decoder, e: Event)
    ensures Step(s, decode, e).logouts
         == s.logouts + if e.RetrySettles? && e.req in s.retrying
                           && Refresh.RefreshToken(e.net, s.store).result.Failure? then 1 else 0
  {
  }

  /** Within the coordinator the store is written only by a refresh that
      settles successfully, and then holds the token that refresh
      returned. The one other change is logout's, after a failing
      response-interceptor refresh, which leaves whatever the auth store's
      logout leaves. */
  lemma StoreWrittenOnlyBySuccessfulRefresh(s: State, decode: Jwt.Decoder, e: Event)
    ensures var s' := Step(s, decode, e);
            s'.store != s.store ==>
              || (&& (e.InitiatorSettles? || e.RetrySettles?)
                  && Refresh.RefreshToken(e.net, s.store).result.Success?
                  && s'.store == Some(Refresh.RefreshToken(e.net, s.store).result.value))
              || (&& e.RetrySettles? && e.req in s.retrying
                  && Refresh.RefreshToken(e.net, s.store).result.Failure?
                  && s'.store == e.afterLogout)
  {
  }
}
