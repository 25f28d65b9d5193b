/**
  Model of the refresh coordination in api-client.tsx as a sequential
  state machine. Every asynchronous step of the interceptors is a discrete
  event on an immutable state:

  - a request passes the request interceptor (it may start a refresh and
    then await it, or queue itself behind a running refresh);
  - the refresh awaited by a request-interceptor caller settles;
  - the response interceptor receives an error (it may queue the request,
    start a refresh of its own and await it, or pass the error on);
  - the refresh awaited by a response-interceptor caller settles.

  A whole refreshToken call happens in its settle event; callers awaiting
  one are kept as pending frames so that settle events can only happen for
  calls that were made.
 */
module Coordinator {
  import opened Types
  import Jwt
  import Refresh

  datatype State = State(
    /** `isRefreshing` of the source. */
    isRefreshing: bool,
    /** `refreshSubscribers` of the source, in enqueue order. */
    subscribers: seq<Waiter>,
    /** The token held by the auth store. */
    store: Option<string>,
    /** How often the auth store's logout has been called. */
    logouts: nat,
    /** Request-interceptor callers suspended in their own refreshToken call. */
    initiating: multiset<Request>,
    /** Response-interceptor callers suspended in their own refreshToken call. */
    retrying: multiset<Request>,
    /** Everything observable so far, in the order the model's events
        produce them; a refreshToken call's posts and sleeps appear
        together at its settle event. */
    log: seq<Effect>)

  /** The module's state when the client is created. */
  function Start(store: Option<string>): (s: State)
    ensures !s.isRefreshing && s.subscribers == [] && s.store == store
  {
    State(false, [], store, 0, multiset{}, multiset{}, [])
  }

  // ---------------------------------------------------------------------
  // The subscriber queue

  /** addRefreshSubscriber: one waiter joins the end of the queue. */
  function AddRefreshSubscriber(s: State, w: Waiter): (s': State)
    ensures |s'.subscribers| == |s.subscribers| + 1
    ensures s'.subscribers[..|s.subscribers|] == s.subscribers
    ensures s'.subscribers[|s.subscribers|] == w
    ensures s'.log == s.log + [Queued(w)]
    ensures s'.(subscribers := s.subscribers, log := s.log) == s
  {
    s.(subscribers := s.subscribers + [w], log := s.log + [Queued(w)])
  }

  /** The resolve callbacks of `ws`, run in order with one token. */
  function ResolveAll(ws: seq<Waiter>, token: string): (effects: seq<Effect>)
    ensures |effects| == |ws|
    ensures forall i :: 0 <= i < |ws| ==> effects[i] == Resumed(ws[i], token)
  {
    if |ws| == 0 then [] else [Resumed(ws[0], token)] + ResolveAll(ws[1..], token)
  }

  /** The reject callbacks of `ws`, run in order with one error. */
  function RejectAll(ws: seq<Waiter>, error: Error): (effects: seq<Effect>)
    ensures |effects| == |ws|
    ensures forall i :: 0 <= i < |ws| ==> effects[i] == Rejected(ws[i], error)
  {
    if |ws| == 0 then [] else [Rejected(ws[0], error)] + RejectAll(ws[1..], error)
  }

  /** onTokenRefreshed: every queued waiter is resumed, in enqueue order,
      with the same token, and the queue is left empty. */
  function OnTokenRefreshed(s: State, token: string): (s': State)
    ensures s'.subscribers == []
    ensures s'.log == s.log + ResolveAll(s.subscribers, token)
    ensures s'.(subscribers := s.subscribers, log := s.log) == s
  {
    s.(subscribers := [], log := s.log + ResolveAll(s.subscribers, token))
  }

  /** onTokenRefreshFailed: every queued waiter is rejected, in enqueue
      order, with the same error, and the queue is left empty. */
  function OnTokenRefreshFailed(s: State, error: Error): (s': State)
    ensures s'.subscribers == []
    ensures s'.log == s.log + RejectAll(s.subscribers, error)
    ensures s'.(subscribers := s.subscribers, log := s.log) == s
  {
    s.(subscribers := [], log := s.log + RejectAll(s.subscribers, error))
  }

  // ---------------------------------------------------------------------
  // The request interceptor

  /** The fast-path test: the store holds a token that is non-empty (an
      empty string is falsy) and not expired. */
  predicate Fresh(store: Option<string>, decode: Jwt.Decoder, nowMs: int) {
    store.Some? && store.value != "" && !Jwt.IsTokenExpired(decode, store.value, nowMs)
  }

  /** The request interceptor up to its first suspension: attach a fresh
      token and proceed; or, with no refresh running, raise the flag and
      await a refresh of one's own; or queue behind the running one. */
  function InterceptRequest(s: State, decode: Jwt.Decoder, req: Request, nowMs: int): (s': State)
    ensures s'.store == s.store && s'.logouts == s.logouts && s'.retrying == s.retrying
    ensures Fresh(s.store, decode, nowMs) ==>
              && s'.isRefreshing == s.isRefreshing
              && s'.subscribers == s.subscribers
              && s'.initiating == s.initiating
              && s'.log == s.log + [Authorized(req, s.store.value)]
    ensures !Fresh(s.store, decode, nowMs) && !s.isRefreshing ==>
              && s'.isRefreshing
              && s'.subscribers == s.subscribers
              && s'.initiating == s.initiating + multiset{req}
              && s'.log == s.log
    ensures !Fresh(s.store, decode, nowMs) && s.isRefreshing ==>
              && s'.isRefreshing
              && s'.subscribers == s.subscribers + [Waiter(req, Proceed)]
              && s'.initiating == s.initiating
              && s'.log == s.log + [Queued(Waiter(req, Proceed))]
  {
    if Fresh(s.store, decode, nowMs) then
      s.(log := s.log + [Authorized(req, s.store.value)])
    else if !s.isRefreshing then
      s.(isRefreshing := true, initiating := s.initiating + multiset{req})
    else
      AddRefreshSubscriber(s, Waiter(req, Proceed))
  }

  /** The refresh started by request-interceptor caller `req` settles.
      On success the queue is drained with the new token, the flag is
      lowered, and only then does `req` queue itself, so that round does
      not resume it. On failure the queue is drained with the error, the
      flag is lowered, and `req` fails with that same error. */
  function SettleInitiator(s: State, req: Request, net: Refresh.Network): (s': State)
    requires req in s.initiating
    ensures !s'.isRefreshing
    ensures s'.initiating == s.initiating - multiset{req}
    ensures s'.retrying == s.retrying && s'.logouts == s.logouts
    ensures var r := Refresh.RefreshToken(net, s.store);
            r.result.Success? ==>
              && s'.store == Some(r.result.value)
              && s'.log == s.log + r.effects + ResolveAll(s.subscribers, r.result.value)
                           + [Queued(Waiter(req, Proceed))]
              && s'.subscribers == [Waiter(req, Proceed)]
    ensures var r := Refresh.RefreshToken(net, s.store);
            r.result.Failure? ==>
              && s'.store == s.store
              && s'.log == s.log + r.effects + RejectAll(s.subscribers, r.result.error)
                           + [Failed(req, r.result.error)]
              && s'.subscribers == []
  {
    var r := Refresh.RefreshToken(net, s.store);
    var s1 := s.(store := r.store, initiating := s.initiating - multiset{req}, log := s.log + r.effects);
    match r.result
    case Success(token) =>
      AddRefreshSubscriber(OnTokenRefreshed(s1, token).(isRefreshing := false), Waiter(req, Proceed))
    case Failure(e) =>
      var s2 := OnTokenRefreshFailed(s1, e).(isRefreshing := false);
      s2.(log := s2.log + [Failed(req, e)])
  }

  // ---------------------------------------------------------------------
  // The response interceptor's error handler

  /** The error handler up to its first suspension. A 401 on a request not
      yet retried marks it retried and either queues it behind the running
      refresh or awaits a refresh of its own, without raising the flag.
      Anything else is rejected with the error unchanged. */
  function InterceptResponseError(s: State, status: Option<int>, config: Request): (s': State)
    ensures s'.store == s.store && s'.logouts == s.logouts
    ensures s'.isRefreshing == s.isRefreshing && s'.initiating == s.initiating
    ensures status == Some(401) && !config.retry && s.isRefreshing ==>
              && s'.subscribers == s.subscribers + [Waiter(config.(retry := true), Replay)]
              && s'.retrying == s.retrying
              && s'.log == s.log + [Queued(Waiter(config.(retry := true), Replay))]
    ensures status == Some(401) && !config.retry && !s.isRefreshing ==>
              && s'.subscribers == s.subscribers
              && s'.retrying == s.retrying + multiset{config.(retry := true)}
              && s'.log == s.log
    ensures !(status == Some(401) && !config.retry) ==>
              && s'.subscribers == s.subscribers
              && s'.retrying == s.retrying
              && s'.log == s.log + [Failed(config, Http(status, config))]
  {
    if status == Some(401) && !config.retry then
      var req := config.(retry := true);
      if s.isRefreshing then
        AddRefreshSubscriber(s, Waiter(req, Replay))
      else
        s.(retrying := s.retrying + multiset{req})
    else
      s.(log := s.log + [Failed(config, Http(status, config))])
  }

  /** The refresh started by the response interceptor for `req` settles.
      On success the client's default header is set and `req` is
      resubmitted; on failure logout is called once and `req` fails with
      the refresh error. The flag and the queue are not touched. The auth
      store's logout is not part of this model, so the token it leaves
      behind is a parameter, `afterLogout`. */
  function SettleRetry(s: State, req: Request, net: Refresh.Network, afterLogout: Option<string>): (s': State)
    requires req in s.retrying
    ensures s'.isRefreshing == s.isRefreshing && s'.subscribers == s.subscribers
    ensures s'.initiating == s.initiating
    ensures s'.retrying == s.retrying - multiset{req}
    ensures var r := Refresh.RefreshToken(net, s.store);
            r.result.Success? ==>
              && s'.store == Some(r.result.value)
              && s'.logouts == s.logouts
              && s'.log == s.log + r.effects + [DefaultHeader(r.result.value), Resubmitted(req)]
    ensures var r := Refresh.RefreshToken(net, s.store);
            r.result.Failure? ==>
              && s'.store == afterLogout
              && s'.logouts == s.logouts + 1
              && s'.log == s.log + r.effects + [Failed(req, r.result.error)]
  {
    var r := Refresh.RefreshToken(net, s.store);
    var s1 := s.(store := r.store, retrying := s.retrying - multiset{req}, log := s.log + r.effects);
    match r.result
    case Success(token) =>
      s1.(log := s1.log + [DefaultHeader(token), Resubmitted(req)])
    case Failure(e) =>
      s1.(store := afterLogout, logouts := s1.logouts + 1, log := s1.log + [Failed(req, e)])
  }

  // ---------------------------------------------------------------------
  // Runs

  datatype Event =
    | Send(req: Request, nowMs: int)
    | InitiatorSettles(req: Request, net: Refresh.Network)
    | ErrorResponse(status: Option<int>, config: Request)
    | RetrySettles(req: Request, net: Refresh.Network, afterLogout: Option<string>)

  /** One event; a settle event for a frame that is not pending changes nothing. */
  function Step(s: State, decode: Jwt.Decoder, e: Event): State {
    match e
    case Send(req, nowMs) => InterceptRequest(s, decode, req, nowMs)
    case InitiatorSettles(req, net) => if req in s.initiating then SettleInitiator(s, req, net) else s
    case ErrorResponse(status, config) => InterceptResponseError(s, status, config)
    case RetrySettles(req, net, afterLogout) =>
      if req in s.retrying then SettleRetry(s, req, net, afterLogout) else s
  }

  function Run(s: State, decode: Jwt.Decoder, events: seq<Event>): State
    decreases |events|
  {
    if |events| == 0 then s else Run(Step(s, decode, events[0]), decode, events[1..])
  }
}
