/**
  Concrete runs of the coordinator: requests queued behind one refresh,
  a refresh that always fails, and the response interceptor's 401 path.
  The stored token "old" has expired at the clock reading used, every
  other token is valid.
 */
module Scenarios {
  import opened Types
  import opened Coordinator
  import Jwt
  import Refresh

  /** A decoder for which "old" expired at second 1 and every other
      token expires far in the future. */
  function Decode(token: string): Jwt.Decoded {
    if token == "old" then Jwt.Payload(Some(1)) else Jwt.Payload(Some(1_000_000_000))
  }

  const Now: int := 5_000

  function Req(id: nat): Request {
    Request(id, false)
  }

  function Proceeding(id: nat): Waiter {
    Waiter(Req(id), Proceed)
  }

  /** The endpoint refuses the first attempt and grants "new" on the second. */
  function SecondTimeLucky(k: nat): Refresh.PostOutcome {
    if k == 0 then Refresh.Refused else Refresh.Granted("new")
  }

  function AlwaysRefused(k: nat): Refresh.PostOutcome {
    Refresh.Refused
  }

  /** refreshToken against SecondTimeLucky: one failure, one 200 ms
      sleep, then "new" is stored and returned. */
  lemma SecondTimeLuckyRefresh(store: Option<string>)
    ensures Refresh.RefreshToken(SecondTimeLucky, store)
         == Refresh.Renewal(Success("new"), Some("new"), [Posted(0), Waited(200), Posted(1), Stored("new")])
  {
    Refresh.RefreshGranted(SecondTimeLucky, 1, store);
    assert Refresh.FailedAttempts(0, 1) == [Posted(0), Waited(200)] by {
      assert Refresh.Backoff(1) == 200 by { assert Refresh.Pow2(1) == 2; }
    }
  }

  lemma FanOutFive()
    ensures ResolveAll(FiveWaiting().subscribers, "new")
         == [Resumed(Proceeding(1), "new"), Resumed(Proceeding(2), "new"),
             Resumed(Proceeding(3), "new"), Resumed(Proceeding(4), "new"),
             Resumed(Proceeding(5), "new")]
  {
  }

  /** The state after request 0 started a refresh and requests 1 to 5
      queued behind it. */
  function FiveWaiting(): State {
    State(true, [Proceeding(1), Proceeding(2), Proceeding(3), Proceeding(4), Proceeding(5)],
          Some("old"), 0, multiset{Req(0)}, multiset{},
          [Queued(Proceeding(1)), Queued(Proceeding(2)), Queued(Proceeding(3)),
           Queued(Proceeding(4)), Queued(Proceeding(5))])
  }

  /** Request 0 finds the token expired and raises the flag; requests 1 to
      5 find the flag up and queue in arrival order. */
  lemma FiveQueueBehindOneRefresh()
    ensures var s0 := Start(Some("old"));
            var s1 := InterceptRequest(s0, Decode, Req(0), Now);
            var s2 := InterceptRequest(s1, Decode, Req(1), Now);
            var s3 := InterceptRequest(s2, Decode, Req(2), Now);
            var s4 := InterceptRequest(s3, Decode, Req(3), Now);
            var s5 := InterceptRequest(s4, Decode, Req(4), Now);
            InterceptRequest(s5, Decode, Req(5), Now) == FiveWaiting()
  {
    var s0 := Start(Some("old"));
    assert !Fresh(s0.store, Decode, Now);
    var s1 := InterceptRequest(s0, Decode, Req(0), Now);
    assert s1 == State(true, [], Some("old"), 0, multiset{Req(0)}, multiset{}, []);
  }

  /** The refresh of request 0 succeeds on its second attempt. The five
      waiters are resumed with "new" in the order they queued, after one
      200 ms sleep; request 0 then queues itself with the flag already
      down, so it waits for a later round while the queue is non-empty
      and no refresh is running. */
  lemma QueuedRequestsResumeInOrder()
    ensures var s := SettleInitiator(FiveWaiting(), Req(0), SecondTimeLucky);
            && s.store == Some("new")
            && !s.isRefreshing
            && s.subscribers == [Proceeding(0)]
            && s.log == [Queued(Proceeding(1)), Queued(Proceeding(2)), Queued(Proceeding(3)),
                         Queued(Proceeding(4)), Queued(Proceeding(5)),
                         Posted(0), Waited(200), Posted(1), Stored("new"),
                         Resumed(Proceeding(1), "new"), Resumed(Proceeding(2), "new"),
                         Resumed(Proceeding(3), "new"), Resumed(Proceeding(4), "new"),
                         Resumed(Proceeding(5), "new"),
                         Queued(Proceeding(0))]
  {
    SecondTimeLuckyRefresh(Some("old"));
    FanOutFive();
  }

  /** Request 0 starts a refresh, requests 1 to 3 queue behind it, and
      every attempt is refused. After three posts the three queued
      requests are rejected in order and request 0 fails with the same
      error; the queue is empty, the flag is down, the store is untouched
      and logout has not been called on this path. */
  lemma ExhaustedRefreshRejectsEveryone()
    ensures var s0 := Start(Some("old"));
            var s1 := InterceptRequest(s0, Decode, Req(0), Now);
            var s2 := InterceptRequest(s1, Decode, Req(1), Now);
            var s3 := InterceptRequest(s2, Decode, Req(2), Now);
            var s4 := InterceptRequest(s3, Decode, Req(3), Now);
            var s5 := SettleInitiator(s4, Req(0), AlwaysRefused);
            && s5.store == Some("old")
            && !s5.isRefreshing
            && s5.subscribers == []
            && s5.logouts == 0
            && s5.log == [Queued(Proceeding(1)), Queued(Proceeding(2)), Queued(Proceeding(3)),
                          Posted(0), Waited(200), Posted(1), Waited(400), Posted(2),
                          Rejected(Proceeding(1), RefreshExhausted),
                          Rejected(Proceeding(2), RefreshExhausted),
                          Rejected(Proceeding(3), RefreshExhausted),
                          Failed(Req(0), RefreshExhausted)]
  {
    var s0 := Start(Some("old"));
    assert !Fresh(s0.store, Decode, Now);
    var s1 := InterceptRequest(s0, Decode, Req(0), Now);
    var s2 := InterceptRequest(s1, Decode, Req(1), Now);
    var s3 := InterceptRequest(s2, Decode, Req(2), Now);
    var s4 := InterceptRequest(s3, Decode, Req(3), Now);
    assert s4.subscribers == [Proceeding(1), Proceeding(2), Proceeding(3)];
    Refresh.RefreshGivesUp(AlwaysRefused, Some("old"));
  }

  /** A request that was sent with a valid token gets a 401 while no
      refresh is running: it is marked retried and starts its own refresh,
      which succeeds; it is resubmitted with the new token, the flag and
      the queue untouched. A second 401 on the resubmitted request is
      rejected as it is. */
  lemma UnauthorizedIsRetriedOnce()
    ensures var s0 := Start(Some("valid"));
            var s1 := InterceptRequest(s0, Decode, Req(7), Now);
            var s2 := InterceptResponseError(s1, Some(401), Req(7));
            var s3 := SettleRetry(s2, Request(7, true), SecondTimeLucky, None);
            var s4 := InterceptResponseError(s3, Some(401), Request(7, true));
            && !s3.isRefreshing && s3.subscribers == [] && s3.logouts == 0
            && s3.store == Some("new")
            && s3.log == [Authorized(Req(7), "valid"),
                          Posted(0), Waited(200), Posted(1), Stored("new"),
                          DefaultHeader("new"), Resubmitted(Request(7, true))]
            && s4.log == s3.log + [Failed(Request(7, true), Http(Some(401), Request(7, true)))]
            && s4.retrying == multiset{}
  {
    var s0 := Start(Some("valid"));
    assert Fresh(s0.store, Decode, Now);
    var s1 := InterceptRequest(s0, Decode, Req(7), Now);
    var s2 := InterceptResponseError(s1, Some(401), Req(7));
    assert s2.retrying == multiset{Request(7, true)};
    SecondTimeLuckyRefresh(Some("valid"));
  }

  /** When the refresh of the response interceptor fails, logout is called
      exactly once, the store holds whatever logout left, and the request
      is rejected with the refresh error. */
  lemma FailedRetryLogsOut(afterLogout: Option<string>)
    ensures var s0 := Start(Some("valid"));
            var s1 := InterceptResponseError(s0, Some(401), Req(8));
            var s2 := SettleRetry(s1, Request(8, true), AlwaysRefused, afterLogout);
            && s2.logouts == 1
            && s2.store == afterLogout
            && s2.log == [Posted(0), Waited(200), Posted(1), Waited(400), Posted(2),
                          Failed(Request(8, true), RefreshExhausted)]
  {
    Refresh.RefreshGivesUp(AlwaysRefused, Some("valid"));
  }

  /** The response interceptor's refreshes are not single-flight: two
      401s arriving while the flag is down both await refreshes of their
      own, and neither raises the flag. */
  lemma ConcurrentUnauthorizedRefreshTwice()
    ensures var s0 := Start(Some("valid"));
            var s1 := InterceptResponseError(s0, Some(401), Req(1));
            var s2 := InterceptResponseError(s1, Some(401), Req(2));
            && !s2.isRefreshing
            && s2.retrying == multiset{Request(1, true), Request(2, true)}
  {
  }

  /** A 401 arriving while a request-interceptor refresh runs is queued
      for replay and, when that refresh succeeds, resumed with the new
      token like every other waiter. */
  lemma UnauthorizedDuringRefreshIsReplayed()
    ensures var s0 := Start(Some("old"));
            var s1 := InterceptRequest(s0, Decode, Req(0), Now);
            var s2 := InterceptResponseError(s1, Some(401), Req(9));
            var s3 := SettleInitiator(s2, Req(0), SecondTimeLucky);
            && s2.subscribers == [Waiter(Request(9, true), Replay)]
            && Resumed(Waiter(Request(9, true), Replay), "new") in s3.log
            && s3.subscribers == [Proceeding(0)]
  {
    var s0 := Start(Some("old"));
    assert !Fresh(s0.store, Decode, Now);
    var s1 := InterceptRequest(s0, Decode, Req(0), Now);
    var s2 := InterceptResponseError(s1, Some(401), Req(9));
    var s3 := SettleInitiator(s2, Req(0), SecondTimeLucky);
    var r := Refresh.RefreshToken(SecondTimeLucky, s2.store);
    assert r.result == Success("new");
    var fan := ResolveAll(s2.subscribers, "new");
    assert fan[0] == Resumed(Waiter(Request(9, true), Replay), "new");
    assert s3.log == s2.log + r.effects + fan + [Queued(Proceeding(0))];
    assert s3.log[|s2.log| + |r.effects|] == fan[0];
  }
}
