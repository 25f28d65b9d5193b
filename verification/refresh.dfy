/**
  Model of refreshToken (api-client.tsx): up to three POSTs to the
  refresh endpoint with exponential backoff between them. The network is
  an oracle giving the outcome of each attempt; the sleeps are logged as
  effects instead of being slept.
 */
module Refresh {
  import opened Types

  /** `maxRetries` of the source. */
  const MaxRetries: nat := 3

  /** The constant factor of the backoff, in milliseconds. */
  const BackoffUnitMs: nat := 100

  /** Outcome of one POST to token/refresh/: the `access` field of the
      response body, or any error thrown while posting or reading it. */
  datatype PostOutcome = Granted(access: string) | Refused

  /** The outcome of the attempt with each attempt number (0-based) within
      one refreshToken call. */
  type Network = nat -> PostOutcome

  /** What one refreshToken call yields: the returned token or the thrown
      error, the auth store afterwards, and the effects in order. */
  datatype Renewal = Renewal(result: Result<string, Error>, store: Option<string>, effects: seq<Effect>)

  function Pow2(k: nat): (p: nat)
    ensures p >= 1
  {
    if k == 0 then 1 else 2 * Pow2(k - 1)
  }

  /** The sleep after the failure that brought the attempt counter to
      `attempt`: `2 ** attempt * 100`. */
  function Backoff(attempt: nat): nat {
    Pow2(attempt) * BackoffUnitMs
  }

  /** Every attempt numbered `from` up to (excluding) `upto` was refused. */
  ghost predicate RefusedBetween(net: Network, from: nat, upto: nat) {
    forall j :: from <= j < upto ==> net(j).Refused?
  }

  /** Reference trace of the failed attempts `from` .. `upto - 1`, each
      followed by its backoff sleep, written in closed form. */
  function FailedAttempts(from: nat, upto: nat): (effects: seq<Effect>)
    requires from <= upto
  {
    seq(2 * (upto - from), i requires 0 <= i < 2 * (upto - from) =>
      if i % 2 == 0 then Posted(from + i / 2) else Waited(Backoff(from + i / 2 + 1)))
  }

  lemma {:induction false} FailedAttemptsCons(from: nat, upto: nat)
    requires from < upto
    ensures FailedAttempts(from, upto)
         == [Posted(from), Waited(Backoff(from + 1))] + FailedAttempts(from + 1, upto)
  {
    var a := FailedAttempts(from, upto);
    var b := [Posted(from), Waited(Backoff(from + 1))] + FailedAttempts(from + 1, upto);
    assert |a| == |b|;
    forall i | 2 <= i < |a|
      ensures a[i] == b[i]
    {
      assert b[i] == FailedAttempts(from + 1, upto)[i - 2];
      assert (i - 2) % 2 == i % 2 && (i - 2) / 2 == i / 2 - 1;
    }
  }

  /** The loop of refreshToken, entered with the attempt counter at
      `attempt`. Each pass posts once; a success stores and returns the
      token; a failure bumps the counter and either throws (counter at
      the limit) or sleeps and goes round again. */
  function Attempt(net: Network, attempt: nat, store: Option<string>): (r: Renewal)
    decreases MaxRetries - attempt
    ensures attempt >= MaxRetries ==> r == Renewal(Failure(RefreshFailsafe), store, [])
    ensures attempt < MaxRetries ==> r.result != Failure(RefreshFailsafe)
    ensures r.result.Success? <==> exists k :: attempt <= k < MaxRetries && net(k).Granted?
    ensures r.result.Success? ==> r.store == Some(r.result.value)
    ensures r.result.Failure? ==> r.store == store
    ensures forall e :: e in r.effects ==> e.IsRenewal()
  {
    if attempt >= MaxRetries then
      Renewal(Failure(RefreshFailsafe), store, [])
    else
      match net(attempt)
      case Granted(token) =>
        Renewal(Success(token), Some(token), [Posted(attempt), Stored(token)])
      case Refused =>
        if attempt + 1 >= MaxRetries then
          Renewal(Failure(RefreshExhausted), store, [Posted(attempt)])
        else
          var rest := Attempt(net, attempt + 1, store);
          Renewal(rest.result, rest.store, [Posted(attempt), Waited(Backoff(attempt + 1))] + rest.effects)
  }

  /** The first granted attempt decides the outcome: its token is stored
      and returned after the earlier failures and their sleeps. */
  lemma {:induction false} AttemptGranted(net: Network, attempt: nat, k: nat, store: Option<string>)
    requires attempt <= k < MaxRetries
    requires net(k).Granted? && RefusedBetween(net, attempt, k)
    ensures Attempt(net, attempt, store)
         == Renewal(Success(net(k).access), Some(net(k).access),
                    FailedAttempts(attempt, k) + [Posted(k), Stored(net(k).access)])
    decreases k - attempt
  {
    if attempt < k {
      AttemptGranted(net, attempt + 1, k, store);
      FailedAttemptsCons(attempt, k);
    }
  }

  /** When every attempt from `attempt` on is refused, the loop throws
      after the last one without a final sleep, leaving the store alone. */
  lemma {:induction false} AttemptExhausted(net: Network, attempt: nat, store: Option<string>)
    requires attempt < MaxRetries
    requires RefusedBetween(net, attempt, MaxRetries)
    ensures Attempt(net, attempt, store)
         == Renewal(Failure(RefreshExhausted), store,
                    FailedAttempts(attempt, MaxRetries - 1) + [Posted(MaxRetries - 1)])
    decreases MaxRetries - attempt
  {
    assert net(attempt).Refused?;
    if attempt + 1 < MaxRetries {
      AttemptExhausted(net, attempt + 1, store);
      FailedAttemptsCons(attempt, MaxRetries - 1);
    }
  }

  /** refreshToken: run the loop from attempt 0. */
  function RefreshToken(net: Network, store: Option<string>): (r: Renewal)
    ensures r.result != Failure(RefreshFailsafe)
    ensures r.result.Success? <==> exists k :: 0 <= k < MaxRetries && net(k).Granted?
    ensures r.result.Success? ==> r.store == Some(r.result.value)
    ensures r.result.Failure? ==> r.store == store
    ensures forall e :: e in r.effects ==> e.IsRenewal()
  {
    Attempt(net, 0, store)
  }

  /** The first granted attempt `k` decides refreshToken: `k` earlier
      failures with their sleeps, then the post, the store write, and the
      same token returned. */
  lemma RefreshGranted(net: Network, k: nat, store: Option<string>)
    requires k < MaxRetries && net(k).Granted? && RefusedBetween(net, 0, k)
    ensures RefreshToken(net, store)
         == Renewal(Success(net(k).access), Some(net(k).access),
                    FailedAttempts(0, k) + [Posted(k), Stored(net(k).access)])
  {
    AttemptGranted(net, 0, k, store);
  }

  /** A network that refuses every attempt makes refreshToken throw after
      exactly three posts separated by sleeps of 200 and 400 ms, with no
      sleep after the last one and no store write. */
  lemma RefreshGivesUp(net: Network, store: Option<string>)
    requires RefusedBetween(net, 0, MaxRetries)
    ensures RefreshToken(net, store)
         == Renewal(Failure(RefreshExhausted), store,
                    [Posted(0), Waited(200), Posted(1), Waited(400), Posted(2)])
  {
    AttemptExhausted(net, 0, store);
    assert FailedAttempts(0, 2) == [Posted(0), Waited(200), Posted(1), Waited(400)];
  }

  /** Number of POST attempts among the effects. */
  function Posts(effects: seq<Effect>): nat {
    if |effects| == 0 then 0
    else (if effects[0].Posted? then 1 else 0) + Posts(effects[1..])
  }

  lemma {:induction false} PostsAppend(a: seq<Effect>, b: seq<Effect>)
    ensures Posts(a + b) == Posts(a) + Posts(b)
  {
    if |a| == 0 {
      assert a + b == b;
    } else {
      assert (a + b)[1..] == a[1..] + b;
      PostsAppend(a[1..], b);
    }
  }

  lemma {:induction false} PostsFailedAttempts(from: nat, upto: nat)
    requires from <= upto
    ensures Posts(FailedAttempts(from, upto)) == upto - from
    decreases upto - from
  {
    if from < upto {
      FailedAttemptsCons(from, upto);
      PostsAppend([Posted(from), Waited(Backoff(from + 1))], FailedAttempts(from + 1, upto));
      PostsFailedAttempts(from + 1, upto);
    }
  }

  /** Sleeps within the first `upto` failures, at most two of them. */
  lemma WaitsOfFailedAttempts(upto: nat)
    requires upto < MaxRetries
    ensures forall e :: e in FailedAttempts(0, upto) && e.Waited? ==> e.ms == 200 || e.ms == 400
  {
    assert Backoff(1) == 200 && Backoff(2) == 400 by {
      assert Pow2(1) == 2 && Pow2(2) == 4;
    }
  }

  /** Bound on posts and sleeps for a refreshToken call whose first
      granted attempt is `k`. */
  lemma GrantedBounds(net: Network, k: nat, store: Option<string>)
    requires k < MaxRetries && net(k).Granted? && RefusedBetween(net, 0, k)
    ensures Posts(RefreshToken(net, store).effects) == k + 1
    ensures forall e :: e in RefreshToken(net, store).effects && e.Waited? ==> e.ms == 200 || e.ms == 400
  {
    RefreshGranted(net, k, store);
    var tail := [Posted(k), Stored(net(k).access)];
    PostsAppend(FailedAttempts(0, k), tail);
    PostsFailedAttempts(0, k);
    assert Posts(tail) == 1 by {
      assert tail[1..] == [Stored(net(k).access)];
      assert Posts(tail[1..]) == 0 by { assert tail[1..][1..] == []; }
    }
    WaitsOfFailedAttempts(k);
  }

  /** Bound on posts and sleeps for a refreshToken call that gives up. */
  lemma RefusedBounds(net: Network, store: Option<string>)
    requires RefusedBetween(net, 0, MaxRetries)
    ensures Posts(RefreshToken(net, store).effects) == MaxRetries
    ensures forall e :: e in RefreshToken(net, store).effects && e.Waited? ==> e.ms == 200 || e.ms == 400
  {
    AttemptExhausted(net, 0, store);
    PostsAppend(FailedAttempts(0, MaxRetries - 1), [Posted(MaxRetries - 1)]);
    PostsFailedAttempts(0, MaxRetries - 1);
    WaitsOfFailedAttempts(MaxRetries - 1);
  }

  /** refreshToken posts at most three times, exactly three times when it
      throws, and only ever sleeps 200 or 400 ms between attempts: the
      100 ms in the comment beside the backoff is never slept. */
  lemma RefreshBounds(net: Network, store: Option<string>)
    ensures Posts(RefreshToken(net, store).effects) <= MaxRetries
    ensures RefreshToken(net, store).result.Failure? ==> Posts(RefreshToken(net, store).effects) == MaxRetries
    ensures forall e :: e in RefreshToken(net, store).effects && e.Waited? ==> e.ms == 200 || e.ms == 400
  {
    if net(0).Granted? {
      GrantedBounds(net, 0, store);
    } else if net(1).Granted? {
      GrantedBounds(net, 1, store);
    } else if net(2).Granted? {
      GrantedBounds(net, 2, store);
    } else {
      RefusedBounds(net, store);
    }
  }
}
