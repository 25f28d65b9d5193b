/**
  Values shared by the token-refresh model of api-client.tsx: optional and
  fallible results, outgoing requests, the errors a request can be rejected
  with, queued waiters, and the observable effects the coordinator logs.
 */
module Types {

  datatype Option<+T> = None | Some(value: T)

  datatype Result<+T, +E> = Success(value: T) | Failure(error: E)

  /** An outgoing request, identified by `id`. `retry` is the `_retry`
      flag the response interceptor sets on the request object before it
      is replayed. The source sets it in place on a shared object; here a
      request is a value, and events pass back the marked copy. */
  datatype Request = Request(id: nat, retry: bool)

  /** What a request can be rejected with. */
  datatype Error =
      /** Thrown by refreshToken once every attempt has failed. */
    | RefreshExhausted
      /** Thrown by refreshToken if its loop ever ends without returning. */
    | RefreshFailsafe
      /** A transport error as handed to the response interceptor:
          the response status, when there was a response, and the
          request object it belongs to. */
    | Http(status: Option<int>, config: Request)

  /** How a queued caller continues once its refresh round succeeds:
      a request-interceptor caller proceeds with the new header, a
      response-interceptor caller is replayed with it. */
  datatype Resumption = Proceed | Replay

  /** One entry of the subscriber queue: the request it holds and its
      continuation. Rejection is the same for both kinds: the request
      fails with the refresh error. */
  datatype Waiter = Waiter(req: Request, resume: Resumption)

  /** Observable effects, in the order the model's events produce them. */
  datatype Effect =
      /** POST to token/refresh/, attempt number (0-based). */
    | Posted(attempt: nat)
      /** Backoff sleep between two attempts, in milliseconds. */
    | Waited(ms: nat)
      /** The auth store is set to this token. */
    | Stored(token: string)
      /** Fast path: the request gets `Bearer <token>` and proceeds. */
    | Authorized(req: Request, token: string)
      /** The waiter is appended to the subscriber queue. */
    | Queued(w: Waiter)
      /** The waiter's resolve callback runs with this token: it gets
          `Bearer <token>` and proceeds (Proceed) or is replayed (Replay). */
    | Resumed(w: Waiter, token: string)
      /** The waiter's reject callback runs with this error. */
    | Rejected(w: Waiter, error: Error)
      /** The request fails with this error without being queued. */
    | Failed(req: Request, error: Error)
      /** The client's default `Authorization` header is set to `Bearer <token>`. */
    | DefaultHeader(token: string)
      /** The request object is submitted again through the client. */
    | Resubmitted(req: Request)
  {
    /** Effects a refreshToken call can produce on its own. */
    predicate IsRenewal() {
      Posted? || Waited? || Stored?
    }
  }
}
