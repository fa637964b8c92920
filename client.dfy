/**
 * The browser side of the session. `ApiClient` is the HTTP instance of the client's API
 * module with its module state: the access token it attaches to requests, the flag that
 * a refresh is in flight and the queue of requests that failed with 401 meanwhile.
 * `AuthProvider` is the session context: the signed-in user and the loading flag, kept in
 * sync with the client through the refresh callback. Requests and responses are values;
 * a promise a caller awaits is modelled by the event that settles it, passed to the
 * method that reacts to it.
 */
module Client {

  import opened Wrappers
  import opened Strings
  import opened Models
  import opened Gate

  /** A request config: its URL, its headers and the `_retry` mark. */
  datatype Request = Request(url: string, headers: map<string, string>, retry: bool)

  /** A rejected request: its config and the response status, `None` when no response came. */
  datatype HttpError = HttpError(config: Request, status: Option<int>)

  /** The `{ accessToken, user }` data of a login, register or refresh response. */
  datatype AuthData = AuthData(accessToken: string, user: Option<PublicUser>)

  /** How a queued request's promise is settled: resolved with a token, or rejected with an error. */
  datatype Settlement = Resolved(request: Request, token: Option<string>) | Rejected(request: Request, error: HttpError)

  /** What a queued request does once settled: it is sent again, or its caller sees the error. */
  datatype Resumption = Resend(request: Request) | Fail(error: HttpError)

  /** What the response interceptor decides for an error. */
  datatype Decision = PassThrough | Enqueue | StartRefresh

  /** What the response interceptor did: rejected the error, queued the request, or began the refresh call. */
  datatype Step = Propagated(error: HttpError) | Queued | Refreshing(original: Request, refreshCall: Request)

  const AuthorizationHeader := "Authorization"

  /** `` `Bearer ${token}` `` for a token that may be `null`. */
  function BearerOf(token: Option<string>): string {
    "Bearer " + (if token.Some? then token.value else "null")
  }

  /** The URL excludes the request from the refresh logic. */
  predicate IsAuthEndpoint(url: string): (b: bool)
    ensures b <==> (exists i :: OccursAt(url, "/login", i)) || (exists i :: OccursAt(url, "/register", i))
                   || (exists i :: OccursAt(url, "/refresh", i))
  {
    Contains(url, "/login") || Contains(url, "/register") || Contains(url, "/refresh")
  }

  /** The refresh call: `post('/users/refresh')`, without a body or extra headers. */
  const RefreshCall := Request("/users/refresh", map[], false)

  /**
   * The response interceptor's decision: a refresh only for a 401 on a request that is
   * neither an authentication call nor already retried, and only when no refresh is in
   * flight; a 401 during a refresh waits in the queue; anything else is rejected.
   */
  function Decide(req: Request, status: Option<int>, refreshing: bool): (d: Decision)
    ensures d != PassThrough <==> !IsAuthEndpoint(req.url) && status == Some(401) && !req.retry
    ensures d == Enqueue ==> refreshing
    ensures d == StartRefresh ==> !refreshing
  {
    if IsAuthEndpoint(req.url) then PassThrough
    else if status == Some(401) && !req.retry then
      if refreshing then Enqueue else StartRefresh
    else PassThrough
  }

  /** The refresh call itself never triggers the refresh logic, so a failed refresh cannot loop. */
  lemma {:induction false} RefreshCallPassesThrough(status: Option<int>, refreshing: bool, headers: map<string, string>, retry: bool)
    ensures Decide(Request(RefreshCall.url, headers, retry), status, refreshing) == PassThrough
  {
    assert OccursAt(RefreshCall.url, "/refresh", 6);
  }

  /** Login and register calls are never retried. */
  lemma {:induction false} CredentialCallsPassThrough(req: Request, status: Option<int>, refreshing: bool)
    requires req.url == "/users/login" || req.url == "/users/register"
    ensures Decide(req, status, refreshing) == PassThrough
  {
    if req.url == "/users/login" {
      assert OccursAt(req.url, "/login", 6);
    } else {
      assert OccursAt(req.url, "/register", 6);
    }
  }

  /** A request that carries the retry mark is never retried again. */
  lemma RetriedRequestPassesThrough(req: Request, status: Option<int>, refreshing: bool)
    requires req.retry
    ensures Decide(req, status, refreshing) == PassThrough
  {
  }

  /**
   * The queue entry of a 401 during a refresh with the retry mark set, as it is set for
   * the request that starts the refresh. The interceptor as written queues the request
   * itself, unmarked; this is the corrected entry.
   */
  function Enqueued(req: Request): (r: Request)
    ensures r.retry && r.url == req.url && r.headers == req.headers
  {
    req.(retry := true)
  }

  /** A queued request resolved with `token`: the header is set to that token and the request sent again. */
  function Replayed(entry: Request, token: Option<string>): (r: Request)
    ensures r.url == entry.url && r.retry == entry.retry
    ensures AuthorizationHeader in r.headers && r.headers[AuthorizationHeader] == BearerOf(token)
    ensures forall h :: h in entry.headers && h != AuthorizationHeader ==> h in r.headers && r.headers[h] == entry.headers[h]
    ensures r.headers.Keys == entry.headers.Keys + {AuthorizationHeader}
  {
    entry.(headers := entry.headers[AuthorizationHeader := BearerOf(token)])
  }

  /** A URL without a `g` and an `h` names no authentication endpoint. */
  lemma NotAuthEndpoint(url: string)
    requires 'g' !in url && 'h' !in url
    ensures !IsAuthEndpoint(url)
  {
    AbsentCharNotContained(url, "/login", 3);
    AbsentCharNotContained(url, "/register", 3);
    AbsentCharNotContained(url, "/refresh", 7);
  }

  /**
   * As written, a request that waited for a refresh and was replayed is, on a second 401,
   * sent into a second refresh and retried a second time.
   */
  lemma QueuedRequestRetriedTwice()
    ensures var req := Request("/items/1/rate", map[], false);
      Decide(req, Some(401), true) == Enqueue
      && Decide(Replayed(req, Some("fresh")), Some(401), false) == StartRefresh
  {
    NotAuthEndpoint("/items/1/rate");
  }

  /** With the mark set on queueing, a replayed request is never retried again, whatever it receives. */
  lemma ReplayedRequestPassesThrough(req: Request, token: Option<string>, status: Option<int>, refreshing: bool)
    ensures Decide(Replayed(Enqueued(req), token), status, refreshing) == PassThrough
  {
    RetriedRequestPassesThrough(Replayed(Enqueued(req), token), status, refreshing);
  }

  /** How `processQueue` settles one entry. */
  function Settle(entry: Request, error: Option<HttpError>, token: Option<string>): (s: Settlement)
    ensures s.request == entry
    ensures error.Some? <==> s.Rejected?
    ensures s.Rejected? ==> s.error == error.value
    ensures s.Resolved? ==> s.token == token
  {
    if error.Some? then Rejected(entry, error.value) else Resolved(entry, token)
  }

  /** The `forEach` of `processQueue`: every entry settled once, in queue order. */
  method SettleAll(queue: seq<Request>, error: Option<HttpError>, token: Option<string>) returns (settled: seq<Settlement>)
    ensures |settled| == |queue|
    ensures forall i :: 0 <= i < |queue| ==> settled[i].request == queue[i]
    ensures error.Some? ==> forall i :: 0 <= i < |queue| ==> settled[i] == Rejected(queue[i], error.value)
    ensures error.None? ==> forall i :: 0 <= i < |queue| ==> settled[i] == Resolved(queue[i], token)
  {
    settled := [];
    var i := 0;
    while i < |queue|
      invariant 0 <= i <= |queue|
      invariant |settled| == i
      invariant forall k :: 0 <= k < i ==> settled[k] == Settle(queue[k], error, token)
    {
      settled := settled + [Settle(queue[i], error, token)];
      i := i + 1;
    }
  }

  class ApiClient {
    var currentAccessToken: Option<string>
    var onTokenRefreshed: AuthProvider?
    var isRefreshing: bool
    var failedQueue: seq<Request>

    /** Requests wait in the queue only while a refresh is in flight. */
    predicate Valid()
      reads this
    {
      !isRefreshing ==> failedQueue == []
    }

    /** The module state when the module is loaded. */
    constructor ()
      ensures currentAccessToken == None && onTokenRefreshed == null
      ensures !isRefreshing && failedQueue == []
      ensures Valid()
    {
      currentAccessToken := None;
      onTokenRefreshed := null;
      isRefreshing := false;
      failedQueue := [];
    }

    /** `setAccessToken`. */
    method SetAccessToken(token: Option<string>)
      modifies this
      ensures currentAccessToken == token
      ensures onTokenRefreshed == old(onTokenRefreshed) && isRefreshing == old(isRefreshing) && failedQueue == old(failedQueue)
    {
      currentAccessToken := token;
    }

    /** `setOnTokenRefreshed`. */
    method SetOnTokenRefreshed(callback: AuthProvider?)
      modifies this
      ensures onTokenRefreshed == callback
      ensures currentAccessToken == old(currentAccessToken) && isRefreshing == old(isRefreshing) && failedQueue == old(failedQueue)
    {
      onTokenRefreshed := callback;
    }

    /** The request interceptor: the Bearer header is set when, and only when, the token is truthy. */
    function Prepare(req: Request): (r: Request)
      reads this
      ensures r.url == req.url && r.retry == req.retry
      ensures Truthy(currentAccessToken) ==> r.headers == req.headers[AuthorizationHeader := "Bearer " + currentAccessToken.value]
      ensures !Truthy(currentAccessToken) ==> r == req
    {
      if Truthy(currentAccessToken) then
        req.(headers := req.headers[AuthorizationHeader := "Bearer " + currentAccessToken.value])
      else req
    }

    /** What a settled queue entry does, with the interceptor applied to the replay. */
    function Resume(s: Settlement): (r: Resumption)
      reads this
      ensures s.Rejected? ==> r == Fail(s.error)
      ensures s.Resolved? ==> r == Resend(Prepare(Replayed(s.request, s.token)))
    {
      match s
      case Resolved(req, token) => Resend(Prepare(Replayed(req, token)))
      case Rejected(_, error) => Fail(error)
    }

    /** `processQueue`: every entry settled once in order, and the queue emptied. */
    method ProcessQueue(error: Option<HttpError>, token: Option<string>) returns (settled: seq<Settlement>)
      modifies this
      ensures |settled| == |old(failedQueue)|
      ensures forall i :: 0 <= i < |settled| ==> settled[i] == Settle(old(failedQueue)[i], error, token)
      ensures failedQueue == []
      ensures currentAccessToken == old(currentAccessToken) && onTokenRefreshed == old(onTokenRefreshed) && isRefreshing == old(isRefreshing)
    {
      settled := SettleAll(failedQueue, error, token);
      failedQueue := [];
    }

    /**
     * The response interceptor on an error, up to the point where it waits: the error is
     * rejected unchanged, or the request is queued as it is, or the request is marked, the
     * flag set and the refresh call issued through the request interceptor.
     */
    method OnResponseError(err: HttpError) returns (step: Step)
      requires Valid()
      modifies this
      ensures Valid()
      ensures currentAccessToken == old(currentAccessToken) && onTokenRefreshed == old(onTokenRefreshed)
      ensures Decide(err.config, err.status, old(isRefreshing)) == PassThrough ==>
        step == Propagated(err) && isRefreshing == old(isRefreshing) && failedQueue == old(failedQueue)
      ensures Decide(err.config, err.status, old(isRefreshing)) == Enqueue ==>
        step == Queued && isRefreshing && failedQueue == old(failedQueue) + [err.config]
      ensures Decide(err.config, err.status, old(isRefreshing)) == StartRefresh ==>
        && step == Refreshing(err.config.(retry := true), Prepare(RefreshCall))
        && isRefreshing && failedQueue == []
    {
      var originalRequest := err.config;
      match Decide(originalRequest, err.status, isRefreshing)
      case PassThrough =>
        step := Propagated(err);
      case Enqueue =>
        failedQueue := failedQueue + [originalRequest];
        step := Queued;
      case StartRefresh =>
        originalRequest := originalRequest.(retry := true);
        isRefreshing := true;
        step := Refreshing(originalRequest, Prepare(RefreshCall));
    }

    /** The corrected response interceptor: the same, except that a queued request is marked as retried. */
    method OnResponseErrorMarked(err: HttpError) returns (step: Step)
      requires Valid()
      modifies this
      ensures Valid()
      ensures currentAccessToken == old(currentAccessToken) && onTokenRefreshed == old(onTokenRefreshed)
      ensures Decide(err.config, err.status, old(isRefreshing)) == PassThrough ==>
        step == Propagated(err) && isRefreshing == old(isRefreshing) && failedQueue == old(failedQueue)
      ensures Decide(err.config, err.status, old(isRefreshing)) == Enqueue ==>
        step == Queued && isRefreshing && failedQueue == old(failedQueue) + [Enqueued(err.config)]
      ensures Decide(err.config, err.status, old(isRefreshing)) == StartRefresh ==>
        && step == Refreshing(err.config.(retry := true), Prepare(RefreshCall))
        && isRefreshing && failedQueue == []
    {
      var originalRequest := err.config;
      match Decide(originalRequest, err.status, isRefreshing)
      case PassThrough =>
        step := Propagated(err);
      case Enqueue =>
        failedQueue := failedQueue + [Enqueued(originalRequest)];
        step := Queued;
      case StartRefresh =>
        originalRequest := originalRequest.(retry := true);
        isRefreshing := true;
        step := Refreshing(originalRequest, Prepare(RefreshCall));
    }

    /**
     * The refresh call answered with `{ accessToken, user }`: the token is stored, the
     * callback told, the queue resolved with the new token, the original request sent
     * again with it, and the flag cleared.
     */
    method RefreshSucceeded(original: Request, data: AuthData) returns (settled: seq<Settlement>, sent: Request)
      requires Valid()
      modifies this, onTokenRefreshed
      ensures Valid() && !isRefreshing && failedQueue == []
      ensures currentAccessToken == Some(data.accessToken)
      ensures onTokenRefreshed == old(onTokenRefreshed)
      ensures |settled| == |old(failedQueue)|
      ensures forall i :: 0 <= i < |settled| ==> settled[i] == Resolved(old(failedQueue)[i], Some(data.accessToken))
      ensures sent.url == original.url && sent.retry == original.retry
      ensures sent.headers == original.headers[AuthorizationHeader := "Bearer " + data.accessToken]
      ensures onTokenRefreshed != null ==>
        && onTokenRefreshed.loading == old(onTokenRefreshed.loading)
        && onTokenRefreshed.user == (if data.user.Some? then data.user else old(onTokenRefreshed.user))
    {
      SetAccessToken(Some(data.accessToken));
      if onTokenRefreshed != null {
        onTokenRefreshed.TokenRefreshed(data.accessToken, data.user);
      }
      settled := ProcessQueue(None, Some(data.accessToken));
      var retried := original.(headers := original.headers[AuthorizationHeader := "Bearer " + data.accessToken]);
      sent := Prepare(retried);
      isRefreshing := false;
    }

    /**
     * The refresh call failed with `refreshError`: the queue is rejected with it, the token
     * dropped, the flag cleared, and the original request's caller sees that error.
     */
    method RefreshFailed(refreshError: HttpError) returns (settled: seq<Settlement>, error: HttpError)
      requires Valid()
      modifies this
      ensures Valid() && !isRefreshing && failedQueue == []
      ensures currentAccessToken == None
      ensures onTokenRefreshed == old(onTokenRefreshed)
      ensures |settled| == |old(failedQueue)|
      ensures forall i :: 0 <= i < |settled| ==> settled[i] == Rejected(old(failedQueue)[i], refreshError)
      ensures error == refreshError
    {
      settled := ProcessQueue(Some(refreshError), None);
      SetAccessToken(None);
      isRefreshing := false;
      error := refreshError;
    }
  }

  /** The header the client attaches is read back by the server gate as the very token. */
  lemma {:induction false} AttachedTokenReachesGate(api: ApiClient, req: Request)
    requires Truthy(api.currentAccessToken) && ' ' !in api.currentAccessToken.value
    ensures AuthorizationHeader in api.Prepare(req).headers
    ensures var h := api.Prepare(req).headers[AuthorizationHeader];
      StartsWith(h, "Bearer ") && BearerToken(h) == api.currentAccessToken.value
  {
    BearerTokenOf(api.currentAccessToken.value);
  }

  class AuthProvider {
    var user: Option<PublicUser>
    var loading: bool
    const api: ApiClient

    /** `useState(null)` and `useState(true)`. */
    constructor (api: ApiClient)
      ensures user == None && loading
      ensures this.api == api
    {
      user := None;
      loading := true;
      this.api := api;
    }

    /** The effect's first step: register the refresh callback, which is this provider. */
    method Mount()
      modifies api
      ensures api.onTokenRefreshed == this
      ensures api.currentAccessToken == old(api.currentAccessToken)
      ensures api.isRefreshing == old(api.isRefreshing) && api.failedQueue == old(api.failedQueue)
    {
      api.SetOnTokenRefreshed(this);
    }

    /** The refresh callback: the user is replaced only by a truthy user. */
    method TokenRefreshed(newToken: string, newUser: Option<PublicUser>)
      modifies this
      ensures user == (if newUser.Some? then newUser else old(user))
      ensures loading == old(loading)
    {
      if newUser.Some? {
        user := newUser;
      }
    }

    /**
     * `restoreSession` once the refresh call has settled: token and user from the answer,
     * or both cleared on an error; loading ends either way.
     */
    method RestoreSession(outcome: Result<AuthData, HttpError>)
      modifies this, api
      ensures !loading
      ensures outcome.Ok? ==> api.currentAccessToken == Some(outcome.value.accessToken) && user == outcome.value.user
      ensures outcome.Err? ==> api.currentAccessToken == None && user == None
      ensures api.onTokenRefreshed == old(api.onTokenRefreshed)
      ensures api.isRefreshing == old(api.isRefreshing) && api.failedQueue == old(api.failedQueue)
    {
      match outcome {
        case Ok(data) =>
          api.SetAccessToken(Some(data.accessToken));
          user := data.user;
        case Err(_) =>
          api.SetAccessToken(None);
          user := None;
      }
      loading := false;
    }

    /** `login` once its call has settled: on success token and user are set; an error leaves both and is rethrown. */
    method Login(outcome: Result<AuthData, HttpError>) returns (r: Result<Option<PublicUser>, HttpError>)
      modifies this, api
      ensures outcome.Ok? ==>
        && api.currentAccessToken == Some(outcome.value.accessToken) && user == outcome.value.user
        && r == Ok(outcome.value.user)
      ensures outcome.Err? ==>
        && api.currentAccessToken == old(api.currentAccessToken) && user == old(user)
        && r == Err(outcome.error)
      ensures loading == old(loading)
      ensures api.onTokenRefreshed == old(api.onTokenRefreshed)
      ensures api.isRefreshing == old(api.isRefreshing) && api.failedQueue == old(api.failedQueue)
    {
      match outcome
      case Err(e) =>
        return Err(e);
      case Ok(data) =>
        api.SetAccessToken(Some(data.accessToken));
        user := data.user;
        r := Ok(data.user);
    }

    /** `register`: the same transitions as `login`, for the register call. */
    method Register(outcome: Result<AuthData, HttpError>) returns (r: Result<Option<PublicUser>, HttpError>)
      modifies this, api
      ensures outcome.Ok? ==>
        && api.currentAccessToken == Some(outcome.value.accessToken) && user == outcome.value.user
        && r == Ok(outcome.value.user)
      ensures outcome.Err? ==>
        && api.currentAccessToken == old(api.currentAccessToken) && user == old(user)
        && r == Err(outcome.error)
      ensures loading == old(loading)
      ensures api.onTokenRefreshed == old(api.onTokenRefreshed)
      ensures api.isRefreshing == old(api.isRefreshing) && api.failedQueue == old(api.failedQueue)
    {
      match outcome
      case Err(e) =>
        return Err(e);
      case Ok(data) =>
        api.SetAccessToken(Some(data.accessToken));
        user := data.user;
        r := Ok(data.user);
    }

    /** `logout`: token and user end cleared whether or not the logout call failed. */
    method Logout(callFailed: bool)
      modifies this, api
      ensures api.currentAccessToken == None && user == None
      ensures loading == old(loading)
      ensures api.onTokenRefreshed == old(api.onTokenRefreshed)
      ensures api.isRefreshing == old(api.isRefreshing) && api.failedQueue == old(api.failedQueue)
    {
      api.SetAccessToken(None);
      user := None;
    }
  }

  /**
   * Two requests fail with 401 at once, as the interceptor is written: one refresh is
   * issued and the second request waits. When the refresh answers, both go out again with
   * the new token, but the second one unmarked, so a further 401 on it starts a second
   * refresh.
   */
  method SingleFlight(api: ApiClient, first: Request, second: Request, data: AuthData)
    returns (firstStep: Step, secondStep: Step, firstSent: Request, secondResumed: Resumption)
    requires api.Valid() && !api.isRefreshing
    requires !IsAuthEndpoint(first.url) && !first.retry
    requires !IsAuthEndpoint(second.url) && !second.retry
    modifies api, api.onTokenRefreshed
    ensures firstStep.Refreshing? && firstStep.refreshCall.url == RefreshCall.url && secondStep == Queued
    ensures !api.isRefreshing && api.failedQueue == [] && api.currentAccessToken == Some(data.accessToken)
    ensures api.onTokenRefreshed == old(api.onTokenRefreshed)
    ensures api.onTokenRefreshed != null ==>
      api.onTokenRefreshed.user == (if data.user.Some? then data.user else old(api.onTokenRefreshed.user))
    ensures firstSent.url == first.url && firstSent.retry
    ensures AuthorizationHeader in firstSent.headers && firstSent.headers[AuthorizationHeader] == "Bearer " + data.accessToken
    ensures secondResumed.Resend? && secondResumed.request.url == second.url && !secondResumed.request.retry
    ensures AuthorizationHeader in secondResumed.request.headers
         && secondResumed.request.headers[AuthorizationHeader] == "Bearer " + data.accessToken
    ensures Decide(secondResumed.request, Some(401), api.isRefreshing) == StartRefresh
  {
    firstStep := api.OnResponseError(HttpError(first, Some(401)));
    secondStep := api.OnResponseError(HttpError(second, Some(401)));
    assert api.failedQueue == [second];
    var settled;
    settled, firstSent := api.RefreshSucceeded(firstStep.original, data);
    assert settled == [Resolved(second, Some(data.accessToken))];
    secondResumed := api.Resume(settled[0]);
  }

  /**
   * The same two requests with the corrected interceptor: one refresh, and both requests
   * go out again marked, so neither can start another refresh, whatever it receives.
   */
  method SingleFlightMarked(api: ApiClient, first: Request, second: Request, data: AuthData)
    returns (firstStep: Step, secondStep: Step, firstSent: Request, secondResumed: Resumption)
    requires api.Valid() && !api.isRefreshing
    requires !IsAuthEndpoint(first.url) && !first.retry
    requires !IsAuthEndpoint(second.url) && !second.retry
    modifies api, api.onTokenRefreshed
    ensures firstStep.Refreshing? && firstStep.refreshCall.url == RefreshCall.url && secondStep == Queued
    ensures !api.isRefreshing && api.failedQueue == [] && api.currentAccessToken == Some(data.accessToken)
    ensures api.onTokenRefreshed == old(api.onTokenRefreshed)
    ensures api.onTokenRefreshed != null ==>
      api.onTokenRefreshed.user == (if data.user.Some? then data.user else old(api.onTokenRefreshed.user))
    ensures firstSent.url == first.url && firstSent.retry
    ensures AuthorizationHeader in firstSent.headers && firstSent.headers[AuthorizationHeader] == "Bearer " + data.accessToken
    ensures secondResumed.Resend? && secondResumed.request.url == second.url && secondResumed.request.retry
    ensures AuthorizationHeader in secondResumed.request.headers
         && secondResumed.request.headers[AuthorizationHeader] == "Bearer " + data.accessToken
    ensures forall status :: Decide(firstSent, status, api.isRefreshing) == PassThrough
    ensures forall status :: Decide(secondResumed.request, status, api.isRefreshing) == PassThrough
  {
    firstStep := api.OnResponseErrorMarked(HttpError(first, Some(401)));
    secondStep := api.OnResponseErrorMarked(HttpError(second, Some(401)));
    assert api.failedQueue == [Enqueued(second)];
    var settled;
    settled, firstSent := api.RefreshSucceeded(firstStep.original, data);
    assert settled == [Resolved(Enqueued(second), Some(data.accessToken))];
    secondResumed := api.Resume(settled[0]);
  }
}
