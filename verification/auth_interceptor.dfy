/** The class-based HTTP interceptor: it rewrites `/api/` requests to the API
    origin with the stored access token, and answers a 401 with one refresh of
    the access token followed by one retry, guarded by a single
    `isRefreshingAuthToken` flag.

    Each asynchronous continuation of `intercept` is a method here: the error
    handler of the forwarded request, the handler of the refresh response, and
    the error handler of the refresh pipeline. Concurrent requests are then
    interleavings of these calls on one object, and the pure `Step` function
    below is the flag's behaviour under any such interleaving. */
module AuthInterceptor {
  import opened Http
  import opened SessionService

  const ApiPrefix := "/api/"
  const StatusUnauthorized := 401

  /** A request forwarded downstream; `guarded` says whether the interceptor's
      error handler is attached to it (it is not for a bypass request). */
  datatype Pending = Pending(sent: Request, guarded: bool)

  /** A refresh under way for one request: the request to retry and the
      refresh token read when its error arrived. */
  datatype Flight = Flight(req: Request, refreshToken: string)

  /** What the caller's observable fails with: the original error, or the string 'UNAUTHORIZED'. */
  datatype Signal = Rethrown(error: HttpError) | Unauthorized

  /** The reaction to a downstream error: fail, or issue a refresh call. */
  datatype ErrorStep = Fail(signal: Signal) | Refresh(call: Request, flight: Flight)

  /** The refresh call issued from the interceptor. It goes through HttpClient
      without the bypass marker, so it passes through the interceptor again. */
  function RefreshCall(apiUrl: string, refreshToken: string): Request {
    Request(Get, apiUrl + "/auth/refresh", BuildAuthHeaders(refreshToken), false)
  }

  /** The request forwarded downstream, given the access token stored when it
      was intercepted. */
  function Prepare(req: Request, apiUrl: string, accessToken: Option<string>): (r: Request)
    ensures req.bypass || !StartsWith(req.url, ApiPrefix) ==> r == req
    ensures !req.bypass && StartsWith(req.url, ApiPrefix) ==>
      r.verb == req.verb && r.bypass == req.bypass &&
      r.url == apiUrl + "/" + req.url[|ApiPrefix|..] &&
      r.headers == (if Truthy(accessToken) then BuildAuthHeaders(accessToken.value) else NoHeaders)
  {
    if req.bypass then req
    else if StartsWith(req.url, ApiPrefix) then
      req.(url := apiUrl + ReplaceFirst(req.url, ApiPrefix, "/"),
           headers := if Truthy(accessToken) then BuildAuthHeaders(accessToken.value) else NoHeaders)
    else req
  }

  /** The flag together with the number of refresh pipelines started and not
      yet finished, that is, not yet at the token store or the 'UNAUTHORIZED'
      answer (the count exists only in the model). */
  datatype ProtoState = ProtoState(refreshing: bool, inFlight: nat)

  /** An event on the flag: an error reaching the interceptor's error handler
      (with whether it is a 401 and whether a refresh token is stored at that
      moment), or the answer to a refresh call. */
  datatype ProtoEvent = DownstreamError(is401: bool, hasRefreshToken: bool) | RefreshResponded | RefreshFailed

  const Initial := ProtoState(false, 0)

  /** The condition under which an error starts a refresh. */
  predicate Triggers(s: ProtoState, e: ProtoEvent) {
    e.DownstreamError? && e.is401 && e.hasRefreshToken && !s.refreshing
  }

  /** One answered refresh call; an answer nobody waits for changes nothing. */
  function Done(n: nat): nat {
    if n == 0 then 0 else n - 1
  }

  /** The flag as the code updates it. */
  function Step(s: ProtoState, e: ProtoEvent): (r: ProtoState)
    ensures Triggers(s, e) <==> r.inFlight == s.inFlight + 1
    ensures Triggers(s, e) ==> r.refreshing
    ensures e.DownstreamError? && !Triggers(s, e) ==> r == s.(refreshing := false)
    ensures e.RefreshResponded? ==> !r.refreshing && r.inFlight == Done(s.inFlight)
    ensures e.RefreshFailed? ==> r.refreshing == s.refreshing && r.inFlight == Done(s.inFlight)
  {
    match e
    case DownstreamError(_, _) =>
      if Triggers(s, e) then ProtoState(true, s.inFlight + 1) else s.(refreshing := false)
    case RefreshResponded => ProtoState(false, Done(s.inFlight))
    case RefreshFailed => s.(inFlight := Done(s.inFlight))
  }

  /** The flag after a sequence of events under a given step function. */
  function Run(step: (ProtoState, ProtoEvent) -> ProtoState, s: ProtoState, es: seq<ProtoEvent>): ProtoState
    decreases |es|
  {
    if es == [] then s else Run(step, step(s, es[0]), es[1..])
  }

  class AuthHttpInterceptor {
    const auth: AuthService
    const apiUrl: string
    var isRefreshing: bool
    ghost var inFlight: nat

    ghost function Proto(): ProtoState
      reads this
    {
      ProtoState(isRefreshing, inFlight)
    }

    constructor (auth: AuthService, apiUrl: string)
      ensures this.auth == auth && this.apiUrl == apiUrl
      ensures Proto() == Initial
    {
      this.auth := auth;
      this.apiUrl := apiUrl;
      isRefreshing := false;
      inFlight := 0;
    }

    /** The synchronous part of `intercept`: the request handed to the next handler. */
    method Intercept(req: Request) returns (p: Pending)
      ensures p.sent == Prepare(req, apiUrl, Lookup(auth.storage, AccessTokenKey))
      ensures p.guarded == !req.bypass
    {
      if req.bypass {
        return Pending(req, false);
      }
      var r := req;
      if StartsWith(r.url, ApiPrefix) {
        var accessToken := auth.RetrieveAccessToken();
        var headers := NoHeaders;
        if Truthy(accessToken) {
          headers := BuildAuthHeaders(accessToken.value);
        }
        r := r.(url := apiUrl + ReplaceFirst(r.url, ApiPrefix, "/"), headers := headers);
      }
      p := Pending(r, true);
    }

    /** The error handler of the forwarded request. A bypass request has none:
        its error reaches the caller untouched. */
    method OnDownstreamError(p: Pending, err: HttpError) returns (step: ErrorStep)
      modifies this
      ensures !p.guarded ==> step == Fail(Rethrown(err)) && Proto() == old(Proto())
      ensures p.guarded ==>
        Proto() == Step(old(Proto()), DownstreamError(err.status == StatusUnauthorized,
                                                      Truthy(Lookup(auth.storage, RefreshTokenKey))))
      ensures step.Refresh? <==>
        p.guarded && err.status == StatusUnauthorized &&
        Truthy(Lookup(auth.storage, RefreshTokenKey)) && !old(isRefreshing)
      ensures step.Refresh? ==>
        var token := Lookup(auth.storage, RefreshTokenKey).value;
        isRefreshing && step == Refresh(RefreshCall(apiUrl, token), Flight(p.sent, token))
      ensures step.Fail? ==> step.signal == Rethrown(err)
    {
      if !p.guarded {
        return Fail(Rethrown(err));
      }
      var refreshToken := auth.RetrieveRefreshToken();
      if err.status == StatusUnauthorized && Truthy(refreshToken) && !isRefreshing {
        isRefreshing := true;
        inFlight := inFlight + 1;
        return Refresh(RefreshCall(apiUrl, refreshToken.value), Flight(p.sent, refreshToken.value));
      }
      isRefreshing := false;
      step := Fail(Rethrown(err));
    }

    /** The refresh response: store the new access token with the refresh token
        read at error time, clear the flag, and hand back the request to retry. */
    method OnRefreshResponse(f: Flight, body: RefreshBody) returns (retry: Request)
      modifies this, auth`storage
      ensures Proto() == Step(old(Proto()), RefreshResponded)
      ensures Truthy(body.accessToken) ==>
        auth.storage == StoreTokens(old(auth.storage), body.accessToken.value, f.refreshToken) &&
        retry == f.req.(headers := BuildAuthHeaders(body.accessToken.value))
      ensures !Truthy(body.accessToken) ==> auth.storage == old(auth.storage) && retry == f.req
    {
      retry := f.req;
      if Truthy(body.accessToken) {
        auth.StoreAccessTokens(SignInRes(body.accessToken.value, f.refreshToken));
        retry := retry.(headers := BuildAuthHeaders(body.accessToken.value));
      }
      isRefreshing := false;
      inFlight := Done(inFlight);
    }

    /** The refresh call failed: the caller gets 'UNAUTHORIZED' and the flag is left as it is. */
    method OnRefreshError(f: Flight) returns (signal: Signal)
      modifies this
      ensures signal == Unauthorized
      ensures Proto() == Step(old(Proto()), RefreshFailed)
    {
      inFlight := Done(inFlight);
      signal := Unauthorized;
    }

    /** The retried request failed: it is not intercepted again, and the caller
        gets 'UNAUTHORIZED' whatever the error was. */
    method OnRetryError(retry: Request, err: HttpError) returns (signal: Signal)
      ensures signal == Unauthorized
    {
      signal := Unauthorized;
    }
  }

  /** Two requests that both meet a 401 while no refresh is under way start one
      refresh between them with their two errors. */
  lemma TwoConcurrent401s(s: ProtoState)
    requires !s.refreshing
    ensures Run(Step, s, [DownstreamError(true, true), DownstreamError(true, true)]).inFlight == s.inFlight + 1
  {
    var e := DownstreamError(true, true);
    assert [e, e][1..] == [e];
  }

  /** As written, a 401 rejected because a refresh is under way clears the
      flag, so a third 401 starts a second refresh while the first is still
      unanswered. */
  lemma SingleFlightBroken()
    ensures Run(Step, Initial, [DownstreamError(true, true), DownstreamError(true, true),
                                DownstreamError(true, true)]).inFlight == 2
  {
    var e := DownstreamError(true, true);
    assert [e, e, e][1..] == [e, e];
    assert [e, e][1..] == [e];
  }

  /** The same interleaving on the class: requests a, b, c all meet a 401 while
      a refresh token is stored; a and c both start a refresh. */
  method ThreeConcurrent401s(auth: AuthService, apiUrl: string, a: Request, b: Request, c: Request)
    returns (first: ErrorStep, second: ErrorStep, third: ErrorStep)
    requires Truthy(Lookup(auth.storage, RefreshTokenKey))
    requires !a.bypass && !b.bypass && !c.bypass
    ensures first.Refresh? && second == Fail(Rethrown(HttpError(401, ""))) && third.Refresh?
  {
    var interceptor := new AuthHttpInterceptor(auth, apiUrl);
    var unauthorized := HttpError(StatusUnauthorized, "");
    var pa := interceptor.Intercept(a);
    var pb := interceptor.Intercept(b);
    var pc := interceptor.Intercept(c);
    first := interceptor.OnDownstreamError(pa, unauthorized);
    second := interceptor.OnDownstreamError(pb, unauthorized);
    third := interceptor.OnDownstreamError(pc, unauthorized);
    assert interceptor.inFlight == 2;
  }

  /** As written, a refresh failure whose error does not pass through the
      interceptor's error handler leaves the flag set, and the next 401 is
      rejected. This is the path of a refresh answered with a null body (reading
      its access token throws) and of a store write that throws. */
  lemma FailedRefreshKeepsFlag()
    ensures Run(Step, Initial, [DownstreamError(true, true), RefreshFailed]) == ProtoState(true, 0)
    ensures Run(Step, Initial, [DownstreamError(true, true), RefreshFailed, DownstreamError(true, true)])
            == ProtoState(false, 0)
  {
    var e := DownstreamError(true, true);
    assert [e, RefreshFailed][1..] == [RefreshFailed];
    assert [e, RefreshFailed, e][1..] == [RefreshFailed, e];
    assert [RefreshFailed, e][1..] == [e];
  }

  /** As written, an HTTP failure of the refresh call first re-enters the
      interceptor as one more downstream error while the flag is set, which
      clears the flag, and only then fails the refresh. The next 401 with a
      refresh token starts a refresh again. */
  lemma RefreshHttpFailureClearsFlag(s: ProtoState, is401: bool, hasRefreshToken: bool)
    requires !s.refreshing
    ensures var t := Run(Step, s, [DownstreamError(true, true), DownstreamError(is401, hasRefreshToken),
                                   RefreshFailed]);
      t == ProtoState(false, s.inFlight) && Triggers(t, DownstreamError(true, true))
  {
    var es := [DownstreamError(true, true), DownstreamError(is401, hasRefreshToken), RefreshFailed];
    assert es[1..][1..] == [RefreshFailed];
    assert Run(Step, s, es) == Run(Step, ProtoState(true, s.inFlight + 1), es[1..]);
    assert Run(Step, ProtoState(true, s.inFlight + 1), es[1..])
        == Run(Step, ProtoState(false, s.inFlight + 1), [RefreshFailed]);
  }

  /** The flag as it evidently should behave: an error that does not start a
      refresh leaves the flag alone, and a failed refresh clears it. */
  function StepSingleFlight(s: ProtoState, e: ProtoEvent): (r: ProtoState)
    ensures Triggers(s, e) <==> r.inFlight == s.inFlight + 1
    ensures e.DownstreamError? && !Triggers(s, e) ==> r == s
    ensures !e.DownstreamError? ==> !r.refreshing && r.inFlight == Done(s.inFlight)
  {
    match e
    case DownstreamError(_, _) => if Triggers(s, e) then ProtoState(true, s.inFlight + 1) else s
    case _ => ProtoState(false, Done(s.inFlight))
  }

  /** At most one refresh call unanswered, and the flag set exactly while one is. */
  ghost predicate SingleFlight(s: ProtoState) {
    s.inFlight <= 1 && (s.refreshing <==> s.inFlight == 1)
  }

  /** With the corrected step, single flight holds after every interleaving. */
  lemma {:induction false} SingleFlightHolds(s: ProtoState, es: seq<ProtoEvent>)
    requires SingleFlight(s)
    ensures SingleFlight(Run(StepSingleFlight, s, es))
    decreases |es|
  {
    if es != [] {
      SingleFlightHolds(StepSingleFlight(s, es[0]), es[1..]);
    }
  }

  /** With the corrected step, a 401 after a failed refresh may start a refresh of its own. */
  lemma {:induction false} SingleFlightRecovers(s: ProtoState, es: seq<ProtoEvent>)
    ensures Triggers(Run(StepSingleFlight, s, es + [RefreshFailed]), DownstreamError(true, true))
  {
    RunAppend(StepSingleFlight, s, es, [RefreshFailed]);
  }

  lemma {:induction false} RunAppend(step: (ProtoState, ProtoEvent) -> ProtoState, s: ProtoState,
                                     es: seq<ProtoEvent>, more: seq<ProtoEvent>)
    ensures Run(step, s, es + more) == Run(step, Run(step, s, es), more)
    decreases |es|
  {
    if es == [] {
      assert es + more == more;
    } else {
      assert (es + more)[0] == es[0] && (es + more)[1..] == es[1..] + more;
      RunAppend(step, step(s, es[0]), es[1..], more);
    }
  }
}
