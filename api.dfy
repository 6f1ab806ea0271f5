/**
  The authenticated request pipeline of the client (client/src/lib/api.js): attaching
  the stored access token, the one-shot refresh on a 401 reply, the re-issue of the
  original request, the classification of the final error, and the login and logout
  calls. The server is an oracle: a total function from the request sent (headers
  included) to the reply it gets, so the same request always gets the same reply.
  `sent` records every request put on the wire, in order.
*/
module Api {
  import opened Wrappers
  import opened TokenStore

  const MaxRetryAttempts: nat := 1
  const RefreshUrl: string := "/auth/refresh-token"
  const AdminLoginUrl: string := "/auth/admin/login"
  const ResearcherLoginUrl: string := "/auth/researcher/login"
  const LogoutUrl: string := "/auth/logout"
  const AuthorizationHeader: string := "Authorization"
  const NetworkErrorText: string := "Network Error"
  const OfflineMessage: string := "Unable to connect to server. Please check your internet connection."
  const UnexpectedMessage: string := "An unexpected error occurred"
  const LoginFailedMessage: string := "Login failed"
  const LogoutFailedMessage: string := "Logout failed"

  /** The body of a request. */
  datatype Payload = NoBody | Credentials(email: string, password: string) | Json(text: string)

  /** An axios request configuration: the parts that reach the server. */
  datatype Request = Request(url: string, headers: map<string, string>, payload: Payload)

  /** The `user` object of a login reply. */
  datatype Profile = Profile(id: string, email: string)

  /** `response.data` of a successful reply; an empty `accessToken` stands for an absent (falsy) one. */
  datatype ResponseData = ResponseData(accessToken: string, user: Option<Profile>, content: string)

  /** `error.response` of a failed reply: its status and `data.message` ("" when absent). */
  datatype ErrorResponse = ErrorResponse(status: int, message: string)

  /** A thrown axios error: the server's response if one arrived, and `error.message`. */
  datatype HttpError = HttpError(response: Option<ErrorResponse>, message: string)

  datatype Reply = Ok(data: ResponseData) | Err(error: HttpError)

  /** The `ApiError` the client throws to its callers. */
  datatype ApiError = ApiError(message: string, status: int)

  /** The POST that asks for a new access token (cookie only, no body, no bearer). */
  const RefreshRequest: Request := Request(RefreshUrl, map[], NoBody)

  /** The POST that ends the server-side session (sent without a bearer header). */
  const LogoutRequest: Request := Request(LogoutUrl, map[], NoBody)

  datatype Portal = AdminPortal | ResearcherPortal

  function LoginUrl(portal: Portal): string {
    match portal
    case AdminPortal => AdminLoginUrl
    case ResearcherPortal => ResearcherLoginUrl
  }

  function LoginRequest(portal: Portal, email: string, password: string): Request {
    Request(LoginUrl(portal), map[], Credentials(email, password))
  }

  /** `s.includes(sub)`. */
  function Contains(s: string, sub: string): (r: bool)
    ensures r <==> exists i :: 0 <= i <= |s| && sub <= s[i..]
  {
    if sub <= s then
      assert sub <= s[0..];
      true
    else if s == [] then
      false
    else
      var r := Contains(s[1..], sub);
      assert forall i :: 1 <= i <= |s| ==> s[i..] == s[1..][i - 1..];
      assert r ==> exists i :: 1 <= i <= |s| && sub <= s[i..];
      r
  }

  /** `error.response?.data?.message` is truthy. */
  predicate HasDataMessage(e: HttpError) {
    e.response.Some? && e.response.value.message != ""
  }

  /** `error.response?.status || 500`. */
  function StatusOr500(e: HttpError): (s: int)
    ensures s != 0
  {
    if e.response.Some? && e.response.value.status != 0 then e.response.value.status else 500
  }

  /** `error.response?.data?.message || fallback`. */
  function MessageOr(e: HttpError, fallback: string): string {
    if HasDataMessage(e) then e.response.value.message else fallback
  }

  /** The error was a transport failure: no message from the server and an axios "Network Error". */
  predicate IsNetworkFailure(e: HttpError) {
    !HasDataMessage(e) && e.message != "" && Contains(e.message, NetworkErrorText)
  }

  /** The ApiError that requestWithAuth throws for a final error `e`. */
  function Classify(e: HttpError): (r: ApiError)
    ensures r.status == 0 <==> IsNetworkFailure(e)
    ensures !IsNetworkFailure(e) ==> r.status == StatusOr500(e)
    ensures IsNetworkFailure(e) ==> r.message == OfflineMessage
    ensures HasDataMessage(e) ==> r.message == e.response.value.message
    ensures !HasDataMessage(e) && !IsNetworkFailure(e) ==>
              r.message == (if e.message != "" then e.message else UnexpectedMessage)
  {
    if HasDataMessage(e) then ApiError(e.response.value.message, StatusOr500(e))
    else if e.message == "" then ApiError(UnexpectedMessage, StatusOr500(e))
    else if Contains(e.message, NetworkErrorText) then ApiError(OfflineMessage, 0)
    else ApiError(e.message, StatusOr500(e))
  }

  /** The request as sent: the bearer header is set iff the stored token is truthy. */
  function Authorize(cfg: Request, token: Option<string>): (r: Request)
    ensures r.url == cfg.url && r.payload == cfg.payload
    ensures Truthy(token) ==> r.headers == cfg.headers[AuthorizationHeader := "Bearer " + token.value]
    ensures !Truthy(token) ==> r.headers == cfg.headers
  {
    if Truthy(token) then cfg.(headers := cfg.headers[AuthorizationHeader := "Bearer " + token.value])
    else cfg
  }

  /** A 401 on a call that is not itself the refresh call, with retry budget left. */
  predicate ShouldRefresh(e: HttpError, retryCount: nat, url: string) {
    e.response.Some? && e.response.value.status == 401 && retryCount < MaxRetryAttempts && url != RefreshUrl
  }

  /** refreshAccessToken: whether it returns true, and the token store afterwards. */
  datatype RefreshRun = RefreshRun(refreshed: bool, records: map<string, TokenRecord>)

  function Refresh(records: map<string, TokenRecord>, server: Request -> Reply, now: int): (r: RefreshRun)
    ensures r.refreshed <==> server(RefreshRequest).Ok? && server(RefreshRequest).data.accessToken != ""
    ensures r.refreshed ==> r.records == Put(records, server(RefreshRequest).data.accessToken, now)
    ensures !r.refreshed ==> r.records == records
  {
    match server(RefreshRequest)
    case Ok(data) =>
      if data.accessToken != "" then RefreshRun(true, Put(records, data.accessToken, now))
      else RefreshRun(false, records)
    case Err(_) => RefreshRun(false, records)
  }

  /** What one call of requestWithAuth does: its result, the token store after it, the requests sent. */
  datatype Run = Run(result: Result<ResponseData, ApiError>, records: map<string, TokenRecord>, sent: seq<Request>)

  /**
    requestWithAuth(cfg, retryCount). The retry re-uses the configuration whose headers the
    first attempt already rewrote. Its promise is returned without `await` from inside the
    `try`, so a failing retry is not caught there: its own classified error propagates and
    the token is not removed. A refresh that yields no token throws "Session expired", which
    the same `try` catches: the token is removed and the ORIGINAL error is classified.
  */
  function Pipeline(cfg: Request, records: map<string, TokenRecord>, server: Request -> Reply, now: int,
                    retryCount: nat): Run
    requires retryCount <= MaxRetryAttempts
    decreases MaxRetryAttempts - retryCount
  {
    var req := Authorize(cfg, Lookup(records));
    match server(req)
    case Ok(data) => Run(Success(data), records, [req])
    case Err(e) =>
      if ShouldRefresh(e, retryCount, req.url) then
        var refresh := Refresh(records, server, now);
        if refresh.refreshed then
          var retry := Pipeline(req, refresh.records, server, now, retryCount + 1);
          retry.(sent := [req, RefreshRequest] + retry.sent)
        else
          Run(Failure(Classify(e)), Delete(refresh.records), [req, RefreshRequest])
      else
        Run(Failure(Classify(e)), records, [req])
  }

  /** A run preceded by the requests `prefix` already sent. */
  function Prefixed(prefix: seq<Request>, run: Run): Run {
    run.(sent := prefix + run.sent)
  }

  /** The client side of the HTTP API: the token store it reads and writes, and the server it talks to. */
  class Client {
    const store: Store
    const server: Request -> Reply
    var sent: seq<Request>

    constructor (store: Store, server: Request -> Reply)
      ensures this.store == store && this.server == server && sent == []
    {
      this.store := store;
      this.server := server;
      sent := [];
    }

    /** refreshAccessToken: never throws; true iff a new access token arrived, which is then saved. */
    method RefreshAccessToken(now: int) returns (refreshed: bool)
      modifies this, store
      ensures RefreshRun(refreshed, store.records) == Refresh(old(store.records), server, now)
      ensures sent == old(sent) + [RefreshRequest]
    {
      var reply := server(RefreshRequest);
      sent := sent + [RefreshRequest];
      refreshed := false;
      if reply.Ok? && reply.data.accessToken != "" {
        store.SaveToken(reply.data.accessToken, now);
        refreshed := true;
      }
    }

    /** requestWithAuth(config) with its default retryCount of 0; the recursion becomes a bounded loop. */
    method RequestWithAuth(config: Request, now: int) returns (r: Result<ResponseData, ApiError>)
      modifies this, store
      ensures var run := Pipeline(config, old(store.records), server, now, 0);
              r == run.result && store.records == run.records && sent == old(sent) + run.sent
    {
      ghost var target := Pipeline(config, store.records, server, now, 0);
      var cfg := config;
      var retryCount: nat := 0;
      ghost var prefix: seq<Request> := [];
      while true
        invariant retryCount <= MaxRetryAttempts
        invariant sent == old(sent) + prefix
        invariant target == Prefixed(prefix, Pipeline(cfg, store.records, server, now, retryCount))
        decreases MaxRetryAttempts - retryCount
      {
        ghost var before := store.records;
        ghost var rest := Pipeline(cfg, before, server, now, retryCount);
        ghost var unsent := cfg;
        var accessToken := store.GetToken();
        if Truthy(accessToken) {
          cfg := cfg.(headers := cfg.headers[AuthorizationHeader := "Bearer " + accessToken.value]);
        }
        assert accessToken == Lookup(before);
        assert cfg == Authorize(unsent, accessToken);
        var reply := server(cfg);
        sent := sent + [cfg];
        prefix := prefix + [cfg];
        if reply.Ok? {
          return Success(reply.data);
        }
        var error := reply.error;
        if error.response.Some? && error.response.value.status == 401
           && retryCount < MaxRetryAttempts && cfg.url != RefreshUrl
        {
          var refreshed := RefreshAccessToken(now);
          prefix := prefix + [RefreshRequest];
          if refreshed {
            retryCount := retryCount + 1;
            continue;
          }
          store.RemoveToken();
        }
        var errorMessage := UnexpectedMessage;
        var errorStatus := StatusOr500(error);
        if HasDataMessage(error) {
          errorMessage := error.response.value.message;
        } else if error.message != "" {
          errorMessage := error.message;
          if Contains(error.message, NetworkErrorText) {
            errorStatus := 0;
            errorMessage := OfflineMessage;
          }
        }
        assert ApiError(errorMessage, errorStatus) == Classify(error);
        return Failure(ApiError(errorMessage, errorStatus));
      }
    }

    /** authApi.adminLogin / researcherLogin: the token is saved only when the reply carries one. */
    method Login(portal: Portal, email: string, password: string, now: int)
      returns (r: Result<ResponseData, ApiError>)
      modifies this, store
      ensures var reply := server(LoginRequest(portal, email, password));
              && sent == old(sent) + [LoginRequest(portal, email, password)]
              && (r.Success? <==> reply.Ok?)
              && (reply.Ok? ==> r.value == reply.data)
              && (reply.Err? ==> r.error == ApiError(MessageOr(reply.error, LoginFailedMessage), StatusOr500(reply.error)))
              && store.records == if reply.Ok? && reply.data.accessToken != ""
                                  then Put(old(store.records), reply.data.accessToken, now)
                                  else old(store.records)
    {
      var request := LoginRequest(portal, email, password);
      var reply := server(request);
      sent := sent + [request];
      match reply
      case Ok(data) =>
        if data.accessToken != "" {
          store.SaveToken(data.accessToken, now);
        }
        r := Success(data);
      case Err(error) =>
        r := Failure(ApiError(MessageOr(error, LoginFailedMessage), StatusOr500(error)));
    }

    /** authApi.logout: the token is removed only after the logout POST succeeds. */
    method Logout() returns (r: Result<(), ApiError>)
      modifies this, store
      ensures var reply := server(LogoutRequest);
              && sent == old(sent) + [LogoutRequest]
              && (r.Success? <==> reply.Ok?)
              && (reply.Err? ==> r.error == ApiError(MessageOr(reply.error, LogoutFailedMessage), StatusOr500(reply.error)))
              && store.records == if reply.Ok? then Delete(old(store.records)) else old(store.records)
    {
      var reply := server(LogoutRequest);
      sent := sent + [LogoutRequest];
      if reply.Ok? {
        store.RemoveToken();
        r := Success(());
      } else {
        r := Failure(ApiError(MessageOr(reply.error, LogoutFailedMessage), StatusOr500(reply.error)));
      }
    }
  }

  /** Number of refresh POSTs among the requests sent. */
  function RefreshCount(sent: seq<Request>): (n: nat)
    ensures n <= |sent|
    ensures n == 0 <==> RefreshRequest !in sent
  {
    if sent == [] then 0
    else (if sent[0] == RefreshRequest then 1 else 0) + RefreshCount(sent[1..])
  }

  /** A call that succeeds the first time returns `response.data`, sends one request and never refreshes. */
  lemma FirstSuccessNoRefresh(cfg: Request, records: map<string, TokenRecord>, server: Request -> Reply, now: int)
    requires server(Authorize(cfg, Lookup(records))).Ok?
    ensures var run := Pipeline(cfg, records, server, now, 0);
            && run.result == Success(server(Authorize(cfg, Lookup(records))).data)
            && run.sent == [Authorize(cfg, Lookup(records))]
            && run.records == records
  {
  }

  /**
    Bounded retry: at most three requests go out (the call, one refresh, one re-issue); a
    refresh happens only after a 401 on a call that is not the refresh endpoint, and the
    re-issue is the same request with only the bearer header replaced by the new token.
  */
  lemma {:induction false} AtMostOneRefresh(cfg: Request, records: map<string, TokenRecord>,
                                            server: Request -> Reply, now: int)
    ensures var run := Pipeline(cfg, records, server, now, 0);
            var first := Authorize(cfg, Lookup(records));
            && 1 <= |run.sent| <= 3
            && run.sent[0] == first
            && (|run.sent| >= 2 <==> server(first).Err? && ShouldRefresh(server(first).error, 0, cfg.url))
            && (|run.sent| >= 2 ==> run.sent[1] == RefreshRequest)
            && (|run.sent| == 3 <==> |run.sent| >= 2 && Refresh(records, server, now).refreshed)
            && (|run.sent| == 3 ==>
                  run.sent[2] == Authorize(first, Some(server(RefreshRequest).data.accessToken)))
            && RefreshCount(run.sent) <= 1
  {
    var run := Pipeline(cfg, records, server, now, 0);
    var first := Authorize(cfg, Lookup(records));
    if server(first).Err? && ShouldRefresh(server(first).error, 0, cfg.url) {
      var refresh := Refresh(records, server, now);
      if refresh.refreshed {
        var retry := Pipeline(first, refresh.records, server, now, 1);
        var second := Authorize(first, Lookup(refresh.records));
        assert Lookup(refresh.records) == Some(server(RefreshRequest).data.accessToken);
        assert retry.sent == [second];
        assert run.sent == [first, RefreshRequest, second];
        assert second.url == cfg.url != RefreshUrl;
        assert RefreshCount(run.sent) == 1 + RefreshCount([second]);
      } else {
        assert run.sent == [first, RefreshRequest];
        assert first.url == cfg.url != RefreshUrl;
        assert RefreshCount(run.sent) == RefreshCount([RefreshRequest]);
      }
    } else {
      assert run.sent == [first];
      assert RefreshCount(run.sent) <= |run.sent| == 1;
    }
  }

  /**
    A refresh that brings no token ends the session: the stored token is removed and the
    error thrown is the ORIGINAL 401 error's classification (so its status is 401 unless the
    reply had no message and a "Network Error" text).
  */
  lemma RefreshFailureClearsToken(cfg: Request, records: map<string, TokenRecord>, server: Request -> Reply,
                                  now: int, e: HttpError)
    requires server(Authorize(cfg, Lookup(records))) == Err(e)
    requires ShouldRefresh(e, 0, cfg.url)
    requires !Refresh(records, server, now).refreshed
    ensures var run := Pipeline(cfg, records, server, now, 0);
            && run.result == Failure(Classify(e))
            && Lookup(run.records) == None
            && (!IsNetworkFailure(e) ==> run.result.error.status == 401)
  {
  }

  /**
    After a successful refresh the retried call's own outcome is the result: a failing retry
    propagates its own classified error and leaves the refreshed token in the store.
  */
  lemma RetryOutcomePropagates(cfg: Request, records: map<string, TokenRecord>, server: Request -> Reply,
                               now: int, e: HttpError)
    requires server(Authorize(cfg, Lookup(records))) == Err(e)
    requires ShouldRefresh(e, 0, cfg.url)
    requires Refresh(records, server, now).refreshed
    ensures var token := server(RefreshRequest).data.accessToken;
            var retried := Authorize(Authorize(cfg, Lookup(records)), Some(token));
            var run := Pipeline(cfg, records, server, now, 0);
            && (server(retried).Ok? ==> run.result == Success(server(retried).data))
            && (server(retried).Err? ==> run.result == Failure(Classify(server(retried).error)))
            && Lookup(run.records) == Some(token)
  {
    var token := server(RefreshRequest).data.accessToken;
    var refresh := Refresh(records, server, now);
    assert Lookup(refresh.records) == Some(token);
  }

  /** A call to the refresh endpoint itself is never followed by a refresh. */
  lemma RefreshEndpointExempt(cfg: Request, records: map<string, TokenRecord>, server: Request -> Reply, now: int)
    requires cfg.url == RefreshUrl
    ensures |Pipeline(cfg, records, server, now, 0).sent| == 1
  {
  }
}
