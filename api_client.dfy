/** The HTTP client: the token store, the refresh exchange, authenticated
    requests with one retry after a refresh, public requests, login and
    logout.

    The transport is a script: each HTTP call takes the next outcome from
    `transport`, a response or the `NetworkError` the timeout and failure
    classification of the real transport produced. A ghost log `calls`
    records every call issued, with its endpoint, its `Authorization`
    header and the token or credentials it carried.

    The behaviour is given twice: the pure functions below say what each
    operation does to a `ClientState` snapshot, and the methods of class
    `Client` do it step by step on fields and are proved to agree with
    them. The lemmas state the promised properties about the functions. */
module ApiClient {
  import opened Wrappers
  import opened ApiTypes

  const RefreshEndpoint: string := "/api/v1/auth/refresh"
  const LoginEndpoint: string := "/api/v1/auth/login"
  const LogoutEndpoint: string := "/api/v1/auth/logout"
  const NoAccessTokenMessage: string := "No access token available"
  const SessionExpiredMessage: string := "Session expired"
  /** The transport's message when it has nothing better; used when the script is exhausted. */
  const GenericNetworkMessage: string := "Сетевая ошибка"
  /** What the model reports when storage is handed a token the body did not contain. */
  const MissingTokenMessage: string := "token missing from the auth response"

  /** A parsed JSON body, by the shape the client cares about; `NullDoc` is
      the JSON text `null`. */
  datatype Doc = AuthDoc(auth: AuthResponse) | ErrorDoc(details: ErrorPayload) | DataDoc(data: string) | NullDoc

  /** A response body: valid JSON, or text whose parse throws a `SyntaxError`. */
  datatype Body = Json(doc: Doc) | Unparseable(syntaxError: string)

  datatype Response = Response(status: int, statusText: string, body: Body)

  /** One transport call: a response, or a `NetworkError` with its message. */
  datatype Outcome = Delivered(response: Response) | NetworkFailure(message: string)

  datatype Payload = NoPayload | TokenPayload(refreshToken: string) | CredentialsPayload(login: string, password: string)

  datatype HttpCall = HttpCall(endpoint: string, authorization: Option<string>, payload: Payload)

  datatype ClientState = ClientState(
    accessToken: Option<string>,
    refreshToken: Option<string>,
    transport: seq<Outcome>,
    calls: seq<HttpCall>)

  /** `response.ok`. */
  predicate IsOk(status: int) {
    200 <= status <= 299
  }

  /** JavaScript truthiness of a stored token: null and "" are both absent. */
  predicate Present(token: Option<string>) {
    token.Some? && token.value != ""
  }

  /** The `Authorization` header value of RFC 6750 section 2.1. */
  function Bearer(token: string): string {
    "Bearer " + token
  }

  function AuthorizedCall(endpoint: string, token: string): HttpCall {
    HttpCall(endpoint, Some(Bearer(token)), NoPayload)
  }

  function RefreshCall(refreshToken: string): HttpCall {
    HttpCall(RefreshEndpoint, None, TokenPayload(refreshToken))
  }

  function Cleared(s: ClientState): ClientState {
    s.(accessToken := None, refreshToken := None)
  }

  function Stored(s: ClientState, access: string, refresh: string): ClientState {
    s.(accessToken := Some(access), refreshToken := Some(refresh))
  }

  /** The `TypeError` of reading a property of `null`, in the wording of
      React Native's Hermes engine. */
  function NullPropertyError(property: string): Thrown {
    OtherError("Cannot read property '" + property + "' of null")
  }

  /** `makeHttpRequest`: log the call and take the next scripted outcome. */
  function Send(s: ClientState, call: HttpCall): (r: (Outcome, ClientState))
    ensures r.1.calls == s.calls + [call]
    ensures r.1.accessToken == s.accessToken && r.1.refreshToken == s.refreshToken
    ensures |s.transport| > 0 ==> r.0 == s.transport[0] && r.1.transport == s.transport[1..]
    ensures |s.transport| == 0 ==> r.0.NetworkFailure? && r.1.transport == []
  {
    if |s.transport| > 0 then (s.transport[0], s.(transport := s.transport[1..], calls := s.calls + [call]))
    else (NetworkFailure(GenericNetworkMessage), s.(calls := s.calls + [call]))
  }

  /** `doTokenRefresh`: exchange the stored refresh token for a new pair. */
  function RefreshSpec(s: ClientState): (r: (Option<string>, ClientState))
    ensures s.calls <= r.1.calls && |r.1.calls| <= |s.calls| + 1
    ensures r.0.Some? ==> r.1.accessToken == r.0
    ensures r.0.None? ==> r.1 == s || (r.1.accessToken.None? && r.1.refreshToken.None?)
  {
    if !Present(s.refreshToken) then (None, s)
    else
      var (o, s1) := Send(s, RefreshCall(s.refreshToken.value));
      if o.Delivered? && IsOk(o.response.status) && o.response.body.Json? && o.response.body.doc.AuthDoc? then
        var a := o.response.body.doc.auth;
        (Some(a.accessToken), Stored(s1, a.accessToken, a.refreshToken))
      else
        (None, Cleared(s1))
  }

  function NoTokenError(endpoint: string): Thrown {
    NewRequestError(401, ErrorPayload(Some(401), Text(NoAccessTokenMessage), Some(endpoint)), None)
  }

  function SessionExpiredError(endpoint: string): Thrown {
    NewRequestError(401, ErrorPayload(Some(401), Text(SessionExpiredMessage), Some(endpoint)), None)
  }

  /** `makeAuthenticatedRequest`: send with the stored access token; on a
      401 refresh once and, given a new token, retry once. */
  function AuthenticatedSpec(s: ClientState, endpoint: string): (r: (Result<Response, Thrown>, ClientState))
    ensures s.calls <= r.1.calls && |r.1.calls| <= |s.calls| + 3
    ensures r.0.Failure? ==> r.0.error.NetworkError? || (r.0.error.RequestError? && r.0.error.status == 401)
    ensures r.0.Success? ==> r.0.value.status != 401 || |r.1.calls| == |s.calls| + 3
  {
    if !Present(s.accessToken) then (Failure(NoTokenError(endpoint)), s)
    else
      var (o, s1) := Send(s, AuthorizedCall(endpoint, s.accessToken.value));
      if o.NetworkFailure? then (Failure(NetworkError(o.message)), s1)
      else if o.response.status != 401 then (Success(o.response), s1)
      else
        var (token, s2) := RefreshSpec(s1);
        if !Present(token) then (Failure(SessionExpiredError(endpoint)), s2)
        else
          var (o2, s3) := Send(s2, AuthorizedCall(endpoint, token.value));
          if o2.NetworkFailure? then (Failure(NetworkError(o2.message)), s3)
          else (Success(o2.response), s3)
  }

  /** The error payload of a non-2xx response: the parsed body, or the one
      the client synthesises from the status line when the body is not JSON.
      A JSON body of another shape has no fields the client reads, and a
      `null` body has none to read: `None`. */
  function ErrorDetailsOf(r: Response, endpoint: string): (d: Option<ErrorPayload>)
    ensures d.None? <==> r.body == Json(NullDoc)
    ensures r.body.Unparseable? ==> d == Some(ErrorPayload(Some(r.status), Text(r.statusText), Some(endpoint)))
    ensures r.body.Json? && r.body.doc.ErrorDoc? ==> d == Some(r.body.doc.details)
    ensures r.body.Json? && (r.body.doc.AuthDoc? || r.body.doc.DataDoc?) ==> d == Some(ErrorPayload(None, Missing, None))
  {
    match r.body
    case Unparseable(_) => Some(ErrorPayload(Some(r.status), Text(r.statusText), Some(endpoint)))
    case Json(ErrorDoc(d)) => Some(d)
    case Json(NullDoc) => None
    case Json(_) => Some(ErrorPayload(None, Missing, None))
  }

  /** The common tail of `request` and `requestPublic`. A non-2xx answer
      whose body is `null` makes `ApiRequestError`'s constructor read
      `message` of `null`, so that `TypeError` is thrown instead. */
  function ReadBody(r: Response, endpoint: string): (result: Result<Doc, Thrown>)
    ensures result.Success? <==> IsOk(r.status) && r.body.Json?
    ensures !IsOk(r.status) && r.body != Json(NullDoc) ==>
      result.Failure? && result.error.RequestError? && result.error.status == r.status
    ensures !IsOk(r.status) && r.body == Json(NullDoc) ==> result == Failure(NullPropertyError("message"))
    ensures IsOk(r.status) && r.body.Json? ==> result.value == r.body.doc
  {
    if !IsOk(r.status) then
      match ErrorDetailsOf(r, endpoint)
      case None => Failure(NullPropertyError("message"))
      case Some(d) => Failure(NewRequestError(r.status, d, None))
    else
      match r.body
      case Json(d) => Success(d)
      case Unparseable(m) => Failure(OtherError(m))
  }

  /** `request`: the authenticated request, then the body read. */
  function RequestSpec(s: ClientState, endpoint: string): (r: (Result<Doc, Thrown>, ClientState))
    ensures r.1 == AuthenticatedSpec(s, endpoint).1
    ensures AuthenticatedSpec(s, endpoint).0.Failure? ==> r.0 == Failure(AuthenticatedSpec(s, endpoint).0.error)
    ensures AuthenticatedSpec(s, endpoint).0.Success? ==> r.0 == ReadBody(AuthenticatedSpec(s, endpoint).0.value, endpoint)
  {
    var (r, s1) := AuthenticatedSpec(s, endpoint);
    match r
    case Failure(e) => (Failure(e), s1)
    case Success(resp) => (ReadBody(resp, endpoint), s1)
  }

  /** `requestPublic`: one call without the access token, then the body read. */
  function PublicSpec(s: ClientState, endpoint: string, payload: Payload): (r: (Result<Doc, Thrown>, ClientState))
    ensures r.1 == Send(s, HttpCall(endpoint, None, payload)).1
    ensures r.0.Failure? && r.0.error.RequestError? ==> !IsOk(r.0.error.status)
  {
    var (o, s1) := Send(s, HttpCall(endpoint, None, payload));
    match o
    case NetworkFailure(m) => (Failure(NetworkError(m)), s1)
    case Delivered(resp) => (ReadBody(resp, endpoint), s1)
  }

  /** `login`: a public call to the login endpoint; the pair it returns is
      stored. A `null` body fails on reading `accessToken`. */
  function LoginSpec(s: ClientState, login: string, password: string): (r: (Result<AuthResponse, Thrown>, ClientState))
    ensures r.1.calls == s.calls + [HttpCall(LoginEndpoint, None, CredentialsPayload(login, password))]
    ensures r.0.Success? ==> r.1.accessToken == Some(r.0.value.accessToken) && r.1.refreshToken == Some(r.0.value.refreshToken)
  {
    var (r, s1) := PublicSpec(s, LoginEndpoint, CredentialsPayload(login, password));
    match r
    case Failure(e) => (Failure(e), s1)
    case Success(AuthDoc(a)) => (Success(a), Stored(s1, a.accessToken, a.refreshToken))
    case Success(NullDoc) => (Failure(NullPropertyError("accessToken")), s1)
    case Success(_) => (Failure(OtherError(MissingTokenMessage)), s1)
  }

  /** `logout`: tell the backend when a refresh token exists, then clear. */
  function LogoutSpec(s: ClientState): (s': ClientState)
    ensures s'.accessToken.None? && s'.refreshToken.None?
    ensures s.calls <= s'.calls && |s'.calls| <= |s.calls| + 1
  {
    if Present(s.refreshToken) then
      var (_, s1) := PublicSpec(s, LogoutEndpoint, TokenPayload(s.refreshToken.value));
      Cleared(s1)
    else
      Cleared(s)
  }

  // ------------------------------------------------------------- the class

  class Client {
    var accessToken: Option<string>
    var refreshToken: Option<string>
    var isRefreshing: bool
    /** `refreshPromise !== null`. */
    var hasPendingRefresh: bool
    var transport: seq<Outcome>
    ghost var calls: seq<HttpCall>

    ghost function State(): ClientState
      reads this
    {
      ClientState(accessToken, refreshToken, transport, calls)
    }

    /** No refresh is in flight: the state between two operations. */
    ghost predicate Idle()
      reads this
    {
      !isRefreshing && !hasPendingRefresh
    }

    /** A client over whatever the storage already holds. */
    constructor(storedAccess: Option<string>, storedRefresh: Option<string>, script: seq<Outcome>)
      ensures Idle()
      ensures State() == ClientState(storedAccess, storedRefresh, script, [])
    {
      accessToken := storedAccess;
      refreshToken := storedRefresh;
      isRefreshing := false;
      hasPendingRefresh := false;
      transport := script;
      calls := [];
    }

    method GetStoredTokens() returns (access: Option<string>, refresh: Option<string>)
      ensures access == accessToken && refresh == refreshToken
    {
      access, refresh := accessToken, refreshToken;
    }

    method StoreTokens(access: string, refresh: string)
      modifies this`accessToken, this`refreshToken
      ensures accessToken == Some(access) && refreshToken == Some(refresh)
    {
      accessToken := Some(access);
      refreshToken := Some(refresh);
    }

    method ClearTokens()
      modifies this`accessToken, this`refreshToken
      ensures accessToken == None && refreshToken == None
    {
      accessToken := None;
      refreshToken := None;
    }

    method MakeHttpRequest(call: HttpCall) returns (o: Outcome)
      modifies this`transport, this`calls
      ensures (o, State()) == Send(old(State()), call)
    {
      calls := calls + [call];
      if |transport| > 0 {
        o := transport[0];
        transport := transport[1..];
      } else {
        o := NetworkFailure(GenericNetworkMessage);
      }
    }

    method DoTokenRefresh() returns (token: Option<string>)
      modifies this`accessToken, this`refreshToken, this`transport, this`calls
      ensures (token, State()) == RefreshSpec(old(State()))
    {
      var _, stored := GetStoredTokens();
      if !Present(stored) {
        return None;
      }
      var o := MakeHttpRequest(RefreshCall(stored.value));
      if o.NetworkFailure? || !IsOk(o.response.status) {
        ClearTokens();
        return None;
      }
      match o.response.body {
        case Json(AuthDoc(a)) =>
          StoreTokens(a.accessToken, a.refreshToken);
          token := Some(a.accessToken);
        case _ =>
          ClearTokens();
          token := None;
      }
    }

    /** `attemptTokenRefresh`: mark a refresh as in flight, run it, and
        reset both marks once it settles. */
    method AttemptTokenRefresh() returns (token: Option<string>, ghost flaggedMeanwhile: bool)
      requires Idle()
      modifies this
      ensures Idle() && flaggedMeanwhile
      ensures (token, State()) == RefreshSpec(old(State()))
    {
      isRefreshing := true;
      hasPendingRefresh := true;
      token := DoTokenRefresh();
      flaggedMeanwhile := isRefreshing && hasPendingRefresh;
      isRefreshing := false;
      hasPendingRefresh := false;
    }

    method MakeAuthenticatedRequest(endpoint: string) returns (r: Result<Response, Thrown>)
      requires Idle()
      modifies this
      ensures Idle()
      ensures (r, State()) == AuthenticatedSpec(old(State()), endpoint)
    {
      var access, _ := GetStoredTokens();
      if !Present(access) {
        return Failure(NoTokenError(endpoint));
      }
      var o := MakeHttpRequest(AuthorizedCall(endpoint, access.value));
      if o.NetworkFailure? {
        return Failure(NetworkError(o.message));
      }
      var response := o.response;
      if response.status == 401 {
        var newToken, _ := AttemptTokenRefresh();
        if !Present(newToken) {
          return Failure(SessionExpiredError(endpoint));
        }
        o := MakeHttpRequest(AuthorizedCall(endpoint, newToken.value));
        if o.NetworkFailure? {
          return Failure(NetworkError(o.message));
        }
        response := o.response;
      }
      return Success(response);
    }

    method Request(endpoint: string) returns (r: Result<Doc, Thrown>)
      requires Idle()
      modifies this
      ensures Idle()
      ensures (r, State()) == RequestSpec(old(State()), endpoint)
    {
      var response := MakeAuthenticatedRequest(endpoint);
      if response.Failure? {
        return Failure(response.error);
      }
      r := ReadBody(response.value, endpoint);
    }

    method RequestPublic(endpoint: string, payload: Payload) returns (r: Result<Doc, Thrown>)
      modifies this`transport, this`calls
      ensures (r, State()) == PublicSpec(old(State()), endpoint, payload)
    {
      var o := MakeHttpRequest(HttpCall(endpoint, None, payload));
      if o.NetworkFailure? {
        return Failure(NetworkError(o.message));
      }
      r := ReadBody(o.response, endpoint);
    }

    method Login(login: string, password: string) returns (r: Result<AuthResponse, Thrown>)
      modifies this`accessToken, this`refreshToken, this`transport, this`calls
      ensures (r, State()) == LoginSpec(old(State()), login, password)
    {
      var response := RequestPublic(LoginEndpoint, CredentialsPayload(login, password));
      match response {
        case Failure(e) => r := Failure(e);
        case Success(AuthDoc(a)) =>
          StoreTokens(a.accessToken, a.refreshToken);
          r := Success(a);
        case Success(NullDoc) => r := Failure(NullPropertyError("accessToken"));
        case Success(_) => r := Failure(OtherError(MissingTokenMessage));
      }
    }

    /** Tell the backend when a refresh token exists, ignore any failure,
        and clear both tokens in every case. */
    method Logout()
      modifies this`accessToken, this`refreshToken, this`transport, this`calls
      ensures State() == LogoutSpec(old(State()))
    {
      var _, refresh := GetStoredTokens();
      if Present(refresh) {
        var _ := RequestPublic(LogoutEndpoint, TokenPayload(refresh.value));
      }
      ClearTokens();
    }

    method IsAuthenticated() returns (b: bool)
      ensures b <==> accessToken.Some? && accessToken.value != ""
    {
      var access, _ := GetStoredTokens();
      b := Present(access);
    }
  }

  // -------------------------------------------------------------- properties

  /** With no access token the request fails with a 401 "No access token
      available" and nothing else happens: no call, no state change. */
  lemma NoAccessTokenNoCall(s: ClientState, endpoint: string)
    requires !Present(s.accessToken)
    ensures var (r, s') := AuthenticatedSpec(s, endpoint);
      && r.Failure? && r.error.RequestError? && r.error.status == 401
      && r.error.message == NoAccessTokenMessage
      && s' == s
  {
  }

  /** A first answer other than 401 is returned as it is, after exactly one
      call carrying `Bearer <access token>`; the tokens stay as they were. */
  lemma FirstAnswerKept(s: ClientState, endpoint: string, resp: Response)
    requires Present(s.accessToken)
    requires |s.transport| > 0 && s.transport[0] == Delivered(resp) && resp.status != 401
    ensures var (r, s') := AuthenticatedSpec(s, endpoint);
      && r == Success(resp)
      && s'.calls == s.calls + [HttpCall(endpoint, Some("Bearer " + s.accessToken.value), NoPayload)]
      && s'.accessToken == s.accessToken && s'.refreshToken == s.refreshToken
  {
  }

  /** A 401, a refresh that yields a new token, and then exactly one retry
      with `Bearer <new token>`, whose response is returned as it is, even a
      second 401: three calls in all, the new pair stored. */
  lemma RetriedOnceAfterRefresh(s: ClientState, endpoint: string, first: Response, renewed: AuthResponse, refreshAnswer: Response, retried: Response)
    requires Present(s.accessToken) && Present(s.refreshToken) && renewed.accessToken != ""
    requires first.status == 401
    requires IsOk(refreshAnswer.status) && refreshAnswer.body == Json(AuthDoc(renewed))
    requires |s.transport| >= 3
    requires s.transport[0] == Delivered(first) && s.transport[1] == Delivered(refreshAnswer) && s.transport[2] == Delivered(retried)
    ensures var (r, s') := AuthenticatedSpec(s, endpoint);
      && r == Success(retried)
      && s'.calls == s.calls + [
           HttpCall(endpoint, Some("Bearer " + s.accessToken.value), NoPayload),
           HttpCall(RefreshEndpoint, None, TokenPayload(s.refreshToken.value)),
           HttpCall(endpoint, Some("Bearer " + renewed.accessToken), NoPayload)]
      && s'.transport == s.transport[3..]
      && s'.accessToken == Some(renewed.accessToken) && s'.refreshToken == Some(renewed.refreshToken)
  {
  }

  /** When the refresh yields no token the request fails with 401 "Session
      expired" and no retry is sent. */
  lemma SessionExpiredWithoutRetry(s: ClientState, endpoint: string)
    requires Present(s.accessToken)
    requires |s.transport| > 0 && s.transport[0].Delivered? && s.transport[0].response.status == 401
    requires !Present(RefreshSpec(Send(s, AuthorizedCall(endpoint, s.accessToken.value)).1).0)
    ensures var (r, s') := AuthenticatedSpec(s, endpoint);
      && r.Failure? && r.error.RequestError? && r.error.status == 401
      && r.error.message == SessionExpiredMessage
      && s' == RefreshSpec(Send(s, AuthorizedCall(endpoint, s.accessToken.value)).1).1
      && forall i :: |s.calls| < i < |s'.calls| ==> s'.calls[i].endpoint == RefreshEndpoint
  {
  }

  /** The same over the script: a 401, then a refresh answer that is not a
      2xx token pair (a failure status, a network failure, another body),
      ends the request with 401 "Session expired" after exactly the first
      call and the refresh call, with both tokens cleared. */
  lemma SessionExpiredOnRejectedRefresh(s: ClientState, endpoint: string)
    requires Present(s.accessToken) && Present(s.refreshToken)
    requires |s.transport| >= 2 && s.transport[0].Delivered? && s.transport[0].response.status == 401
    requires !(s.transport[1].Delivered? && IsOk(s.transport[1].response.status)
               && s.transport[1].response.body.Json? && s.transport[1].response.body.doc.AuthDoc?)
    ensures var (r, s') := AuthenticatedSpec(s, endpoint);
      && r.Failure? && r.error.RequestError? && r.error.status == 401
      && r.error.message == SessionExpiredMessage
      && s'.accessToken.None? && s'.refreshToken.None?
      && s'.calls == s.calls + [
           HttpCall(endpoint, Some("Bearer " + s.accessToken.value), NoPayload),
           HttpCall(RefreshEndpoint, None, TokenPayload(s.refreshToken.value))]
      && s'.transport == s.transport[2..]
  {
    var (_, s1) := Send(s, AuthorizedCall(endpoint, s.accessToken.value));
    assert s1.transport[0] == s.transport[1];
  }

  /** Whatever the script, an authenticated request issues at most three
      calls: the first attempt, possibly one refresh, and at most one
      retry; unless the endpoint is the refresh endpoint itself, only the
      first and the retry go to it. */
  lemma AtMostOneRetry(s: ClientState, endpoint: string)
    ensures var (_, s') := AuthenticatedSpec(s, endpoint);
      && |s.calls| <= |s'.calls| && s'.calls[..|s.calls|] == s.calls
      && |s'.calls| - |s.calls| <= 3
      && (endpoint != RefreshEndpoint ==> CallsTo(s'.calls[|s.calls|..], endpoint) <= 2)
  {
    var (_, s') := AuthenticatedSpec(s, endpoint);
    if endpoint != RefreshEndpoint && Present(s.accessToken) {
      var first := AuthorizedCall(endpoint, s.accessToken.value);
      var (o, s1) := Send(s, first);
      var refresh := RefreshCall(if s1.refreshToken.Some? then s1.refreshToken.value else "");
      if o.Delivered? && o.response.status == 401 && Present(s1.refreshToken) {
        var (token, s2) := RefreshSpec(s1);
        assert s2.calls == s.calls + [first, refresh];
        var retry := AuthorizedCall(endpoint, if token.Some? then token.value else "");
        CallsToAttempts(first, refresh, retry, endpoint);
        if Present(token) {
          assert s'.calls[|s.calls|..] == [first, refresh, retry];
        } else {
          assert s'.calls[|s.calls|..] == [first, refresh];
        }
      } else {
        CallsToAttempts(first, refresh, first, endpoint);
        assert s'.calls[|s.calls|..] == [first];
      }
    }
  }

  /** How many of the calls go to `endpoint`. */
  function CallsTo(cs: seq<HttpCall>, endpoint: string): nat {
    if |cs| == 0 then 0 else (if cs[0].endpoint == endpoint then 1 else 0) + CallsTo(cs[1..], endpoint)
  }

  /** Of a first call, a refresh call and a retry, at most the first and
      the retry go to an endpoint other than the refresh endpoint. */
  lemma CallsToAttempts(first: HttpCall, refresh: HttpCall, retry: HttpCall, endpoint: string)
    requires refresh.endpoint == RefreshEndpoint != endpoint
    ensures CallsTo([first], endpoint) <= 1
    ensures CallsTo([first, refresh], endpoint) <= 1
    ensures CallsTo([first, refresh, retry], endpoint) <= 2
  {
    assert [first][1..] == [];
    assert [retry][1..] == [];
    assert [first, refresh][1..] == [refresh];
    assert [refresh][1..] == [];
    assert [first, refresh, retry][1..] == [refresh, retry];
    assert [refresh, retry][1..] == [retry];
    assert CallsTo([refresh], endpoint) == 0;
    assert CallsTo([refresh, retry], endpoint) == CallsTo([retry], endpoint);
  }

  /** A refresh with no stored refresh token returns null, calls nothing
      and leaves both tokens alone. */
  lemma RefreshWithoutTokenIsInert(s: ClientState)
    requires !Present(s.refreshToken)
    ensures RefreshSpec(s) == (None, s)
  {
  }

  /** Every refresh that reaches the network makes exactly one call; it
      either stores the new pair and returns the new access token, or
      clears both tokens and returns null. */
  lemma RefreshStoresOrClears(s: ClientState)
    requires Present(s.refreshToken)
    ensures var (t, s') := RefreshSpec(s);
      && s'.calls == s.calls + [HttpCall(RefreshEndpoint, None, TokenPayload(s.refreshToken.value))]
      && (t.None? ==> s'.accessToken.None? && s'.refreshToken.None?)
      && (t.Some? ==> s'.accessToken == t && s'.refreshToken.Some?)
  {
  }

  /** The refresh succeeds exactly on a 2xx answer carrying a token pair. */
  lemma RefreshSucceedsOnlyOnAuthAnswer(s: ClientState)
    requires Present(s.refreshToken) && |s.transport| > 0
    ensures RefreshSpec(s).0.Some? <==>
      && s.transport[0].Delivered?
      && IsOk(s.transport[0].response.status)
      && s.transport[0].response.body.Json?
      && s.transport[0].response.body.doc.AuthDoc?
  {
  }

  /** `requestPublic` makes exactly one call, never touches the tokens and
      never refreshes; a non-2xx answer becomes a request error with that
      status, except one whose body is `null`, which throws the constructor's
      `TypeError`. */
  lemma PublicRequestNeverRefreshes(s: ClientState, endpoint: string, payload: Payload)
    ensures var (r, s') := PublicSpec(s, endpoint, payload);
      && s'.calls == s.calls + [HttpCall(endpoint, None, payload)]
      && s'.accessToken == s.accessToken && s'.refreshToken == s.refreshToken
      && (|s.transport| > 0 && s.transport[0].Delivered? && !IsOk(s.transport[0].response.status) ==>
            if s.transport[0].response.body == Json(NullDoc) then r == Failure(NullPropertyError("message"))
            else r.Failure? && r.error.RequestError? && r.error.status == s.transport[0].response.status)
  {
  }

  /** Login stores tokens only after a successful answer with a token pair;
      otherwise the tokens are exactly as before. */
  lemma LoginStoresOnlyOnSuccess(s: ClientState, login: string, password: string)
    ensures var (r, s') := LoginSpec(s, login, password);
      && (r.Success? ==> s'.accessToken == Some(r.value.accessToken) && s'.refreshToken == Some(r.value.refreshToken))
      && (r.Failure? ==> s'.accessToken == s.accessToken && s'.refreshToken == s.refreshToken)
  {
  }

  /** Logout always ends with no tokens, calls the backend only when a
      refresh token exists, and a second logout calls nothing. */
  lemma LogoutClearsAndIsIdempotent(s: ClientState)
    ensures LogoutSpec(s).accessToken.None? && LogoutSpec(s).refreshToken.None?
    ensures !Present(s.refreshToken) ==> LogoutSpec(s).calls == s.calls
    ensures Present(s.refreshToken) ==> |LogoutSpec(s).calls| == |s.calls| + 1
    ensures LogoutSpec(LogoutSpec(s)) == LogoutSpec(s)
  {
  }
}
