/** The HTTP client's interceptors (src/api/config.ts): a bearer header from
    local storage on every request, and on an error response either a
    sign-out redirect (401), a single-flight token refresh (403 with the
    token-expiry code, once per request), or a rejection. Every `await` is a
    separate event: a response error that starts a refresh is one step, the
    refresh call settling is another. */
module AuthInterceptor {
  import opened Js

  const AccessTokenKey := "accessToken"
  const RefreshTokenKey := "refreshToken"
  const TokenExpiredCode := "ERR.TOK0105"
  const SignInPath := "/sign-in"

  /** `localStorage.getItem(key)`. */
  function Stored(storage: map<string, string>, key: string): (r: Option<string>)
    ensures r.Some? <==> key in storage
    ensures r.Some? ==> r.value == storage[key]
  {
    if key in storage then Some(storage[key]) else None
  }

  function Bearer(token: string): string {
    "Bearer " + token
  }

  /** The request interceptor: the `Authorization` header a request leaves
      with, given the header it already had. */
  function AuthorizationHeader(storage: map<string, string>, current: Option<string>): (r: Option<string>)
    ensures Truthy(Stored(storage, AccessTokenKey)) ==> r == Some(Bearer(storage[AccessTokenKey]))
    ensures !Truthy(Stored(storage, AccessTokenKey)) ==> r == current
  {
    var token := Stored(storage, AccessTokenKey);
    if Truthy(token) then Some(Bearer(token.value)) else current
  }

  /** A bearer header is added exactly when an access token is stored; a
      request that had none and finds none leaves without one. */
  lemma HeaderOnlyWithToken(storage: map<string, string>)
    ensures AuthorizationHeader(storage, None).Some? <==>
      AccessTokenKey in storage && storage[AccessTokenKey] != ""
  {
  }

  /** The part of an error response the interceptor reads: the status and
      `data.error.code`. */
  datatype ErrorResponse = ErrorResponse(status: int, code: Option<string>)

  datatype Decision = SignOutRedirect | Refresh | Reject | RejectTypeError

  /** The response interceptor's branch choice as written: an error without
      a response (a timeout or a network failure) passes the 401 test thanks
      to `?.` but then reads `error.response.status` and throws, so the
      returned promise rejects with a `TypeError` instead of the error. */
  function ClassifyAsWritten(response: Option<ErrorResponse>, retried: bool): (d: Decision)
    ensures response.None? ==> d == RejectTypeError
    ensures response.Some? ==> d == Classify(response, retried)
  {
    if response.Some? && response.value.status == 401 then SignOutRedirect
    else if response.None? then RejectTypeError
    else if response.value.status == 403 && response.value.code == Some(TokenExpiredCode) && !retried then Refresh
    else Reject
  }

  /** The branch choice with the response read optionally in both tests, as
      the 401 test already does: an error without a response is rejected
      as it is. */
  function Classify(response: Option<ErrorResponse>, retried: bool): (d: Decision)
    ensures d != RejectTypeError
    ensures retried ==> d != Refresh
    ensures d == Refresh ==> response.Some? && response.value.status == 403
                             && response.value.code == Some(TokenExpiredCode)
    ensures d == SignOutRedirect <==> response.Some? && response.value.status == 401
    ensures response.None? ==> d == Reject
    ensures response.Some? && response.value.status != 401 && response.value.status != 403 ==> d == Reject
    ensures (response.Some? && response.value.status == 403
             && (response.value.code != Some(TokenExpiredCode) || retried)) ==> d == Reject
  {
    match response
    case None => Reject
    case Some(r) =>
      if r.status == 401 then SignOutRedirect
      else if r.status == 403 && r.code == Some(TokenExpiredCode) && !retried then Refresh
      else Reject
  }

  /** A timed-out request is rejected with a `TypeError` as written and with
      its own error once the response is read optionally. */
  lemma NoResponseRejectsWithTypeError(retried: bool)
    ensures ClassifyAsWritten(None, retried) == RejectTypeError
    ensures Classify(None, retried) == Reject
  {
  }

  /** The refresh branch is taken exactly for an expired-token 403 on a
      request that was not retried yet. */
  lemma RefreshExactly(response: Option<ErrorResponse>, retried: bool)
    ensures Classify(response, retried) == Refresh <==>
      response.Some? && response.value.status == 403
      && response.value.code == Some(TokenExpiredCode) && !retried
  {
  }

  /** Identifies one request object (`error.config`). */
  type RequestId = nat

  /** One `api(originalRequest)` call: the request sent again with the
      header set for it. */
  datatype Resend = Resend(request: RequestId, authorization: string)

  /** What a response error does to the request's promise in this step. */
  datatype Outcome = Rejected | RedirectedAndRejected | Queued | AwaitingRefresh

  /** What the refresh call's `await` delivers: a failure, or a body whose
      `data.access_token` may be missing. */
  datatype RefreshReply = RefreshFailed | RefreshOk(accessToken: Option<string>)

  /** The re-sends `onRefreshed` performs: each queued request once, in the
      order it was queued, with the new bearer header. */
  function Resends(queued: seq<RequestId>, token: string): (r: seq<Resend>)
    ensures |r| == |queued|
    ensures forall i :: 0 <= i < |queued| ==> r[i] == Resend(queued[i], Bearer(token))
  {
    if queued == [] then [] else Resends(queued[..|queued| - 1], token) + [Resend(queued[|queued| - 1], Bearer(token))]
  }

  /** `headers` with the `Authorization` entry of every queued request set
      to `header`. */
  function WithHeaderFor(headers: map<RequestId, string>, queued: seq<RequestId>, header: string): map<RequestId, string>
  {
    if queued == [] then headers
    else WithHeaderFor(headers, queued[..|queued| - 1], header)[queued[|queued| - 1] := header]
  }

  /** Every queued request ends up with `header` and every other entry is
      kept. */
  lemma {:induction false} WithHeaderForEntries(headers: map<RequestId, string>, queued: seq<RequestId>, header: string, k: RequestId)
    ensures k in WithHeaderFor(headers, queued, header) <==> k in headers || k in queued
    ensures k in queued ==> WithHeaderFor(headers, queued, header)[k] == header
    ensures k !in queued && k in headers ==> WithHeaderFor(headers, queued, header)[k] == headers[k]
  {
    if queued != [] {
      var init := queued[..|queued| - 1];
      WithHeaderForEntries(headers, init, header, k);
      assert queued == init + [queued[|queued| - 1]];
    }
  }

  /** The `forEach` of `onRefreshed`: walks the queue in order, setting
      each request's header and re-sending it. */
  method Drain(headers: map<RequestId, string>, queued: seq<RequestId>, token: string)
    returns (h: map<RequestId, string>, sent: seq<Resend>)
    ensures h == WithHeaderFor(headers, queued, Bearer(token))
    ensures sent == Resends(queued, token)
  {
    h, sent := headers, [];
    var i := 0;
    while i < |queued|
      invariant 0 <= i <= |queued|
      invariant h == WithHeaderFor(headers, queued[..i], Bearer(token))
      invariant sent == Resends(queued[..i], token)
    {
      assert queued[..i + 1][..i] == queued[..i];
      h := h[queued[i] := Bearer(token)];
      sent := sent + [Resend(queued[i], Bearer(token))];
      i := i + 1;
    }
    assert queued[..|queued|] == queued;
  }

  function Without(storage: map<string, string>, keys: set<string>): map<string, string> {
    storage - keys
  }

  datatype ClientState = ClientState(
    storage: map<string, string>, location: Option<string>, isRefreshing: bool,
    subscribers: seq<RequestId>, retryMarked: set<RequestId>, headers: map<RequestId, string>,
    refreshPosts: seq<string>, refreshOwner: Option<RequestId>, refreshPosted: bool,
    resent: seq<Resend>, rejected: seq<RequestId>)

  /** The module-level state of the client together with what it does to the
      outside: `storage` is local storage, `location` the last redirect,
      `isRefreshing` and `subscribers` the module variables, `retryMarked` the
      requests carrying `_retry`, `headers` their `Authorization` headers,
      `refreshPosts` the refresh tokens sent to `/v1/auth/refresh-token`,
      `refreshOwner` the request that started the refresh in flight and
      `refreshPosted` whether that refresh got as far as sending, `resent`
      the re-issued requests and `rejected` the requests whose promise
      rejected. */
  class ApiClient {
    var storage: map<string, string>
    var location: Option<string>
    var isRefreshing: bool
    var subscribers: seq<RequestId>
    var retryMarked: set<RequestId>
    var headers: map<RequestId, string>
    var refreshPosts: seq<string>
    var refreshOwner: Option<RequestId>
    var refreshPosted: bool
    var resent: seq<Resend>
    var rejected: seq<RequestId>

    ghost function State(): ClientState
      reads this
    {
      ClientState(storage, location, isRefreshing, subscribers, retryMarked, headers,
                  refreshPosts, refreshOwner, refreshPosted, resent, rejected)
    }

    /** At most one refresh is in flight, and it belongs to a request; every
        queued request and the owner are marked `_retry`. */
    ghost predicate Valid()
      reads this
    {
      (isRefreshing <==> refreshOwner.Some?)
      && (refreshOwner.Some? ==> refreshOwner.value in retryMarked)
      && (forall i :: 0 <= i < |subscribers| ==> subscribers[i] in retryMarked)
    }

    constructor (saved: map<string, string>)
      ensures Valid()
      ensures State() == ClientState(saved, None, false, [], {}, map[], [], None, false, [], [])
    {
      storage := saved;
      location := None;
      isRefreshing := false;
      subscribers := [];
      retryMarked := {};
      headers := map[];
      refreshPosts := [];
      refreshOwner := None;
      refreshPosted := false;
      resent := [];
      rejected := [];
    }

    /** The request interceptor applied to request `req`. */
    method PrepareRequest(req: RequestId)
      requires Valid()
      modifies this
      ensures Valid()
      ensures var h := AuthorizationHeader(storage, if req in old(headers) then Some(old(headers)[req]) else None);
        State() == old(State()).(headers := if h.Some? then old(headers)[req := h.value] else old(headers))
    {
      var h := AuthorizationHeader(storage, if req in headers then Some(headers[req]) else None);
      if h.Some? {
        headers := headers[req := h.value];
      }
    }

    /** The response interceptor's synchronous part for request `req`, up to
        its first `await`. */
    method ResponseError(req: RequestId, response: Option<ErrorResponse>) returns (outcome: Outcome)
      requires Valid()
      modifies this
      ensures Valid()
      ensures var d := Classify(response, req in old(retryMarked));
        (d == SignOutRedirect ==>
           outcome == RedirectedAndRejected
           && State() == old(State()).(storage := Without(old(storage), {AccessTokenKey}),
                                       location := Some(SignInPath), rejected := old(rejected) + [req]))
        && (d == Reject ==>
           outcome == Rejected && State() == old(State()).(rejected := old(rejected) + [req]))
        && (d == Refresh && old(isRefreshing) ==>
           outcome == Queued
           && State() == old(State()).(retryMarked := old(retryMarked) + {req},
                                       subscribers := old(subscribers) + [req]))
        && (d == Refresh && !old(isRefreshing) ==>
           outcome == AwaitingRefresh && isRefreshing && refreshOwner == Some(req)
           && State() == StartedRefresh(old(State()), req))
    {
      var d := Classify(response, req in retryMarked);
      match d {
        case SignOutRedirect =>
          storage := Without(storage, {AccessTokenKey});
          location := Some(SignInPath);
          rejected := rejected + [req];
          outcome := RedirectedAndRejected;
        case Reject =>
          rejected := rejected + [req];
          outcome := Rejected;
        case Refresh =>
          retryMarked := retryMarked + {req};
          if isRefreshing {
            subscribers := subscribers + [req];
            outcome := Queued;
          } else {
            StartRefresh(req);
            outcome := AwaitingRefresh;
          }
      }
    }

    /** `isRefreshing = true` and the start of `refreshToken()` up to its
        `await`: the stored refresh token is posted, or, with none stored,
        both tokens are removed and the page redirected to sign-in. The
        request is already marked `_retry`. */
    method StartRefresh(req: RequestId)
      requires Valid() && !isRefreshing && req in retryMarked
      modifies this
      ensures Valid()
      ensures State() == StartedRefresh(old(State()), req)
    {
      isRefreshing := true;
      refreshOwner := Some(req);
      var refresh := Stored(storage, RefreshTokenKey);
      if Truthy(refresh) {
        refreshPosts := refreshPosts + [refresh.value];
        refreshPosted := true;
      } else {
        storage := Without(storage, {AccessTokenKey, RefreshTokenKey});
        location := Some(SignInPath);
        refreshPosted := false;
      }
    }

    /** `onRefreshed(token)`: every queued request is re-sent once with the
        new header, in queue order, and the queue is emptied. */
    method OnRefreshed(token: string)
      requires Valid()
      modifies this
      ensures Valid()
      ensures State() == old(State()).(headers := WithHeaderFor(old(headers), old(subscribers), Bearer(token)),
                                       resent := old(resent) + Resends(old(subscribers), token),
                                       subscribers := [])
    {
      var h, rs := Drain(headers, subscribers, token);
      headers, resent, subscribers := h, resent + rs, [];
    }

    /** The refresh call settled (the interceptor's `await refreshToken()`
        returns): the refresh flag is cleared; with a token the queue is
        drained and the owner re-sent, without one the owner is rejected and
        the queue is left as it is. */
    method RefreshSettled(reply: RefreshReply)
      requires Valid() && isRefreshing
      modifies this
      ensures Valid()
      ensures !isRefreshing && refreshOwner == None
      ensures var token := NewToken(old(refreshPosted), reply);
        var owner := old(refreshOwner.value);
        var stored := StorageAfterRefresh(old(storage), old(refreshPosted), reply);
        var redirect := if old(refreshPosted) && reply.RefreshFailed? then Some(SignInPath) else old(location);
        if Truthy(token)
        then State() == old(State()).(storage := stored, location := redirect, isRefreshing := false,
                                      refreshOwner := None, subscribers := [],
                                      headers := WithHeaderFor(old(headers), old(subscribers), Bearer(token.value))[owner := Bearer(token.value)],
                                      resent := old(resent) + Resends(old(subscribers), token.value)
                                                + [Resend(owner, Bearer(token.value))])
        else State() == old(State()).(storage := stored, location := redirect, isRefreshing := false,
                                      refreshOwner := None, rejected := old(rejected) + [owner])
    {
      var owner := refreshOwner.value;
      var token := NewToken(refreshPosted, reply);
      storage := StorageAfterRefresh(storage, refreshPosted, reply);
      if refreshPosted && reply.RefreshFailed? {
        location := Some(SignInPath);
      }
      isRefreshing := false;
      refreshOwner := None;
      if Truthy(token) {
        OnRefreshed(token.value);
        headers := headers[owner := Bearer(token.value)];
        resent := resent + [Resend(owner, Bearer(token.value))];
      } else {
        rejected := rejected + [owner];
      }
    }
  }

  /** The state right after a response error starts the refresh for `req`. */
  function StartedRefresh(s: ClientState, req: RequestId): ClientState {
    var refresh := Stored(s.storage, RefreshTokenKey);
    var marked := s.(retryMarked := s.retryMarked + {req}, isRefreshing := true, refreshOwner := Some(req));
    if Truthy(refresh)
    then marked.(refreshPosts := s.refreshPosts + [refresh.value], refreshPosted := true)
    else marked.(storage := Without(s.storage, {AccessTokenKey, RefreshTokenKey}),
                 location := Some(SignInPath), refreshPosted := false)
  }

  /** What `refreshToken()` resolves to. A refresh that never got to send
      (no refresh token stored) resolves to `null`, whatever arrives. */
  function NewToken(posted: bool, reply: RefreshReply): (t: Option<string>)
    ensures Truthy(t) ==> posted && reply.RefreshOk? && reply.accessToken == t
  {
    if posted && reply.RefreshOk? then reply.accessToken else None
  }

  /** Local storage after the refresh settles: a reply stores only the new
      access token (a missing one is stored as the text `undefined`) and
      keeps the refresh token; a failed call removes both tokens. */
  function StorageAfterRefresh(storage: map<string, string>, posted: bool, reply: RefreshReply): (r: map<string, string>)
    ensures posted && reply.RefreshOk? ==> r == storage[AccessTokenKey := if reply.accessToken.Some? then reply.accessToken.value else "undefined"]
    ensures posted && reply.RefreshFailed? ==> r.Keys == storage.Keys - {AccessTokenKey, RefreshTokenKey}
    ensures !posted ==> r == storage
    ensures forall k :: k in storage && k != AccessTokenKey && k != RefreshTokenKey ==> k in r && r[k] == storage[k]
    ensures RefreshTokenKey in r ==> RefreshTokenKey in storage && r[RefreshTokenKey] == storage[RefreshTokenKey]
  {
    if !posted then storage
    else match reply
      case RefreshOk(t) => storage[AccessTokenKey := if t.Some? then t.value else "undefined"]
      case RefreshFailed => Without(storage, {AccessTokenKey, RefreshTokenKey})
  }

  /** Three requests hit the expired-token 403 while a refresh token is
      stored: one refresh call is made, and after it succeeds all three are
      re-sent with the new token. */
  method ThreeConcurrentExpiries() returns (refreshCalls: nat, resentCount: nat, allWithNewToken: bool)
    ensures refreshCalls == 1 && resentCount == 3 && allWithNewToken
  {
    var expired := Some(ErrorResponse(403, Some(TokenExpiredCode)));
    var client := new ApiClient(map[AccessTokenKey := "old", RefreshTokenKey := "r1"]);
    var o1 := client.ResponseError(1, expired);
    var o2 := client.ResponseError(2, expired);
    var o3 := client.ResponseError(3, expired);
    assert o1 == AwaitingRefresh && o2 == Queued && o3 == Queued;
    client.RefreshSettled(RefreshOk(Some("new")));
    refreshCalls := |client.refreshPosts|;
    resentCount := |client.resent|;
    allWithNewToken := forall i :: 0 <= i < |client.resent| ==> client.resent[i].authorization == Bearer("new");
  }

  /** A request that expires again after its retry is rejected rather than
      refreshed twice. */
  method RetriedRequestIsRejected() returns (second: Outcome, refreshCalls: nat)
    ensures second == Rejected && refreshCalls == 1
  {
    var expired := Some(ErrorResponse(403, Some(TokenExpiredCode)));
    var client := new ApiClient(map[RefreshTokenKey := "r1"]);
    var first := client.ResponseError(7, expired);
    client.RefreshSettled(RefreshOk(Some("new")));
    second := client.ResponseError(7, expired);
    refreshCalls := |client.refreshPosts|;
  }

  /** When the refresh fails, the requests queued behind it are neither
      re-sent nor rejected: they stay queued. */
  method FailedRefreshStrandsQueue() returns (queued: nat, resentCount: nat, hasRefreshToken: bool)
    ensures queued == 2 && resentCount == 0 && !hasRefreshToken
  {
    var expired := Some(ErrorResponse(403, Some(TokenExpiredCode)));
    var client := new ApiClient(map[AccessTokenKey := "old", RefreshTokenKey := "r1"]);
    var o1 := client.ResponseError(1, expired);
    var o2 := client.ResponseError(2, expired);
    var o3 := client.ResponseError(3, expired);
    client.RefreshSettled(RefreshFailed);
    queued := |client.subscribers|;
    resentCount := |client.resent|;
    hasRefreshToken := RefreshTokenKey in client.storage;
  }
}
