/**
 * The shared axios instance: a request interceptor that attaches the stored
 * access token, and a response interceptor that answers the first 401 of a
 * request by refreshing the tokens and sending the request again, marking it
 * `_retry` so that it is refreshed for at most once.
 */
module Axios {
  import opened Wrappers
  import opened Browser
  import Http
  import AuthFetch

  /** The part of a request config the interceptors read and write. */
  datatype Config = Config(url: string, authorization: Option<string>, retry: bool)

  /** The request interceptor: `Bearer <token>` when a non-empty token is stored; otherwise the config as it was. */
  function Attach(config: Config, token: Option<string>): (c: Config)
    ensures c.url == config.url && c.retry == config.retry
    ensures Truthy(token) ==> c.authorization == Some("Bearer " + token.value)
    ensures !Truthy(token) ==> c == config
  {
    if Truthy(token) then config.(authorization := Some("Bearer " + token.value)) else config
  }

  /** The request interceptor run on the browser: it reads the store and changes nothing. */
  method RequestInterceptor(w: Window, config: Config) returns (c: Config)
    ensures c == Attach(config, Lookup(w.storage, AccessTokenKey))
  {
    var token := w.GetItem(AccessTokenKey);
    c := config;
    if Truthy(token) {
      c := c.(authorization := Some("Bearer " + token.value));
    }
  }

  /** `response.data` of the refresh post; `data.data` missing (or not an object) is None. */
  datatype RefreshEnvelope = RefreshEnvelope(data: Option<AuthFetch.TokenPair>)

  /**
   * The pair `const { accessToken, refreshToken } = response.data.data` reads,
   * or None when the post rejects (network error, status outside 2xx) or the
   * destructuring throws. Missing tokens do not make it fail.
   */
  function RefreshedPair(reply: Http.Reply<RefreshEnvelope>): (r: Option<AuthFetch.TokenPair>)
    ensures r.Some? <==>
      reply.Answer? && reply.response.Ok() && reply.response.body.Some? && reply.response.body.value.data.Some?
    ensures r.Some? ==> r.value == reply.response.body.value.data.value
  {
    match reply
    case NetworkError => None
    case Answer(resp) =>
      if resp.Ok() && resp.body.Some? then resp.body.value.data else None
  }

  /** A rejection: an error reply as it came, a request without a reply, or the refresh's own error. */
  datatype ApiError<B> = ErrorReply(response: Http.Response<B>) | NoReply | RefreshError

  datatype ApiOutcome<B> = Resolved(response: Http.Response<B>) | Rejected(error: ApiError<B>)

  datatype ApiRun<B> = ApiRun(after: Snapshot, outcome: ApiOutcome<B>)

  function RetryRank(c: Config): nat {
    if c.retry then 0 else 1
  }

  /**
   * `api(config)` from the state `s`: the request interceptor, one request
   * answered by `reply`, and for a reply outside 2xx the response interceptor.
   * `refresh` and `second` answer the refresh post and the repeated request.
   */
  function Dispatch<B>(s: Snapshot, config: Config, reply: Http.Reply<B>,
                       refresh: Http.Reply<RefreshEnvelope>, second: Http.Reply<B>): ApiRun<B>
    decreases RetryRank(config), 1
  {
    var sent := Attach(config, Lookup(s.storage, AccessTokenKey));
    var s1 := s.(calls := s.calls + [Send(sent.url, sent.authorization)]);
    match reply
    case NetworkError => ApiRun(s1, Rejected(NoReply))
    case Answer(resp) =>
      if resp.Ok() then ApiRun(s1, Resolved(resp))
      else OnError(s1, sent, resp, refresh, second)
  }

  /**
   * The response interceptor's error handler. A 401 on a request not yet marked
   * is marked, the stored refresh token (even `null`) is posted, and then either
   * the new pair is stored and the request goes through `api` again, or both
   * tokens are removed, the browser goes to the sign-in page and the refresh
   * error is the rejection. Any other error is rejected as it came.
   */
  function OnError<B>(s: Snapshot, sent: Config, resp: Http.Response<B>,
                      refresh: Http.Reply<RefreshEnvelope>, second: Http.Reply<B>): ApiRun<B>
    decreases RetryRank(sent), 0
  {
    if resp.status != Http.Unauthorized || sent.retry then ApiRun(s, Rejected(ErrorReply(resp)))
    else
      var marked := sent.(retry := true);
      var s1 := s.(calls := s.calls + [RefreshPost(false, Lookup(s.storage, RefreshTokenKey))]);
      match RefreshedPair(refresh)
      case None =>
        ApiRun(s1.(storage := s1.storage - {AccessTokenKey} - {RefreshTokenKey},
                   navigations := s1.navigations + [SignInRoute]), Rejected(RefreshError))
      case Some(pair) =>
        var s2 := s1.(storage := s1.storage[AccessTokenKey := Stringified(pair.accessToken)]
                                           [RefreshTokenKey := Stringified(pair.refreshToken)]);
        Dispatch(s2, marked.(authorization := Some("Bearer " + Stringified(pair.accessToken))), second, refresh, second)
  }

  /** A reply in 2xx passes through untouched after one request, with nothing stored, removed or navigated. */
  lemma SuccessPassesThrough<B>(s: Snapshot, config: Config, resp: Http.Response<B>,
                                refresh: Http.Reply<RefreshEnvelope>, second: Http.Reply<B>)
    requires resp.Ok()
    ensures var r := Dispatch(s, config, Http.Answer(resp), refresh, second);
      r.outcome == Resolved(resp) && r.after.storage == s.storage && r.after.navigations == s.navigations &&
      |r.after.calls| == |s.calls| + 1
  {
  }

  /** An error that is not a 401, or a 401 on a request already marked, is rejected with that same error and triggers nothing. */
  lemma OtherErrorsRejectedAsIs<B>(s: Snapshot, sent: Config, resp: Http.Response<B>,
                                   refresh: Http.Reply<RefreshEnvelope>, second: Http.Reply<B>)
    requires resp.status != Http.Unauthorized || sent.retry
    ensures OnError(s, sent, resp, refresh, second) == ApiRun(s, Rejected(ErrorReply(resp)))
  {
  }

  /**
   * Whatever the replies, one `api` call makes at most one refresh post and at
   * most two requests, and a request that starts marked makes no refresh post
   * and exactly one request.
   */
  lemma {:induction false} AtMostOneRefresh<B>(s: Snapshot, config: Config, reply: Http.Reply<B>,
                                               refresh: Http.Reply<RefreshEnvelope>, second: Http.Reply<B>)
    ensures var r := Dispatch(s, config, reply, refresh, second);
      |r.after.calls| >= |s.calls| && r.after.calls[..|s.calls|] == s.calls &&
      Refreshes(r.after.calls) <= Refreshes(s.calls) + 1 && Sends(r.after.calls) <= Sends(s.calls) + 2 &&
      (config.retry ==> Refreshes(r.after.calls) == Refreshes(s.calls) && Sends(r.after.calls) == Sends(s.calls) + 1)
    decreases RetryRank(config), 1
  {
    var sent := Attach(config, Lookup(s.storage, AccessTokenKey));
    var c1 := Send(sent.url, sent.authorization);
    var s1 := s.(calls := s.calls + [c1]);
    CountAfterCall(s.calls, c1);
    if reply.Answer? && !reply.response.Ok() {
      OnErrorCounts(s1, sent, reply.response, refresh, second);
    }
  }

  /** The error handler adds at most one refresh post and one request, and nothing at all for a marked request. */
  lemma {:induction false} OnErrorCounts<B>(s: Snapshot, sent: Config, resp: Http.Response<B>,
                                            refresh: Http.Reply<RefreshEnvelope>, second: Http.Reply<B>)
    ensures var r := OnError(s, sent, resp, refresh, second);
      |r.after.calls| >= |s.calls| && r.after.calls[..|s.calls|] == s.calls &&
      Refreshes(r.after.calls) <= Refreshes(s.calls) + 1 && Sends(r.after.calls) <= Sends(s.calls) + 1 &&
      (sent.retry ==> r.after.calls == s.calls)
    decreases RetryRank(sent), 0
  {
    if resp.status == Http.Unauthorized && !sent.retry {
      var c2 := RefreshPost(false, Lookup(s.storage, RefreshTokenKey));
      var s1 := s.(calls := s.calls + [c2]);
      CountAfterCall(s.calls, c2);
      match RefreshedPair(refresh)
      case None =>
      case Some(pair) =>
        var s2 := s1.(storage := s1.storage[AccessTokenKey := Stringified(pair.accessToken)]
                                           [RefreshTokenKey := Stringified(pair.refreshToken)]);
        var retried := sent.(retry := true).(authorization := Some("Bearer " + Stringified(pair.accessToken)));
        AtMostOneRefresh(s2, retried, second, refresh, second);
        var r := Dispatch(s2, retried, second, refresh, second);
        assert r.after.calls == s1.calls + r.after.calls[|s1.calls|..];
    }
  }

  /**
   * A first 401 whose refresh post succeeds stores both delivered tokens (the
   * text "undefined" for a missing one) and sends the request once more, marked
   * and carrying the new access token; the outcome is that second request's.
   */
  lemma RefreshStoresAndResends<B>(s: Snapshot, config: Config, resp: Http.Response<B>,
                                   refresh: Http.Reply<RefreshEnvelope>, resp2: Http.Response<B>)
    requires resp.status == Http.Unauthorized && !config.retry && RefreshedPair(refresh).Some?
    ensures var pair := RefreshedPair(refresh).value;
      var r := Dispatch(s, config, Http.Answer(resp), refresh, Http.Answer(resp2));
      var n := |s.calls|;
      |r.after.calls| == n + 3 &&
      r.after.calls[n + 1] == RefreshPost(false, Lookup(s.storage, RefreshTokenKey)) &&
      r.after.calls[n + 2].Send? && r.after.calls[n + 2].url == config.url &&
      r.after.calls[n + 2].authorization == Some("Bearer " + Stringified(pair.accessToken)) &&
      Lookup(r.after.storage, AccessTokenKey) == Some(Stringified(pair.accessToken)) &&
      Lookup(r.after.storage, RefreshTokenKey) == Some(Stringified(pair.refreshToken)) &&
      r.after.navigations == s.navigations &&
      r.outcome == (if resp2.Ok() then Resolved(resp2) else Rejected(ErrorReply(resp2)))
  {
    var pair := RefreshedPair(refresh).value;
    var sent := Attach(config, Lookup(s.storage, AccessTokenKey));
    var s1 := s.(calls := s.calls + [Send(sent.url, sent.authorization)]);
    var s2 := s1.(calls := s1.calls + [RefreshPost(false, Lookup(s.storage, RefreshTokenKey))]);
    var s3 := s2.(storage := s2.storage[AccessTokenKey := Stringified(pair.accessToken)]
                                       [RefreshTokenKey := Stringified(pair.refreshToken)]);
    var retried := sent.(retry := true).(authorization := Some("Bearer " + Stringified(pair.accessToken)));
    var r1 := Dispatch(s, config, Http.Answer(resp), refresh, Http.Answer(resp2));
    assert r1 == OnError(s1, sent, resp, refresh, Http.Answer(resp2));
    var r := Dispatch(s3, retried, Http.Answer(resp2), refresh, Http.Answer(resp2));
    assert r1 == r;
    var sent2 := Attach(retried, Lookup(s3.storage, AccessTokenKey));
    assert sent2 == retried;
    var s4 := s3.(calls := s3.calls + [Send(retried.url, retried.authorization)]);
    if resp2.Ok() {
      assert r == ApiRun(s4, Resolved(resp2));
    } else {
      assert r == OnError(s4, retried, resp2, refresh, Http.Answer(resp2));
      assert r == ApiRun(s4, Rejected(ErrorReply(resp2)));
    }
    assert s4.calls == s.calls + [Send(sent.url, sent.authorization), RefreshPost(false, Lookup(s.storage, RefreshTokenKey)),
                                  Send(retried.url, retried.authorization)];
  }

  /**
   * A first 401 whose refresh post fails removes both tokens, ends on the
   * sign-in route, and rejects with the refresh error, never with the 401.
   */
  lemma FailedRefreshRejectsWithItsOwnError<B>(s: Snapshot, config: Config, resp: Http.Response<B>,
                                               refresh: Http.Reply<RefreshEnvelope>, second: Http.Reply<B>)
    requires resp.status == Http.Unauthorized && !config.retry && RefreshedPair(refresh).None?
    ensures var r := Dispatch(s, config, Http.Answer(resp), refresh, second);
      r.outcome == Rejected(RefreshError) && r.outcome != Rejected(ErrorReply(resp)) &&
      AccessTokenKey !in r.after.storage && RefreshTokenKey !in r.after.storage &&
      r.after.navigations == s.navigations + [SignInRoute] && |r.after.calls| == |s.calls| + 2
  {
  }

  /** `api(config)` step by step on the browser. */
  method Request<B>(w: Window, config: Config, reply: Http.Reply<B>,
                    refresh: Http.Reply<RefreshEnvelope>, second: Http.Reply<B>) returns (r: ApiOutcome<B>)
    modifies w
    ensures ApiRun(w.Snap(), r) == Dispatch(old(w.Snap()), config, reply, refresh, second)
    decreases RetryRank(config), 1
  {
    var sent := RequestInterceptor(w, config);
    w.Put(Send(sent.url, sent.authorization));
    if reply.NetworkError? {
      return Rejected(NoReply);
    }
    if reply.response.Ok() {
      return Resolved(reply.response);
    }
    r := ResponseErrorInterceptor(w, sent, reply.response, refresh, second);
  }

  /** The response interceptor's error handler step by step on the browser. */
  method ResponseErrorInterceptor<B>(w: Window, sent: Config, resp: Http.Response<B>,
                                     refresh: Http.Reply<RefreshEnvelope>, second: Http.Reply<B>) returns (r: ApiOutcome<B>)
    modifies w
    ensures ApiRun(w.Snap(), r) == OnError(old(w.Snap()), sent, resp, refresh, second)
    decreases RetryRank(sent), 0
  {
    if resp.status != Http.Unauthorized || sent.retry {
      return Rejected(ErrorReply(resp));
    }
    var original := sent.(retry := true);
    var refreshToken := w.GetItem(RefreshTokenKey);
    w.Put(RefreshPost(false, refreshToken));
    var pair := RefreshedPair(refresh);
    if pair.None? {
      w.RemoveItem(AccessTokenKey);
      w.RemoveItem(RefreshTokenKey);
      w.Navigate(SignInRoute);
      return Rejected(RefreshError);
    }
    w.SetItem(AccessTokenKey, Stringified(pair.value.accessToken));
    w.SetItem(RefreshTokenKey, Stringified(pair.value.refreshToken));
    original := original.(authorization := Some("Bearer " + Stringified(pair.value.accessToken)));
    r := Request(w, original, second, refresh, second);
  }
}
