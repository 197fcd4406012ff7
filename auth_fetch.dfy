/**
 * `authFetch`: a `fetch` that carries the stored access token, and on a 401
 * refreshes the tokens once and repeats the request once. `refreshAccessToken`
 * posts the stored refresh token and either stores the new pair or clears
 * both tokens and sends the browser to the sign-in page.
 */
module AuthFetch {
  import opened Wrappers
  import opened Browser
  import Http

  /** The `data` of a refresh reply; a field that is missing is None. */
  datatype TokenPair = TokenPair(accessToken: Option<string>, refreshToken: Option<string>)

  datatype RefreshBody = RefreshBody(success: bool, data: Option<TokenPair>)

  /**
   * The new access and refresh tokens a refresh reply delivers, or None when
   * `refreshAccessToken` throws: a network error, a status outside 2xx, a body
   * that is not JSON, `success` false, or either token missing or empty.
   */
  function NewTokens(reply: Http.Reply<RefreshBody>): (r: Option<(string, string)>)
    ensures r.Some? <==>
      reply.Answer? && reply.response.Ok() && reply.response.body.Some? &&
      reply.response.body.value.success && reply.response.body.value.data.Some? &&
      Truthy(reply.response.body.value.data.value.accessToken) &&
      Truthy(reply.response.body.value.data.value.refreshToken)
    ensures r.Some? ==>
      r.value.0 == reply.response.body.value.data.value.accessToken.value &&
      r.value.1 == reply.response.body.value.data.value.refreshToken.value &&
      r.value.0 != "" && r.value.1 != ""
  {
    match reply
    case NetworkError => None
    case Answer(resp) =>
      if !resp.Ok() || resp.body.None? then None
      else
        var b := resp.body.value;
        if b.success && b.data.Some? && Truthy(b.data.value.accessToken) && Truthy(b.data.value.refreshToken)
        then Some((b.data.value.accessToken.value, b.data.value.refreshToken.value))
        else None
  }

  datatype RefreshRun = RefreshRun(after: Snapshot, refreshed: bool)

  /**
   * `refreshAccessToken` from the state `s`, the network answering `reply`.
   * Without a (non-empty) stored refresh token it returns false at once.
   */
  function Refresh(s: Snapshot, reply: Http.Reply<RefreshBody>): (r: RefreshRun)
    ensures !Truthy(Lookup(s.storage, RefreshTokenKey)) ==> r == RefreshRun(s, false)
    ensures Truthy(Lookup(s.storage, RefreshTokenKey)) ==>
      r.after.calls == s.calls + [RefreshPost(true, Lookup(s.storage, RefreshTokenKey))]
    ensures r.refreshed <==> Truthy(Lookup(s.storage, RefreshTokenKey)) && NewTokens(reply).Some?
    ensures r.refreshed ==>
      Lookup(r.after.storage, AccessTokenKey) == Some(NewTokens(reply).value.0) &&
      Lookup(r.after.storage, RefreshTokenKey) == Some(NewTokens(reply).value.1) &&
      r.after.navigations == s.navigations
    ensures Truthy(Lookup(s.storage, RefreshTokenKey)) && !r.refreshed ==>
      AccessTokenKey !in r.after.storage && RefreshTokenKey !in r.after.storage &&
      r.after.navigations == s.navigations + [SignInRoute]
    ensures forall k :: k != AccessTokenKey && k != RefreshTokenKey ==> Lookup(r.after.storage, k) == Lookup(s.storage, k)
  {
    var token := Lookup(s.storage, RefreshTokenKey);
    if !Truthy(token) then RefreshRun(s, false)
    else
      var s1 := s.(calls := s.calls + [RefreshPost(true, token)]);
      match NewTokens(reply)
      case Some(pair) =>
        RefreshRun(s1.(storage := s1.storage[AccessTokenKey := pair.0][RefreshTokenKey := pair.1]), true)
      case None =>
        RefreshRun(s1.(storage := s1.storage - {AccessTokenKey} - {RefreshTokenKey},
                       navigations := s1.navigations + [SignInRoute]), false)
  }

  /** `headers.set("Authorization", …)` when the token is truthy; otherwise the caller's header stays. */
  function Authorization(token: Option<string>, given: Option<string>): (h: Option<string>)
    ensures Truthy(token) ==> h == Some("Bearer " + token.value)
    ensures !Truthy(token) ==> h == given
  {
    if Truthy(token) then Some("Bearer " + token.value) else given
  }

  /** `${value}` of a string that may be `null`. */
  function Interpolated(s: Option<string>): string {
    if s.Some? then s.value else "null"
  }

  /** Why `authFetch` rejects: the fetch itself failed, or the session could not be renewed. */
  datatype FetchError = NetworkFailure | SessionExpired

  datatype FetchOutcome<B> = Returned(response: Http.Response<B>) | Thrown(error: FetchError)

  datatype FetchRun<B> = FetchRun(after: Snapshot, outcome: FetchOutcome<B>)

  /**
   * `authFetch(url, { headers })` from the state `s`, where `given` is the
   * Authorization header the caller passed and the three replies answer the
   * request, the refresh post and the repeated request, as far as each is made.
   */
  function Run<B>(s: Snapshot, url: string, given: Option<string>,
                  first: Http.Reply<B>, refresh: Http.Reply<RefreshBody>, second: Http.Reply<B>): FetchRun<B>
  {
    var s1 := s.(calls := s.calls + [Send(url, Authorization(Lookup(s.storage, AccessTokenKey), given))]);
    match first
    case NetworkError => FetchRun(s1, Thrown(NetworkFailure))
    case Answer(resp) =>
      if resp.status != Http.Unauthorized then FetchRun(s1, Returned(resp))
      else
        var rr := Refresh(s1, refresh);
        if !rr.refreshed then
          FetchRun(rr.after.(navigations := rr.after.navigations + [SignInRoute]), Thrown(SessionExpired))
        else
          var header := "Bearer " + Interpolated(Lookup(rr.after.storage, AccessTokenKey));
          var s2 := rr.after.(calls := rr.after.calls + [Send(url, Some(header))]);
          match second
          case NetworkError => FetchRun(s2, Thrown(NetworkFailure))
          case Answer(resp2) => FetchRun(s2, Returned(resp2))
  }

  /** The first request carries `Bearer <token>` exactly when a non-empty access token is stored, and the caller's header otherwise. */
  lemma HeaderIffToken<B>(s: Snapshot, url: string, given: Option<string>,
                          first: Http.Reply<B>, refresh: Http.Reply<RefreshBody>, second: Http.Reply<B>)
    ensures var r := Run(s, url, given, first, refresh, second);
      |r.after.calls| > |s.calls| && r.after.calls[..|s.calls|] == s.calls &&
      var c := r.after.calls[|s.calls|];
      c.Send? && c.url == url &&
      (Truthy(Lookup(s.storage, AccessTokenKey)) ==> c.authorization == Some("Bearer " + Lookup(s.storage, AccessTokenKey).value)) &&
      (!Truthy(Lookup(s.storage, AccessTokenKey)) ==> c.authorization == given)
  {
  }

  /** A first reply that is not a 401 is returned as it came, after one request, with no refresh and nothing stored or navigated. */
  lemma OtherStatusReturnedAsIs<B>(s: Snapshot, url: string, given: Option<string>,
                                   resp: Http.Response<B>, refresh: Http.Reply<RefreshBody>, second: Http.Reply<B>)
    requires resp.status != Http.Unauthorized
    ensures var r := Run(s, url, given, Http.Answer(resp), refresh, second);
      r.outcome == Returned(resp) && r.after.storage == s.storage && r.after.navigations == s.navigations &&
      Sends(r.after.calls) == Sends(s.calls) + 1 && Refreshes(r.after.calls) == Refreshes(s.calls)
  {
    CountAfterCall(s.calls, Send(url, Authorization(Lookup(s.storage, AccessTokenKey), given)));
  }

  /**
   * A 401 whose refresh fails throws "Session expired" after exactly one
   * request, ending on the sign-in route; without a refresh token nothing is
   * posted and the stored tokens stay, otherwise one refresh is posted and both
   * tokens are gone.
   */
  lemma FailedRefreshThrows<B>(s: Snapshot, url: string, given: Option<string>,
                               resp: Http.Response<B>, refresh: Http.Reply<RefreshBody>, second: Http.Reply<B>)
    requires resp.status == Http.Unauthorized
    requires !Truthy(Lookup(s.storage, RefreshTokenKey)) || NewTokens(refresh).None?
    ensures var r := Run(s, url, given, Http.Answer(resp), refresh, second);
      r.outcome == Thrown(SessionExpired) &&
      Sends(r.after.calls) == Sends(s.calls) + 1 &&
      |r.after.navigations| > 0 && r.after.navigations[|r.after.navigations| - 1] == SignInRoute &&
      (!Truthy(Lookup(s.storage, RefreshTokenKey)) ==>
        r.after.storage == s.storage && Refreshes(r.after.calls) == Refreshes(s.calls) &&
        r.after.navigations == s.navigations + [SignInRoute]) &&
      (Truthy(Lookup(s.storage, RefreshTokenKey)) ==>
        AccessTokenKey !in r.after.storage && RefreshTokenKey !in r.after.storage &&
        Refreshes(r.after.calls) == Refreshes(s.calls) + 1 &&
        r.after.navigations == s.navigations + [SignInRoute, SignInRoute])
  {
    var c1 := Send(url, Authorization(Lookup(s.storage, AccessTokenKey), given));
    CountAfterCall(s.calls, c1);
    CountAfterCall(s.calls + [c1], RefreshPost(true, Lookup(s.storage, RefreshTokenKey)));
  }

  /**
   * A 401 whose refresh succeeds repeats the request exactly once, with the new
   * access token, and returns the second reply whatever its status.
   */
  lemma RefreshedRequestRepeatsOnce<B>(s: Snapshot, url: string, given: Option<string>,
                                       resp: Http.Response<B>, refresh: Http.Reply<RefreshBody>, resp2: Http.Response<B>)
    requires resp.status == Http.Unauthorized
    requires Truthy(Lookup(s.storage, RefreshTokenKey)) && NewTokens(refresh).Some?
    ensures var r := Run(s, url, given, Http.Answer(resp), refresh, Http.Answer(resp2));
      r.outcome == Returned(resp2) &&
      Sends(r.after.calls) == Sends(s.calls) + 2 && Refreshes(r.after.calls) == Refreshes(s.calls) + 1 &&
      r.after.calls[|r.after.calls| - 1] == Send(url, Some("Bearer " + NewTokens(refresh).value.0)) &&
      Lookup(r.after.storage, AccessTokenKey) == Some(NewTokens(refresh).value.0) &&
      Lookup(r.after.storage, RefreshTokenKey) == Some(NewTokens(refresh).value.1) &&
      r.after.navigations == s.navigations
  {
    var c1 := Send(url, Authorization(Lookup(s.storage, AccessTokenKey), given));
    var c2 := RefreshPost(true, Lookup(s.storage, RefreshTokenKey));
    var c3 := Send(url, Some("Bearer " + NewTokens(refresh).value.0));
    CountAfterCall(s.calls, c1);
    CountAfterCall(s.calls + [c1], c2);
    CountAfterCall(s.calls + [c1] + [c2], c3);
  }

  /** A first fetch that fails on the network rejects after that one request, with no refresh and nothing stored or navigated. */
  lemma FirstNetworkErrorRejects<B>(s: Snapshot, url: string, given: Option<string>,
                                    refresh: Http.Reply<RefreshBody>, second: Http.Reply<B>)
    ensures var r := Run(s, url, given, Http.NetworkError, refresh, second);
      r.outcome == Thrown(NetworkFailure) && r.after.storage == s.storage && r.after.navigations == s.navigations &&
      Sends(r.after.calls) == Sends(s.calls) + 1 && Refreshes(r.after.calls) == Refreshes(s.calls)
  {
    CountAfterCall(s.calls, Send(url, Authorization(Lookup(s.storage, AccessTokenKey), given)));
  }

  /**
   * A repeated request that fails on the network rejects after the two
   * requests and the one refresh, keeping the renewed tokens and the route.
   */
  lemma RetriedNetworkErrorRejects<B>(s: Snapshot, url: string, given: Option<string>,
                                      resp: Http.Response<B>, refresh: Http.Reply<RefreshBody>)
    requires resp.status == Http.Unauthorized
    requires Truthy(Lookup(s.storage, RefreshTokenKey)) && NewTokens(refresh).Some?
    ensures var r := Run(s, url, given, Http.Answer(resp), refresh, Http.NetworkError);
      r.outcome == Thrown(NetworkFailure) &&
      Sends(r.after.calls) == Sends(s.calls) + 2 && Refreshes(r.after.calls) == Refreshes(s.calls) + 1 &&
      Lookup(r.after.storage, AccessTokenKey) == Some(NewTokens(refresh).value.0) &&
      Lookup(r.after.storage, RefreshTokenKey) == Some(NewTokens(refresh).value.1) &&
      r.after.navigations == s.navigations
  {
    var c1 := Send(url, Authorization(Lookup(s.storage, AccessTokenKey), given));
    var c2 := RefreshPost(true, Lookup(s.storage, RefreshTokenKey));
    var c3 := Send(url, Some("Bearer " + NewTokens(refresh).value.0));
    CountAfterCall(s.calls, c1);
    CountAfterCall(s.calls + [c1], c2);
    CountAfterCall(s.calls + [c1] + [c2], c3);
  }

  /** `refreshAccessToken`, step by step on the browser. */
  method RefreshAccessToken(w: Window, reply: Http.Reply<RefreshBody>) returns (refreshed: bool)
    modifies w
    ensures RefreshRun(w.Snap(), refreshed) == Refresh(old(w.Snap()), reply)
  {
    var token := w.GetItem(RefreshTokenKey);
    if !Truthy(token) {
      return false;
    }
    w.Put(RefreshPost(true, token));
    var tokens := NewTokens(reply);
    if tokens.Some? {
      w.SetItem(AccessTokenKey, tokens.value.0);
      w.SetItem(RefreshTokenKey, tokens.value.1);
      return true;
    }
    w.RemoveItem(AccessTokenKey);
    w.RemoveItem(RefreshTokenKey);
    w.Navigate(SignInRoute);
    return false;
  }

  /** `authFetch`, step by step on the browser. */
  method Fetch<B>(w: Window, url: string, given: Option<string>,
                  first: Http.Reply<B>, refresh: Http.Reply<RefreshBody>, second: Http.Reply<B>) returns (r: FetchOutcome<B>)
    modifies w
    ensures FetchRun(w.Snap(), r) == Run(old(w.Snap()), url, given, first, refresh, second)
  {
    var accessToken := w.GetItem(AccessTokenKey);
    var header := given;
    if Truthy(accessToken) {
      header := Some("Bearer " + accessToken.value);
    }
    w.Put(Send(url, header));
    if first.NetworkError? {
      return Thrown(NetworkFailure);
    }
    if first.response.status != Http.Unauthorized {
      return Returned(first.response);
    }
    var refreshed := RefreshAccessToken(w, refresh);
    if !refreshed {
      w.Navigate(SignInRoute);
      return Thrown(SessionExpired);
    }
    accessToken := w.GetItem(AccessTokenKey);
    w.Put(Send(url, Some("Bearer " + Interpolated(accessToken))));
    if second.NetworkError? {
      return Thrown(NetworkFailure);
    }
    return Returned(second.response);
  }
}
