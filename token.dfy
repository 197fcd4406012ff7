/** The two-key token store: the access token and the refresh token in `localStorage`. */
module Token {
  import opened Wrappers
  import opened Browser

  /** The store after `SetAuthTokens(a, r)`: both keys hold the new tokens, whatever they held, and no other key changes. */
  function WithTokens(storage: map<string, string>, access: string, refresh: string): (m: map<string, string>)
    ensures Lookup(m, AccessTokenKey) == Some(access)
    ensures Lookup(m, RefreshTokenKey) == Some(refresh)
    ensures forall k :: k != AccessTokenKey && k != RefreshTokenKey ==> Lookup(m, k) == Lookup(storage, k)
    ensures m.Keys == storage.Keys + {AccessTokenKey, RefreshTokenKey}
  {
    storage[AccessTokenKey := access][RefreshTokenKey := refresh]
  }

  /** `GetAuthToken`: the stored access token, or None for `null`; it writes nothing. */
  method GetAuthToken(w: Window) returns (t: Option<string>)
    ensures t == Lookup(w.storage, AccessTokenKey)
    ensures t.Some? <==> AccessTokenKey in w.storage
  {
    t := w.GetItem(AccessTokenKey);
  }

  /** `SetAuthTokens(a, r)`: two writes, access token first. */
  method SetAuthTokens(w: Window, access: string, refresh: string)
    modifies w`storage
    ensures w.storage == WithTokens(old(w.storage), access, refresh)
  {
    w.SetItem(AccessTokenKey, access);
    w.SetItem(RefreshTokenKey, refresh);
  }

  /** A second `SetAuthTokens` overwrites the first completely. */
  lemma SetTwiceKeepsLast(storage: map<string, string>, a1: string, r1: string, a2: string, r2: string)
    ensures WithTokens(WithTokens(storage, a1, r1), a2, r2) == WithTokens(storage, a2, r2)
  {
  }
}
