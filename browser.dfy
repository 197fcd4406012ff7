/**
 * The parts of the browser the session code touches: `localStorage` (a map
 * from key to string; a key that is absent reads as `null`), the routes the
 * app is sent to, and the requests it puts on the network, in order.
 */
module Browser {
  import opened Wrappers

  const AccessTokenKey := "accessToken"
  const RefreshTokenKey := "refreshToken"
  const UserKey := "user"
  const SignInRoute := "/signin"

  /** `localStorage.getItem(key)`. */
  function Lookup(storage: map<string, string>, key: string): (r: Option<string>)
    ensures r.Some? <==> key in storage
    ensures r.Some? ==> r.value == storage[key]
  {
    if key in storage then Some(storage[key]) else None
  }

  /** JavaScript truthiness of a string that may be `null`: `null` and "" are falsy. */
  predicate Truthy(s: Option<string>) {
    s.Some? && s.value != ""
  }

  /** What `localStorage.setItem` and a template literal make of a value that may be `undefined`. */
  function Stringified(v: Option<string>): string {
    if v.Some? then v.value else "undefined"
  }

  /** The requests the session code sends. */
  datatype Call =
    /** A request to the API with the Authorization header it carried, if any. */
    | Send(url: string, authorization: Option<string>)
    /**
     * `POST /auth/refresh` with `{ refreshToken }`; `onApiBase` tells whether the
     * path was put after the API's base URL, and a `null` token is sent as None.
     */
    | RefreshPost(onApiBase: bool, refreshToken: Option<string>)
    /** `POST /auth/login` with the email and password sent. */
    | LoginPost(email: string, password: string)

  /** The whole observable state at one moment, for specifications to speak about. */
  datatype Snapshot = Snapshot(storage: map<string, string>, navigations: seq<string>, calls: seq<Call>)

  /** The number of requests to the API proper (not refresh or login posts) in a log. */
  function Sends(calls: seq<Call>): (n: nat)
    ensures n <= |calls|
  {
    if calls == [] then 0 else (if calls[|calls| - 1].Send? then 1 else 0) + Sends(calls[..|calls| - 1])
  }

  /** The number of refresh posts in a log. */
  function Refreshes(calls: seq<Call>): (n: nat)
    ensures n <= |calls|
  {
    if calls == [] then 0 else (if calls[|calls| - 1].RefreshPost? then 1 else 0) + Refreshes(calls[..|calls| - 1])
  }

  /** Appending one call adds one to the count of its own kind and nothing to the other. */
  lemma CountAfterCall(calls: seq<Call>, c: Call)
    ensures Sends(calls + [c]) == Sends(calls) + (if c.Send? then 1 else 0)
    ensures Refreshes(calls + [c]) == Refreshes(calls) + (if c.RefreshPost? then 1 else 0)
  {
    assert (calls + [c])[..|calls|] == calls;
  }

  class Window {
    var storage: map<string, string>
    /** Every `window.location.href` assignment and `navigate` call, in order. */
    var navigations: seq<string>
    var calls: seq<Call>

    constructor (initial: map<string, string>)
      ensures storage == initial && navigations == [] && calls == []
    {
      storage := initial;
      navigations := [];
      calls := [];
    }

    function Snap(): Snapshot
      reads this
    {
      Snapshot(storage, navigations, calls)
    }

    method GetItem(key: string) returns (v: Option<string>)
      ensures v == Lookup(storage, key)
    {
      v := if key in storage then Some(storage[key]) else None;
    }

    method SetItem(key: string, value: string)
      modifies this`storage
      ensures storage == old(storage)[key := value]
    {
      storage := storage[key := value];
    }

    method RemoveItem(key: string)
      modifies this`storage
      ensures storage == old(storage) - {key}
    {
      storage := storage - {key};
    }

    method Navigate(route: string)
      modifies this`navigations
      ensures navigations == old(navigations) + [route]
    {
      navigations := navigations + [route];
    }

    /** Puts one request on the wire; its reply is supplied by the caller. */
    method Put(c: Call)
      modifies this`calls
      ensures calls == old(calls) + [c]
    {
      calls := calls + [c];
    }
  }
}
