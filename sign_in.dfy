/**
 * The sign-in form: both fields must hold something besides white space; the
 * trimmed email and the password as typed are posted; a successful reply stores
 * the access token and the user and goes to the dashboard.
 */
module SignIn {
  import opened Wrappers
  import opened Text
  import opened Browser
  import Http

  const RequiredMessage := "Email dan kata sandi wajib diisi"
  const WrongCredentialsMessage := "Email atau kata sandi salah"
  const ConnectionMessage := "Gagal terhubung ke server. Periksa koneksi internet Anda."
  const DashboardRoute := "/"

  /** The signed-in user: the name the greeting reads, and its `JSON.stringify` text. */
  datatype User = User(name: string, json: string)

  /** The login reply's body; a field that is missing is None. */
  datatype LoginBody = LoginBody(success: bool, token: Option<string>, user: Option<User>, message: Option<string>)

  datatype SignInRun = SignInRun(after: Snapshot, error: Option<string>)

  /**
   * `handleSubmit` from the state `s`, the reply answering the login post. A
   * network error or a body that is not JSON shows the connection message; so
   * does a success without a user, after the token and the text "undefined"
   * have been stored, since the greeting then throws. A `user` that is `null`
   * rather than missing would be stored as "null"; the body's Option does not
   * tell the two apart, and both are read as missing.
   */
  function Run(s: Snapshot, email: string, password: string, reply: Http.Reply<LoginBody>): (r: SignInRun)
    ensures Lookup(r.after.storage, RefreshTokenKey) == Lookup(s.storage, RefreshTokenKey)
    ensures r.error.None? <==> r.after.navigations == s.navigations + [DashboardRoute]
    ensures r.error.None? || r.after.navigations == s.navigations
  {
    if Trim(email) == "" || Trim(password) == "" then SignInRun(s, Some(RequiredMessage))
    else
      var s1 := s.(calls := s.calls + [LoginPost(Trim(email), password)]);
      match reply
      case NetworkError => SignInRun(s1, Some(ConnectionMessage))
      case Answer(resp) =>
        match resp.body
        case None => SignInRun(s1, Some(ConnectionMessage))
        case Some(b) =>
          if b.success then
            var userText := if b.user.Some? then b.user.value.json else "undefined";
            var s2 := s1.(storage := s1.storage[AccessTokenKey := Stringified(b.token)][UserKey := userText]);
            if b.user.None? then SignInRun(s2, Some(ConnectionMessage))
            else SignInRun(s2.(navigations := s2.navigations + [DashboardRoute]), None)
          else SignInRun(s1, Some(if Truthy(b.message) then b.message.value else WrongCredentialsMessage))
  }

  /** A blank email or password shows the required-fields message and sends nothing. */
  lemma BlankFieldSendsNothing(s: Snapshot, email: string, password: string, reply: Http.Reply<LoginBody>)
    requires IsBlank(email) || IsBlank(password)
    ensures Run(s, email, password, reply) == SignInRun(s, Some(RequiredMessage))
  {
    TrimFacts(email);
    TrimFacts(password);
  }

  /** Otherwise exactly one login post goes out, with the trimmed email and the password untrimmed. */
  lemma OnePostWithTrimmedEmail(s: Snapshot, email: string, password: string, reply: Http.Reply<LoginBody>)
    requires !IsBlank(email) && !IsBlank(password)
    ensures Run(s, email, password, reply).after.calls == s.calls + [LoginPost(Trim(email), password)]
  {
    TrimFacts(email);
    TrimFacts(password);
  }

  /**
   * A lost connection, or a reply whose body is not JSON, throws inside the
   * `try`: the connection message is shown after the one login post, and
   * nothing is stored and no route is taken.
   */
  lemma ConnectionFailureShowsConnectionMessage(s: Snapshot, email: string, password: string, reply: Http.Reply<LoginBody>)
    requires !IsBlank(email) && !IsBlank(password)
    requires reply.NetworkError? || reply.response.body.None?
    ensures var r := Run(s, email, password, reply);
      r.error == Some(ConnectionMessage) && r.after.storage == s.storage && r.after.navigations == s.navigations &&
      r.after.calls == s.calls + [LoginPost(Trim(email), password)]
  {
    TrimFacts(email);
    TrimFacts(password);
  }

  /**
   * A successful reply with a user stores its token as the access token and the
   * user's text under "user", touches no other key, and goes to the dashboard.
   */
  lemma SuccessStoresAccessTokenOnly(s: Snapshot, email: string, password: string, resp: Http.Response<LoginBody>)
    requires Trim(email) != "" && Trim(password) != ""
    requires resp.body.Some? && resp.body.value.success && resp.body.value.user.Some?
    ensures var r := Run(s, email, password, Http.Answer(resp));
      r.error == None &&
      Lookup(r.after.storage, AccessTokenKey) == Some(Stringified(resp.body.value.token)) &&
      Lookup(r.after.storage, UserKey) == Some(resp.body.value.user.value.json) &&
      (forall k :: k != AccessTokenKey && k != UserKey ==> Lookup(r.after.storage, k) == Lookup(s.storage, k)) &&
      r.after.navigations == s.navigations + [DashboardRoute]
  {
  }

  /** A reply with `success` false shows its `message` when that is non-empty, or the wrong-credentials text, and stores nothing. */
  lemma RefusalShowsMessage(s: Snapshot, email: string, password: string, resp: Http.Response<LoginBody>)
    requires Trim(email) != "" && Trim(password) != ""
    requires resp.body.Some? && !resp.body.value.success
    ensures var r := Run(s, email, password, Http.Answer(resp));
      r.after.storage == s.storage &&
      r.error == Some(if Truthy(resp.body.value.message) then resp.body.value.message.value else WrongCredentialsMessage)
  {
  }

  class Form {
    var email: string
    var password: string
    var loading: bool
    var errorMessage: Option<string>

    constructor ()
      ensures email == "" && password == "" && !loading && errorMessage == None
    {
      email := "";
      password := "";
      loading := false;
      errorMessage := None;
    }

    /** `handleSubmit`: whichever way it ends, loading is off afterwards and the fields are as typed. */
    method HandleSubmit(w: Window, reply: Http.Reply<LoginBody>)
      modifies this, w
      ensures SignInRun(w.Snap(), errorMessage) == Run(old(w.Snap()), old(email), old(password), reply)
      ensures !loading && email == old(email) && password == old(password)
    {
      errorMessage := None;
      loading := true;
      if Trim(email) == "" || Trim(password) == "" {
        errorMessage := Some(RequiredMessage);
        loading := false;
        return;
      }
      w.Put(LoginPost(Trim(email), password));
      if reply.NetworkError? || reply.response.body.None? {
        errorMessage := Some(ConnectionMessage);
      } else {
        var data := reply.response.body.value;
        if data.success {
          w.SetItem(AccessTokenKey, Stringified(data.token));
          w.SetItem(UserKey, if data.user.Some? then data.user.value.json else "undefined");
          if data.user.None? {
            errorMessage := Some(ConnectionMessage);
          } else {
            w.Navigate(DashboardRoute);
          }
        } else {
          errorMessage := Some(if Truthy(data.message) then data.message.value else WrongCredentialsMessage);
        }
      }
      loading := false;
    }
  }
}
