/** The login form (`handleSubmit` in frontend/src/pages/LoginPage.jsx): a
    presence check, then a request whose success hands the returned token
    to the authentication provider's `login` and empties the form. As for
    sign-up, `Submit` runs up to the `await` and `Settle` runs when the
    outcome is known; `pending` counts the requests awaited. */
module Login {
  import opened Options
  import opened Net
  import Auth

  const FIELDS_REQUIRED := "Email and password are required"
  const SERVER_FALLBACK := "Invalid credentials"
  const NETWORK_FALLBACK := "Error logging in"

  datatype LoginState = LoginState(
    email: string,
    password: string,
    error: string,
    isLoading: bool,
    pending: nat)

  function Mounted(): LoginState {
    LoginState("", "", "", false, 0)
  }

  function ValidationError(email: string, password: string): (r: Option<string>)
    ensures r.None? <==> email != "" && password != ""
    ensures r.Some? ==> r.value == FIELDS_REQUIRED
  {
    if email == "" || password == "" then Some(FIELDS_REQUIRED) else None
  }

  function Submitted(s: LoginState): LoginState {
    match ValidationError(s.email, s.password)
    case Some(message) => s.(error := message)
    case None => s.(error := "", isLoading := true, pending := s.pending + 1)
  }

  /** The form after the request: success empties the fields, failure shows
      the error; loading stops either way. */
  function Settled(s: LoginState, o: Outcome): LoginState
    requires s.pending > 0
  {
    var after :=
      if Succeeded(o) then s.(email := "", password := "")
      else s.(error := FailureText(o, SERVER_FALLBACK, NETWORK_FALLBACK));
    after.(isLoading := false, pending := s.pending - 1)
  }

  /** The provider after the request: `login(data.token)` on success only. */
  function SessionAfter(session: Auth.Session, decode: Auth.Decoder, o: Outcome): Auth.Session {
    if Succeeded(o) then Auth.LoggedIn(session, decode, o.token) else session
  }

  /** The submit button's `disabled`. */
  predicate SubmitDisabled(s: LoginState) {
    s.isLoading
  }

  class LoginPage {
    const auth: Auth.AuthProvider
    var email: string
    var password: string
    var error: string
    var isLoading: bool
    var pending: nat

    function State(): LoginState
      reads this
    {
      LoginState(email, password, error, isLoading, pending)
    }

    constructor (auth: Auth.AuthProvider)
      ensures this.auth == auth && State() == Mounted()
    {
      this.auth := auth;
      email, password, error, isLoading, pending := "", "", "", false, 0;
    }

    method SetEmail(value: string)
      modifies this
      ensures State() == old(State()).(email := value)
    {
      email := value;
    }

    method SetPassword(value: string)
      modifies this
      ensures State() == old(State()).(password := value)
    {
      password := value;
    }

    /** Runs the check; `sent` tells whether the request went out. */
    method Submit() returns (sent: bool)
      modifies this
      ensures State() == Submitted(old(State()))
      ensures sent <==> old(email) != "" && old(password) != ""
    {
      if email == "" || password == "" {
        error := FIELDS_REQUIRED;
        return false;
      }
      error := "";
      isLoading := true;
      pending := pending + 1;
      sent := true;
    }

    method Settle(o: Outcome)
      requires pending > 0
      modifies this, auth
      ensures State() == Settled(old(State()), o)
      ensures auth.State() == SessionAfter(old(auth.State()), auth.decode, o)
    {
      if Succeeded(o) {
        auth.Login(o.token);
        email := "";
        password := "";
      } else {
        error := FailureText(o, SERVER_FALLBACK, NETWORK_FALLBACK);
      }
      isLoading := false;
      pending := pending - 1;
    }
  }

  // ---------------------------------------------------------------------
  // Properties of the form

  /** An empty email or password only sets the error. */
  lemma RejectedSubmitOnlySetsError(s: LoginState)
    requires s.email == "" || s.password == ""
    ensures Submitted(s) == s.(error := FIELDS_REQUIRED)
  {
  }

  /** A passing submit clears the error and starts loading. */
  lemma AcceptedSubmitStartsLoading(s: LoginState)
    requires s.email != "" && s.password != ""
    ensures var r := Submitted(s);
      r.error == "" && r.isLoading && r.pending == s.pending + 1 &&
      r.email == s.email && r.password == s.password
  {
  }

  /** On success `login` receives exactly the response's token and the form
      is emptied; on failure the provider is untouched and the error is the
      server's message or "Invalid credentials" (or the network error).
      Loading is off after any outcome. */
  lemma SettleOutcome(s: LoginState, session: Auth.Session, decode: Auth.Decoder, o: Outcome)
    requires s.pending > 0
    ensures !Settled(s, o).isLoading
    ensures Succeeded(o) ==>
      SessionAfter(session, decode, o) == Auth.LoggedIn(session, decode, o.token) &&
      Settled(s, o).email == "" && Settled(s, o).password == "" && Settled(s, o).error == s.error
    ensures !Succeeded(o) ==> SessionAfter(session, decode, o) == session
    ensures o.Answered? && !o.ok ==> Settled(s, o).error == OrElse(o.message, SERVER_FALLBACK)
    ensures o.Rejected? ==> Settled(s, o).error == OrElse(Some(o.reason), NETWORK_FALLBACK)
  {
  }

  /** A successful login whose (non-empty) token decodes signs the user in with the
      token's claims and makes the token the request header. */
  lemma SuccessfulLoginAuthenticates(session: Auth.Session, decode: Auth.Decoder, t: string, c: Auth.Claims, message: Option<string>)
    requires t != "" && decode(t) == Some(c)
    ensures var r := SessionAfter(session, decode, Answered(true, message, Some(t)));
      r.isAuthenticated && r.user == Some(Auth.User(c.email, c.username)) &&
      r.token == Some(t) && r.stored == Some(t) &&
      Auth.AuthHeader(r) == map["Authorization" := t]
  {
  }

  /** An ok response without a token still calls `login`: the slot then
      holds the text "undefined", the token is missing and no header is
      sent, while the earlier sign-in state is kept. */
  lemma OkWithoutTokenStoresUndefined(session: Auth.Session, decode: Auth.Decoder, message: Option<string>)
    ensures var r := SessionAfter(session, decode, Answered(true, message, None));
      r.stored == Some("undefined") && r.token.None? && Auth.AuthHeader(r) == map[] &&
      r.isAuthenticated == session.isAuthenticated && r.user == session.user
  {
  }

  /** The button disables itself once a request goes out and re-enables
      when the outcome arrives. */
  lemma ButtonDisabledWhileAwaiting(s: LoginState, o: Outcome)
    requires s.email != "" && s.password != ""
    ensures SubmitDisabled(Submitted(s))
    ensures !SubmitDisabled(Settled(Submitted(s), o))
  {
  }
}
