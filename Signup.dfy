/** The sign-up form (`handleSubmit` in frontend/src/pages/SignupPage.jsx):
    an ordered chain of checks in which the first failure wins, then a
    request whose outcome either resets the form with a success message or
    shows an error. The request is split in two steps: `Submit` runs up to
    the `await`, `Settle` runs when the outcome is known; `pending` counts
    the requests awaited. */
module Signup {
  import opened Options
  import opened Net

  const MIN_PASSWORD_LENGTH := 8
  const FIELDS_REQUIRED := "All fields are required"
  const PASSWORD_TOO_SHORT := "Password must be at least 8 characters"
  const TERMS_REQUIRED := "You must agree to the Terms of Service and Privacy Policy"
  const SIGNED_UP := "Signup successful! Redirecting to login..."
  const SERVER_FALLBACK := "Error signing up"
  const NETWORK_FALLBACK := "Error connecting to server"

  datatype SignupState = SignupState(
    username: string,
    email: string,
    password: string,
    agreeTerms: bool,
    error: string,
    success: string,
    isLoading: bool,
    pending: nat)

  function Mounted(): SignupState {
    SignupState("", "", "", false, "", "", false, 0)
  }

  /** The validation chain: the message of the first failing check, or
      `None` when every check passes. */
  function ValidationError(username: string, email: string, password: string, agreeTerms: bool): (r: Option<string>)
    ensures r.None? <==> username != "" && email != "" && |password| >= MIN_PASSWORD_LENGTH && agreeTerms
  {
    if username == "" || email == "" || password == "" then Some(FIELDS_REQUIRED)
    else if |password| < MIN_PASSWORD_LENGTH then Some(PASSWORD_TOO_SHORT)
    else if !agreeTerms then Some(TERMS_REQUIRED)
    else None
  }

  /** `handleSubmit` up to the request: a failed check only shows its
      message; otherwise the error is cleared, loading starts and the
      request is sent. */
  function Submitted(s: SignupState): SignupState {
    match ValidationError(s.username, s.email, s.password, s.agreeTerms)
    case Some(message) => s.(error := message)
    case None => s.(error := "", isLoading := true, pending := s.pending + 1)
  }

  /** `handleSubmit` after the request: success resets the form and shows
      the success message, failure shows the error; loading stops either
      way. */
  function Settled(s: SignupState, o: Outcome): SignupState
    requires s.pending > 0
  {
    var after :=
      if Succeeded(o) then
        s.(success := SIGNED_UP, username := "", email := "", password := "", agreeTerms := false)
      else
        s.(error := FailureText(o, SERVER_FALLBACK, NETWORK_FALLBACK));
    after.(isLoading := false, pending := s.pending - 1)
  }

  /** The submit button's `disabled`. */
  predicate SubmitDisabled(s: SignupState) {
    s.isLoading || !s.agreeTerms
  }

  class SignupPage {
    var username: string
    var email: string
    var password: string
    var agreeTerms: bool
    var error: string
    var success: string
    var isLoading: bool
    var pending: nat

    function State(): SignupState
      reads this
    {
      SignupState(username, email, password, agreeTerms, error, success, isLoading, pending)
    }

    constructor ()
      ensures State() == Mounted()
    {
      username, email, password, agreeTerms := "", "", "", false;
      error, success, isLoading, pending := "", "", false, 0;
    }

    method SetUsername(value: string)
      modifies this
      ensures State() == old(State()).(username := value)
    {
      username := value;
    }

    method SetEmail(value: string)
      modifies this
      ensures State() == old(State()).(email := value)
    {
      email := value;
    }

    method SetPassword(value: string)
      modifies this
      ensures State() == old(State()).(password := value)
    {
      password := value;
    }

    method SetAgreeTerms(value: bool)
      modifies this
      ensures State() == old(State()).(agreeTerms := value)
    {
      agreeTerms := value;
    }

    /** Runs the checks; `sent` tells whether the request went out. */
    method Submit() returns (sent: bool)
      modifies this
      ensures State() == Submitted(old(State()))
      ensures sent <==> ValidationError(old(username), old(email), old(password), old(agreeTerms)).None?
    {
      if username == "" || email == "" || password == "" {
        error := FIELDS_REQUIRED;
        return false;
      }
      if |password| < MIN_PASSWORD_LENGTH {
        error := PASSWORD_TOO_SHORT;
        return false;
      }
      if !agreeTerms {
        error := TERMS_REQUIRED;
        return false;
      }
      error := "";
      isLoading := true;
      pending := pending + 1;
      sent := true;
    }

    method Settle(o: Outcome)
      requires pending > 0
      modifies this
      ensures State() == Settled(old(State()), o)
    {
      if Succeeded(o) {
        success := SIGNED_UP;
        username := "";
        email := "";
        password := "";
        agreeTerms := false;
      } else {
        error := FailureText(o, SERVER_FALLBACK, NETWORK_FALLBACK);
      }
      isLoading := false;
      pending := pending - 1;
    }
  }

  // ---------------------------------------------------------------------
  // Properties of the form

  /** The checks run in order and the first failure wins: missing fields,
      then a short password, then the terms. A password of exactly eight
      characters is long enough. */
  lemma ValidationOrder(username: string, email: string, password: string, agreeTerms: bool)
    ensures username == "" || email == "" || password == "" ==>
      ValidationError(username, email, password, agreeTerms) == Some(FIELDS_REQUIRED)
    ensures username != "" && email != "" && password != "" && |password| < MIN_PASSWORD_LENGTH ==>
      ValidationError(username, email, password, agreeTerms) == Some(PASSWORD_TOO_SHORT)
    ensures username != "" && email != "" && |password| >= MIN_PASSWORD_LENGTH && !agreeTerms ==>
      ValidationError(username, email, password, agreeTerms) == Some(TERMS_REQUIRED)
    ensures username != "" && email != "" && |password| == 8 && agreeTerms ==>
      ValidationError(username, email, password, agreeTerms).None?
  {
  }

  /** A failed check only sets the error: no request, no loading change, and
      the fields stay as typed. */
  lemma RejectedSubmitOnlySetsError(s: SignupState)
    requires ValidationError(s.username, s.email, s.password, s.agreeTerms).Some?
    ensures Submitted(s) == s.(error := ValidationError(s.username, s.email, s.password, s.agreeTerms).value)
    ensures Submitted(s).pending == s.pending && Submitted(s).error != ""
  {
  }

  /** A passing submit clears the error and starts loading before the
      request. */
  lemma AcceptedSubmitStartsLoading(s: SignupState)
    requires ValidationError(s.username, s.email, s.password, s.agreeTerms).None?
    ensures var r := Submitted(s);
      r.error == "" && r.isLoading && r.pending == s.pending + 1 &&
      r.username == s.username && r.email == s.email && r.password == s.password && r.agreeTerms
  {
  }

  /** After any outcome loading is off. A success shows the success message
      and empties the form (unticking the terms); a failure shows the
      server's message or "Error signing up" (or the network error) and
      keeps the form. */
  lemma SettleOutcome(s: SignupState, o: Outcome)
    requires s.pending > 0
    ensures var r := Settled(s, o); !r.isLoading && r.pending == s.pending - 1
    ensures Succeeded(o) ==> var r := Settled(s, o);
      r.success == SIGNED_UP && r.username == "" && r.email == "" && r.password == "" &&
      !r.agreeTerms && r.error == s.error
    ensures o.Answered? && !o.ok ==> var r := Settled(s, o);
      r.error == OrElse(o.message, SERVER_FALLBACK) &&
      r.username == s.username && r.email == s.email && r.password == s.password &&
      r.agreeTerms == s.agreeTerms && r.success == s.success
    ensures o.Rejected? ==> Settled(s, o).error == OrElse(Some(o.reason), NETWORK_FALLBACK)
  {
  }

  /** The terms check can fail only while the submit button is disabled, so
      its message is reached only by submitting the form some other way. */
  lemma TermsErrorOnlyWhileDisabled(s: SignupState)
    requires ValidationError(s.username, s.email, s.password, s.agreeTerms) == Some(TERMS_REQUIRED)
    ensures SubmitDisabled(s)
  {
  }

  /** The button disables itself once a request goes out; when the outcome
      arrives it is enabled again after a failure, but stays disabled after
      a success because the terms box has been unticked. */
  lemma ButtonDisabledWhileAwaiting(s: SignupState, o: Outcome)
    requires ValidationError(s.username, s.email, s.password, s.agreeTerms).None?
    ensures SubmitDisabled(Submitted(s))
    ensures SubmitDisabled(Settled(Submitted(s), o)) <==> Succeeded(o)
  {
  }
}
