/** The authentication provider (`AuthProvider` in
    frontend/src/contexts/AuthContext.jsx): the raw token, the signed-in user,
    the authenticated and loading flags, and the one persisted slot
    `localStorage['token']`.

    Decoding a JSON Web Token (the `jwt-decode` library) is external: it is a
    total function supplied by the caller, where `None` stands for the error
    the library throws. Time is `Date.now()`, an integer count of
    milliseconds, so the source's `exp < Date.now() / 1000` is written
    exactly as `exp * 1000 < nowMs`. */
module Auth {
  import opened Options

  /** The claims read from a token's payload: `exp` (the expiry, in seconds
      since the epoch, section 4.1.4 of RFC 7519), `email` and `username`;
      each may be missing. */
  datatype Claims = Claims(exp: Option<int>, email: Option<string>, username: Option<string>)

  /** The `user` object the provider publishes: `{email, username}`. */
  datatype User = User(email: Option<string>, username: Option<string>)

  /** `jwtDecode`. */
  type Decoder = string -> Option<Claims>

  /** The provider's state. `token` is the React state, where `None` is an
      absent token: `null` read from an empty slot at mount, or `undefined`
      from a response whose body has no `token` field. `stored` is the
      `localStorage` slot. */
  datatype Session = Session(
    token: Option<string>,
    user: Option<User>,
    isAuthenticated: bool,
    isLoading: bool,
    stored: Option<string>)

  /** JavaScript truthiness of a string that may be missing. */
  predicate Truthy(t: Option<string>) {
    t.Some? && t.value != ""
  }

  function UserOf(c: Claims): User {
    User(c.email, c.username)
  }

  /** The state when the provider mounts: the token state starts as the
      stored token when that is truthy, and loading is on. */
  function Mounted(stored: Option<string>): Session {
    Session(if Truthy(stored) then stored else None, None, false, true, stored)
  }

  /** The startup expiry test `decoded.exp && decoded.exp < now`: a missing
      or zero `exp` never counts as expired here. */
  predicate ExpiredAtStartup(c: Claims, nowMs: int) {
    c.exp.Some? && c.exp.value != 0 && c.exp.value * 1000 < nowMs
  }

  /** `logout`: the slot is removed and the session forgotten; the loading
      flag is not touched. */
  function LoggedOut(s: Session): Session {
    s.(stored := None, token := None, user := None, isAuthenticated := false)
  }

  /** `initializeAuth`: validate a stored token, then stop loading. */
  function Initialized(s: Session, decode: Decoder, nowMs: int): Session {
    var settled :=
      if !Truthy(s.stored) then s
      else match decode(s.stored.value)
        case None => LoggedOut(s)
        case Some(c) =>
          if ExpiredAtStartup(c, nowMs) then LoggedOut(s)
          else s.(token := s.stored, user := Some(UserOf(c)), isAuthenticated := true);
    settled.(isLoading := false)
  }

  /** What `localStorage.setItem` keeps: the string, or the text
      "undefined" when the token is `undefined` (a response without a
      `token` field; a JSON `null` token is not expressible here). */
  function StoredText(t: Option<string>): string {
    if t.Some? then t.value else "undefined"
  }

  /** `login(newToken)`: the token is always stored and kept; user and
      authentication are updated only when the token decodes. */
  function LoggedIn(s: Session, decode: Decoder, newToken: Option<string>): Session {
    var written := s.(stored := Some(StoredText(newToken)), token := newToken);
    if newToken.Some? && decode(newToken.value).Some? then
      written.(user := Some(UserOf(decode(newToken.value).value)), isAuthenticated := true)
    else
      written
  }

  /** `isTokenExpired()`. A missing `exp` compares as `undefined < now`,
      which is false. */
  predicate IsTokenExpired(s: Session, decode: Decoder, nowMs: int) {
    if !Truthy(s.token) then true
    else match decode(s.token.value)
      case None => true
      case Some(c) => c.exp.Some? && c.exp.value * 1000 < nowMs
  }

  /** `getAuthHeader()`. */
  function AuthHeader(s: Session): map<string, string> {
    if Truthy(s.token) then map["Authorization" := s.token.value] else map[]
  }

  class AuthProvider {
    const decode: Decoder
    var token: Option<string>
    var user: Option<User>
    var isAuthenticated: bool
    var isLoading: bool
    var stored: Option<string>

    function State(): Session
      reads this
    {
      Session(token, user, isAuthenticated, isLoading, stored)
    }

    constructor (decode: Decoder, stored: Option<string>)
      ensures this.decode == decode
      ensures State() == Mounted(stored)
    {
      this.decode := decode;
      token := if Truthy(stored) then stored else None;
      user := None;
      isAuthenticated := false;
      isLoading := true;
      this.stored := stored;
    }

    method InitializeAuth(nowMs: int)
      modifies this
      ensures State() == Initialized(old(State()), decode, nowMs)
    {
      var storedToken := stored;
      if Truthy(storedToken) {
        match decode(storedToken.value) {
          case None =>
            Logout();
          case Some(decoded) =>
            if ExpiredAtStartup(decoded, nowMs) {
              Logout();
            } else {
              token := storedToken;
              user := Some(UserOf(decoded));
              isAuthenticated := true;
            }
        }
      }
      isLoading := false;
    }

    method Login(newToken: Option<string>)
      modifies this
      ensures State() == LoggedIn(old(State()), decode, newToken)
    {
      stored := Some(StoredText(newToken));
      token := newToken;
      if newToken.Some? {
        var decoded := decode(newToken.value);
        if decoded.Some? {
          user := Some(User(decoded.value.email, decoded.value.username));
          isAuthenticated := true;
        }
      }
    }

    method Logout()
      modifies this
      ensures State() == LoggedOut(old(State()))
    {
      stored := None;
      token := None;
      user := None;
      isAuthenticated := false;
    }
  }

  // ---------------------------------------------------------------------
  // Properties of the provider's transitions

  /** Start-up always ends loading; with no truthy stored token nothing else
      changes. */
  lemma InitializeEndsLoading(s: Session, decode: Decoder, nowMs: int)
    ensures !Initialized(s, decode, nowMs).isLoading
    ensures !Truthy(s.stored) ==> Initialized(s, decode, nowMs) == s.(isLoading := false)
  {
  }

  /** At start-up a stored token that does not decode is discarded: the slot
      is cleared and the session is signed out. */
  lemma InitializeRejectsUndecodable(s: Session, decode: Decoder, nowMs: int)
    requires Truthy(s.stored) && decode(s.stored.value).None?
    ensures var r := Initialized(s, decode, nowMs);
      r == LoggedOut(s).(isLoading := false) &&
      r.stored.None? && r.token.None? && r.user.None? && !r.isAuthenticated
  {
  }

  /** At start-up a stored token whose non-zero `exp` lies strictly before
      the current time is discarded like an undecodable one. */
  lemma InitializeRejectsExpired(s: Session, decode: Decoder, nowMs: int, c: Claims)
    requires Truthy(s.stored) && decode(s.stored.value) == Some(c)
    requires c.exp.Some? && c.exp.value != 0 && c.exp.value * 1000 < nowMs
    ensures var r := Initialized(s, decode, nowMs);
      r == LoggedOut(s).(isLoading := false) &&
      r.stored.None? && r.token.None? && r.user.None? && !r.isAuthenticated
  {
  }

  /** At start-up a decodable stored token that is not expired is accepted,
      and this includes a missing or zero `exp` and an `exp` equal to the
      current second: the token is published and the user is taken from the
      claims. */
  lemma InitializeAcceptsValid(s: Session, decode: Decoder, nowMs: int, c: Claims)
    requires Truthy(s.stored) && decode(s.stored.value) == Some(c)
    requires c.exp.None? || c.exp.value == 0 || c.exp.value * 1000 >= nowMs
    ensures var r := Initialized(s, decode, nowMs);
      r.token == s.stored && r.stored == s.stored &&
      r.user == Some(User(c.email, c.username)) && r.isAuthenticated && !r.isLoading
  {
  }

  /** Start-up authenticates exactly when a truthy stored token decodes and
      is not expired (or, with nothing stored, when the session already was
      authenticated), and it touches the slot at most by clearing it. */
  lemma InitializeOutcome(s: Session, decode: Decoder, nowMs: int)
    ensures var r := Initialized(s, decode, nowMs);
      r.isAuthenticated <==>
        if Truthy(s.stored) then
          decode(s.stored.value).Some? && !ExpiredAtStartup(decode(s.stored.value).value, nowMs)
        else s.isAuthenticated
    ensures var r := Initialized(s, decode, nowMs); r.stored == s.stored || r.stored.None?
  {
  }

  /** `login` always writes the token to the slot and to the state. A token
      that decodes signs the user in with the claims' user; one that does
      not leaves user and authentication as they were. Loading is not
      touched. */
  lemma LoginPersistsToken(s: Session, decode: Decoder, newToken: Option<string>)
    ensures var r := LoggedIn(s, decode, newToken);
      r.stored == Some(StoredText(newToken)) && r.token == newToken && r.isLoading == s.isLoading
    ensures var r := LoggedIn(s, decode, newToken);
      newToken.Some? && decode(newToken.value).Some? ==>
        r.isAuthenticated && r.user == Some(UserOf(decode(newToken.value).value))
    ensures var r := LoggedIn(s, decode, newToken);
      (newToken.None? || decode(newToken.value).None?) ==>
        r.isAuthenticated == s.isAuthenticated && r.user == s.user
  {
  }

  /** A `login` with a token that does not decode, made while signed in,
      stays signed in with the previous user but holds the new token. */
  lemma LoginUndecodableKeepsPreviousUser(s: Session, decode: Decoder, t: string)
    requires s.isAuthenticated && decode(t).None?
    ensures var r := LoggedIn(s, decode, Some(t));
      r.isAuthenticated && r.user == s.user && r.token == Some(t) && r.stored == Some(t)
  {
  }

  /** `logout` is unconditional and idempotent: its result does not depend on
      the session it starts from (only the loading flag is carried over), so
      a second call changes nothing. */
  lemma LogoutIdempotent(s: Session, other: Session)
    ensures LoggedOut(LoggedOut(s)) == LoggedOut(s)
    ensures other.isLoading == s.isLoading ==> LoggedOut(other) == LoggedOut(s)
    ensures var r := LoggedOut(s); r.stored.None? && r.token.None? && r.user.None? && !r.isAuthenticated
  {
  }

  /** `isTokenExpired` is true without a truthy token or when it does not
      decode; otherwise it is `exp < now`, false when `exp` is missing. */
  lemma TokenExpiredCases(s: Session, decode: Decoder, nowMs: int)
    ensures !Truthy(s.token) ==> IsTokenExpired(s, decode, nowMs)
    ensures Truthy(s.token) && decode(s.token.value).None? ==> IsTokenExpired(s, decode, nowMs)
    ensures Truthy(s.token) && decode(s.token.value).Some? ==>
      (IsTokenExpired(s, decode, nowMs) <==>
        var c := decode(s.token.value).value; c.exp.Some? && c.exp.value * 1000 < nowMs)
  {
  }

  /** The two expiry tests agree on a token accepted at start-up whose `exp`
      is not zero: at the same instant `isTokenExpired` says it is live. */
  lemma AcceptedTokenIsLive(s: Session, decode: Decoder, nowMs: int, c: Claims)
    requires Truthy(s.stored) && decode(s.stored.value) == Some(c)
    requires !ExpiredAtStartup(c, nowMs) && c.exp != Some(0)
    ensures !IsTokenExpired(Initialized(s, decode, nowMs), decode, nowMs)
  {
  }

  /** The two tests disagree on `exp == 0`: start-up accepts such a token,
      yet `isTokenExpired` reports it expired at any positive time. */
  lemma ZeroExpiryAcceptedButExpired(s: Session, decode: Decoder, nowMs: int, c: Claims)
    requires Truthy(s.stored) && decode(s.stored.value) == Some(c)
    requires c.exp == Some(0) && nowMs > 0
    ensures Initialized(s, decode, nowMs).isAuthenticated
    ensures IsTokenExpired(Initialized(s, decode, nowMs), decode, nowMs)
  {
  }

  /** `getAuthHeader` carries `Authorization: token` exactly when the token
      is truthy, and is empty otherwise. */
  lemma AuthHeaderCases(s: Session)
    ensures "Authorization" in AuthHeader(s) <==> Truthy(s.token)
    ensures Truthy(s.token) ==> AuthHeader(s) == map["Authorization" := s.token.value]
    ensures !Truthy(s.token) ==> AuthHeader(s) == map[]
  {
  }
}
