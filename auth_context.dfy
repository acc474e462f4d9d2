/** The auth provider: the signed-in user, a loading flag, the last error
    text and the stored session token, changed by the mount-time token check,
    login, register and logout. */
module AuthContext {
  import opened Remote
  import opened Entities

  const LoginFallback := "Login failed"
  const RegisterFallback := "Registration failed"

  /** The provider's state; `token` is the stored `auth_token`. */
  datatype Session = Session(user: Option<User>, isLoading: bool, error: Option<string>, token: Option<string>)

  /** A login or register reply; its `user` field may be missing. */
  datatype AuthReply = AuthReply(user: Option<User>)

  /** `isAuthenticated: !!user`. */
  function IsAuthenticated(s: Session): (signedIn: bool)
    ensures signedIn <==> s.user != None
  {
    s.user.Some?
  }

  /** The state after a handler ran and the error it rethrew, if any. */
  datatype Outcome = Outcome(session: Session, thrown: Option<ApiError>)

  /** `login` and `register` share one shape: loading is raised and the
      error cleared, a reply sets the user to the reply's user, a rejection
      keeps the user and records the server message or `fallback` before it
      is rethrown, and loading always ends false. */
  function AfterSignIn(s: Session, reply: Call<AuthReply>, fallback: string): (r: Outcome)
    ensures !r.session.isLoading && r.session.token == s.token
    ensures reply.Ok? ==> r.session.user == reply.value.user && r.session.error == None && r.thrown == None
    ensures reply.Ok? ==> (IsAuthenticated(r.session) <==> reply.value.user.Some?)
    ensures reply.Fail? ==>
      r.session.user == s.user && r.thrown == Some(reply.err) &&
      r.session.error == Some(ErrorText(reply.err, fallback))
    ensures reply.Fail? ==> (IsAuthenticated(r.session) <==> IsAuthenticated(s))
  {
    var started := s.(isLoading := true, error := None);
    var (ended, thrown) :=
      match reply
      case Ok(response) => (started.(user := response.user), None)
      case Fail(e) => (started.(error := Some(ErrorText(e, fallback))), Some(e));
    Outcome(ended.(isLoading := false), thrown)
  }

  /** A failed login or register always leaves an error text behind. */
  lemma FailedSignInReportsError(s: Session, e: ApiError)
    ensures AfterSignIn(s, Fail(e), LoginFallback).session.error.value != ""
    ensures AfterSignIn(s, Fail(e), RegisterFallback).session.error.value != ""
    ensures e.message.None? ==> AfterSignIn(s, Fail(e), LoginFallback).session.error == Some(LoginFallback)
    ensures e.message.None? ==> AfterSignIn(s, Fail(e), RegisterFallback).session.error == Some(RegisterFallback)
  {
  }

  /** `logout`: the user is gone; the client call is fired and not awaited. */
  function AfterLogout(s: Session): (t: Session)
    ensures !IsAuthenticated(t)
    ensures t.(user := s.user) == s
  {
    s.(user := None)
  }

  /** The mount effect: without a stored token (or with an empty one)
      nothing happens; otherwise the current user is looked up, and a failed
      lookup drops the token and the user. */
  function AfterMountCheck(s: Session, lookup: Call<Option<User>>): (t: Session)
    ensures s.token.None? || s.token.value == "" ==> t == s
    ensures s.token.Some? && s.token.value != "" && lookup.Ok? ==> t == s.(user := lookup.value)
    ensures s.token.Some? && s.token.value != "" && lookup.Fail? ==>
      t == s.(user := None, token := None) && !IsAuthenticated(t)
  {
    if s.token.None? || s.token.value == "" then s
    else
      match lookup
      case Ok(current) => s.(user := current)
      case Fail(_) => s.(token := None, user := None)
  }

  /** After a failed lookup there is no token left, so a second check does
      nothing. */
  lemma MountCheckSettles(s: Session, e: ApiError, lookup: Call<Option<User>>)
    requires s.token.Some? && s.token.value != ""
    ensures AfterMountCheck(AfterMountCheck(s, Fail(e)), lookup) == AfterMountCheck(s, Fail(e))
  {
  }

  class AuthProvider {
    var user: Option<User>
    var isLoading: bool
    var error: Option<string>
    var token: Option<string>

    function State(): Session
      reads this
    {
      Session(user, isLoading, error, token)
    }

    /** The provider starts signed out; `storedToken` is what storage holds. */
    constructor (storedToken: Option<string>)
      ensures State() == Session(None, false, None, storedToken)
    {
      user, isLoading, error, token := None, false, None, storedToken;
    }

    method CheckStoredToken(lookup: Call<Option<User>>)
      modifies this
      ensures State() == AfterMountCheck(old(State()), lookup)
    {
      if token.Some? && token.value != "" {
        match lookup {
          case Ok(current) =>
            user := current;
          case Fail(_) =>
            token := None;
            user := None;
        }
      }
    }

    method Login(email: string, password: string, reply: Call<AuthReply>) returns (thrown: Option<ApiError>)
      modifies this
      ensures Outcome(State(), thrown) == AfterSignIn(old(State()), reply, LoginFallback)
    {
      thrown := SignIn(reply, LoginFallback);
    }

    method Register(name: string, email: string, password: string, reply: Call<AuthReply>) returns (thrown: Option<ApiError>)
      modifies this
      ensures Outcome(State(), thrown) == AfterSignIn(old(State()), reply, RegisterFallback)
    {
      thrown := SignIn(reply, RegisterFallback);
    }

    /** The steps `login` and `register` share. */
    method SignIn(reply: Call<AuthReply>, fallback: string) returns (thrown: Option<ApiError>)
      modifies this
      ensures Outcome(State(), thrown) == AfterSignIn(old(State()), reply, fallback)
    {
      isLoading := true;
      error := None;
      match reply {
        case Ok(response) =>
          user := response.user;
          thrown := None;
        case Fail(e) =>
          error := Some(ErrorText(e, fallback));
          thrown := Some(e);
      }
      isLoading := false;
    }

    method Logout()
      modifies this
      ensures State() == AfterLogout(old(State()))
    {
      user := None;
    }
  }
}
