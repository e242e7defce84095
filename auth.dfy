/** The session store: who is signed in and whether the first session check is still running.
    The remote calls are replaced by their outcomes, which the caller supplies. */
module Auth {
  import opened Wrappers

  /** The signed-in identity as the session endpoint reports it. */
  datatype SessionUser = SessionUser(id: string, name: string, email: string, role: string)

  /** How a session check ended: an OK response carrying the body's `user` field (absent when the
      body has none), a non-OK response, or a thrown error (network failure or unreadable body). */
  datatype SessionCheckOutcome = Ok(user: Option<SessionUser>) | NotOk(status: int) | Threw

  /** How the remote logout call ended; the store ignores it. */
  datatype LogoutOutcome = LogoutResponded(status: int) | LogoutThrew

  /** The provider's two state slots. */
  class AuthSession {
    var user: Option<SessionUser>
    var loading: bool

    /** Mounting the provider: nobody signed in, session check pending. */
    constructor ()
      ensures user == None && loading
      ensures !IsAuthenticated()
    {
      user := None;
      loading := true;
    }

    /** The derived flag the rest of the dashboard reads. */
    function IsAuthenticated(): (r: bool)
      reads this
      ensures r <==> user.Some?
    {
      user.Some?
    }

    /** Signing in adopts the given identity; the loading flag is untouched. */
    method Login(userData: SessionUser)
      modifies this
      ensures user == Some(userData) && IsAuthenticated()
      ensures loading == old(loading)
    {
      user := Some(userData);
    }

    /** Signing out clears the identity whatever the remote call did; the loading flag is
        untouched. */
    method Logout(remote: LogoutOutcome)
      modifies this
      ensures user == None && !IsAuthenticated()
      ensures loading == old(loading)
    {
      user := None;
    }

    /** A session check: an OK response adopts the reported user, anything else signs out, and
        every outcome ends the loading phase. */
    method CheckSession(outcome: SessionCheckOutcome)
      modifies this
      ensures outcome.Ok? ==> user == outcome.user
      ensures !outcome.Ok? ==> user == None && !IsAuthenticated()
      ensures !loading
    {
      match outcome {
        case Ok(reported) => user := reported;
        case NotOk(_) => user := None;
        case Threw => user := None;
      }
      loading := false;
    }
  }
}
