/**
 * The sign-in page: the required-field check of the login form, the login request and
 * the route chosen by role, and the outcome of a registration.
 */
module AuthPage {
  import opened Wrappers
  import opened Entities
  import opened RegisterForm
  import opened UserContext

  const LOGIN_FAILED_MESSAGE := "Ocurrió un error al iniciar sesión."
  const REGISTER_FAILED_MESSAGE := "Ocurrió un error al registrarse."

  /** The `loginErrors` record: which of the two fields was left empty. */
  datatype LoginErrors = LoginErrors(email: bool, password: bool)

  /** `Object.values(loginErrors).includes(true)`. */
  predicate AnyFlagged(e: LoginErrors) {
    e.email || e.password
  }

  /** The route after signing in: customers go to `/`, every other role to `/admin`. */
  function RouteFor(role: string): (path: string)
    ensures path == "/" <==> role == CUSTOMER
    ensures path == "/admin" <==> role != CUSTOMER
  {
    if role == CUSTOMER then "/" else "/admin"
  }

  /**
   * How an authentication request ended: an ok response with the user and token, a non-ok
   * response with the server's message, or an exception (network error or unreadable body).
   */
  datatype AuthReply = Success(user: User, token: string) | Rejected(message: string) | Failed

  /** The page's state, sharing the session store. */
  class AuthPageState {
    const session: UserProvider
    var loginEmail: string
    var loginPassword: string
    var loginError: string
    var loginErrors: LoginErrors

    constructor (session: UserProvider)
      ensures this.session == session
      ensures loginEmail == "" && loginPassword == "" && loginError == ""
      ensures loginErrors == LoginErrors(false, false)
    {
      this.session := session;
      loginEmail, loginPassword, loginError := "", "", "";
      loginErrors := LoginErrors(false, false);
    }

    /**
     * `handleLoginSubmit`: each empty field is flagged on its own and a flagged form sends
     * nothing (`sent` is false). `reply` is how the request ended; `route` is where the
     * page navigates, if anywhere.
     */
    method LoginSubmit(reply: AuthReply) returns (sent: bool, route: Option<string>)
      modifies this`loginErrors, this`loginError, session
      ensures loginErrors.email <==> loginEmail == ""
      ensures loginErrors.password <==> loginPassword == ""
      ensures sent <==> !AnyFlagged(loginErrors)
      ensures !sent || !reply.Success? ==>
                route.None? && session.user == old(session.user) && session.token == old(session.token)
                && session.storage == old(session.storage)
      ensures !sent ==> loginError == old(loginError)
      ensures sent && reply.Success? ==>
                && session.user == Some(reply.user) && session.token == Some(reply.token)
                && session.storage == SyncToken(SyncUser(old(session.storage), Some(reply.user)), Some(reply.token))
                && session.Valid() && route == Some(RouteFor(reply.user.role)) && loginError == old(loginError)
      ensures sent && reply.Rejected? ==> loginError == reply.message
      ensures sent && reply.Failed? ==> loginError == LOGIN_FAILED_MESSAGE
    {
      loginErrors := LoginErrors(loginEmail == "", loginPassword == "");
      if loginErrors.email || loginErrors.password {
        return false, None;
      }
      sent := true;
      match reply
      case Success(u, t) =>
        session.Login(Some(u), Some(t));
        route := Some(RouteFor(u.role));
      case Rejected(message) =>
        loginError := message;
        route := None;
      case Failed =>
        loginError := LOGIN_FAILED_MESSAGE;
        route := None;
    }

    /** `handleRegisterSubmit(userData)`: the form's registration is sent; a success signs in and goes to `/`. */
    method RegisterSubmit(userData: Registration, reply: AuthReply) returns (request: Registration, route: Option<string>)
      modifies this`loginError, session
      ensures request == userData
      ensures reply.Success? ==>
                && session.user == Some(reply.user) && session.token == Some(reply.token)
                && session.storage == SyncToken(SyncUser(old(session.storage), Some(reply.user)), Some(reply.token))
                && session.Valid() && route == Some("/") && loginError == old(loginError)
      ensures !reply.Success? ==>
                route.None? && session.user == old(session.user) && session.token == old(session.token)
                && session.storage == old(session.storage)
      ensures reply.Rejected? ==> loginError == reply.message
      ensures reply.Failed? ==> loginError == REGISTER_FAILED_MESSAGE
    {
      request := userData;
      match reply
      case Success(u, t) =>
        session.Login(Some(u), Some(t));
        route := Some("/");
      case Rejected(message) =>
        loginError := message;
        route := None;
      case Failed =>
        loginError := REGISTER_FAILED_MESSAGE;
        route := None;
    }
  }
}
