/** The guard around protected pages: a spinner while the session check runs, a redirect to the
    login page when nobody is signed in, the page with its top bar otherwise. */
module RouteGuard {
  import opened Wrappers
  import Auth

  const LOGIN_ROUTE := "/pages/admin/login"

  datatype Decision = Placeholder | RedirectToLogin | RenderChildren

  /** What is on screen. */
  datatype View = Spinner | Nothing | TopBarAndChildren

  /** The guard's decision on the session flags. It never redirects while loading. */
  function Decide(loading: bool, isAuthenticated: bool): (d: Decision)
    ensures loading ==> d == Placeholder
    ensures d == RedirectToLogin <==> !loading && !isAuthenticated
    ensures d == RenderChildren <==> !loading && isAuthenticated
  {
    if loading then Placeholder
    else if !isAuthenticated then RedirectToLogin
    else RenderChildren
  }

  /** The view a decision renders. */
  function Rendered(d: Decision): (v: View)
    ensures v == Spinner <==> d == Placeholder
    ensures v == Nothing <==> d == RedirectToLogin
  {
    match d
    case Placeholder => Spinner
    case RedirectToLogin => Nothing
    case RenderChildren => TopBarAndChildren
  }

  /** The navigation a decision performs, if any: only a redirect navigates, to the login page. */
  function Navigation(d: Decision): (target: Option<string>)
    ensures target.Some? <==> d == RedirectToLogin
    ensures target.Some? ==> target.value == LOGIN_ROUTE
  {
    if d == RedirectToLogin then Some(LOGIN_ROUTE) else None
  }

  /** Navigation happens if and only if loading is over and nobody is signed in; the login
      page is then the target and nothing is rendered. */
  lemma NavigatesIff(loading: bool, isAuthenticated: bool)
    ensures Navigation(Decide(loading, isAuthenticated)).Some? <==> !loading && !isAuthenticated
    ensures Navigation(Decide(loading, isAuthenticated)).Some? ==>
      Rendered(Decide(loading, isAuthenticated)) == Nothing
  {
  }

  /** The guard reading the session store's flags. */
  function GuardOf(session: Auth.AuthSession): (d: Decision)
    reads session
    ensures session.loading ==> d == Placeholder
    ensures d == RedirectToLogin <==> !session.loading && session.user.None?
    ensures d == RenderChildren <==> !session.loading && session.user.Some?
  {
    Decide(session.loading, session.IsAuthenticated())
  }
}
