/**
 * `ProtectedRoute`: the gate in front of private views. It shows a spinner
 * while the session store is loading, then renders the nested routes for an
 * authenticated user and redirects everyone else to the login page.
 */
module ProtectedRoute {
  import AuthContext

  const LoginPath: string := "/login"

  /** What the gate renders; `replace` is the redirect's history mode. */
  datatype Gate = Spinner | Outlet | Redirect(to: string, replace: bool)

  function Decide(loading: bool, isAuthenticated: bool): (g: Gate)
    ensures g.Spinner? <==> loading
    ensures g.Outlet? <==> !loading && isAuthenticated
    ensures g.Redirect? <==> !loading && !isAuthenticated
    ensures g.Redirect? ==> g == Redirect(LoginPath, true)
  {
    if loading then Spinner
    else if isAuthenticated then Outlet
    else Redirect(LoginPath, true)
  }

  /** The gate as the provider's state drives it. */
  function GateFor(s: AuthContext.ProviderState): (g: Gate)
    ensures g == Outlet <==> !s.loading && s.user.Some?
    ensures g == Spinner <==> s.loading
  {
    Decide(s.loading, AuthContext.Authenticated(s))
  }

  /** Once the mount effect has run the gate never shows the spinner, and it lets through exactly the restored user. */
  lemma GateAfterMount(items: map<string, string>, parse: string -> AuthContext.Parsed)
    ensures var s := AuthContext.MountEffect(AuthContext.Initial(items), parse);
      GateFor(s) != Spinner && (GateFor(s) == Outlet <==> s.user.Some?)
  {
  }

  /** Before the mount effect has run the gate always waits, whatever is stored. */
  lemma GateBeforeMount(items: map<string, string>)
    ensures GateFor(AuthContext.Initial(items)) == Spinner
  {
  }

  /** After `logout()` on a loaded provider the gate redirects to the login page. */
  lemma GateAfterLogout(s: AuthContext.ProviderState)
    requires !s.loading
    ensures GateFor(AuthContext.LogoutStep(s)) == Redirect(LoginPath, true)
  {
  }
}
