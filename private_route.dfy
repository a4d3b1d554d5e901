/** The route gate of src/components/PrivateRoute.jsx: a spinner while the session is
    loading, the protected outlet when a token and a user are both present, and otherwise a
    redirect to the login page that replaces the current history entry. */
module PrivateRoute {
  import opened Common
  import opened Auth

  datatype Screen = Spinner | Outlet | Redirect(to: Navigation)

  function Decide(loading: bool, token: Option<string>, user: Option<Profile>): (r: Screen)
    ensures r == Spinner <==> loading
    ensures r == Outlet <==> !loading && HasToken(token) && user.Some?
    ensures r.Redirect? ==> r.to == Navigate("/login", true)
  {
    if loading then Spinner
    else if HasToken(token) && user.Some? then Outlet
    else Redirect(Navigate("/login", true))
  }

  /** A missing or empty token, or a missing user, redirects once loading is over. */
  lemma RedirectWithoutIdentity(token: Option<string>, user: Option<Profile>)
    requires !HasToken(token) || user.None?
    ensures Decide(false, token, user) == Redirect(Navigate("/login", true))
  {
  }

  /** After `logout`, whatever the state before, the gate redirects once loading is over. */
  lemma RedirectAfterLogout(s: Session)
    ensures Decide(false, LoggedOut(s).token, LoggedOut(s).user) == Redirect(Navigate("/login", true))
  {
  }

  /** Logging out and then running the identity effect (which React does because the token
      changed) ends on the login redirect, from the methods' contracts alone. */
  method LogoutThenGate(p: AuthProvider) returns (screen: Screen)
    requires p.Valid()
    modifies p
    ensures p.Valid()
    ensures screen == Redirect(Navigate("/login", true))
  {
    p.Logout();
    var fetching := p.StartIdentityEffect();
    assert !fetching;
    screen := Decide(p.loading, p.token, p.user);
  }

  /** A failed login followed by the identity effect ends on the login redirect. */
  method FailedLoginThenGate(p: AuthProvider, credentials: Fetch<LoginBody>, identity: IdentityReply)
    returns (ok: bool, screen: Screen)
    requires p.Valid()
    requires !credentials.Ok?
    modifies p
    ensures !ok
    ensures screen == Redirect(Navigate("/login", true))
  {
    ghost var trace;
    ok, trace := p.Login(credentials, identity);
    var fetching := p.StartIdentityEffect();
    screen := Decide(p.loading, p.token, p.user);
  }
}
