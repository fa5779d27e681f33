/**
 * The route guard (src/components/ProtectedRoute.tsx): a spinner while the
 * session is being checked, a redirect for visitors without the right, the
 * page itself otherwise.
 */
module RouteGuard {
  import opened Basics
  import opened ClientApi
  import opened AuthSession

  datatype Access = Spinner | Redirect(to: string) | RenderChildren

  /** `ProtectedRoute`; `requiresAdmin` is false unless given. */
  function Decide(loading: bool, isAuthenticated: bool, isAdmin: bool, requiresAdmin: bool := false): (a: Access)
    ensures loading ==> a == Spinner
    ensures !loading && !isAuthenticated ==> a == Redirect("/admin")
    ensures !loading && isAuthenticated && requiresAdmin && !isAdmin ==> a == Redirect("/")
    ensures a == RenderChildren <==> !loading && isAuthenticated && (!requiresAdmin || isAdmin)
  {
    if loading then Spinner
    else if !isAuthenticated then Redirect("/admin")
    else if requiresAdmin && !isAdmin then Redirect("/")
    else RenderChildren
  }

  /** Over a real session an administrator-only page opens exactly for a signed-in administrator. */
  lemma AdminPageOpensForAdminsOnly(user: Option<User>, loading: bool)
    ensures Decide(loading, IsAuthenticated(user), IsAdmin(user), true) == RenderChildren
      <==> !loading && IsAdmin(user)
    ensures Decide(loading, IsAuthenticated(user), IsAdmin(user)) == RenderChildren
      <==> !loading && IsAuthenticated(user)
  {
    AdminIsAuthenticated(user);
  }

  /** After the administrator signs in the admin pages open; after a logout they send the visitor to sign in. */
  lemma GuardFollowsSession(s: Session, stringify: User -> string)
    ensures var signedIn := AfterLogin(s, AdminEmail, AdminPassword, stringify).0;
      Decide(false, IsAuthenticated(signedIn.user), IsAdmin(signedIn.user), true) == RenderChildren
    ensures var out := AfterLogout(s);
      Decide(false, IsAuthenticated(out.user), IsAdmin(out.user), true) == Redirect("/admin")
  {
    LoginSucceedsExactly(s, AdminEmail, AdminPassword, stringify);
  }
}
