/**
 * The route guard: a spinner while the auth store loads (or during the guard's own short
 * initial check), a redirect for a signed-out visitor, a redirect home for a non-admin on
 * an admin page, and the protected page otherwise.
 */
module ProtectedRoute {
  import opened Common
  import Routes

  const LoginMessage := "Please login to access this page"
  const AdminMessage := "Admin access required"

  datatype Render =
    | Spinner
    | Redirect(to: string, message: string)
    | Children

  /**
   * The guard's decision. `role` is `user?.role`; `requireAdmin` and `redirectTo` are the
   * optional props, which default to false and to the login route when not given.
   */
  function Decide(isLoading: bool, isChecking: bool, isAuthenticated: bool, role: Option<string>,
                  requireAdmin: Option<bool>, redirectTo: Option<string>): (r: Render)
    ensures isLoading || isChecking ==> r == Spinner
    ensures !isLoading && !isChecking && !isAuthenticated ==> r == Redirect(redirectTo.GetOr(Routes.Login), LoginMessage)
    ensures !isLoading && !isChecking && isAuthenticated && requireAdmin == Some(true) && role != Some("admin") ==>
              r == Redirect(Routes.Home, AdminMessage)
    ensures r == Children <==>
              !isLoading && !isChecking && isAuthenticated && (requireAdmin != Some(true) || role == Some("admin"))
  {
    if isLoading || isChecking then Spinner
    else if !isAuthenticated then Redirect(redirectTo.GetOr(Routes.Login), LoginMessage)
    else if requireAdmin.GetOr(false) && role != Some("admin") then Redirect(Routes.Home, AdminMessage)
    else Children
  }

  /**
   * Once loaded, an admin page is shown exactly to a signed-in admin; a page without the
   * admin flag is shown to every signed-in user, whatever the role.
   */
  lemma AdminPageOnlyForAdmins(isAuthenticated: bool, role: Option<string>)
    ensures Decide(false, false, isAuthenticated, role, Some(true), None) == Children <==> isAuthenticated && role == Some("admin")
    ensures isAuthenticated ==> Decide(false, false, isAuthenticated, role, None, None) == Children
    ensures !isAuthenticated ==> Decide(false, false, isAuthenticated, role, Some(true), None) == Redirect("/login", LoginMessage)
  {
  }
}
