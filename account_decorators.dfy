/**
 * The access check in front of the operator and admin views
 * (apps/accounts/decorators.py): an anonymous user is sent to the login
 * page, a user whose role ranks below the required one is sent back to the
 * dashboard with an error, and anyone else gets the view's own response.
 */
module AccountDecorators {
  import opened AccountModels

  const DENIED_NOTE := "You do not have permission to access this page."

  /** The role hierarchy, with 0 for any name it does not list. */
  function Level(role: string): (n: nat)
    ensures n <= 2
    ensures n == 2 <==> role == ADMIN
    ensures n == 1 <==> role == OPERATOR
    ensures n == 0 <==> role != ADMIN && role != OPERATOR
  {
    if role == ADMIN then 2 else if role == OPERATOR then 1 else 0
  }

  /** What the wrapper does with a request. */
  datatype Decision<T> =
    | ToLogin                        // redirect("login")
    | ToDashboard(note: string)      // messages.error + redirect("dashboard")
    | Called(response: T)            // view_func's own response

  /** The user gets past `role_required(minRole)`. */
  predicate Admits(minRole: string, u: User) {
    u.authenticated && Level(u.role) >= Level(minRole)
  }

  /**
   * `role_required(minRole)` applied to a view, for one request: the view
   * runs only for an authenticated user whose level reaches the required
   * one, and its response is passed on unchanged.
   */
  function RoleRequired<T>(minRole: string, u: User, view: () -> T): (d: Decision<T>)
    ensures d == ToLogin <==> !u.authenticated
    ensures d.Called? <==> Admits(minRole, u)
    ensures d.Called? ==> d.response == view()
    ensures d.ToDashboard? ==> d.note == DENIED_NOTE
  {
    if !u.authenticated then ToLogin
    else if Level(u.role) < Level(minRole) then ToDashboard(DENIED_NOTE)
    else Called(view())
  }

  /** A user ranked at least as high as an admitted one is admitted too. */
  lemma AdmitsMonotone(minRole: string, u: User, v: User)
    requires Admits(minRole, u) && v.authenticated && Level(v.role) >= Level(u.role)
    ensures Admits(minRole, v)
  {
  }

  /** A required role the hierarchy does not list lets every signed-in user through. */
  lemma UnlistedRoleAdmitsAll(minRole: string, u: User)
    requires minRole != ADMIN && minRole != OPERATOR && minRole != VIEWER
    ensures Admits(minRole, u) <==> u.authenticated
  {
  }

  /** An authenticated administrator passes every check. */
  lemma AdminPassesAll(minRole: string, u: User)
    requires u.authenticated && IsAdmin(u)
    ensures Admits(minRole, u)
  {
  }

  /** The operator gate admits exactly the signed-in users `is_operator` holds for. */
  lemma OperatorGate(u: User)
    ensures Admits(OPERATOR, u) <==> u.authenticated && IsOperator(u)
  {
  }

  /** The viewer gate admits every signed-in user, as `is_viewer` holds for all. */
  lemma ViewerGate(u: User)
    ensures Admits(VIEWER, u) <==> u.authenticated && IsViewer(u)
  {
  }

  /** The admin gate admits exactly the signed-in users `is_admin` holds for. */
  lemma AdminGate(u: User)
    ensures Admits(ADMIN, u) <==> u.authenticated && IsAdmin(u)
  {
  }
}
