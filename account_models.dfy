/**
 * The user record (apps/accounts/models.py): a Django user with one of
 * three roles, `viewer` by default, and the role predicates.
 */
module AccountModels {

  const ADMIN := "admin"
  const OPERATOR := "operator"
  const VIEWER := "viewer"
  /** The role a new user gets. */
  const DEFAULT_ROLE := VIEWER

  /** What the access checks read of `request.user`. */
  datatype User = User(role: string, authenticated: bool)

  /** `is_admin`: the `admin` role and no other. */
  predicate IsAdmin(u: User): (b: bool)
    ensures b <==> u.role == ADMIN
  {
    u.role == ADMIN
  }

  /** `is_operator`: administrators and operators, never viewers. */
  predicate IsOperator(u: User): (b: bool)
    ensures b <==> u.role == ADMIN || u.role == OPERATOR
    ensures u.role == VIEWER ==> !b
  {
    u.role == ADMIN || u.role == OPERATOR
  }

  /** `is_viewer`: every user may view, whatever the role. */
  predicate IsViewer(u: User): (b: bool)
    ensures b
  {
    true
  }

  /** An administrator is an operator. */
  lemma AdminIsOperator(u: User)
    ensures IsAdmin(u) ==> IsOperator(u)
  {
  }
}
