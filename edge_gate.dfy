/**
 * The `/admin` gate of middleware.ts: the decision taken for each request once the
 * session user and, for admin paths, the profile lookup are known.
 */
module EdgeGate {
  import opened Wrappers
  import opened Identity
  import Text

  const AdminPrefix: string := "/admin"
  const SignInPath: string := "/signin"
  const HomePath: string := "/"

  /** The middleware's answer: let the request through, or redirect (with an optional `returnTo`). */
  datatype Response = Next | Redirect(location: string, returnTo: Option<string>)

  /**
   * The gate: a path outside `/admin…` passes whatever the user; an admin path without
   * a user goes to sign-in with the exact path as `returnTo`; an admin path passes only
   * for a profile row whose role is exactly `admin`, and otherwise goes home. A lookup
   * error is only logged: the row alone decides.
   */
  function Decide(path: string, user: Option<User>, lookup: ProfileLookup): (r: Response)
    ensures !Text.StartsWith(path, AdminPrefix) ==> r == Next
    ensures Text.StartsWith(path, AdminPrefix) && user.None? ==> r == Redirect(SignInPath, Some(path))
    ensures Text.StartsWith(path, AdminPrefix) && user.Some? && !IsAdminProfile(lookup.row) ==> r == Redirect(HomePath, None)
    ensures r == Next <==> !Text.StartsWith(path, AdminPrefix) || (user.Some? && IsAdminProfile(lookup.row))
  {
    if Text.StartsWith(path, AdminPrefix) then
      if user.None? then Redirect(SignInPath, Some(path))
      else if lookup.row.None? || lookup.row.value.role != AdminRole then Redirect(HomePath, None)
      else Next
    else Next
  }

  /** The lookup's error flag never changes the decision. */
  lemma ErrorFlagIgnored(path: string, user: Option<User>, row: Option<Profile>)
    ensures Decide(path, user, ProfileLookup(true, row)) == Decide(path, user, ProfileLookup(false, row))
  {
  }

  /** Requests for `/admin/goods`: no session, a customer, and an admin. */
  lemma GoodsScenarios(u: User, customer: Profile, admin: Profile)
    requires customer.role == CustomerRole && admin.role == AdminRole
    ensures Decide("/admin/goods", None, ProfileLookup(false, None)) == Redirect(SignInPath, Some("/admin/goods"))
    ensures Decide("/admin/goods", Some(u), ProfileLookup(false, Some(customer))) == Redirect(HomePath, None)
    ensures Decide("/admin/goods", Some(u), ProfileLookup(false, Some(admin))) == Next
  {
    assert Text.StartsWith("/admin/goods", AdminPrefix);
  }
}
