/**
 * How the independent role checks relate: the edge gate, the admin layout's
 * check, the auth provider's `isAdmin` and the sign-in route choice.
 */
module AccessPolicy {
  import opened Wrappers
  import opened Identity
  import EdgeGate
  import Text
  import AdminLayout
  import Auth
  import SignIn
  import UsersAdmin

  /**
   * With a user and an error-free lookup, the edge gate lets an `/admin…` request
   * through exactly when the layout grants access, and exactly when the auth
   * provider would report `isAdmin` after loading the same lookup.
   */
  lemma GatesAgree(path: string, u: User, lookup: ProfileLookup)
    requires Text.StartsWith(path, EdgeGate.AdminPrefix)
    requires !lookup.error
    ensures EdgeGate.Decide(path, Some(u), lookup) == EdgeGate.Next
        <==> AdminLayout.Check(Done(Some(u)), Done(lookup)) == AdminLayout.Granted
    ensures AdminLayout.Check(Done(Some(u)), Done(lookup)) == AdminLayout.Granted
        <==> IsAdminProfile(Auth.LoadedProfile(Done(lookup)))
  {
  }

  /**
   * The two gates part ways on a lookup that reports an error beside an admin row:
   * the edge gate only logs the error and lets the request through, the layout denies.
   */
  lemma GatesDifferOnLookupError(path: string, u: User, admin: Profile)
    requires Text.StartsWith(path, EdgeGate.AdminPrefix)
    requires admin.role == AdminRole
    ensures EdgeGate.Decide(path, Some(u), ProfileLookup(true, Some(admin))) == EdgeGate.Next
    ensures AdminLayout.Check(Done(Some(u)), Done(ProfileLookup(true, Some(admin))))
        == AdminLayout.Replace(AdminLayout.SignInReturnToAdmin)
  {
  }

  /**
   * A `manager` is routed to `/admin` after signing in, and both gates then turn
   * the same profile away: the edge gate sends it home, the layout back to sign-in.
   */
  lemma ManagerRoutedToAdminThenTurnedAway(u: User, manager: Profile)
    requires manager.role == ManagerRole
    ensures SignIn.Submit(Done(SignIn.SignInResponse(None, Some(u))), Done(Some(manager)))
        == SignIn.Navigate(SignIn.AdminPath)
    ensures EdgeGate.Decide(SignIn.AdminPath, Some(u), ProfileLookup(false, Some(manager)))
        == EdgeGate.Redirect(EdgeGate.HomePath, None)
    ensures AdminLayout.Check(Done(Some(u)), Done(ProfileLookup(false, Some(manager))))
        == AdminLayout.Replace(AdminLayout.SignInReturnToAdmin)
  {
    assert Text.StartsWith(SignIn.AdminPath, EdgeGate.AdminPrefix);
  }

  /**
   * Of the three roles the users page can assign, only `admin` opens the admin area,
   * at the edge and in the layout alike.
   */
  lemma OnlyAdminRoleEntersAdmin(path: string, u: User, p: Profile)
    requires Text.StartsWith(path, EdgeGate.AdminPrefix)
    requires p.role in UsersAdmin.SelectableRoles
    ensures EdgeGate.Decide(path, Some(u), ProfileLookup(false, Some(p))) == EdgeGate.Next <==> p.role == AdminRole
    ensures AdminLayout.Check(Done(Some(u)), Done(ProfileLookup(false, Some(p)))) == AdminLayout.Granted
        <==> p.role == AdminRole
  {
  }
}
