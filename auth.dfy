/**
 * The auth provider of contexts/AuthContext.tsx: the `user`, `profile` and
 * `isLoading` state and the handlers that set it, each run as one atomic step
 * over the abstract results of the identity service and the profile lookup.
 */
module Auth {
  import opened Wrappers
  import opened Identity

  /**
   * The profile `loadUserProfile` settles on: the returned row, or none when the
   * lookup reports an error, returns no row, or throws.
   */
  function LoadedProfile(lookupCall: Call<ProfileLookup>): (r: Option<Profile>)
    ensures r.Some? <==> lookupCall.Done? && !lookupCall.value.error && lookupCall.value.row.Some?
    ensures r.Some? ==> r == lookupCall.value.row
  {
    match lookupCall
    case Threw(_) => None
    case Done(lookup) => if lookup.error then None else lookup.row
  }

  class AuthProvider {
    var user: Option<User>
    var profile: Option<Profile>
    var isLoading: bool

    /** No profile is held without a user. */
    ghost predicate Valid()
      reads this
    {
      user.None? ==> profile.None?
    }

    /** The initial state: no user, no profile, loading. */
    constructor ()
      ensures Valid()
      ensures user == None && profile == None && isLoading
    {
      user := None;
      profile := None;
      isLoading := true;
    }

    /** `isAdmin`: an `admin` profile is loaded, which never happens without a user. */
    function IsAdmin(): (r: bool)
      reads this
      requires Valid()
      ensures r <==> profile.Some? && profile.value.role == AdminRole
      ensures r ==> user.Some?
    {
      IsAdminProfile(profile)
    }

    /** `loadUserProfile`, which swallows every failure into an absent profile. */
    method LoadUserProfile(lookupCall: Call<ProfileLookup>)
      modifies this`profile
      ensures profile == LoadedProfile(lookupCall)
    {
      match lookupCall {
        case Threw(_) =>
          profile := None;
        case Done(lookup) =>
          if lookup.error {
            profile := None;
          } else if lookup.row.None? {
            profile := None;
          } else {
            profile := lookup.row;
          }
      }
    }

    /**
     * `refreshAuth`: takes the current user and loads its profile (none without a
     * user); if `getUser` throws, both are cleared. Loading is over afterwards.
     */
    method RefreshAuth(userCall: Call<Option<User>>, lookupCall: Call<ProfileLookup>)
      requires Valid()
      modifies this
      ensures Valid()
      ensures !isLoading
      ensures userCall.Threw? ==> user == None && profile == None
      ensures userCall.Done? ==> user == userCall.value
      ensures userCall.Done? && userCall.value.Some? ==> profile == LoadedProfile(lookupCall)
      ensures userCall.Done? && userCall.value.None? ==> profile == None
    {
      isLoading := true;
      match userCall {
        case Threw(_) =>
          user := None;
          profile := None;
        case Done(current) =>
          user := current;
          if current.Some? {
            LoadUserProfile(lookupCall);
          } else {
            profile := None;
          }
      }
      isLoading := false;
    }

    /** The `onAuthStateChange` handler, given the session's user. */
    method OnAuthStateChange(sessionUser: Option<User>, lookupCall: Call<ProfileLookup>)
      requires Valid()
      modifies this
      ensures Valid()
      ensures !isLoading
      ensures user == sessionUser
      ensures profile == if sessionUser.Some? then LoadedProfile(lookupCall) else None
    {
      user := sessionUser;
      if sessionUser.Some? {
        LoadUserProfile(lookupCall);
      } else {
        profile := None;
      }
      isLoading := false;
    }

    /** `signOut`: clears user and profile, unless the sign-out call throws, which changes nothing. */
    method SignOut(signOutCall: Call<()>)
      requires Valid()
      modifies this
      ensures Valid()
      ensures signOutCall.Done? ==> user == None && profile == None && !IsAdmin()
      ensures signOutCall.Threw? ==> user == old(user) && profile == old(profile)
      ensures isLoading == old(isLoading)
    {
      if signOutCall.Done? {
        user := None;
        profile := None;
      }
    }
  }

  /** `isAdmin` after a profile load holds exactly for an error-free lookup returning an admin row. */
  lemma LoadedAdmin(lookupCall: Call<ProfileLookup>)
    ensures IsAdminProfile(LoadedProfile(lookupCall)) <==>
      lookupCall.Done? && !lookupCall.value.error && IsAdminProfile(lookupCall.value.row)
  {
  }

  /** A session that starts, loads an admin profile and signs out ends without admin rights. */
  method AdminSessionEnds(u: User, admin: Profile) returns (wasAdmin: bool, isAdmin: bool)
    requires admin.role == AdminRole
    ensures wasAdmin && !isAdmin
  {
    var auth := new AuthProvider();
    auth.RefreshAuth(Done(Some(u)), Done(ProfileLookup(false, Some(admin))));
    wasAdmin := auth.IsAdmin();
    auth.SignOut(Done(()));
    isAdmin := auth.IsAdmin();
  }
}
