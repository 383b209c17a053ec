/**
 * The view-level check of app/admin/layout.tsx: the decision its mount effect takes,
 * and the `checking` / `mounted` flags around it.
 */
module AdminLayout {
  import opened Wrappers
  import opened Identity

  /** `/signin?returnTo=${encodeURIComponent('/admin')}`: the return target is always `/admin`. */
  const SignInReturnToAdmin: string := "/signin?returnTo=%2Fadmin"
  /** Where a thrown exception sends the browser: sign-in without a return target. */
  const BareSignIn: string := "/signin"

  /** What the check ends in: access, or `router.replace(target)`. */
  datatype Outcome = Granted | Replace(target: string)

  /**
   * The effect's decision over the outcomes of `auth.getUser()` and of the profile
   * lookup (each of which may throw). Only a profile row with role exactly `admin`,
   * looked up without error, grants access; a lookup error denies even when a row came
   * back; a thrown exception goes to bare sign-in; every other denial returns to `/admin`.
   */
  function Check(userCall: Call<Option<User>>, lookupCall: Call<ProfileLookup>): (r: Outcome)
    ensures r == Granted <==>
      userCall.Done? && userCall.value.Some? && lookupCall.Done? && !lookupCall.value.error
      && IsAdminProfile(lookupCall.value.row)
    ensures r.Replace? ==> r.target == SignInReturnToAdmin || r.target == BareSignIn
    ensures r == Replace(BareSignIn) <==> userCall.Threw? || (userCall.Done? && userCall.value.Some? && lookupCall.Threw?)
    ensures userCall.Done? && userCall.value.Some? && lookupCall.Done? && lookupCall.value.error
      ==> r == Replace(SignInReturnToAdmin)
  {
    match userCall
    case Threw(_) => Replace(BareSignIn)
    case Done(None) => Replace(SignInReturnToAdmin)
    case Done(Some(_)) =>
      match lookupCall
      case Threw(_) => Replace(BareSignIn)
      case Done(lookup) =>
        if lookup.error then Replace(SignInReturnToAdmin)
        else if lookup.row.None? || lookup.row.value.role != AdminRole then Replace(SignInReturnToAdmin)
        else Granted
  }

  /** What the layout renders. */
  datatype Screen = CheckingPermissions | AdminShell

  class AdminLayoutView {
    /** `checking`: true until the check has finished on a still-mounted layout. */
    var checking: bool
    /** The effect's local `mounted` flag, cleared by the effect's cleanup. */
    var mounted: bool
    /** The last `router.replace` target, if any. */
    var navigation: Option<string>

    /** The first render: checking, mounted, nowhere navigated. */
    constructor ()
      ensures checking && mounted && navigation == None
    {
      checking := true;
      mounted := true;
      navigation := None;
    }

    /** Only the "Checking permissions..." view shows while `checking` holds. */
    function View(): (s: Screen)
      reads this
      ensures s == CheckingPermissions <==> checking
    {
      if checking then CheckingPermissions else AdminShell
    }

    /** The effect's cleanup on unmount. */
    method Unmount()
      modifies this`mounted
      ensures !mounted
    {
      mounted := false;
    }

    /**
     * The mount effect run as one step: a denial replaces the route, and the
     * `finally` clears `checking` on every outcome provided the layout is still mounted.
     */
    method RunCheck(userCall: Call<Option<User>>, lookupCall: Call<ProfileLookup>) returns (r: Outcome)
      modifies this`checking, this`navigation
      ensures r == Check(userCall, lookupCall)
      ensures navigation == if r.Replace? then Some(r.target) else old(navigation)
      ensures checking == (old(checking) && !mounted)
    {
      r := Check(userCall, lookupCall);
      if r.Replace? {
        navigation := Some(r.target);
      }
      if mounted {
        checking := false;
      }
    }
  }

  /**
   * A denied check on a mounted layout clears `checking` like a granted one, so the
   * admin shell is what renders while the replaced route loads.
   */
  method DeniedWhileMounted(userCall: Call<Option<User>>, lookupCall: Call<ProfileLookup>)
    returns (screen: Screen, target: Option<string>)
    requires Check(userCall, lookupCall) != Granted
    ensures screen == AdminShell && target.Some? && target.value in {SignInReturnToAdmin, BareSignIn}
  {
    var layout := new AdminLayoutView();
    var r := layout.RunCheck(userCall, lookupCall);
    screen := layout.View();
    target := layout.navigation;
  }

  /** A layout unmounted before the check completes stays on the checking view. */
  method UnmountedStaysChecking(userCall: Call<Option<User>>, lookupCall: Call<ProfileLookup>)
    returns (screen: Screen)
    ensures screen == CheckingPermissions
  {
    var layout := new AdminLayoutView();
    layout.Unmount();
    var r := layout.RunCheck(userCall, lookupCall);
    screen := layout.View();
  }
}
