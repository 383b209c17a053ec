/** The identity and profile values the access decisions read: abstract results of backend calls. */
module Identity {
  import opened Wrappers

  /** The signed-in user the identity service returns; only its id is used. */
  datatype User = User(id: string)

  /** A `user_profiles` row. */
  datatype Profile = Profile(id: string, role: string, fullName: Option<string>, email: Option<string>)

  /** The result of a `.maybeSingle()` profile lookup: an error flag beside at most one row. */
  datatype ProfileLookup = ProfileLookup(error: bool, row: Option<Profile>)

  const AdminRole: string := "admin"
  const ManagerRole: string := "manager"
  const CustomerRole: string := "customer"

  /** `profile?.role === 'admin'`: a present profile whose role is exactly `admin`. */
  predicate IsAdminProfile(profile: Option<Profile>)
  {
    profile.Some? && profile.value.role == AdminRole
  }
}
