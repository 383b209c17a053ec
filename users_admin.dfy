/** The user search of the admin users page (app/admin/users/page.tsx). */
module UsersAdmin {
  import opened Wrappers
  import Seqs
  import Text

  /** A `user_profiles` row as listed. */
  datatype UserRow = UserRow(id: string, fullName: Option<string>, role: string, phone: Option<string>)

  /** The roles the role selector offers. */
  const SelectableRoles: seq<string> := ["customer", "manager", "admin"]

  /**
   * The search test: the lowered search occurs in the lowered full name or in the
   * lowered role; a missing full name tests the role alone.
   */
  function MatchesUser(u: UserRow, search: string): (r: bool)
    ensures r <==>
      (u.fullName.Some? && Text.Occurs(Text.Lower(u.fullName.value), Text.Lower(search)))
      || Text.Occurs(Text.Lower(u.role), Text.Lower(search))
    ensures search == "" ==> r
  {
    Text.IncludesIffOccurs(Text.Lower(u.role), Text.Lower(search));
    NameSearch(u, search);
    || (u.fullName.Some? && Text.Includes(Text.Lower(u.fullName.value), Text.Lower(search)))
    || Text.Includes(Text.Lower(u.role), Text.Lower(search))
  }

  /** The name half of the search test, read as an occurrence. */
  lemma NameSearch(u: UserRow, search: string)
    ensures u.fullName.Some? ==>
      (Text.Includes(Text.Lower(u.fullName.value), Text.Lower(search))
       <==> exists i :: Text.OccursAt(Text.Lower(u.fullName.value), Text.Lower(search), i))
  {
    if u.fullName.Some? {
      Text.IncludesIffOccurs(Text.Lower(u.fullName.value), Text.Lower(search));
    }
  }

  /** `filteredUsers`: the rows passing the search test, in their listed order. */
  function FilterUsers(users: seq<UserRow>, search: string): (r: seq<UserRow>)
    ensures Seqs.IsSubseq(r, users)
    ensures forall u :: u in r <==> u in users && MatchesUser(u, search)
    ensures forall u :: multiset(r)[u] == if MatchesUser(u, search) then multiset(users)[u] else 0
  {
    var keep := (u: UserRow) => MatchesUser(u, search);
    Seqs.FilterMembership(keep, users);
    Seqs.Filter(keep, users)
  }

  /** An empty search lists everyone. */
  lemma EmptySearchListsAll(users: seq<UserRow>)
    ensures FilterUsers(users, "") == users
  {
    var keep := (u: UserRow) => MatchesUser(u, "");
    forall i | 0 <= i < |users| ensures keep(users[i]) {
      Text.IncludesEmpty(Text.Lower(users[i].role));
    }
    Seqs.FilterKeepsAll(keep, users);
  }

  /** A user without a full name is found exactly when the search occurs in the lowered role. */
  lemma NamelessMatchesOnRole(u: UserRow, search: string)
    requires u.fullName.None?
    ensures MatchesUser(u, search) <==> exists i :: Text.OccursAt(Text.Lower(u.role), Text.Lower(search), i)
  {
    assert MatchesUser(u, search) == Text.Includes(Text.Lower(u.role), Text.Lower(search));
    Text.IncludesIffOccurs(Text.Lower(u.role), Text.Lower(search));
  }

  /** `value || 'N/A'`: how an optional name or phone is shown; a cell is never blank. */
  function ShownOrNA(value: Option<string>): (r: string)
    ensures r != ""
    ensures value.Some? && value.value != "" ==> r == value.value
    ensures value.None? || value.value == "" ==> r == "N/A"
  {
    if value.Some? && value.value != "" then value.value else "N/A"
  }
}
