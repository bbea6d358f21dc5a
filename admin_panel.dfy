// The user list of the admin panel (src/pages/AdminPanel.tsx), narrowed by the role selector.
module AdminPanel {
  import opened Wrappers
  import Seqs

  /** A listed user; `role` is the wire string the API returns. */
  datatype ListedUser = ListedUser(id: string, email: string, name: string, role: string, department: string, lineOfBusiness: string)

  function HasRole(role: string): ListedUser -> bool
  {
    (u: ListedUser) => u.role == role
  }

  /** `filteredUsers`: nothing before users load, all of them with no role selected, else the users with that role. */
  function FilteredUsers(users: Option<seq<ListedUser>>, selectedRole: string): (r: seq<ListedUser>)
    ensures users.None? ==> r == []
    ensures users.Some? && selectedRole == "" ==> r == users.value
    ensures users.Some? ==> |r| <= |users.value| && Seqs.Sublist(r, users.value)
    ensures selectedRole != "" ==> forall i :: 0 <= i < |r| ==> r[i].role == selectedRole
  {
    match users
    case None => []
    case Some(list) =>
      if selectedRole == "" then
        Seqs.FilterAllPass(list, x => true);
        Seqs.FilterIsSublist(list, x => true);
        list
      else
        Seqs.FilterIsSublist(list, HasRole(selectedRole));
        Seqs.Filter(list, HasRole(selectedRole))
  }

  /**
   * With a role selected the result is exactly the users with that role: every one of them, as
   * many times as listed, and no other, in the list's order.
   */
  lemma SelectedRoleExact(users: seq<ListedUser>, selectedRole: string, u: ListedUser)
    requires selectedRole != ""
    ensures multiset(FilteredUsers(Some(users), selectedRole))[u]
      == if u.role == selectedRole then multiset(users)[u] else 0
  {
    Seqs.FilterMultiplicity(users, HasRole(selectedRole), u);
  }
}
