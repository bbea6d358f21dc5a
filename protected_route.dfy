// The route guard (src/components/ProtectedRoute.tsx): what a protected page renders, given the
// identity provider's auth state and the roles the route admits.
module ProtectedRoute {
  import opened Wrappers
  import opened Types
  import opened Text

  /** The parts of the auth state the guard reads; `groups` is absent without an ID token or a groups claim. */
  datatype AuthState = AuthState(isAuthenticated: bool, groups: Option<seq<string>>)

  /** Nothing (still loading), a redirect to the login page remembering `from`, a redirect home, or the page. */
  datatype RouteOutcome = RenderNothing | RedirectToLogin(from: string) | RedirectToHome | RenderChildren

  /** The group a role is looked up under: its name lower-cased. */
  function GroupName(r: UserRole): string
  {
    ToLower(RoleName(r))
  }

  /** `groups?.includes(name)`: false when there are no groups. */
  predicate InGroups(groups: Option<seq<string>>, r: UserRole)
  {
    groups.Some? && GroupName(r) in groups.value
  }

  /** `allowedRoles.some(role => groups?.includes(role.toLowerCase()))`. */
  predicate SomeRoleInGroups(roles: seq<UserRole>, groups: Option<seq<string>>)
  {
    |roles| > 0 && (InGroups(groups, roles[0]) || SomeRoleInGroups(roles[1..], groups))
  }

  /** The guard's decision for the current `location`. */
  function Decide(authState: Option<AuthState>, allowedRoles: Option<seq<UserRole>>, location: string): (o: RouteOutcome)
    ensures authState.None? <==> o == RenderNothing
    ensures authState.Some? && !authState.value.isAuthenticated <==> o == RedirectToLogin(location)
    ensures authState.Some? && authState.value.isAuthenticated && allowedRoles.None? ==> o == RenderChildren
    ensures o == RedirectToHome ==> allowedRoles.Some?
  {
    match authState
    case None => RenderNothing
    case Some(state) =>
      if !state.isAuthenticated then RedirectToLogin(location)
      else if allowedRoles.Some? && !SomeRoleInGroups(allowedRoles.value, state.groups) then RedirectToHome
      else RenderChildren
  }

  /** The role names the guard compares against the groups claim. */
  lemma GroupNames()
    ensures GroupName(Applicant) == "applicant"
    ensures GroupName(Reviewer) == "reviewer"
    ensures GroupName(Admin) == "admin"
  {
  }

  /** `some` holds exactly when one of the roles' group names is among the groups. */
  lemma {:induction false} SomeRoleInGroupsIsExists(roles: seq<UserRole>, groups: Option<seq<string>>)
    ensures SomeRoleInGroups(roles, groups) <==> exists i :: 0 <= i < |roles| && InGroups(groups, roles[i])
  {
    if |roles| > 0 {
      SomeRoleInGroupsIsExists(roles[1..], groups);
      if InGroups(groups, roles[0]) {
        assert 0 < |roles| && InGroups(groups, roles[0]);
      }
      forall i | 1 <= i < |roles| && InGroups(groups, roles[i])
        ensures exists j :: 0 <= j < |roles[1..]| && InGroups(groups, roles[1..][j])
      {
        assert roles[1..][i - 1] == roles[i];
      }
    }
  }

  /**
   * An authenticated user reaches a route with a role list exactly when some listed role's
   * lower-cased name is one of the user's groups; otherwise the guard sends them home.
   */
  lemma AdmittedIff(state: AuthState, roles: seq<UserRole>, location: string)
    requires state.isAuthenticated
    ensures Decide(Some(state), Some(roles), location) == RenderChildren <==>
      state.groups.Some? && exists i :: 0 <= i < |roles| && GroupName(roles[i]) in state.groups.value
    ensures Decide(Some(state), Some(roles), location) != RenderChildren ==>
      Decide(Some(state), Some(roles), location) == RedirectToHome
  {
    SomeRoleInGroupsIsExists(roles, state.groups);
  }

  /** An empty role list admits nobody, and neither does a role list when the token has no groups. */
  lemma NothingToMatchRedirects(state: AuthState, roles: seq<UserRole>, location: string)
    requires state.isAuthenticated
    requires roles == [] || state.groups.None?
    ensures Decide(Some(state), Some(roles), location) == RedirectToHome
  {
    SomeRoleInGroupsIsExists(roles, state.groups);
  }

  /** Groups spelled as the upper-case role names do not match: the comparison is with the lower-cased name. */
  lemma UpperCaseGroupDoesNotMatch(r: UserRole, location: string)
    ensures Decide(Some(AuthState(true, Some([RoleName(r)]))), Some([r]), location) == RedirectToHome
  {
    GroupNames();
    assert GroupName(r) !in [RoleName(r)];
    assert !SomeRoleInGroups([r][1..], Some([RoleName(r)]));
  }
}
