// The page frame (src/components/Layout.tsx): which navigation links a signed-in user sees.
module Layout {
  import opened Wrappers
  import opened Types

  datatype NavLink = DashboardLink | SubmitLink | ReviewLink | AdminLink

  /** The nested `user.user` of the stored session, with its role as stored. */
  datatype SessionUser = SessionUser(role: string)

  /** The stored session; `user` is missing when the session is a bare user record. */
  datatype Session = Session(user: Option<SessionUser>)

  /** Nothing without a session, a TypeError reading `user.user.role` without a nested user, or the links. */
  datatype LayoutView = Nothing | TypeError | Shown(links: seq<NavLink>)

  /** The navigation bar, links in display order. */
  function NavLinks(session: Option<Session>): (v: LayoutView)
    ensures session.None? <==> v == Nothing
    ensures session.Some? && session.value.user.None? <==> v == TypeError
    ensures v.Shown? ==> |v.links| >= 2 && v.links[0] == DashboardLink && v.links[1] == SubmitLink
    ensures v.Shown? ==> var role := session.value.user.value.role;
      && (ReviewLink in v.links <==> role == RoleName(Reviewer) || role == RoleName(Admin))
      && (AdminLink in v.links <==> role == RoleName(Admin))
    ensures v.Shown? ==> var role := session.value.user.value.role;
      v.links == if role == RoleName(Admin) then [DashboardLink, SubmitLink, ReviewLink, AdminLink]
                 else if role == RoleName(Reviewer) then [DashboardLink, SubmitLink, ReviewLink]
                 else [DashboardLink, SubmitLink]
  {
    match session
    case None => Nothing
    case Some(s) =>
      match s.user
      case None => TypeError
      case Some(u) =>
        Shown([DashboardLink, SubmitLink]
              + (if u.role == RoleName(Reviewer) || u.role == RoleName(Admin) then [ReviewLink] else [])
              + (if u.role == RoleName(Admin) then [AdminLink] else []))
  }

  /** An applicant sees only Dashboard and Submit. */
  lemma ApplicantLinks()
    ensures NavLinks(Some(Session(Some(SessionUser(RoleName(Applicant)))))) == Shown([DashboardLink, SubmitLink])
  {
  }

  /** Whoever sees the Admin link also sees the Review link. */
  lemma AdminImpliesReview(session: Option<Session>)
    requires NavLinks(session).Shown? && AdminLink in NavLinks(session).links
    ensures ReviewLink in NavLinks(session).links
  {
  }

  /** A role stored in any other spelling (say lower case) shows only Dashboard and Submit. */
  lemma UnknownRoleLinks(role: string)
    requires ParseRole(role).None? || role == RoleName(Applicant)
    ensures NavLinks(Some(Session(Some(SessionUser(role))))) == Shown([DashboardLink, SubmitLink])
  {
  }
}
