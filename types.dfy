// The shared vocabulary of the front end (src/types/index.ts): idea statuses, user roles,
// review stages and review verdicts, with the wire names the back ends store as strings.
module Types {
  import opened Wrappers

  datatype IdeaStatus = Draft | Submitted | Flr | Slr | Pf | Patented | Rejected
  datatype UserRole = Applicant | Reviewer | Admin
  datatype ReviewStage = StageFlr | StageSlr | StagePf
  datatype ReviewStatus = Pending | Approved | ReviewRejected

  function IdeaStatusName(s: IdeaStatus): string
  {
    match s
    case Draft => "DRAFT"
    case Submitted => "SUBMITTED"
    case Flr => "FLR"
    case Slr => "SLR"
    case Pf => "PF"
    case Patented => "PATENTED"
    case Rejected => "REJECTED"
  }

  /** The status a wire name denotes, if it is one of the seven `IdeaStatus` names. */
  function ParseIdeaStatus(name: string): Option<IdeaStatus>
  {
    if name == "DRAFT" then Some(Draft)
    else if name == "SUBMITTED" then Some(Submitted)
    else if name == "FLR" then Some(Flr)
    else if name == "SLR" then Some(Slr)
    else if name == "PF" then Some(Pf)
    else if name == "PATENTED" then Some(Patented)
    else if name == "REJECTED" then Some(Rejected)
    else None
  }

  function RoleName(r: UserRole): string
  {
    match r
    case Applicant => "APPLICANT"
    case Reviewer => "REVIEWER"
    case Admin => "ADMIN"
  }

  function ParseRole(name: string): Option<UserRole>
  {
    if name == "APPLICANT" then Some(Applicant)
    else if name == "REVIEWER" then Some(Reviewer)
    else if name == "ADMIN" then Some(Admin)
    else None
  }

  function StageName(s: ReviewStage): string
  {
    match s
    case StageFlr => "FLR"
    case StageSlr => "SLR"
    case StagePf => "PF"
  }

  function ReviewStatusName(s: ReviewStatus): string
  {
    match s
    case Pending => "PENDING"
    case Approved => "APPROVED"
    case ReviewRejected => "REJECTED"
  }

  /** Status names and their parse are inverse to each other, in both directions. */
  lemma IdeaStatusNames(s: IdeaStatus, name: string)
    ensures ParseIdeaStatus(IdeaStatusName(s)) == Some(s)
    ensures ParseIdeaStatus(name) == Some(s) ==> IdeaStatusName(s) == name
  {
  }

  /** Role names and their parse are inverse to each other, in both directions. */
  lemma RoleNames(r: UserRole, name: string)
    ensures ParseRole(RoleName(r)) == Some(r)
    ensures ParseRole(name) == Some(r) ==> RoleName(r) == name
  {
  }

  /**
   * Of the three review verdicts only REJECTED also names an idea status: a back end that copies
   * a review's verdict into the idea's status leaves `IdeaStatus` on APPROVED and PENDING.
   */
  lemma VerdictAsIdeaStatus(v: ReviewStatus)
    ensures ParseIdeaStatus(ReviewStatusName(v)).Some? <==> v == ReviewRejected
    ensures v == ReviewRejected ==> ParseIdeaStatus(ReviewStatusName(v)) == Some(Rejected)
  {
  }

  /** Every stage name is also an idea status name. */
  lemma StageAsIdeaStatus(st: ReviewStage)
    ensures ParseIdeaStatus(StageName(st)).Some?
  {
  }
}
