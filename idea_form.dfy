// The co-applicant picker of the idea form (src/components/IdeaForm.tsx): a list of e-mail
// addresses with a cap of four and no repeats.
module IdeaForm {
  import opened Wrappers
  import Seqs

  const MaxCoApplicants: nat := 4

  /** The picker's first list: the initial data's co-applicants, or none. */
  function InitialCoApplicants(initial: Option<seq<string>>): (r: seq<string>)
    ensures initial.Some? ==> r == initial.value
    ensures initial.None? ==> r == []
  {
    initial.GetOr([])
  }

  /** `addCoApplicant`: appends a new address while fewer than four are listed. */
  function AddCoApplicant(list: seq<string>, email: string): (r: seq<string>)
    ensures |list| < MaxCoApplicants && email !in list ==> r == list + [email]
    ensures |list| >= MaxCoApplicants || email in list ==> r == list
  {
    if |list| < MaxCoApplicants && email !in list then list + [email] else list
  }

  /** `removeCoApplicant`: drops every occurrence of the address, keeping the rest in order. */
  function RemoveCoApplicant(list: seq<string>, email: string): (r: seq<string>)
    ensures email !in r
    ensures Seqs.Sublist(r, list)
    ensures forall e :: multiset(r)[e] == if e == email then 0 else multiset(list)[e]
  {
    Seqs.RemoveAllIsSublist(list, email);
    Seqs.RemoveAllMultiplicity(list, email);
    Seqs.RemoveAll(list, email)
  }

  /** The picker's invariant: at most four addresses, none twice. */
  ghost predicate WellFormed(list: seq<string>)
  {
    |list| <= MaxCoApplicants && Seqs.NoDuplicates(list)
  }

  /** Adding keeps the invariant and never makes the list longer than four, from any list within the cap. */
  lemma AddKeepsWellFormed(list: seq<string>, email: string)
    requires WellFormed(list)
    ensures WellFormed(AddCoApplicant(list, email))
  {
  }

  /** The list after an add holds the old addresses plus `email` exactly when `email` was admitted. */
  lemma AddMembership(list: seq<string>, email: string, other: string)
    ensures other in AddCoApplicant(list, email) <==>
      other in list || (other == email && |list| < MaxCoApplicants)
  {
  }

  /** Removing keeps the invariant. */
  lemma RemoveKeepsWellFormed(list: seq<string>, email: string)
    requires WellFormed(list)
    ensures WellFormed(RemoveCoApplicant(list, email))
  {
    Seqs.SublistKeepsNoDuplicates(RemoveCoApplicant(list, email), list);
  }

  /** Removal keeps exactly the other addresses. */
  lemma RemoveMembership(list: seq<string>, email: string, other: string)
    ensures other in RemoveCoApplicant(list, email) <==> other in list && other != email
  {
    Seqs.RemoveAllMembership(list, email, other);
  }

  /** Removing an address just added gives back the list it was added to. */
  lemma RemoveUndoesAdd(list: seq<string>, email: string)
    requires email !in list
    ensures RemoveCoApplicant(AddCoApplicant(list, email), email) == list
  {
    if |list| < MaxCoApplicants {
      Seqs.RemoveAllAfterAppend(list, email);
    } else {
      Seqs.RemoveAllAbsent(list, email);
    }
  }
}
