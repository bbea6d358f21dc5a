// The reviewer's list (src/pages/ReviewDashboard.tsx): the loaded ideas filtered by a search
// term and the filter panel's state.
module ReviewDashboard {
  import opened Wrappers
  import opened Text
  import opened FilterPanel
  import Seqs

  /** The fields of a loaded idea the filter looks at; status is whatever the back end stored. */
  datatype IdeaView = IdeaView(id: string, title: string, description: string, status: string, lineOfBusiness: string)

  predicate MatchesSearch(idea: IdeaView, term: string)
  {
    term == ""
    || Includes(ToLower(idea.title), ToLower(term))
    || Includes(ToLower(idea.description), ToLower(term))
  }

  predicate MatchesStatus(idea: IdeaView, filters: FilterState)
  {
    |filters.status| == 0 || idea.status in filters.status
  }

  predicate MatchesLoB(idea: IdeaView, filters: FilterState)
  {
    |filters.lineOfBusiness| == 0 || idea.lineOfBusiness in filters.lineOfBusiness
  }

  /** The date criterion is a placeholder that accepts every idea. */
  predicate MatchesDate(idea: IdeaView, filters: FilterState)
  {
    true
  }

  predicate Matches(idea: IdeaView, term: string, filters: FilterState)
  {
    MatchesSearch(idea, term) && MatchesStatus(idea, filters) && MatchesLoB(idea, filters) && MatchesDate(idea, filters)
  }

  /** The filter callback, as one function value. */
  function Criterion(term: string, filters: FilterState): IdeaView -> bool
  {
    idea => Matches(idea, term, filters)
  }

  /** `filteredIdeas`: nothing while no ideas are loaded, else the matching ideas in list order. */
  function FilteredIdeas(ideas: Option<seq<IdeaView>>, term: string, filters: FilterState): (r: seq<IdeaView>)
    ensures ideas.None? ==> r == []
    ensures ideas.Some? ==> Seqs.Sublist(r, ideas.value)
    ensures forall i :: 0 <= i < |r| ==> Matches(r[i], term, filters)
    ensures |filters.status| > 0 ==> forall i :: 0 <= i < |r| ==> r[i].status in filters.status
    ensures |filters.lineOfBusiness| > 0 ==> forall i :: 0 <= i < |r| ==> r[i].lineOfBusiness in filters.lineOfBusiness
  {
    match ideas
    case None => []
    case Some(list) =>
      Seqs.FilterIsSublist(list, Criterion(term, filters));
      Seqs.Filter(list, Criterion(term, filters))
  }

  /** An idea is listed exactly when it is loaded and matches every criterion. */
  lemma FilteredMembership(ideas: seq<IdeaView>, term: string, filters: FilterState, idea: IdeaView)
    ensures idea in FilteredIdeas(Some(ideas), term, filters) <==> idea in ideas && Matches(idea, term, filters)
  {
    Seqs.FilterMembership(ideas, Criterion(term, filters), idea);
  }

  /** A matching idea is listed as often as it is loaded; an idea that does not match, never. */
  lemma FilteredMultiplicity(ideas: seq<IdeaView>, term: string, filters: FilterState, idea: IdeaView)
    ensures multiset(FilteredIdeas(Some(ideas), term, filters))[idea] ==
      if Matches(idea, term, filters) then multiset(ideas)[idea] else 0
  {
    Seqs.FilterMultiplicity(ideas, Criterion(term, filters), idea);
  }

  /** With no search term and nothing ticked, every loaded idea is listed. */
  lemma NoCriteriaListsAll(ideas: seq<IdeaView>, dateRange: string)
    ensures FilteredIdeas(Some(ideas), "", FilterState([], [], dateRange)) == ideas
  {
    Seqs.FilterAllPass(ideas, Criterion("", FilterState([], [], dateRange)));
  }

  /**
   * Search is case-insensitive substring search: an idea matches exactly when the lower-cased
   * term occurs in its lower-cased title or description (the empty term occurs everywhere, so
   * the explicit `searchTerm === ''` test changes nothing).
   */
  lemma SearchIsSubstring(idea: IdeaView, term: string)
    ensures MatchesSearch(idea, term) <==>
      (exists i :: OccursAt(ToLower(idea.title), ToLower(term), i))
      || (exists i :: OccursAt(ToLower(idea.description), ToLower(term), i))
  {
    IncludesIsSubstring(ToLower(idea.title), ToLower(term));
    IncludesIsSubstring(ToLower(idea.description), ToLower(term));
    ToLowerEmpty(term);
    if term == "" {
      IncludesEmpty(ToLower(idea.title));
    }
  }

  /** Changing the case of the search term never changes which ideas match. */
  lemma SearchIgnoresCase(idea: IdeaView, term: string)
    ensures MatchesSearch(idea, ToLower(term)) == MatchesSearch(idea, term)
  {
    ToLowerIdempotent(term);
    ToLowerEmpty(term);
  }

  /** The date range never excludes an idea: the listing is the same for every date range. */
  lemma DateRangeIrrelevant(ideas: Option<seq<IdeaView>>, term: string, filters: FilterState, range: string)
    ensures FilteredIdeas(ideas, term, filters.(dateRange := range)) == FilteredIdeas(ideas, term, filters)
  {
    if ideas.Some? {
      Seqs.FilterAgree(ideas.value, Criterion(term, filters.(dateRange := range)), Criterion(term, filters));
    }
  }
}
