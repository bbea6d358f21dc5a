// The review filter panel (src/components/FilterPanel.tsx): each handler builds a new filter
// state from the current one, stores it and reports the same value to the dashboard.
module FilterPanel {
  import opened Wrappers
  import Seqs

  datatype FilterState = FilterState(status: seq<string>, lineOfBusiness: seq<string>, dateRange: string)

  /** What a handler does with the state it builds: `setFilters(stored)` and `onFilterChange(reported)`. */
  datatype Update = Update(stored: FilterState, reported: FilterState)

  const AllTime: string := "all"

  /** The panel's first state: the dashboard's filters when given; an empty date range falls back to 'all'. */
  function InitialState(initial: Option<FilterState>): (f: FilterState)
    ensures initial.None? ==> f == FilterState([], [], AllTime)
    ensures initial.Some? ==> f.status == initial.value.status && f.lineOfBusiness == initial.value.lineOfBusiness
    ensures f.dateRange != ""
    ensures initial.Some? && initial.value.dateRange == "" ==> f.dateRange == AllTime
    ensures initial.Some? && initial.value.dateRange != "" ==> f.dateRange == initial.value.dateRange
  {
    match initial
    case None => FilterState([], [], AllTime)
    case Some(init) =>
      FilterState(init.status, init.lineOfBusiness, if init.dateRange == "" then AllTime else init.dateRange)
  }

  /** A checkbox click: drop every occurrence of a ticked value, append an unticked one at the end. */
  function Toggle(values: seq<string>, v: string): (r: seq<string>)
    ensures v in values ==> v !in r && Seqs.Sublist(r, values)
    ensures v in values ==> forall w :: multiset(r)[w] == if w == v then 0 else multiset(values)[w]
    ensures v !in values ==> r == values + [v]
  {
    if v in values then
      Seqs.RemoveAllIsSublist(values, v);
      Seqs.RemoveAllMultiplicity(values, v);
      Seqs.RemoveAll(values, v)
    else values + [v]
  }

  /** Ticking a value twice gives back the original list. */
  lemma ToggleTwice(values: seq<string>, v: string)
    requires v !in values
    ensures Toggle(Toggle(values, v), v) == values
  {
    Seqs.RemoveAllAfterAppend(values, v);
  }

  /** Unticking keeps every other value, in order; ticking keeps all and adds `v`. */
  lemma ToggleMembership(values: seq<string>, v: string, w: string)
    ensures w in Toggle(values, v) <==> (w in values) != (w == v)
  {
    if v in values {
      Seqs.RemoveAllMembership(values, v, w);
    }
  }

  function Emit(f: FilterState): Update
  {
    Update(f, f)
  }

  /** `handleStatusChange`: toggles one status; line of business and date range are kept. */
  function HandleStatusChange(f: FilterState, status: string): (u: Update)
    ensures u.stored == u.reported
    ensures u.stored.status == Toggle(f.status, status)
    ensures u.stored.lineOfBusiness == f.lineOfBusiness && u.stored.dateRange == f.dateRange
  {
    Emit(f.(status := Toggle(f.status, status)))
  }

  /** `handleLoBChange`: toggles one line of business; status and date range are kept. */
  function HandleLoBChange(f: FilterState, lob: string): (u: Update)
    ensures u.stored == u.reported
    ensures u.stored.lineOfBusiness == Toggle(f.lineOfBusiness, lob)
    ensures u.stored.status == f.status && u.stored.dateRange == f.dateRange
  {
    Emit(f.(lineOfBusiness := Toggle(f.lineOfBusiness, lob)))
  }

  /** `handleDateRangeChange`: replaces the date range only. */
  function HandleDateRangeChange(f: FilterState, range: string): (u: Update)
    ensures u.stored == u.reported
    ensures u.stored.dateRange == range
    ensures u.stored.status == f.status && u.stored.lineOfBusiness == f.lineOfBusiness
  {
    Emit(f.(dateRange := range))
  }

  /** The "Clear All Filters" button: nothing ticked, all time. */
  function ClearAll(): (u: Update)
    ensures u.stored == u.reported == FilterState([], [], AllTime)
  {
    Emit(FilterState([], [], AllTime))
  }

  /** Clicking an unticked status twice restores the whole filter state. */
  lemma StatusClickTwice(f: FilterState, status: string)
    requires status !in f.status
    ensures HandleStatusChange(HandleStatusChange(f, status).stored, status).stored == f
  {
    ToggleTwice(f.status, status);
  }
}
