/** The filter bar of the repairs list: the filter state, whether any filter is
    "active", the removable chips shown for active criteria, and the sort
    options offered. The sentinels 'all' and 'unassigned' are variants here. */
module RepairFilters {
  import opened Domain

  datatype StatusFilter = AnyStatus | StatusIs(status: RepairStatus)

  datatype PriorityFilter = AnyPriority | PriorityIs(priority: Priority)

  /** 'all', 'unassigned', or a technician id. */
  datatype TechnicianFilter = AnyTechnician | Unassigned | TechnicianIs(id: string)

  /** The five pieces of filter state; `sortBy` is the raw `field-direction` string. */
  datatype FilterState = FilterState(
    search: string,
    status: StatusFilter,
    priority: PriorityFilter,
    technician: TechnicianFilter,
    sortBy: string)

  const DefaultSortBy: string := "createdAt-desc"

  /** The sort options offered, in menu order. */
  const SortOptions: seq<string> :=
    ["createdAt-desc", "createdAt-asc", "priority-desc", "cost-desc", "cost-asc", "estimatedDays-asc"]

  /** Some criterion differs from its default, or the sort differs from newest-first. */
  predicate HasActiveFilters(f: FilterState)
  {
    f.search != "" || f.status != AnyStatus || f.priority != AnyPriority
    || f.technician != AnyTechnician || f.sortBy != DefaultSortBy
  }

  /** The removable chips of the "active filters" row. */
  datatype Chip = SearchChip | StatusChip | PriorityChip | TechnicianChip

  /** A chip is shown inside the active-filters row when its criterion is set;
      the technician chip only for a concrete technician, not for 'unassigned'. */
  predicate ChipShown(f: FilterState, c: Chip)
  {
    HasActiveFilters(f) &&
    match c
    case SearchChip => f.search != ""
    case StatusChip => f.status != AnyStatus
    case PriorityChip => f.priority != AnyPriority
    case TechnicianChip => f.technician.TechnicianIs?
  }

  /** The chip's close button resets its one criterion to '' or 'all'. */
  function ClearChip(f: FilterState, c: Chip): (g: FilterState)
    ensures !ChipShown(g, c)
    ensures g.sortBy == f.sortBy
    ensures g.search == (if c == SearchChip then "" else f.search)
    ensures g.status == (if c == StatusChip then AnyStatus else f.status)
    ensures g.priority == (if c == PriorityChip then AnyPriority else f.priority)
    ensures g.technician == (if c == TechnicianChip then AnyTechnician else f.technician)
    ensures forall d :: d != c ==> ChipShown(g, d) == ChipShown(f, d)
  {
    match c
    case SearchChip => f.(search := "")
    case StatusChip => f.(status := AnyStatus)
    case PriorityChip => f.(priority := AnyPriority)
    case TechnicianChip => f.(technician := AnyTechnician)
  }

  /** The 'unassigned' technician filter, or a changed sort, makes the filters
      active while showing no chip at all. */
  lemma ActiveWithoutChips()
    ensures var f := FilterState("", AnyStatus, AnyPriority, Unassigned, DefaultSortBy);
            HasActiveFilters(f) && forall c :: !ChipShown(f, c)
    ensures var f := FilterState("", AnyStatus, AnyPriority, AnyTechnician, "cost-asc");
            HasActiveFilters(f) && forall c :: !ChipShown(f, c)
  {
  }
}
