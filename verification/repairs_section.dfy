/** The repairs list: the filter-then-sort pipeline over the repair snapshot,
    the reset of the filter bar, and the completion rule applied by the
    create, update and status-change handlers. */
module RepairsSection {
  import opened Wrappers
  import opened Seqs
  import opened Text
  import opened StableSort
  import opened Domain
  import opened RepairFilters

  // ---------------------------------------------------------------- filtering

  /** The lower-cased query occurs in a searchable field (the technician name only when present). */
  predicate SearchHit(query: string, r: Repair)
  {
    Contains(Lower(r.clientName), query)
    || Contains(Lower(r.deviceType), query)
    || Contains(Lower(r.deviceModel), query)
    || Contains(Lower(r.problem), query)
    || (Present(r.technicianName) && Contains(Lower(r.technicianName.value), query))
  }

  predicate MatchesSearch(search: string, r: Repair)
  {
    search == "" || SearchHit(Lower(search), r)
  }

  predicate MatchesStatus(f: StatusFilter, r: Repair)
  {
    match f
    case AnyStatus => true
    case StatusIs(st) => r.status == st
  }

  predicate MatchesPriority(f: PriorityFilter, r: Repair)
  {
    match f
    case AnyPriority => true
    case PriorityIs(p) => r.priority == p
  }

  /** 'unassigned' keeps repairs with a falsy technician id (missing or ""). */
  predicate MatchesTechnician(f: TechnicianFilter, r: Repair)
  {
    match f
    case AnyTechnician => true
    case Unassigned => !Present(r.technicianId)
    case TechnicianIs(id) => r.technicianId == Some(id)
  }

  /** All criteria at once. */
  predicate Matches(f: FilterState, r: Repair)
  {
    MatchesSearch(f.search, r) && MatchesStatus(f.status, r)
    && MatchesPriority(f.priority, r) && MatchesTechnician(f.technician, r)
  }

  function MatchFn(f: FilterState): Repair -> bool { r => Matches(f, r) }

  function SearchFn(search: string): Repair -> bool { r => MatchesSearch(search, r) }

  function StatusFn(f: StatusFilter): Repair -> bool { r => MatchesStatus(f, r) }

  function PriorityFn(f: PriorityFilter): Repair -> bool { r => MatchesPriority(f, r) }

  function TechnicianFn(f: TechnicianFilter): Repair -> bool { r => MatchesTechnician(f, r) }

  /** The four filter stages in source order, each skipped when its criterion is unset. */
  function FilterRepairs(repairs: seq<Repair>, f: FilterState): seq<Repair>
  {
    var afterSearch :=
      if f.search != "" then Filter(repairs, (r: Repair) => SearchHit(Lower(f.search), r)) else repairs;
    var afterStatus :=
      match f.status
      case AnyStatus => afterSearch
      case StatusIs(st) => Filter(afterSearch, HasStatus(st));
    var afterPriority :=
      match f.priority
      case AnyPriority => afterStatus
      case PriorityIs(p) => Filter(afterStatus, (r: Repair) => r.priority == p);
    match f.technician
    case AnyTechnician => afterPriority
    case Unassigned => Filter(afterPriority, (r: Repair) => !Present(r.technicianId))
    case TechnicianIs(id) => Filter(afterPriority, (r: Repair) => r.technicianId == Some(id))
  }

  /** Each stage equals filtering by its criterion's predicate (the identity for an unset one). */
  lemma StagesAreFilters(repairs: seq<Repair>, f: FilterState)
    ensures (if f.search != "" then Filter(repairs, (r: Repair) => SearchHit(Lower(f.search), r)) else repairs)
            == Filter(repairs, SearchFn(f.search))
  {
    if f.search != "" {
      FilterExt(repairs, (r: Repair) => SearchHit(Lower(f.search), r), SearchFn(f.search));
    } else {
      FilterAllKept(repairs, SearchFn(f.search));
    }
  }

  lemma StatusStage(s: seq<Repair>, f: StatusFilter)
    ensures (match f
             case AnyStatus => s
             case StatusIs(st) => Filter(s, HasStatus(st))) == Filter(s, StatusFn(f))
  {
    match f
    case AnyStatus => FilterAllKept(s, StatusFn(f));
    case StatusIs(st) => FilterExt(s, HasStatus(st), StatusFn(f));
  }

  lemma PriorityStage(s: seq<Repair>, f: PriorityFilter)
    ensures (match f
             case AnyPriority => s
             case PriorityIs(p) => Filter(s, (r: Repair) => r.priority == p)) == Filter(s, PriorityFn(f))
  {
    match f
    case AnyPriority => FilterAllKept(s, PriorityFn(f));
    case PriorityIs(p) => FilterExt(s, (r: Repair) => r.priority == p, PriorityFn(f));
  }

  lemma TechnicianStage(s: seq<Repair>, f: TechnicianFilter)
    ensures (match f
             case AnyTechnician => s
             case Unassigned => Filter(s, (r: Repair) => !Present(r.technicianId))
             case TechnicianIs(id) => Filter(s, (r: Repair) => r.technicianId == Some(id)))
            == Filter(s, TechnicianFn(f))
  {
    match f
    case AnyTechnician => FilterAllKept(s, TechnicianFn(f));
    case Unassigned => FilterExt(s, (r: Repair) => !Present(r.technicianId), TechnicianFn(f));
    case TechnicianIs(id) => FilterExt(s, (r: Repair) => r.technicianId == Some(id), TechnicianFn(f));
  }

  /** The staged filters keep exactly the repairs meeting every criterion, in input order. */
  lemma FilterRepairsIsConjunction(repairs: seq<Repair>, f: FilterState)
    ensures FilterRepairs(repairs, f) == Filter(repairs, MatchFn(f))
  {
    var p1 := SearchFn(f.search);
    var p2 := StatusFn(f.status);
    var p3 := PriorityFn(f.priority);
    var p4 := TechnicianFn(f.technician);
    StagesAreFilters(repairs, f);
    var a := Filter(repairs, p1);
    StatusStage(a, f.status);
    var b := Filter(a, p2);
    PriorityStage(b, f.priority);
    var c := Filter(b, p3);
    TechnicianStage(c, f.technician);
    var p12 := (r: Repair) => p1(r) && p2(r);
    var p123 := (r: Repair) => p12(r) && p3(r);
    FilterFilter(repairs, p1, p2, p12);
    FilterFilter(repairs, p12, p3, p123);
    FilterFilter(repairs, p123, p4, MatchFn(f));
  }

  /** An empty query imposes no text constraint; a non-empty one keeps exactly
      the repairs where the lower-cased query occurs in a searchable field. */
  lemma SearchCriterion(repairs: seq<Repair>, f: FilterState, r: Repair)
    requires f.status == AnyStatus && f.priority == AnyPriority && f.technician == AnyTechnician
    ensures f.search == "" ==> FilterRepairs(repairs, f) == repairs
    ensures f.search != "" ==> (r in FilterRepairs(repairs, f) <==> r in repairs && SearchHit(Lower(f.search), r))
  {
    FilterRepairsIsConjunction(repairs, f);
    FilterMembership(repairs, MatchFn(f));
    if f.search == "" {
      FilterAllKept(repairs, MatchFn(f));
    } else if r in repairs {
      var i :| 0 <= i < |repairs| && repairs[i] == r;
      assert MatchFn(f)(repairs[i]) ==> repairs[i] in Filter(repairs, MatchFn(f));
    }
  }

  /** The filtered list is an order-preserving subsequence of the snapshot holding
      exactly the matching repairs, and filtering it again changes nothing. */
  lemma FilterRepairsSpec(repairs: seq<Repair>, f: FilterState)
    ensures Subseq(FilterRepairs(repairs, f), repairs)
    ensures forall i :: 0 <= i < |FilterRepairs(repairs, f)| ==> Matches(f, FilterRepairs(repairs, f)[i])
    ensures forall i :: 0 <= i < |repairs| && Matches(f, repairs[i]) ==> repairs[i] in FilterRepairs(repairs, f)
    ensures FilterRepairs(FilterRepairs(repairs, f), f) == FilterRepairs(repairs, f)
  {
    FilterRepairsIsConjunction(repairs, f);
    FilterIsSubseq(repairs, MatchFn(f));
    FilterMembership(repairs, MatchFn(f));
    var once := FilterRepairs(repairs, f);
    FilterRepairsIsConjunction(once, f);
    FilterIdempotent(repairs, MatchFn(f));
    forall i | 0 <= i < |repairs| && Matches(f, repairs[i])
      ensures repairs[i] in once
    {
      assert MatchFn(f)(repairs[i]);
    }
  }

  // ---------------------------------------------------------------- sorting

  datatype SortField = ByCreatedAt | ByPriority | ByCost | ByEstimatedDays | UnknownField

  /** The text before the first '-' (all of it when there is none): `split('-')[0]`. */
  function BeforeDash(s: string): (r: string)
    ensures '-' !in r
    ensures IsPrefix(r, s)
    ensures |r| < |s| ==> s[|r|] == '-'
  {
    if |s| == 0 || s[0] == '-' then "" else [s[0]] + BeforeDash(s[1..])
  }

  /** The text after the first '-', or "" when there is none. */
  function AfterDash(s: string): (r: string)
    ensures |r| < |s| || r == ""
  {
    var head := BeforeDash(s);
    if |head| < |s| then s[|head| + 1..] else ""
  }

  /** `const [sortField, sortOrder] = sortBy.split('-')`, with 'asc' meaning
      ascending and anything else (including a missing part) descending. */
  function ParseSortBy(sortBy: string): (SortField, Direction)
  {
    var field := BeforeDash(sortBy);
    var order := BeforeDash(AfterDash(sortBy));
    var f := if field == "createdAt" then ByCreatedAt
             else if field == "priority" then ByPriority
             else if field == "cost" then ByCost
             else if field == "estimatedDays" then ByEstimatedDays
             else UnknownField;
    (f, if order == "asc" then Asc else Desc)
  }

  /** The priorities from least to most pressing. */
  const PriorityLadder: seq<Priority> := [Low, Medium, High, Urgent]

  /** `priorityOrder`: a priority's rank, one more than its place on the ladder (urgent=4 … low=1). */
  function PriorityWeight(p: Priority): (w: int)
    ensures 1 <= w <= 4 && PriorityLadder[w - 1] == p
  {
    match p
    case Urgent => 4
    case High => 3
    case Medium => 2
    case Low => 1
  }

  /** The weights order the priorities strictly: urgent above high above medium above low. */
  lemma PriorityWeightOrder()
    ensures PriorityWeight(Urgent) > PriorityWeight(High) > PriorityWeight(Medium) > PriorityWeight(Low)
    ensures forall p: Priority, q: Priority :: PriorityWeight(p) == PriorityWeight(q) ==> p == q
  {
  }

  /** The value the comparator subtracts; an unknown field compares every pair as 0. */
  function SortKey(field: SortField, r: Repair): int
  {
    match field
    case ByCreatedAt => r.createdAt
    case ByPriority => PriorityWeight(r.priority)
    case ByCost => DisplayCost(r)
    case ByEstimatedDays => OrZero(r.estimatedDays)
    case UnknownField => 0
  }

  function KeyFor(field: SortField): Repair -> int { r => SortKey(field, r) }

  /** `filteredAndSortedRepairs`: filter, then stable-sort a copy by the parsed sort spec. */
  function FilterAndSort(repairs: seq<Repair>, f: FilterState): seq<Repair>
  {
    var (field, dir) := ParseSortBy(f.sortBy);
    Sort(FilterRepairs(repairs, f), KeyFor(field), dir)
  }

  /** The result is a permutation of the filtered list, ordered by the key,
      with equal keys in filtered order. */
  lemma FilterAndSortSpec(repairs: seq<Repair>, f: FilterState, v: int)
    ensures var (field, dir) := ParseSortBy(f.sortBy);
            var out := FilterAndSort(repairs, f);
            && multiset(out) == multiset(FilterRepairs(repairs, f))
            && Sorted(out, KeyFor(field), dir)
            && WithKey(out, KeyFor(field), v) == WithKey(FilterRepairs(repairs, f), KeyFor(field), v)
  {
    var (field, dir) := ParseSortBy(f.sortBy);
    SortSorted(FilterRepairs(repairs, f), KeyFor(field), dir);
    SortStable(FilterRepairs(repairs, f), KeyFor(field), dir, v);
  }

  /** An unknown sort field leaves the filtered order unchanged. */
  lemma UnknownFieldKeepsOrder(repairs: seq<Repair>, f: FilterState)
    requires ParseSortBy(f.sortBy).0 == UnknownField
    ensures FilterAndSort(repairs, f) == FilterRepairs(repairs, f)
  {
    var (field, dir) := ParseSortBy(f.sortBy);
    SortConstantKey(FilterRepairs(repairs, f), KeyFor(field), dir, 0);
  }

  /** Running the pipeline on its own output yields the same sequence. */
  lemma FilterAndSortIdempotent(repairs: seq<Repair>, f: FilterState)
    ensures FilterAndSort(FilterAndSort(repairs, f), f) == FilterAndSort(repairs, f)
  {
    var (field, dir) := ParseSortBy(f.sortBy);
    var filtered := FilterRepairs(repairs, f);
    var out := FilterAndSort(repairs, f);
    FilterRepairsIsConjunction(repairs, f);
    FilterRepairsIsConjunction(out, f);
    forall i | 0 <= i < |out|
      ensures MatchFn(f)(out[i])
    {
      assert out[i] in multiset(out);
      assert out[i] in multiset(filtered);
    }
    FilterAllKept(out, MatchFn(f));
    SortIdempotent(filtered, KeyFor(field), dir);
  }

  lemma {:induction false} BeforeDashOfPlain(a: string)
    requires '-' !in a
    ensures BeforeDash(a) == a
  {
    if |a| > 0 {
      BeforeDashOfPlain(a[1..]);
      assert [a[0]] + a[1..] == a;
    }
  }

  lemma {:induction false} BeforeDashSplit(a: string, b: string)
    requires '-' !in a
    ensures BeforeDash(a + "-" + b) == a
  {
    if |a| == 0 {
      assert (a + "-" + b)[0] == '-';
    } else {
      assert (a + "-" + b)[1..] == a[1..] + "-" + b;
      BeforeDashSplit(a[1..], b);
      assert [a[0]] + a[1..] == a;
    }
  }

  /** `field-order` with a dash-free field and order parses into exactly those two parts. */
  lemma ParseOption(field: string, order: string)
    requires '-' !in field && '-' !in order
    ensures BeforeDash(field + "-" + order) == field
    ensures BeforeDash(AfterDash(field + "-" + order)) == order
  {
    var s := field + "-" + order;
    BeforeDashSplit(field, order);
    assert s[|field| + 1..] == order;
    BeforeDashOfPlain(order);
  }

  /** The parse of one option `field-order`: each known field name selects its
      key, any other name the no-op comparator, and only 'asc' is ascending. */
  lemma ParseOptionSort(field: string, order: string)
    requires '-' !in field && '-' !in order
    ensures var (f, dir) := ParseSortBy(field + "-" + order);
            && (field == "createdAt" ==> f == ByCreatedAt)
            && (field == "priority" ==> f == ByPriority)
            && (field == "cost" ==> f == ByCost)
            && (field == "estimatedDays" ==> f == ByEstimatedDays)
            && (field != "createdAt" && field != "priority" && field != "cost" && field != "estimatedDays"
                ==> f == UnknownField)
            && (dir == Asc <==> order == "asc")
  {
    ParseOption(field, order);
  }

  /** Every offered sort option names a field the comparator knows and the direction 'asc' or 'desc'. */
  lemma SortOptionsWellFormed()
    ensures forall o :: o in SortOptions ==> ParseSortBy(o).0 != UnknownField
    ensures forall o :: o in SortOptions ==> BeforeDash(AfterDash(o)) == "asc" || BeforeDash(AfterDash(o)) == "desc"
    ensures ParseSortBy(DefaultSortBy) == (ByCreatedAt, Desc)
  {
    forall i | 0 <= i < |SortOptions|
      ensures ParseSortBy(SortOptions[i]).0 != UnknownField
      ensures BeforeDash(AfterDash(SortOptions[i])) == "asc" || BeforeDash(AfterDash(SortOptions[i])) == "desc"
    {
      SortOptionWellFormed(i);
    }
    assert DefaultSortBy == "createdAt" + "-" + "desc";
    ParseOption("createdAt", "desc");
  }

  /** The option at position `i` of the menu. */
  lemma SortOptionWellFormed(i: nat)
    requires i < |SortOptions|
    ensures ParseSortBy(SortOptions[i]).0 != UnknownField
    ensures BeforeDash(AfterDash(SortOptions[i])) == "asc" || BeforeDash(AfterDash(SortOptions[i])) == "desc"
  {
    if i == 0 {
      assert SortOptions[i] == "createdAt" + "-" + "desc";
      ParseOption("createdAt", "desc");
    } else if i == 1 {
      assert SortOptions[i] == "createdAt" + "-" + "asc";
      ParseOption("createdAt", "asc");
    } else if i == 2 {
      assert SortOptions[i] == "priority" + "-" + "desc";
      ParseOption("priority", "desc");
    } else if i == 3 {
      assert SortOptions[i] == "cost" + "-" + "desc";
      ParseOption("cost", "desc");
    } else if i == 4 {
      assert SortOptions[i] == "cost" + "-" + "asc";
      ParseOption("cost", "asc");
    } else {
      assert SortOptions[i] == "estimatedDays" + "-" + "asc";
      ParseOption("estimatedDays", "asc");
    }
  }

  // ---------------------------------------------------------------- reset

  /** `resetFilters`: every criterion back to its default and newest-first sorting. */
  function ResetFilters(): FilterState
  {
    FilterState("", AnyStatus, AnyPriority, AnyTechnician, DefaultSortBy)
  }

  /** The filters are inactive exactly in the reset state; in particular changing
      only the sort away from newest-first makes them active. */
  lemma InactiveIffReset(f: FilterState)
    ensures !HasActiveFilters(f) <==> f == ResetFilters()
    ensures f == ResetFilters().(sortBy := f.sortBy) && f.sortBy != DefaultSortBy ==> HasActiveFilters(f)
  {
  }

  // ---------------------------------------------------------------- lifecycle

  /** `clients.find(c => c.id === id)?.name || ""`. */
  function ClientNameFor(clients: seq<Client>, id: string): (name: string)
    ensures (forall i :: 0 <= i < |clients| ==> clients[i].id != id) ==> name == ""
    ensures forall i :: (0 <= i < |clients| && clients[i].id == id && forall j :: 0 <= j < i ==> clients[j].id != id)
                        ==> name == clients[i].name
  {
    match FindFirst(clients, (c: Client) => c.id == id)
    case Some(i) => clients[i].name
    case None => ""
  }

  /** `technicians.find(t => t.id === id)?.name`: absent for a missing id or an unknown technician. */
  function TechnicianNameFor(technicians: seq<Technician>, id: Option<string>): (name: Option<string>)
    ensures name.Some? ==> id.Some? && exists i :: 0 <= i < |technicians| && technicians[i].id == id.value
    ensures id.Some? ==>
              forall i :: (0 <= i < |technicians| && technicians[i].id == id.value
                           && forall j :: 0 <= j < i ==> technicians[j].id != id.value)
                          ==> name == Some(technicians[i].name)
  {
    match id
    case None => None
    case Some(x) =>
      match FindFirst(technicians, (t: Technician) => t.id == x)
      case Some(i) => Some(technicians[i].name)
      case None => None
  }

  /** The record-level invariant the handlers keep: a completed repair has a completion instant. */
  predicate CompletionRecorded(r: Repair)
  {
    r.status == Completed ==> r.completedAt.Some?
  }

  /** The `completedAt` an edit stores: "now" on a transition from a non-completed
      status into completed, otherwise the previous value (never cleared). */
  function StampCompletion(was: RepairStatus, becomes: RepairStatus, previous: Option<int>, now: int): (r: Option<int>)
    ensures was != Completed && becomes == Completed ==> r == Some(now)
    ensures r != previous ==> was != Completed && becomes == Completed
    ensures previous.Some? ==> r.Some?
  {
    if becomes == Completed && was != Completed then Some(now) else previous
  }

  /** `handleCreate`: names are looked up; the final cost is kept and the
      completion instant set only when the new repair is already completed.
      Id and creation instant are assigned by the store and taken from `data`. */
  function CreateRepair(data: Repair, clients: seq<Client>, technicians: seq<Technician>, now: int): (r: Repair)
    ensures CompletionRecorded(r)
    ensures r.status == data.status
    ensures data.status != Completed ==> r.finalCost == None && r.completedAt == None
    ensures data.status == Completed ==> r.finalCost == data.finalCost && r.completedAt == Some(now)
    ensures r.clientName == ClientNameFor(clients, data.clientId)
    ensures r.technicianName == TechnicianNameFor(technicians, data.technicianId)
    ensures r == data.(clientName := r.clientName, technicianName := r.technicianName,
                       finalCost := r.finalCost, completedAt := r.completedAt)
  {
    var completed := data.status == Completed;
    data.(clientName := ClientNameFor(clients, data.clientId),
          technicianName := TechnicianNameFor(technicians, data.technicianId),
          finalCost := if completed then data.finalCost else None,
          completedAt := if completed then Some(now) else None)
  }

  /** `handleUpdate`: the edited repair keeps its id and creation instant, takes
      every form field from `data` (the final cost included, whatever the status),
      and stamps the completion instant by the transition rule. */
  function UpdateRepair(editing: Repair, data: Repair, clients: seq<Client>, technicians: seq<Technician>, now: int): (r: Repair)
    ensures r.id == editing.id && r.createdAt == editing.createdAt
    ensures r.status == data.status && r.finalCost == data.finalCost
    ensures r.clientName == ClientNameFor(clients, data.clientId)
    ensures r.technicianName == TechnicianNameFor(technicians, data.technicianId)
    ensures r == data.(id := editing.id, createdAt := editing.createdAt, clientName := r.clientName,
                       technicianName := r.technicianName, completedAt := r.completedAt)
    ensures r.completedAt == StampCompletion(editing.status, data.status, editing.completedAt, now)
  {
    editing.(clientId := data.clientId,
             clientName := ClientNameFor(clients, data.clientId),
             technicianId := data.technicianId,
             technicianName := TechnicianNameFor(technicians, data.technicianId),
             deviceType := data.deviceType,
             deviceModel := data.deviceModel,
             problem := data.problem,
             status := data.status,
             priority := data.priority,
             estimatedCost := data.estimatedCost,
             finalCost := data.finalCost,
             estimatedDays := data.estimatedDays,
             completedAt := StampCompletion(editing.status, data.status, editing.completedAt, now))
  }

  /** `handleStatusChange`: nothing is written when no repair has the id; otherwise
      the first repair with that id gets the new status and a stamped completion
      instant, and no other field changes. */
  function ChangeStatus(repairs: seq<Repair>, id: string, status: RepairStatus, now: int): (r: Option<Repair>)
    ensures r.None? <==> forall i :: 0 <= i < |repairs| ==> repairs[i].id != id
    ensures r.Some? ==> exists i :: 0 <= i < |repairs| && repairs[i].id == id
                          && (forall j :: 0 <= j < i ==> repairs[j].id != id)
                          && r.value == repairs[i].(status := status,
                               completedAt := StampCompletion(repairs[i].status, status, repairs[i].completedAt, now))
  {
    match FindFirst(repairs, (x: Repair) => x.id == id)
    case None => None
    case Some(i) =>
      var found := repairs[i];
      Some(found.(status := status, completedAt := StampCompletion(found.status, status, found.completedAt, now)))
  }

  /** Edits and status changes preserve the completion invariant and never clear
      a recorded completion instant. */
  lemma EditsKeepCompletion(editing: Repair, data: Repair, clients: seq<Client>, technicians: seq<Technician>,
                            repairs: seq<Repair>, id: string, status: RepairStatus, now: int)
    requires CompletionRecorded(editing)
    requires forall i :: 0 <= i < |repairs| ==> CompletionRecorded(repairs[i])
    ensures CompletionRecorded(UpdateRepair(editing, data, clients, technicians, now))
    ensures editing.completedAt.Some? ==> UpdateRepair(editing, data, clients, technicians, now).completedAt.Some?
    ensures ChangeStatus(repairs, id, status, now).Some? ==> CompletionRecorded(ChangeStatus(repairs, id, status, now).value)
  {
  }

  /** Leaving 'completed' keeps the old completion instant; re-entering it later
      overwrites that instant with the new "now". */
  lemma ReopenAndRecomplete(r: Repair, t1: int, t2: int)
    requires r.status == Completed && r.completedAt == Some(t1)
    ensures var reopened := ChangeStatus([r], r.id, InProgress, t2);
            reopened.Some? && reopened.value.completedAt == Some(t1)
            && ChangeStatus([reopened.value], r.id, Completed, t2).value.completedAt == Some(t2)
  {
  }
}
