/** The technicians page: per-technician load and performance figures
    computed from the repair snapshot, the "active" view, fleet aggregates,
    specialization list editing, and the recent-jobs list of the details
    dialog. */
module Technicians {
  import opened Wrappers
  import opened Seqs
  import opened Rounding
  import opened StableSort
  import opened Text
  import opened Domain
  import opened TimeWindow

  /** `r.technicianId === tech.id`. */
  function AssignedTo(id: string): Repair -> bool
  {
    (r: Repair) => r.technicianId == Some(id)
  }

  /** In progress or waiting for parts: a new repair is not load yet. */
  function Working(): Repair -> bool
  {
    (r: Repair) => r.status == InProgress || r.status == WaitingParts
  }

  /** Completed with a completion instant that falls in the current calendar
      month and year; `inCurrentMonth` is that calendar fact about an instant. */
  function CompletedThisMonth(inCurrentMonth: int -> bool): Repair -> bool
  {
    (r: Repair) => Timed(r) && inCurrentMonth(r.completedAt.value)
  }

  /** `min(round(active / 5 * 100), 100)`. */
  function Workload(active: int): (w: int)
    ensures active >= 0 ==> 0 <= w <= 100
    ensures active >= 5 ==> w == 100
    ensures 0 <= active <= 5 ==> w == 20 * active
  {
    RoundDivExact(20 * active, 5);
    assert 20 * active * 5 == active * 100;
    var raw := RoundDiv(active * 100, 5);
    if raw < 100 then raw else 100
  }

  /** Three technicians carrying 0, 5 and 12 active repairs. */
  lemma WorkloadExamples()
    ensures Workload(0) == 0 && Workload(5) == 100 && Workload(12) == 100
  {
  }

  datatype WorkloadColour = Red | Yellow | Green

  /** `getWorkloadColor`: at least 80 red, at least 50 yellow, otherwise green. */
  function WorkloadColor(workload: int): (c: WorkloadColour)
    ensures c == Red <==> workload >= 80
    ensures c == Green <==> workload < 50
  {
    if workload >= 80 then Red else if workload >= 50 then Yellow else Green
  }

  /** A technician with the figures derived from the repair snapshot. */
  datatype TechStats = TechStats(
    tech: Technician,
    activeRepairs: nat,
    completedThisMonth: nat,
    revenue: int,
    avgRepairTimeTenths: int,
    workload: int)

  /** One row of `techsWithStats`. The turnaround divides by the technician's
      lifetime counter, not by the number of repairs summed. */
  function WithStats(tech: Technician, repairs: seq<Repair>, inCurrentMonth: int -> bool): (t: TechStats)
    ensures t.tech == tech
    ensures t.activeRepairs == Count(Filter(repairs, AssignedTo(tech.id)), Working())
    ensures t.completedThisMonth == Count(Filter(repairs, AssignedTo(tech.id)), CompletedThisMonth(inCurrentMonth))
    ensures t.completedThisMonth + t.activeRepairs <= Count(repairs, AssignedTo(tech.id))
    ensures t.workload == Workload(t.activeRepairs) && 0 <= t.workload <= 100
    ensures tech.completedRepairs <= 0 ==> t.avgRepairTimeTenths == 0
    ensures tech.completedRepairs > 0 ==>
              var total := Sum(Filter(Filter(repairs, AssignedTo(tech.id)), Timed), Duration);
              var d := tech.completedRepairs * DayMs;
              2 * d * t.avgRepairTimeTenths - d <= 20 * total < 2 * d * t.avgRepairTimeTenths + d
  {
    var mine := Filter(repairs, AssignedTo(tech.id));
    var active := Count(mine, Working());
    forall x: Repair ensures !(CompletedThisMonth(inCurrentMonth)(x) && Working()(x)) {
      if CompletedThisMonth(inCurrentMonth)(x) {
        assert Timed(x);
      }
    }
    CountDisjoint(mine, CompletedThisMonth(inCurrentMonth), Working(), (r: Repair) => true);
    FilterAllKept(mine, (r: Repair) => true);
    TechStats(tech, active, Count(mine, CompletedThisMonth(inCurrentMonth)), Sum(Filter(mine, Earning), FinalCostOf),
              MeanTenths(Sum(Filter(mine, Timed), Duration), tech.completedRepairs, DayMs), Workload(active))
  }

  /** Completed with a truthy final cost and assigned to technician `id`. */
  function EarningBy(id: string): Repair -> bool
  {
    (r: Repair) => Earning(r) && r.technicianId == Some(id)
  }

  /** A technician's revenue is the summed final cost of exactly the earning repairs assigned to them. */
  lemma TechnicianRevenue(tech: Technician, repairs: seq<Repair>, inCurrentMonth: int -> bool)
    ensures WithStats(tech, repairs, inCurrentMonth).revenue == Sum(Filter(repairs, EarningBy(tech.id)), FinalCostOf)
  {
    FilterFilter(repairs, AssignedTo(tech.id), Earning, EarningBy(tech.id));
  }

  /** Only repairs in progress or waiting for parts count as load, so new work never raises the workload. */
  lemma NewWorkIsNotLoad(tech: Technician, repairs: seq<Repair>, r: Repair, inCurrentMonth: int -> bool)
    requires r.status == New
    ensures WithStats(tech, repairs + [r], inCurrentMonth).activeRepairs == WithStats(tech, repairs, inCurrentMonth).activeRepairs
  {
    var a := AssignedTo(tech.id);
    FilterAppend(repairs, [r], a);
    FilterAppend(Filter(repairs, a), Filter([r], a), Working());
    assert Filter(Filter([r], a), Working()) == [];
  }

  /** `techsWithStats`: one row per technician, in order. */
  function TechsWithStats(technicians: seq<Technician>, repairs: seq<Repair>, inCurrentMonth: int -> bool): (rows: seq<TechStats>)
    ensures |rows| == |technicians|
    ensures forall i :: 0 <= i < |rows| ==> rows[i] == WithStats(technicians[i], repairs, inCurrentMonth)
  {
    if |technicians| == 0 then []
    else [WithStats(technicians[0], repairs, inCurrentMonth)] + TechsWithStats(technicians[1..], repairs, inCurrentMonth)
  }

  // ---------------------------------------------------------------- views and fleet

  datatype ViewMode = ActiveView | AllView

  /** Available or busy. */
  predicate OnShift(s: TechnicianStatus)
  {
    s == Available || s == Busy
  }

  function RowOnShift(): TechStats -> bool
  {
    (t: TechStats) => OnShift(t.tech.status)
  }

  /** `filteredTechs`: the active view keeps exactly the available and busy technicians, in order. */
  function FilteredTechs(rows: seq<TechStats>, mode: ViewMode): (r: seq<TechStats>)
    ensures mode == AllView ==> r == rows
    ensures Subseq(r, rows)
    ensures mode == ActiveView ==>
              (forall i :: 0 <= i < |r| ==> OnShift(r[i].tech.status))
              && (forall i :: 0 <= i < |rows| && OnShift(rows[i].tech.status) ==> rows[i] in r)
    ensures mode == ActiveView ==> |r| == Count(rows, RowOnShift())
  {
    FilterIsSubseq(rows, (t: TechStats) => OnShift(t.tech.status));
    FilterMembership(rows, (t: TechStats) => OnShift(t.tech.status));
    SubseqRefl(rows);
    if mode == ActiveView then Filter(rows, (t: TechStats) => OnShift(t.tech.status)) else rows
  }

  function RowRevenue(t: TechStats): int { t.revenue }

  function RowWorkload(t: TechStats): int { t.workload }

  function RowCompletedThisMonth(t: TechStats): int { t.completedThisMonth }

  function LifetimeCompleted(t: Technician): int { t.completedRepairs }

  function StatusIs(st: TechnicianStatus): Technician -> bool
  {
    (t: Technician) => t.status == st
  }

  datatype FleetStats = FleetStats(
    total: nat,
    active: nat,
    available: nat,
    busy: nat,
    onBreak: nat,
    totalCompleted: int,
    totalRevenue: int,
    avgWorkload: int,
    topPerformer: Option<TechStats>)

  /** Each technician has exactly one status, so the active count is the available and busy counts together. */
  lemma {:induction false} ActiveSplit(technicians: seq<Technician>)
    ensures Count(technicians, (t: Technician) => OnShift(t.status))
         == Count(technicians, StatusIs(Available)) + Count(technicians, StatusIs(Busy))
  {
    if |technicians| > 0 {
      ActiveSplit(technicians[1..]);
    }
  }

  /** The active view lists as many rows as the fleet has available and busy technicians. */
  lemma {:induction false} ActiveViewSize(technicians: seq<Technician>, repairs: seq<Repair>, inCurrentMonth: int -> bool)
    ensures |FilteredTechs(TechsWithStats(technicians, repairs, inCurrentMonth), ActiveView)|
         == Count(technicians, StatusIs(Available)) + Count(technicians, StatusIs(Busy))
  {
    ActiveSplit(technicians);
    RowsOnShift(technicians, repairs, inCurrentMonth);
  }

  /** A row is on shift exactly when its technician is. */
  lemma {:induction false} RowsOnShift(technicians: seq<Technician>, repairs: seq<Repair>, inCurrentMonth: int -> bool)
    ensures Count(TechsWithStats(technicians, repairs, inCurrentMonth), RowOnShift())
         == Count(technicians, (t: Technician) => OnShift(t.status))
  {
    if |technicians| > 0 {
      RowsOnShift(technicians[1..], repairs, inCurrentMonth);
      var rows := TechsWithStats(technicians, repairs, inCurrentMonth);
      FilterSplitHead(rows, RowOnShift());
      FilterSplitHead(technicians, (t: Technician) => OnShift(t.status));
      assert rows[1..] == TechsWithStats(technicians[1..], repairs, inCurrentMonth);
    }
  }

  /** The average of per-technician workloads, dividing by `technicians.length || 1`. */
  function AvgWorkload(rows: seq<TechStats>, n: nat): (w: int)
    requires forall i :: 0 <= i < |rows| ==> 0 <= rows[i].workload <= 100
    requires |rows| <= n
    ensures var d := if n > 0 then n else 1;
            2 * d * w - d <= 2 * Sum(rows, RowWorkload) < 2 * d * w + d
    ensures 0 <= w <= 100
    ensures |rows| == 0 ==> w == 0
  {
    SumBounded(rows, RowWorkload, 100);
    var d := if n > 0 then n else 1;
    assert 100 * |rows| <= 100 * d;
    RoundDivRange(Sum(rows, RowWorkload), d, 100);
    if |rows| == 0 then RoundDivExact(0, d); RoundDiv(Sum(rows, RowWorkload), d)
    else RoundDiv(Sum(rows, RowWorkload), d)
  }

  /** `topPerformer`: the head of a stable descending sort by completions this
      month, so the FIRST technician with the most completions; none for an empty fleet. */
  function TopPerformer(rows: seq<TechStats>): (top: Option<TechStats>)
    ensures top.None? <==> |rows| == 0
    ensures top.Some? ==>
              exists i :: 0 <= i < |rows| && rows[i] == top.value
                && (forall j :: 0 <= j < |rows| ==> rows[j].completedThisMonth <= rows[i].completedThisMonth)
                && (forall j :: 0 <= j < i ==> rows[j].completedThisMonth < rows[i].completedThisMonth)
  {
    if |rows| == 0 then None
    else
      HeadIsFirstMaximum(rows, RowCompletedThisMonth);
      Some(Sort(rows, RowCompletedThisMonth, Desc)[0])
  }

  /** The fleet `stats` memo. */
  function ComputeFleet(technicians: seq<Technician>, repairs: seq<Repair>, inCurrentMonth: int -> bool): (f: FleetStats)
    ensures f.total == |technicians|
    ensures f.available == Count(technicians, StatusIs(Available)) && f.busy == Count(technicians, StatusIs(Busy))
    ensures f.onBreak == Count(technicians, StatusIs(OnBreak))
    ensures f.active == f.available + f.busy
    ensures f.active + f.onBreak <= f.total
    ensures f.totalCompleted == Sum(technicians, LifetimeCompleted)
    ensures f.totalRevenue == Sum(TechsWithStats(technicians, repairs, inCurrentMonth), RowRevenue)
    ensures 0 <= f.avgWorkload <= 100
    ensures f.avgWorkload == AvgWorkload(TechsWithStats(technicians, repairs, inCurrentMonth), |technicians|)
    ensures |technicians| == 0 ==> f.avgWorkload == 0
    ensures f.topPerformer == TopPerformer(TechsWithStats(technicians, repairs, inCurrentMonth))
  {
    var rows := TechsWithStats(technicians, repairs, inCurrentMonth);
    var active := Count(technicians, (t: Technician) => OnShift(t.status));
    ActiveSplit(technicians);
    CountDisjoint(technicians, (t: Technician) => OnShift(t.status), StatusIs(OnBreak), (t: Technician) => true);
    FilterAllKept(technicians, (t: Technician) => true);
    FleetStats(|technicians|, active, Count(technicians, StatusIs(Available)), Count(technicians, StatusIs(Busy)),
               Count(technicians, StatusIs(OnBreak)), Sum(technicians, LifetimeCompleted), Sum(rows, RowRevenue),
               AvgWorkload(rows, |technicians|), TopPerformer(rows))
  }

  // ---------------------------------------------------------------- specializations

  /** "General repair", the specialization a technician gets when none is entered. */
  const DefaultSpecialization: string := "Общий ремонт"

  /** `addSpecialization`: the trimmed input is appended when it is non-empty
      and not already listed, and only then is the input field cleared. */
  function AddSpecialization(list: seq<string>, input: string): (r: (seq<string>, string))
    ensures var entry := Trim(input);
            if entry != [] && entry !in list then r.0 == list + [entry] && r.1 == ""
            else r == (list, input)
    ensures (forall i, j :: 0 <= i < j < |list| ==> list[i] != list[j])
              ==> forall i, j :: 0 <= i < j < |r.0| ==> r.0[i] != r.0[j]
  {
    var entry := Trim(input);
    if entry != [] && entry !in list then (list + [entry], "") else (list, input)
  }

  /** `removeSpecialization(index)`: every entry but the one at `index`; any other index removes nothing. */
  function RemoveSpecialization(list: seq<string>, index: int): (r: seq<string>)
    ensures 0 <= index < |list| ==>
              |r| == |list| - 1
              && (forall j :: 0 <= j < |r| ==> r[j] == list[if j < index then j else j + 1])
              && multiset(r) + multiset{list[index]} == multiset(list)
    ensures !(0 <= index < |list|) ==> r == list
  {
    if 0 <= index < |list| then
      assert list == list[..index] + [list[index]] + list[index + 1..];
      list[..index] + list[index + 1..]
    else list
  }

  /** Adding then removing the last entry restores the list. */
  lemma AddThenRemove(list: seq<string>, input: string)
    requires Trim(input) != [] && Trim(input) !in list
    ensures RemoveSpecialization(AddSpecialization(list, input).0, |list|) == list
  {
    assert (list + [Trim(input)])[..|list|] == list;
  }

  /** Adding an entry that is already listed (after trimming) changes nothing, so adding is idempotent. */
  lemma AddIdempotent(list: seq<string>, input: string)
    ensures var (l1, _) := AddSpecialization(list, input);
            AddSpecialization(l1, input).0 == l1
  {
  }

  /** A new technician is stored with the default specialization when none was entered. */
  function CreatedSpecialization(list: seq<string>): (r: seq<string>)
    ensures |r| > 0
    ensures |list| > 0 ==> r == list
    ensures |list| == 0 ==> r == [DefaultSpecialization]
  {
    if |list| > 0 then list else [DefaultSpecialization]
  }

  // ---------------------------------------------------------------- details dialog

  function CreatedAt(r: Repair): int { r.createdAt }

  /** The details dialog's recent jobs: the technician's repairs, newest first, at most ten. */
  function RecentJobs(tech: Technician, repairs: seq<Repair>): (r: seq<Repair>)
    ensures |r| == if Count(repairs, AssignedTo(tech.id)) < 10 then Count(repairs, AssignedTo(tech.id)) else 10
    ensures forall i :: 0 <= i < |r| ==> r[i].technicianId == Some(tech.id)
    ensures Sorted(r, CreatedAt, Desc)
    ensures |r| == 0 <==> forall i :: 0 <= i < |repairs| ==> repairs[i].technicianId != Some(tech.id)
  {
    var mine := Filter(repairs, AssignedTo(tech.id));
    TopSpec(mine, CreatedAt, 10);
    FilterMembership(repairs, AssignedTo(tech.id));
    var r := Top(mine, CreatedAt, 10);
    forall i | 0 <= i < |r|
      ensures r[i].technicianId == Some(tech.id)
    {
      assert r[i] in multiset(mine);
    }
    r
  }

  /** The listed jobs are at least as recent as every one of the technician's jobs left out. */
  lemma RecentJobsAreMostRecent(tech: Technician, repairs: seq<Repair>)
    ensures var mine := Filter(repairs, AssignedTo(tech.id));
            var r := RecentJobs(tech, repairs);
            r == Sort(mine, CreatedAt, Desc)[..|r|]
            && forall i, j :: 0 <= i < |r| <= j < |mine| ==> r[i].createdAt >= Sort(mine, CreatedAt, Desc)[j].createdAt
  {
    TopSpec(Filter(repairs, AssignedTo(tech.id)), CreatedAt, 10);
  }
}
