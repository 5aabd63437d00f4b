/** The dashboard: the same windowed counters as the repairs page, plus the
    fleet, stock and client counters, an hourly turnaround over the window,
    and the recent-repairs, status, top-technician and priority panels. */
module Dashboard {
  import opened Wrappers
  import opened Seqs
  import opened Rounding
  import opened StableSort
  import opened Domain
  import opened TimeWindow
  import opened Trends
  import opened RepairStats

  /** `status` is new, in progress or waiting for parts. */
  function OpenRepair(): Repair -> bool
  {
    (r: Repair) => IsOpen(r.status)
  }

  /** The dashboard's stricter urgency: urgent and still new or in progress. */
  function UrgentFresh(): Repair -> bool
  {
    (r: Repair) => r.priority == Urgent && (r.status == New || r.status == InProgress)
  }

  /** Completed with a completion instant, created in the current window. */
  function TimedInWindow(range: Range, clock: Clock): Repair -> bool
  {
    (r: Repair) => Timed(r) && InCurrent(range, clock, r.createdAt)
  }

  /** `status === 'available' || status === 'busy'`. */
  function OnDuty(): Technician -> bool
  {
    (t: Technician) => t.status == Available || t.status == Busy
  }

  /** Stock at or below its minimum: the boundary is inclusive. */
  function LowStock(): InventoryItem -> bool
  {
    (i: InventoryItem) => i.quantity <= i.minQuantity
  }

  /** `new Date(c.createdAt || 0) >= filterDate`: a client without a creation instant dates from the epoch. */
  function NewClient(range: Range, clock: Clock): Client -> bool
  {
    (c: Client) => c.createdAt.GetOr(0) >= Start(range, clock)
  }

  /** Counting open repairs with one filter equals adding the three open status counts. */
  lemma {:induction false} OpenCountSplit(s: seq<Repair>)
    ensures Count(s, OpenRepair()) == StatusCount(s, New) + StatusCount(s, InProgress) + StatusCount(s, WaitingParts)
  {
    if |s| > 0 {
      OpenCountSplit(s[1..]);
    }
  }

  datatype DashboardStats = DashboardStats(
    activeRepairs: nat,
    completedToday: nat,
    completedTrend: Trend,
    completedTrendUp: bool,
    revenue: int,
    revenueTrend: Trend,
    revenueTrendUp: bool,
    onDutyTechs: nat,
    lowStockItems: nat,
    urgentRepairs: nat,
    avgRepairTimeHours: int,
    totalClients: nat,
    newClients: nat)

  /** The dashboard's average turnaround in whole hours: the summed durations of
      in-window repairs that have a completion instant, divided by every
      in-window completion (with or without that instant). */
  function AvgHours(repairs: seq<Repair>, range: Range, clock: Clock): (h: int)
    ensures var c := Count(repairs, CompletedInWindow(range, clock));
            var total := Sum(Filter(repairs, TimedInWindow(range, clock)), Duration);
            (c == 0 ==> h == 0)
            && (c > 0 ==> 2 * (c * HourMs) * h - c * HourMs <= 2 * total < 2 * (c * HourMs) * h + c * HourMs)
  {
    var c := Count(repairs, CompletedInWindow(range, clock));
    if c > 0 then RoundDiv(Sum(Filter(repairs, TimedInWindow(range, clock)), Duration), c * HourMs) else 0
  }

  /** The dashboard `stats` memo. It agrees with the repairs page on every
      counter the two share, and its urgent count is the stricter one. */
  function ComputeDashboard(repairs: seq<Repair>, clients: seq<Client>, technicians: seq<Technician>,
                            inventory: seq<InventoryItem>, range: Range, clock: Clock): (d: DashboardStats)
    ensures var st := ComputeStats(repairs, range, clock);
            d.activeRepairs == st.active
            && d.completedToday == st.completedInWindow
            && d.completedTrend == st.completedTrend && d.completedTrendUp == st.completedTrendUp
            && d.revenue == st.revenueInWindow
            && d.revenueTrend == st.revenueTrend && d.revenueTrendUp == st.revenueTrendUp
            && d.urgentRepairs <= st.urgent
    ensures d.urgentRepairs == Count(repairs, UrgentFresh())
    ensures d.avgRepairTimeHours == AvgHours(repairs, range, clock)
    ensures d.completedToday == 0 ==> d.avgRepairTimeHours == 0
    ensures d.onDutyTechs == Count(technicians, OnDuty()) && d.onDutyTechs <= |technicians|
    ensures d.lowStockItems == Count(inventory, LowStock()) && d.lowStockItems <= |inventory|
    ensures d.totalClients == |clients|
    ensures d.newClients == Count(clients, NewClient(range, clock)) && d.newClients <= d.totalClients
  {
    var completedNow := Count(repairs, CompletedInWindow(range, clock));
    var completedBefore := Count(repairs, CompletedBeforeWindow(range, clock));
    var revenueNow := Revenue(repairs, EarningInWindow(range, clock));
    var revenueBefore := Revenue(repairs, EarningBeforeWindow(range, clock));
    OpenCountSplit(repairs);
    CountMono(repairs, UrgentFresh(), UnfinishedWith(Urgent));
    DashboardStats(
      Count(repairs, OpenRepair()),
      completedNow, TrendOf(completedNow, completedBefore), completedNow >= completedBefore,
      revenueNow, TrendOf(revenueNow, revenueBefore), revenueNow >= revenueBefore,
      Count(technicians, OnDuty()),
      Count(inventory, LowStock()),
      Count(repairs, UrgentFresh()),
      AvgHours(repairs, range, clock),
      |clients|,
      Count(clients, NewClient(range, clock)))
  }

  /** A cancelled urgent repair counts as urgent on the repairs page but not on the dashboard. */
  lemma UrgentCountsDiffer(r: Repair, range: Range, clock: Clock)
    requires r.priority == Urgent && r.status == Cancelled
    ensures ComputeDashboard([r], [], [], [], range, clock).urgentRepairs == 0
    ensures ComputeStats([r], range, clock).urgent == 1
  {
    assert Filter([r], UrgentFresh()) == [];
    assert Filter([r], UnfinishedWith(Urgent)) == [r];
  }

  /** One record of each kind: stock exactly at its minimum is low, only available
      and busy technicians are on duty, and a client without a creation instant
      is new exactly when the window starts at or before the epoch. */
  lemma CounterBoundaries(c: Client, t: Technician, i: InventoryItem, range: Range, clock: Clock)
    ensures var d := ComputeDashboard([], [c], [t], [i], range, clock);
            (d.lowStockItems == 1 <==> i.quantity <= i.minQuantity)
            && (d.onDutyTechs == 1 <==> t.status == Available || t.status == Busy)
            && (c.createdAt.None? ==> (d.newClients == 1 <==> Start(range, clock) <= 0))
  {
    assert Filter([i], LowStock()) == if i.quantity <= i.minQuantity then [i] else [];
    assert Filter([t], OnDuty()) == if t.status == Available || t.status == Busy then [t] else [];
    assert Filter([c], NewClient(range, clock)) == if c.createdAt.GetOr(0) >= Start(range, clock) then [c] else [];
  }

  // ---------------------------------------------------------------- panels

  function CreatedAt(r: Repair): int { r.createdAt }

  function CompletedRepairs(t: Technician): int { t.completedRepairs }

  /** The six newest repairs (a stable descending sort, so equal instants keep snapshot order). */
  function RecentRepairs(repairs: seq<Repair>): (r: seq<Repair>)
    ensures |r| == if |repairs| < 6 then |repairs| else 6
    ensures r == Sort(repairs, CreatedAt, Desc)[..|r|]
    ensures multiset(r) <= multiset(repairs)
    ensures Sorted(r, CreatedAt, Desc)
    ensures forall i, j :: 0 <= i < |r| <= j < |Sort(repairs, CreatedAt, Desc)| ==>
              r[i].createdAt >= Sort(repairs, CreatedAt, Desc)[j].createdAt
  {
    TopSpec(repairs, CreatedAt, 6);
    Top(repairs, CreatedAt, 6)
  }

  /** The five technicians with the highest lifetime completion counter. */
  function TopTechnicians(technicians: seq<Technician>): (r: seq<Technician>)
    ensures |r| == if |technicians| < 5 then |technicians| else 5
    ensures r == Sort(technicians, CompletedRepairs, Desc)[..|r|]
    ensures multiset(r) <= multiset(technicians)
    ensures Sorted(r, CompletedRepairs, Desc)
    ensures forall i, j :: 0 <= i < |r| <= j < |Sort(technicians, CompletedRepairs, Desc)| ==>
              r[i].completedRepairs >= Sort(technicians, CompletedRepairs, Desc)[j].completedRepairs
  {
    TopSpec(technicians, CompletedRepairs, 5);
    Top(technicians, CompletedRepairs, 5)
  }

  /** The status bars: in progress, waiting for parts, new, completed (no cancelled bar). */
  function StatusDistribution(repairs: seq<Repair>): (bars: seq<nat>)
    ensures |bars| == 4
    ensures bars[0] == StatusCount(repairs, InProgress) && bars[1] == StatusCount(repairs, WaitingParts)
    ensures bars[2] == StatusCount(repairs, New) && bars[3] == StatusCount(repairs, Completed)
    ensures bars[0] + bars[1] + bars[2] + bars[3] + StatusCount(repairs, Cancelled) == |repairs|
    ensures bars[0] + bars[1] + bars[2] == Count(repairs, OpenRepair())
  {
    StatusPartition(repairs);
    OpenCountSplit(repairs);
    [StatusCount(repairs, InProgress), StatusCount(repairs, WaitingParts),
     StatusCount(repairs, New), StatusCount(repairs, Completed)]
  }

  /** Every non-completed repair has exactly one priority. */
  lemma {:induction false} PriorityBreakdownPartition(s: seq<Repair>)
    ensures Count(s, UnfinishedWith(Urgent)) + Count(s, UnfinishedWith(High))
          + Count(s, UnfinishedWith(Medium)) + Count(s, UnfinishedWith(Low))
          + StatusCount(s, Completed) == |s|
  {
    if |s| > 0 {
      PriorityBreakdownPartition(s[1..]);
    }
  }

  /** The priority panel: urgent, high, medium, low among unfinished repairs. */
  function PriorityBreakdown(repairs: seq<Repair>): (counts: seq<nat>)
    ensures |counts| == 4
    ensures counts[0] == Count(repairs, UnfinishedWith(Urgent)) && counts[1] == Count(repairs, UnfinishedWith(High))
    ensures counts[2] == Count(repairs, UnfinishedWith(Medium)) && counts[3] == Count(repairs, UnfinishedWith(Low))
    ensures counts[0] + counts[1] + counts[2] + counts[3] == |repairs| - StatusCount(repairs, Completed)
  {
    PriorityBreakdownPartition(repairs);
    [Count(repairs, UnfinishedWith(Urgent)), Count(repairs, UnfinishedWith(High)),
     Count(repairs, UnfinishedWith(Medium)), Count(repairs, UnfinishedWith(Low))]
  }

  /** The urgent entry of the priority panel is the repairs page's urgent counter, whatever the window. */
  lemma UrgentPanelMatchesStats(repairs: seq<Repair>, range: Range, clock: Clock)
    ensures PriorityBreakdown(repairs)[0] == ComputeStats(repairs, range, clock).urgent
  {
  }

  /** Noon of day 100, with the month starting on day 90. */
  const ScenarioClock: Clock := Clock(100 * DayMs + 12 * HourMs, 100 * DayMs, 90 * DayMs)

  const ScenarioBase: Repair := Repair("", "", "", None, None, "", "", "", Completed, Medium, 0, None, None, 0, None)

  /** Two repairs completed today for 1000 and 500, one in progress today, one completed ten days ago for 2000. */
  const ScenarioRepairs: seq<Repair> := [
    ScenarioBase.(id := "a", finalCost := Some(1000), createdAt := 100 * DayMs + HourMs),
    ScenarioBase.(id := "b", finalCost := Some(500), createdAt := 100 * DayMs + 2 * HourMs),
    ScenarioBase.(id := "c", status := InProgress, createdAt := 100 * DayMs + 3 * HourMs),
    ScenarioBase.(id := "d", finalCost := Some(2000), createdAt := 90 * DayMs + 12 * HourMs)]

  /** In the scenario, one repair is open. */
  lemma ScenarioActive()
    ensures Count(ScenarioRepairs, OpenRepair()) == 1
  {
    FilterFour(ScenarioRepairs, OpenRepair());
  }

  /** In the scenario, window "today": two completions. */
  lemma ScenarioCompletedNow()
    ensures Count(ScenarioRepairs, CompletedInWindow(Today, ScenarioClock)) == 2
  {
    FilterFour(ScenarioRepairs, CompletedInWindow(Today, ScenarioClock));
  }

  /** In the scenario, nothing was completed in the comparison period (noon yesterday to midnight). */
  lemma ScenarioCompletedBefore()
    ensures Count(ScenarioRepairs, CompletedBeforeWindow(Today, ScenarioClock)) == 0
  {
    FilterFour(ScenarioRepairs, CompletedBeforeWindow(Today, ScenarioClock));
  }

  /** In the scenario, window "today": revenue 1500. */
  lemma ScenarioRevenueNow()
    ensures Revenue(ScenarioRepairs, EarningInWindow(Today, ScenarioClock)) == 1500
  {
    FilterFour(ScenarioRepairs, EarningInWindow(Today, ScenarioClock));
    var x, y := ScenarioRepairs[0], ScenarioRepairs[1];
    assert Filter(ScenarioRepairs, EarningInWindow(Today, ScenarioClock)) == [x, y];
    assert [x, y][1..] == [y];
    assert Sum([y], FinalCostOf) == 500;
  }

  /** In the scenario, nothing was earned in the comparison period. */
  lemma ScenarioRevenueBefore()
    ensures Revenue(ScenarioRepairs, EarningBeforeWindow(Today, ScenarioClock)) == 0
  {
    FilterFour(ScenarioRepairs, EarningBeforeWindow(Today, ScenarioClock));
  }

  /** The end-to-end dashboard scenario: both trends are the "+100%" sentinel. */
  lemma TodayScenario()
    ensures var d := ComputeDashboard(ScenarioRepairs, [], [], [], Today, ScenarioClock);
            d.activeRepairs == 1 && d.revenue == 1500 && d.completedToday == 2
            && d.completedTrend == Plus100 && d.revenueTrend == Plus100 && d.revenueTrendUp
  {
    ScenarioActive();
    ScenarioCompletedNow();
    ScenarioCompletedBefore();
    ScenarioRevenueNow();
    ScenarioRevenueBefore();
  }
}
