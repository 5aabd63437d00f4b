/** The statistics strip of the repairs page: status counters over the whole
    snapshot, completions and revenue inside the reporting window compared
    with the equal-length period before it, lifetime revenue and the average
    turnaround in tenths of a day. */
module RepairStats {
  import opened Seqs
  import opened Rounding
  import opened Domain
  import opened TimeWindow
  import opened Trends

  /** `priority === p && status !== 'completed'`: cancelled and waiting repairs count too. */
  function UnfinishedWith(p: Priority): Repair -> bool
  {
    (r: Repair) => r.priority == p && r.status != Completed
  }

  /** Completed repairs created in the current window. */
  function CompletedInWindow(range: Range, clock: Clock): Repair -> bool
  {
    (r: Repair) => r.status == Completed && InCurrent(range, clock, r.createdAt)
  }

  /** Completed repairs created in the comparison period. */
  function CompletedBeforeWindow(range: Range, clock: Clock): Repair -> bool
  {
    (r: Repair) => r.status == Completed && InPrevious(range, clock, r.createdAt)
  }

  /** Earning repairs created in the current window. */
  function EarningInWindow(range: Range, clock: Clock): Repair -> bool
  {
    (r: Repair) => Earning(r) && InCurrent(range, clock, r.createdAt)
  }

  /** Earning repairs created in the comparison period. */
  function EarningBeforeWindow(range: Range, clock: Clock): Repair -> bool
  {
    (r: Repair) => Earning(r) && InPrevious(range, clock, r.createdAt)
  }

  /** `filter(p).reduce((sum, r) => sum + (r.finalCost || 0), 0)`. */
  function Revenue(s: seq<Repair>, p: Repair -> bool): int
  {
    Sum(Filter(s, p), FinalCostOf)
  }

  /** The lifetime sum of completion durations, over completed repairs that have a completion instant. */
  function TotalDuration(s: seq<Repair>): int
  {
    Sum(Filter(s, Timed), Duration)
  }

  /** Final costs are never negative. */
  predicate NonNegativeCosts(s: seq<Repair>)
  {
    forall i :: 0 <= i < |s| ==> FinalCostOf(s[i]) >= 0
  }

  datatype Stats = Stats(
    newCount: nat,
    inProgress: nat,
    waitingParts: nat,
    completed: nat,
    urgent: nat,
    active: nat,
    completedInWindow: nat,
    completedTrend: Trend,
    completedTrendUp: bool,
    revenueInWindow: int,
    revenueTrend: Trend,
    revenueTrendUp: bool,
    totalRevenue: int,
    avgRepairTimeTenths: int)

  /** Revenue over a narrower selection is at most revenue over a wider one when costs are non-negative. */
  lemma RevenueMono(s: seq<Repair>, p: Repair -> bool, q: Repair -> bool)
    requires forall r :: p(r) ==> q(r)
    ensures NonNegativeCosts(s) ==> 0 <= Revenue(s, p) <= Revenue(s, q)
  {
    if NonNegativeCosts(s) {
      SumFilterMono(s, p, q, FinalCostOf);
      var kept := Filter(s, p);
      FilterMembership(s, p);
      forall i | 0 <= i < |kept|
        ensures FinalCostOf(kept[i]) >= 0
      {
        assert kept[i] in s;
      }
      SumNonNegative(kept, FinalCostOf);
    }
  }

  /** The `stats` memo. */
  function ComputeStats(repairs: seq<Repair>, range: Range, clock: Clock): (st: Stats)
    ensures st.newCount == StatusCount(repairs, New) && st.inProgress == StatusCount(repairs, InProgress)
    ensures st.waitingParts == StatusCount(repairs, WaitingParts) && st.completed == StatusCount(repairs, Completed)
    ensures st.active == st.newCount + st.inProgress + st.waitingParts
    ensures st.urgent == Count(repairs, UnfinishedWith(Urgent))
    ensures st.completedInWindow == Count(repairs, CompletedInWindow(range, clock))
    ensures st.revenueInWindow == Revenue(repairs, EarningInWindow(range, clock))
    ensures st.totalRevenue == Revenue(repairs, Earning)
    ensures st.completedTrend == TrendOf(st.completedInWindow, Count(repairs, CompletedBeforeWindow(range, clock)))
    ensures st.revenueTrend == TrendOf(st.revenueInWindow, Revenue(repairs, EarningBeforeWindow(range, clock)))
    ensures st.active + st.completed + StatusCount(repairs, Cancelled) == |repairs|
    ensures st.urgent <= |repairs|
    ensures st.completedInWindow + Count(repairs, CompletedBeforeWindow(range, clock)) <= st.completed
    ensures st.completedTrend == Plus100 <==> Count(repairs, CompletedBeforeWindow(range, clock)) == 0
    ensures st.completedTrendUp <==> st.completedInWindow >= Count(repairs, CompletedBeforeWindow(range, clock))
    ensures st.revenueTrend == Plus100 <==> Revenue(repairs, EarningBeforeWindow(range, clock)) <= 0
    ensures st.revenueTrendUp <==> st.revenueInWindow >= Revenue(repairs, EarningBeforeWindow(range, clock))
    ensures NonNegativeCosts(repairs) ==> 0 <= st.revenueInWindow <= st.totalRevenue
    ensures st.completed == 0 ==> st.avgRepairTimeTenths == 0
    ensures st.completed > 0 ==>
              var unit := st.completed * DayMs;
              2 * unit * st.avgRepairTimeTenths - unit <= 20 * TotalDuration(repairs) < 2 * unit * st.avgRepairTimeTenths + unit
  {
    var newCount := StatusCount(repairs, New);
    var inProgress := StatusCount(repairs, InProgress);
    var waitingParts := StatusCount(repairs, WaitingParts);
    var completed := StatusCount(repairs, Completed);
    var active := newCount + inProgress + waitingParts;
    var completedNow := Count(repairs, CompletedInWindow(range, clock));
    var completedBefore := Count(repairs, CompletedBeforeWindow(range, clock));
    var revenueNow := Revenue(repairs, EarningInWindow(range, clock));
    var revenueBefore := Revenue(repairs, EarningBeforeWindow(range, clock));
    var total := Revenue(repairs, Earning);
    StatusPartition(repairs);
    CountDisjoint(repairs, CompletedInWindow(range, clock), CompletedBeforeWindow(range, clock), HasStatus(Completed));
    RevenueMono(repairs, EarningInWindow(range, clock), Earning);
    Stats(newCount, inProgress, waitingParts, completed, Count(repairs, UnfinishedWith(Urgent)), active,
          completedNow, TrendOf(completedNow, completedBefore), completedNow >= completedBefore,
          revenueNow, TrendOf(revenueNow, revenueBefore), revenueNow >= revenueBefore,
          total, MeanTenths(TotalDuration(repairs), completed, DayMs))
  }
}
