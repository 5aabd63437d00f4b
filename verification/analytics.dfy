/** The lifetime analytics of the repairs page: device-type frequencies,
    priority distribution, per-technician load and revenue, revenue by
    completion month, and the cost, time and success averages. Every figure
    is over the whole snapshot, with no reporting window. */
module Analytics {
  import opened Wrappers
  import opened Seqs
  import opened Rounding
  import opened StableSort
  import opened Tally
  import opened Domain
  import opened TimeWindow
  import opened RepairStats

  /** `deviceType === k`. */
  function OfDeviceType(k: string): Repair -> bool
  {
    (r: Repair) => r.deviceType == k
  }

  /** `deviceTypes[r.deviceType] += 1`. */
  function DeviceContribution(): Repair -> Contribution
  {
    (r: Repair) => Add(r.deviceType, r.deviceType, 1, 0)
  }

  /** A completed repair credits its technician (when both id and name are truthy) with one job and its cost. */
  function TechnicianContribution(): Repair -> Contribution
  {
    (r: Repair) =>
      if r.status == Completed && Present(r.technicianName) && Present(r.technicianId)
      then Add(r.technicianId.value, r.technicianName.value, 1, DisplayCost(r))
      else Skip
  }

  /** A completed repair with a completion instant adds its cost under the month key of that instant. */
  function MonthContribution(monthKey: int -> string): Repair -> Contribution
  {
    (r: Repair) =>
      if Timed(r) then Add(monthKey(r.completedAt.value), monthKey(r.completedAt.value), DisplayCost(r), 0)
      else Skip
  }

  /** `priority === p`. */
  function HasPriority(p: Priority): Repair -> bool
  {
    (r: Repair) => r.priority == p
  }

  /** The completed repairs' cost `finalCost || estimatedCost || 0`, zero for the rest. */
  function CompletedCost(r: Repair): int
  {
    if r.status == Completed then DisplayCost(r) else 0
  }

  /** `totalCost`: the summed cost of completed repairs. */
  function TotalCost(s: seq<Repair>): int
  {
    Sum(s, CompletedCost)
  }

  /** Displayed costs are never negative. */
  predicate NonNegativeDisplayCosts(s: seq<Repair>)
  {
    forall i :: 0 <= i < |s| ==> DisplayCost(s[i]) >= 0
  }

  datatype PriorityDist = PriorityDist(urgent: nat, high: nat, medium: nat, low: nat)

  /** Every repair has exactly one priority. */
  lemma {:induction false} PriorityPartition(s: seq<Repair>)
    ensures Count(s, HasPriority(Urgent)) + Count(s, HasPriority(High))
          + Count(s, HasPriority(Medium)) + Count(s, HasPriority(Low)) == |s|
  {
    if |s| > 0 {
      PriorityPartition(s[1..]);
    }
  }

  /** `priorityDist`, pre-seeded with all four priorities at 0. */
  function PriorityDistribution(s: seq<Repair>): (d: PriorityDist)
    ensures d.urgent == Count(s, HasPriority(Urgent)) && d.high == Count(s, HasPriority(High))
    ensures d.medium == Count(s, HasPriority(Medium)) && d.low == Count(s, HasPriority(Low))
    ensures d.urgent + d.high + d.medium + d.low == |s|
    ensures |s| == 0 ==> d == PriorityDist(0, 0, 0, 0)
  {
    PriorityPartition(s);
    PriorityDist(Count(s, HasPriority(Urgent)), Count(s, HasPriority(High)),
                 Count(s, HasPriority(Medium)), Count(s, HasPriority(Low)))
  }

  /** `deviceTypes`: one entry per device type in first-seen order, whose counts add up to the snapshot size. */
  function DeviceTypes(s: seq<Repair>): (t: seq<Bucket>)
    ensures Sum(t, BucketFirst) == |s|
    ensures Keys(t) == FirstSeen(ContributedKeys(s, DeviceContribution()))
    ensures forall i :: 0 <= i < |t| ==> t[i].first == Count(s, OfDeviceType(t[i].key))
  {
    var f := DeviceContribution();
    AccumulateTotals(s, f);
    SumConstant(s, FirstOf(f), 1);
    AccumulateKeys(s, f);
    var t := Accumulate(s, f);
    forall i | 0 <= i < |t|
      ensures t[i].first == Count(s, OfDeviceType(t[i].key))
    {
      AccumulateEntry(s, f, i);
      CountAsSum(s, OfDeviceType(t[i].key), FirstFor(f, t[i].key));
    }
    t
  }

  /** `topDevices`: at most five device types by count, ties in first-seen order. */
  function TopDevices(s: seq<Repair>): (t: seq<Bucket>)
    ensures |t| == if |DeviceTypes(s)| < 5 then |DeviceTypes(s)| else 5
    ensures Sorted(t, BucketFirst, Desc)
    ensures t == Sort(DeviceTypes(s), BucketFirst, Desc)[..|t|]
  {
    TopSpec(DeviceTypes(s), BucketFirst, 5);
    Top(DeviceTypes(s), BucketFirst, 5)
  }

  /** Each repair's technician job count is at most its completion indicator, and its revenue at most its cost. */
  lemma TechnicianTermsBounded(s: seq<Repair>)
    ensures Sum(s, FirstOf(TechnicianContribution())) <= StatusCount(s, Completed)
    ensures NonNegativeDisplayCosts(s) ==> Sum(s, SecondOf(TechnicianContribution())) <= TotalCost(s)
  {
    var ind := (r: Repair) => if r.status == Completed then 1 else 0;
    CountAsSum(s, HasStatus(Completed), ind);
    SumLe(s, FirstOf(TechnicianContribution()), ind);
    if NonNegativeDisplayCosts(s) {
      SumLe(s, SecondOf(TechnicianContribution()), CompletedCost);
    }
  }

  /** `technicianLoad`: per technician id, the completed job count and revenue. */
  function TechnicianLoad(s: seq<Repair>): (t: seq<Bucket>)
    ensures Sum(t, BucketFirst) <= StatusCount(s, Completed)
    ensures NonNegativeDisplayCosts(s) ==> Sum(t, BucketSecond) <= TotalCost(s)
    ensures forall i, j :: 0 <= i < j < |t| ==> t[i].key != t[j].key
  {
    AccumulateTotals(s, TechnicianContribution());
    TechnicianTermsBounded(s);
    AccumulateKeys(s, TechnicianContribution());
    var t := Accumulate(s, TechnicianContribution());
    assert forall i :: 0 <= i < |t| ==> Keys(t)[i] == t[i].key;
    t
  }

  /** Completed repairs credited to technician `k`. */
  function CreditedTo(k: string): Repair -> bool
  {
    (r: Repair) => TechnicianContribution()(r).Add? && TechnicianContribution()(r).key == k
  }

  /** A technician's entry counts exactly the completed repairs credited to
      them and sums exactly their costs, under the name of the first of them. */
  lemma TechnicianEntry(s: seq<Repair>, k: string)
    ensures Find(TechnicianLoad(s), k).Some? <==> Count(s, CreditedTo(k)) > 0
    ensures Find(TechnicianLoad(s), k).Some? ==>
              Find(TechnicianLoad(s), k).value.first == Count(s, CreditedTo(k))
              && Find(TechnicianLoad(s), k).value.second == Sum(Filter(s, CreditedTo(k)), DisplayCost)
  {
    var f := TechnicianContribution();
    AccumulateFind(s, f, k);
    CountAsSum(s, CreditedTo(k), FirstFor(f, k));
    SumFilter(s, CreditedTo(k), DisplayCost, SecondFor(f, k));
    if FirstName(s, f, k).None? {
      FindNoneTotals(s, f, k);
    } else {
      FirstNameContributes(s, f, k);
      var i :| 0 <= i < |s| && f(s[i]).Add? && f(s[i]).key == k;
      FilterMembership(s, CreditedTo(k));
      assert CreditedTo(k)(s[i]);
    }
  }

  /** `topTechnicians`: at most five technicians by revenue, ties in first-seen order. */
  function TopTechnicianLoads(s: seq<Repair>): (t: seq<Bucket>)
    ensures |t| == if |TechnicianLoad(s)| < 5 then |TechnicianLoad(s)| else 5
    ensures Sorted(t, BucketSecond, Desc)
    ensures t == Sort(TechnicianLoad(s), BucketSecond, Desc)[..|t|]
  {
    TopSpec(TechnicianLoad(s), BucketSecond, 5);
    Top(TechnicianLoad(s), BucketSecond, 5)
  }

  /** `Object.entries(monthlyRevenue).slice(-6)`: the last six month keys in
      first-insertion order (not calendar order), with their revenue. */
  function MonthlyRevenue(s: seq<Repair>, monthKey: int -> string): (t: seq<Bucket>)
    ensures |t| <= 6
    ensures Keys(t) == LastN(FirstSeen(ContributedKeys(s, MonthContribution(monthKey))), 6)
    ensures forall i :: 0 <= i < |t| ==> t[i].first == Sum(s, FirstFor(MonthContribution(monthKey), t[i].key))
  {
    AccumulateKeys(s, MonthContribution(monthKey));
    LastEntries(s, MonthContribution(monthKey), 6);
    LastN(Accumulate(s, MonthContribution(monthKey)), 6)
  }


  datatype Analytics = Analytics(
    totalCost: int,
    avgCost: int,
    avgRepairTimeTenths: int,
    completedCount: nat,
    topDevices: seq<Bucket>,
    priorityDist: PriorityDist,
    topTechnicians: seq<Bucket>,
    monthlyRevenue: seq<Bucket>,
    successRate: int)

  /** The `analytics` memo. */
  function ComputeAnalytics(s: seq<Repair>, monthKey: int -> string): (a: Analytics)
    ensures a.completedCount == StatusCount(s, Completed) && a.completedCount <= |s|
    ensures a.totalCost == TotalCost(s)
    ensures a.successRate == Percent(a.completedCount, |s|)
    ensures 0 <= a.successRate <= 100
    ensures |s| == 0 ==> a.successRate == 0
    ensures a.completedCount == 0 ==> a.avgCost == 0 && a.avgRepairTimeTenths == 0
    ensures a.completedCount > 0 ==>
              var unit := a.completedCount * DayMs;
              2 * unit * a.avgRepairTimeTenths - unit <= 20 * TotalDuration(s) < 2 * unit * a.avgRepairTimeTenths + unit
    ensures a.completedCount > 0 ==>
              2 * a.completedCount * a.avgCost - a.completedCount <= 2 * a.totalCost
              < 2 * a.completedCount * a.avgCost + a.completedCount
    ensures a.priorityDist.urgent + a.priorityDist.high + a.priorityDist.medium + a.priorityDist.low == |s|
    ensures a.priorityDist == PriorityDistribution(s)
    ensures a.topDevices == TopDevices(s) && a.topTechnicians == TopTechnicianLoads(s)
    ensures a.monthlyRevenue == MonthlyRevenue(s, monthKey)
    ensures |a.topDevices| <= 5 && |a.topTechnicians| <= 5 && |a.monthlyRevenue| <= 6
  {
    var completed := StatusCount(s, Completed);
    var total := TotalCost(s);
    PercentRange(completed, |s|);
    Analytics(
      total,
      if completed > 0 then RoundDiv(total, completed) else 0,
      MeanTenths(TotalDuration(s), completed, DayMs),
      completed,
      TopDevices(s),
      PriorityDistribution(s),
      TopTechnicianLoads(s),
      MonthlyRevenue(s, monthKey),
      Percent(completed, |s|))
  }

  /** The analytics turnaround and the statistics strip's turnaround are the same figure. */
  lemma AvgRepairTimeAgrees(s: seq<Repair>, monthKey: int -> string, range: Range, clock: Clock)
    ensures ComputeAnalytics(s, monthKey).avgRepairTimeTenths == ComputeStats(s, range, clock).avgRepairTimeTenths
  {
  }

  /** Summed over completed repairs, the cost is `finalCost || estimatedCost || 0` each. */
  lemma TotalCostIsCompletedSum(s: seq<Repair>)
    ensures TotalCost(s) == Sum(Filter(s, HasStatus(Completed)), DisplayCost)
  {
    SumFilter(s, HasStatus(Completed), DisplayCost, CompletedCost);
  }
}
