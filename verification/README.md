# Computer-maintenance dashboard: the record-processing core in Dafny

The dashboard is a React application for a repair shop: repair requests, technicians, clients, a warehouse with stock movements and storage zones. Almost all of it is view code, but the `useMemo` blocks and event handlers of its main screens hold a layer of pure, sequential logic over record snapshots. This project models that layer and proves properties of it:

- **the repairs page**: a conjunctive filter (search text, status, priority, technician with the `unassigned` sentinel) followed by a keyed stable sort; the create, edit and status-change handlers with their completion-instant rule; the quick status transitions of the details panel; the "filters active" predicate, the sort vocabulary and the filter chips; the Kanban columns and the recency timeline;
- **time-windowed statistics**: on the repairs page and on the dashboard, status counters, completions and revenue in a window (`today`, `week`, `month`) compared with an equal-length look-back period, the `+100%` trend rule and the two deliberately different average-turnaround formulas;
- **lifetime analytics**: device-type frequency and top five, priority distribution, per-technician load and revenue, revenue per month (last six keys in insertion order), success rate, average cost and time;
- **technicians**: per-technician active load, completions this month, revenue, average time over the lifetime counter, workload clamped to 100 %, fleet aggregates, top performer, specialization list editing, and the ten most recent jobs;
- **warehouse**: movement filtering and aggregates, the most active item, the stock-movement handler (rejections, signed quantity, no lower bound, zones untouched), zone creation, and per-zone utilization banding.

Records are immutable datatypes (`domain.dfy`), snapshots are sequences, and every operation is a pure function of its inputs. Instants are integer milliseconds. Money and quantities are integers. The calendar and locale facts the source asks the JS `Date` API for are parameters: local midnight and the first of the month (`TimeWindow.Clock`), "same month and year as now" (`int -> bool`), the ISO day key of a movement and the locale month key (`int -> string`). `Math.round(n / d)` for `d > 0` is `(2n + d) / (2d)` with Dafny's floor division (`Rounding.RoundDiv`). A rounded value is stated by the inequality that pins it (`2·d·r − d ≤ 2·n < 2·d·r + d`), so each average and percentage contract says what the number is, not just its range. JS objects used as dictionaries are sequences of buckets in first-insertion order (`Tally`). `Array.prototype.sort` is a stable insertion sort parameterised by a key and a direction (`StableSort`), so a descending sort keeps ties in input order and is not the reverse of an ascending one.

Modules follow the source: `RepairsSection`, `RepairFilters`, `RepairDetails`, `RepairViews` (Kanban and timeline), `RepairStats`, `Dashboard`, `Analytics`, `Technicians` (section and details dialog), `Warehouse`, `Zones`. They rest on shared helpers: `Seqs` (filter, count, sum, subsequence), `Rounding`, `StableSort`, `Tally`, `Text` (lower-casing, substring, JS `trim`, integer formatting), `TimeWindow`, `Trends`, `Domain` and `Wrappers`.

Some behaviours of the code are easy to misread; the model follows the code:

- A trend renders without a `+` for a positive change; only the zero-previous sentinel reads `+100%`.
- Cost fallbacks use `||`, so a final cost of 0 falls through to the estimate.
- The `unassigned` filter keeps a missing and an empty technician id alike.
- The dashboard's average time divides by all in-window completions, not only the timed ones.
- The most active item ranks by quantity, not by number of movements.
- A zone at exactly 60 % is healthy.
- An edit keeps the final cost from the form whatever the new status.

The technician details dialog shows its empty-state line (whose wording speaks of completed jobs) exactly when the technician has no repairs at all. `Technicians.RecentJobs` states that condition.

## Model

| member | source | states |
|---|---|---|
| RepairsSection.StagesAreFilters | src/components/RepairsSection.tsx:41-50 | The search stage, skipped for an empty query, keeps exactly the repairs satisfying the search criterion. |
| RepairsSection.StatusStage | src/components/RepairsSection.tsx:52-54 | The status stage is an exact-match filter, and the identity for `all`. |
| RepairsSection.PriorityStage | src/components/RepairsSection.tsx:56-58 | The priority stage is an exact-match filter, and the identity for `all`. |
| RepairsSection.TechnicianStage | src/components/RepairsSection.tsx:60-64 | `unassigned` keeps the repairs with a falsy technician id (missing or empty). Any other value except `all` keeps exact id matches, and `all` keeps everything. |
| RepairsSection.FilterRepairsIsConjunction | src/components/RepairsSection.tsx:38-64 | Running the four stages in order equals one filter by the conjunction of all criteria. |
| RepairsSection.SearchCriterion | src/components/RepairsSection.tsx:41-50 | An empty query keeps every repair. A non-empty query keeps a repair iff the lower-cased query occurs in its lower-cased client name, device type, device model, problem, or its technician name when present. |
| RepairsSection.FilterRepairsSpec | src/components/RepairsSection.tsx:38-64 | The result is an order-preserving subsequence. Every kept repair matches, every matching repair is kept, and filtering twice equals filtering once. |
| RepairsSection.BeforeDash | src/components/RepairsSection.tsx:66 | `split('-')[0]` is the longest dash-free prefix, ending just before the first dash. |
| RepairsSection.ParseOptionSort | src/components/RepairsSection.tsx:66-92 | `field-order` with dash-free parts sorts by createdAt, priority, cost or estimatedDays when the field has that name, and by no key for any other name. It is ascending iff the order is `asc`. |
| RepairsSection.PriorityWeight | src/components/RepairsSection.tsx:76-78 | A priority's weight is one more than its place on the ladder low, medium, high, urgent. |
| RepairsSection.PriorityWeightOrder | src/components/RepairsSection.tsx:76-78 | The weights rank urgent above high above medium above low, and distinct priorities get distinct weights. |
| RepairsSection.FilterAndSortSpec | src/components/RepairsSection.tsx:66-95 | The output is a permutation of the filtered list, ordered by the parsed key and direction. Repairs with equal keys keep their filtered order. |
| RepairsSection.UnknownFieldKeepsOrder | src/components/RepairsSection.tsx:88-89 | An unknown sort field leaves the filtered order unchanged. |
| RepairsSection.FilterAndSortIdempotent | src/components/RepairsSection.tsx:38-96 | Running filter and sort on its own output yields the same sequence. |
| RepairsSection.SortOptionsWellFormed | src/components/repairs/RepairFilters.tsx:169-174 | Every offered sort option names a field the comparator knows and the direction `asc` or `desc`. The default parses to newest first. |
| RepairsSection.InactiveIffReset | src/components/repairs/RepairFilters.tsx:40-45 | The filters are inactive iff the state equals the one `resetFilters` produces. Moving only the sort away from `createdAt-desc` makes them active. |
| RepairsSection.ClientNameFor | src/components/RepairsSection.tsx:99-104 | The name of the first client with the id, or "" when no client has it. |
| RepairsSection.TechnicianNameFor | src/components/RepairsSection.tsx:100-105 | The name of the first technician with the id. It is absent for a missing id or one no technician has. |
| RepairsSection.StampCompletion | src/components/RepairsSection.tsx:121-128 | The completion instant becomes "now" exactly on a transition into completed. Otherwise it is the previous value, and a recorded instant is never cleared. |
| RepairsSection.CreateRepair | src/components/RepairsSection.tsx:98-108 | The new repair keeps the form's status. When the form's status is completed it keeps the final cost and gets the completion instant "now"; otherwise both are absent. The client name (or "") and technician name come from the first matching records, and every other modelled field is the form's. |
| RepairsSection.UpdateRepair | src/components/RepairsSection.tsx:115-129 | An edit keeps the id and creation instant and stamps the completion instant by the transition rule. The client and technician names come from the first matching records. Every other modelled field, the final cost included whatever the status, is the form's. |
| RepairsSection.ChangeStatus | src/components/RepairsSection.tsx:145-155 | Nothing is written iff no repair has the id. Otherwise the first repair with that id gets the new status and a stamped completion instant, and nothing else changes. |
| RepairsSection.EditsKeepCompletion | src/components/RepairsSection.tsx:115-155 | Edits and status changes preserve "a completed repair has a completion instant" and never clear a recorded instant. |
| RepairsSection.ReopenAndRecomplete | src/components/RepairsSection.tsx:145-155 | Leaving completed keeps the old instant, and completing again overwrites it with the new "now". |
| RepairFilters.ClearChip | src/components/repairs/RepairFilters.tsx:187-219 | Clearing a chip resets its own criterion: the search to "", or the status, priority or technician to `all`. The chip is then hidden. The other three criteria, the sort and every other chip stay as they were. |
| RepairFilters.ActiveWithoutChips | src/components/repairs/RepairFilters.tsx:184-219 | The filters can be active with no chip shown: the `unassigned` technician filter, or a sort change alone. |
| RepairDetails.QuickTargets | src/components/repairs/RepairDetails.tsx:225-254 | No targets iff the panel is not offered. When offered, the last two targets are completed and cancelled, and no target repeats. |
| RepairDetails.OfferedTargets | src/components/repairs/RepairDetails.tsx:225-254 | A status is offered iff a handler exists, the current status is open, and the target is neither `new` nor the current status. |
| RepairDetails.IntermediateTargets | src/components/repairs/RepairDetails.tsx:235-254 | In progress is offered iff the current status is new or waiting. Waiting is offered iff it is new or in progress. Completed and cancelled are always offered from an open status. |
| RepairDetails.FromNew | src/components/repairs/RepairDetails.tsx:225-254 | The exact target lists from new, from in progress, and from completed (empty). |
| RepairViews.ColumnRepairs | src/components/repairs/RepairKanban.tsx:28-30 | A column is an order-preserving subsequence holding exactly the repairs with its status. |
| RepairViews.ColumnMembership | src/components/repairs/RepairKanban.tsx:13-30 | A repair is in some column iff it is not cancelled, and then only in the column of its own status. |
| RepairViews.ColumnCounts | src/components/repairs/RepairKanban.tsx:28-46 | The four column counts add up to the number of repairs minus the cancelled ones. |
| RepairViews.Timeline | src/components/repairs/RepairTimeline.tsx:29-32 | Shows min(limit, length) repairs (default limit 10), newest first. They are a prefix of the stable descending sort, so each is at least as recent as every omitted one. |
| RepairViews.NoticeIffTruncated | src/components/repairs/RepairTimeline.tsx:95-98 | The "shown N of M" notice appears iff the list was cut. |
| RepairViews.TimelineFromSnapshot | src/components/repairs/RepairTimeline.tsx:30-32 | Every shown repair comes from the snapshot, without duplication. |
| TimeWindow.WindowsDisjoint | src/components/repairs/RepairStats.tsx:63-77 | No creation instant lies both in the current window (no upper bound) and in the half-open comparison window. |
| TimeWindow.WindowShape | src/components/repairs/RepairStats.tsx:57-62 | The week window starts seven days before now. When the window start is not after now, the comparison period starts no later than the window. |
| Trends.TrendOf | src/components/repairs/RepairStats.tsx:79-81 | `+100%` iff the previous value is 0 or less (even when the current value is 0 too). Otherwise it is the rounded percentage change. |
| Trends.TrendTextSigns | src/components/repairs/RepairStats.tsx:79-81 | Only the zero-previous sentinel text begins with `+`. A computed percentage never renders as the sentinel. |
| Trends.TrendFollowsChange | src/components/repairs/RepairStats.tsx:79-81 | With a positive previous value, no decrease gives a non-negative percentage, and a positive percentage means a rise. |
| Trends.DoublingIsPlainHundred | src/components/repairs/RepairStats.tsx:79-81 | Doubling a positive value reads `100%`, with no plus sign. |
| RepairStats.RevenueMono | src/components/repairs/RepairStats.tsx:83-99 | With non-negative costs, revenue over a narrower selection is between 0 and revenue over a wider one. |
| RepairStats.ComputeStats | src/components/repairs/RepairStats.tsx:56-127 | Each status counter counts its status over the whole snapshot. Urgent counts urgent repairs not completed, cancelled included. Window completions and window revenue (truthy final costs of completed repairs) count creations from the window start on. Total revenue is over the snapshot. Both trends are `TrendOf(current, comparison period)`, and trend-up means no decrease. Active, completed and cancelled partition the snapshot. Window revenue is at most total revenue for non-negative costs. The average time is the rounded lifetime duration sum over all completed repairs in tenths of a day, and 0 when there are none. |
| Domain.OrZero | src/components/repairs/RepairStats.tsx:85 | `x \|\| 0`: the value when present and non-zero, else 0. |
| Domain.DisplayCost | src/components/repairs/RepairKanban.tsx:90 | `finalCost \|\| estimatedCost \|\| 0`: a final cost of 0 falls through to the estimate. |
| Domain.StatusPartition | src/components/repairs/RepairStats.tsx:65-68 | The five status counts add up to the number of repairs. |
| Dashboard.OpenCountSplit | src/components/DashboardSection.tsx:71-73 | The single open-status filter counts the same as new, in progress and waiting added up. |
| Dashboard.AvgHours | src/components/DashboardSection.tsx:110-118 | The rounded hours of the timed in-window durations divided by every in-window completion. It is 0 when there is none. |
| Dashboard.ComputeDashboard | src/components/DashboardSection.tsx:54-138 | Agrees with the repairs page on active count, window completions, revenue and both trends. Urgent counts urgent repairs that are new or in progress, at most the page's count. On duty counts available and busy technicians. Low stock counts items at or below their minimum. New clients counts clients created from the window start on, a missing instant counting as the epoch. The average time is `AvgHours`. |
| Dashboard.UrgentCountsDiffer | src/components/DashboardSection.tsx:106-108 | A cancelled urgent repair is urgent on the repairs page and not on the dashboard. |
| Dashboard.CounterBoundaries | src/components/DashboardSection.tsx:100-136 | Stock exactly at its minimum is low. Only available and busy technicians are on duty. A client without a creation instant is new iff the window starts at or before the epoch. |
| Dashboard.RecentRepairs | src/components/DashboardSection.tsx:140-142 | The first six (or all) repairs of the stable newest-first sort, so repairs created at the same instant keep their snapshot order. Each is at least as recent as every omitted one. |
| Dashboard.TopTechnicians | src/components/DashboardSection.tsx:151-153 | The first five (or all) technicians of the stable sort by lifetime completions, descending, so ties keep their snapshot order. Each has at least as many completions as every omitted one. |
| Dashboard.StatusDistribution | src/components/DashboardSection.tsx:144-149 | The bars are the in-progress, waiting, new and completed counts, in that order. With the cancelled count they make up the snapshot, and the first three make up the open count. |
| Dashboard.PriorityBreakdownPartition | src/components/DashboardSection.tsx:155-160 | The four per-priority counts of unfinished repairs plus the completed count make up the snapshot. |
| Dashboard.PriorityBreakdown | src/components/DashboardSection.tsx:155-160 | The entries count the unfinished urgent, high, medium and low repairs, in that order, and add up to the number of repairs not completed. |
| Dashboard.UrgentPanelMatchesStats | src/components/DashboardSection.tsx:156 | The urgent entry of the priority panel equals the repairs page's urgent counter. |
| Dashboard.TodayScenario | src/components/DashboardSection.tsx:54-138 | Four repairs (two completed today for 1000 and 500, one in progress today, one completed ten days ago for 2000) give active 1, revenue 1500, completed 2, both trends `+100%`, revenue trending up. |
| Analytics.PriorityPartition | src/components/repairs/RepairAnalytics.tsx:24 | The four priority counts add up to the number of repairs. |
| Analytics.PriorityDistribution | src/components/repairs/RepairAnalytics.tsx:14-24 | Each field counts the repairs of its priority, all four are 0 for an empty snapshot, and the counts add up to the number of repairs. |
| Analytics.DeviceTypes | src/components/repairs/RepairAnalytics.tsx:23 | Keys in first-seen order, each holding exactly the number of repairs of that type. The counts add up to the number of repairs. |
| Analytics.TopDevices | src/components/repairs/RepairAnalytics.tsx:56-59 | At most five entries, by count descending, ties in first-seen order. |
| Analytics.TechnicianTermsBounded | src/components/repairs/RepairAnalytics.tsx:26-37 | Per-repair technician contributions add up to at most the completed count. With non-negative costs, their revenue is at most the total cost. |
| Analytics.TechnicianLoad | src/components/repairs/RepairAnalytics.tsx:31-37 | Entries have distinct ids. Counts add up to at most the completed count, and (for non-negative costs) revenues to at most the total cost. |
| Analytics.TechnicianEntry | src/components/repairs/RepairAnalytics.tsx:31-37 | A technician has an entry iff some completed repair with both id and name credits them. The entry counts exactly those repairs and sums exactly their costs. |
| Analytics.TopTechnicianLoads | src/components/repairs/RepairAnalytics.tsx:61-63 | At most five entries, by revenue descending, ties in first-seen order. |
| Analytics.MonthlyRevenue | src/components/repairs/RepairAnalytics.tsx:39-77 | The last six month keys in first-insertion order (not calendar order), each holding the cost total of its month's timed completions. |
| Analytics.ComputeAnalytics | src/components/repairs/RepairAnalytics.tsx:12-80 | The completed count counts completed repairs, and the total cost is their display-cost sum. The success rate is the rounded percentage of completed repairs, in [0, 100] and 0 for an empty snapshot. The average cost and the average time in tenths of a day are the rounded means over the completed count, and 0 without completions. The priority distribution, top devices, top technicians and monthly revenue are the members above. |
| Analytics.AvgRepairTimeAgrees | src/components/repairs/RepairAnalytics.tsx:50-52 | The lifetime average time equals the repairs page's average time in any window. |
| Analytics.TotalCostIsCompletedSum | src/components/repairs/RepairAnalytics.tsx:26-29 | The total cost is the sum of display costs over completed repairs. |
| Technicians.Workload | src/components/TechniciansSection.tsx:70-78 | In [0, 100] for non-negative load, 20 per active job up to 5 jobs, and 100 from 5 jobs on. |
| Technicians.WorkloadExamples | src/components/TechniciansSection.tsx:70-78 | 0, 5 and 12 active jobs give 0, 100 and 100. |
| Technicians.WorkloadColor | src/components/TechniciansSection.tsx:227-231 | Red iff the workload is at least 80. Green iff it is below 50. |
| Technicians.WithStats | src/components/TechniciansSection.tsx:42-81 | Active jobs count the technician's repairs in progress or waiting for parts. Completions this month count their timed completions in the current month. The workload is `Workload(active jobs)`, in [0, 100]. The average time is the rounded duration sum over the lifetime counter in tenths of a day, and 0 when the counter is not positive. |
| Technicians.TechnicianRevenue | src/components/TechniciansSection.tsx:56-58 | A technician's revenue sums the truthy final costs of their completed repairs. |
| Technicians.NewWorkIsNotLoad | src/components/TechniciansSection.tsx:45-47 | Adding a repair in status new never changes anyone's active load. |
| Technicians.TechsWithStats | src/components/TechniciansSection.tsx:42-81 | One row per technician, in order, each with that technician's statistics. |
| Technicians.FilteredTechs | src/components/TechniciansSection.tsx:83-88 | The active view is an order-preserving subsequence of available and busy rows. It keeps every such row, and its length is their count, so repeated rows are kept each time. The other view keeps all. |
| Technicians.ActiveViewSize | src/components/TechniciansSection.tsx:83-93 | The active view lists as many rows as there are available plus busy technicians, the two stat-card counts. |
| Technicians.ActiveSplit | src/components/TechniciansSection.tsx:91-93 | The active count equals the available count plus the busy count. |
| Technicians.AvgWorkload | src/components/TechniciansSection.tsx:102-116 | The rounded mean of the row workloads over `technicians.length \|\| 1`, in [0, 100] and 0 for an empty fleet. |
| Technicians.TopPerformer | src/components/TechniciansSection.tsx:104-105 | Absent iff there are no technicians. Otherwise it is the first row with the most completions this month. |
| Technicians.ComputeFleet | src/components/TechniciansSection.tsx:90-119 | The total is the fleet size. Available, busy and on break count their statuses, active is available plus busy, and active plus on break is at most the total. The completion total sums the lifetime counters, and the revenue total sums the rows' revenues (see `TechnicianRevenue`). The average workload is `AvgWorkload` of the rows over the fleet size, in [0, 100]. The top performer is as above. |
| Technicians.AddSpecialization | src/components/TechniciansSection.tsx:189-197 | Appends the trimmed input and clears it only when the input is non-empty and new. Otherwise nothing changes. A list without duplicates stays without duplicates. |
| Technicians.RemoveSpecialization | src/components/TechniciansSection.tsx:199-204 | For an index in range, the list is one shorter. Entries before the index keep their place, later ones move down by one, and the removed entry is the only multiset difference. An out-of-range index changes nothing. |
| Technicians.AddThenRemove | src/components/TechniciansSection.tsx:189-204 | Removing a freshly added entry restores the list. |
| Technicians.AddIdempotent | src/components/TechniciansSection.tsx:189-197 | Adding the same input twice adds it once. |
| Technicians.CreatedSpecialization | src/components/TechniciansSection.tsx:121-127 | A new technician has at least one specialization: the chosen ones, or the single default. |
| Technicians.RecentJobs | src/components/technicians/TechnicianDetailsDialog.tsx:35-38 | At most ten of the technician's own repairs, newest first. The list is empty (and the empty-state line shown) iff the technician has no repairs. |
| Technicians.RecentJobsAreMostRecent | src/components/technicians/TechnicianDetailsDialog.tsx:35-38 | The listed jobs are a prefix of the technician's repairs sorted newest first, so each is at least as recent as every omitted one. |
| Warehouse.FilteredMovements | src/components/WarehouseSection.tsx:58-65 | An order-preserving subsequence of movements passing both filters. It keeps every passing movement, and its length is their count, so each occurrence is kept. With both filters empty it is everything. |
| Warehouse.UnfilteredKeepsAll | src/components/WarehouseSection.tsx:58-65 | With neither filter set, every movement is kept. |
| Warehouse.ItemTotals | src/components/WarehouseSection.tsx:76-86 | Over all movements, ignoring filters, the per-item "in" totals add up to the in-quantities and the "out" totals to the out-quantities. |
| Warehouse.MovementsByItem | src/components/WarehouseSection.tsx:76-86 | One entry per item id in first-seen order, none iff there are no movements. Each entry's in and out totals are the summed quantities of exactly that item's in- and out-movements. Its name is that of the item's first movement. |
| Warehouse.ItemEntries | src/components/WarehouseSection.tsx:76-86 | Folding the movements by item id gives each entry the in-quantities and out-quantities of exactly that item's movements, and the name of its first movement. |
| Warehouse.MostActiveItem | src/components/WarehouseSection.tsx:88-101 | `-` without movements. Otherwise it is the name of the first item with the largest in-plus-out quantity. |
| Warehouse.UtilizationRate | src/components/WarehouseSection.tsx:54-56 | The rounded percentage of total load over total capacity, and 0 when the total capacity is not positive. In [0, 100] when every zone holds at most its capacity. |
| Warehouse.UtilizationWithinRange | src/components/WarehouseSection.tsx:54-56 | Rounded load over capacity stays in [0, 100] when every zone is within capacity. |
| Warehouse.KindFilterExcludes | src/components/WarehouseSection.tsx:63-68 | A type filter leaves no movement of the other type. |
| Warehouse.ComputeWarehouseStats | src/components/WarehouseSection.tsx:53-104 | Total items and capacity are the zone sums. The in and out counts, quantity totals and value totals are over the filtered movements of each type, and the counts partition the journal. A type filter zeroes the other type's figures. The most active item is `MostActiveItem` over all movements. |
| Warehouse.CreateMovement | src/components/WarehouseSection.tsx:106-137 | Rejected iff the item is unknown, or known with a non-positive quantity, and then nothing changes. Otherwise the first item with the id gains (in) or loses (out) the quantity with no lower bound, one movement is appended, and zones are untouched. |
| Warehouse.InThenOutRestores | src/components/WarehouseSection.tsx:118-131 | An accepted in-movement followed by the same out-movement restores every item's stock. |
| Warehouse.StockScenario | src/components/WarehouseSection.tsx:106-131 | From stock 10: in 5 gives 15, out 5 gives 5, out 20 gives −10. Quantity 0 and an unknown item are rejected. |
| Warehouse.CreateZone | src/components/WarehouseSection.tsx:139-150 | Rejected iff the name is empty. Otherwise one zone is appended after the unchanged existing zones. It carries the store's new id and the form's name, capacity and load. |
| Warehouse.CreateZoneTotals | src/components/WarehouseSection.tsx:139-150 | Creating a zone raises the total capacity and total load, from which the utilization rate is computed, by exactly the new zone's capacity and load. |
| Zones.Utilization | src/components/warehouse/ZonesTab.tsx:17-19 | The rounded percentage of load over capacity when the capacity is positive, else 0. |
| Zones.UtilizationBounds | src/components/warehouse/ZonesTab.tsx:17-19 | In [0, 100] within capacity. Not clamped: at least 100 over capacity. |
| Zones.UtilizationMonotone | src/components/warehouse/ZonesTab.tsx:17-19 | For a fixed capacity, more load never lowers utilization. |
| Zones.ZeroCapacity | src/components/warehouse/ZonesTab.tsx:17-19 | Capacity 0 gives utilization 0 and a healthy band, whatever the load. |
| Zones.BandOf | src/components/warehouse/ZonesTab.tsx:57 | Critical iff above 80, healthy iff at most 60, warning otherwise. |
| Zones.BandBoundaries | src/components/warehouse/ZonesTab.tsx:57 | Exactly 80 is warning and exactly 60 is healthy. |
| Zones.BadgeAndBarAgree | src/components/warehouse/ZonesTab.tsx:57-66 | The badge variant and the bar colour always fall in the same band. |
| StableSort.Sort | src/components/RepairsSection.tsx:67-93 | The sort returns a permutation of its input. |
| StableSort.SortSorted | src/components/RepairsSection.tsx:67-93 | The result is ordered by the key in the chosen direction. |
| StableSort.SortStable | src/components/RepairsSection.tsx:67-93 | Elements with equal keys keep their input order. |
| StableSort.SortIdempotent | src/components/RepairsSection.tsx:67-95 | Sorting a sorted sequence again changes nothing. |
| StableSort.SortConstantKey | src/components/RepairsSection.tsx:88-89 | When every key is equal, the sort is the identity. |
| StableSort.TopSpec | src/components/DashboardSection.tsx:140-142 | Sort-descending-then-slice is the prefix of the sorted sequence, ordered, drawn from the input, and dominating everything omitted. |
| StableSort.HeadIsFirstMaximum | src/components/TechniciansSection.tsx:104-105 | The head of a stable descending sort is the first element with the maximal key. |
| Tally.AccumulateKeys | src/components/repairs/RepairAnalytics.tsx:22-23 | Dictionary keys appear once each, in first-insertion order. |
| Tally.AccumulateTotals | src/components/repairs/RepairAnalytics.tsx:22-23 | The entries' totals add up to the records' contributions. |
| Tally.AccumulateFind | src/components/repairs/RepairAnalytics.tsx:31-37 | A key's entry exists iff a record contributed to it. It carries the first contributor's name and the sum of that key's contributions. |
| Tally.AccumulateEntry | src/components/repairs/RepairAnalytics.tsx:39-42 | Every entry holds exactly the totals of the records contributing to its key, and the name of the first such record. |
| Tally.LastEntries | src/components/repairs/RepairAnalytics.tsx:77 | `Object.entries(...).slice(-6)` keeps the last keys, each with its key's totals. |
| Text.Lower | src/components/RepairsSection.tsx:42-48 | Lower-casing keeps the length and maps each character independently. |
| Text.LowerIdempotent | src/components/RepairsSection.tsx:42-48 | Lower-casing twice equals lower-casing once. |
| Text.ContainsAt | src/components/RepairsSection.tsx:44-48 | `includes` holds iff the needle occurs at some position. |
| Text.ContainsEmpty | src/components/RepairsSection.tsx:44-48 | Every string includes the empty string. |
| Text.Trim | src/components/TechniciansSection.tsx:190 | `trim()` removes exactly the leading and trailing whitespace, and the result neither starts nor ends with whitespace. |
| Text.TrimIdempotent | src/components/TechniciansSection.tsx:190-193 | Trimming twice equals trimming once. |
| Text.IntToString | src/components/repairs/RepairStats.tsx:80 | The rendering starts with `-` iff the integer is negative, and never with `+`. The rest is decimal digits with no leading zero, and they denote the magnitude. |
| Rounding.RoundDiv | src/components/repairs/RepairAnalytics.tsx:54 | `Math.round(n / d)` is the integer within half a unit of `n / d`, halves rounding up. |
| Rounding.RoundDivUnique | src/components/repairs/RepairAnalytics.tsx:54 | That integer is unique. |
| Rounding.Percent | src/components/WarehouseSection.tsx:56 | The rounded percentage of part over whole, and 0 for a non-positive whole. |
| Rounding.PercentRange | src/components/WarehouseSection.tsx:56 | A part within its whole gives a percentage in [0, 100]. |
| Rounding.PercentMono | src/components/warehouse/ZonesTab.tsx:17-19 | A larger part never gives a smaller percentage. |
| Rounding.PercentAtLeastFull | src/components/warehouse/ZonesTab.tsx:17-19 | A part at least its positive whole gives at least 100. |
| Rounding.MeanTenths | src/components/repairs/RepairStats.tsx:101-109 | The rounded mean in tenths of a unit, and 0 without a positive count. |
| Seqs.FindFirst | src/components/RepairsSection.tsx:146 | `find` returns the first element satisfying the predicate, or nothing when none does. |

## Left out

- Rendering: JSX, CSS classes, icons, dialogs, tabs, open and close state, `toast`, `confirm()`. None of it computes anything.
- Persistence: the record stores are not part of this model. Each handler returns the record, ledger or list it would write. Ids and creation instants that the store assigns are taken from the input.
- Form fields the logic never reads: a repair's serial number, diagnosis, notes and accessories, and a zone's temperature, humidity, location and responsible person. The handlers copy them through `...data`; they are free text with no rule attached.
- `handleDelete` of repairs and technicians, technician `handleUpdate`/`handleQuickStatusChange`, and `handleUpdateZone`: each only forwards a form to a store.
- The calendar and locale: local midnight, first of the month, `getMonth`/`getFullYear`, `toISOString` day keys, `toLocaleDateString` month keys. These enter as parameters, so their correctness is assumed.
- Floating point: the average rating with `toFixed(1)`, temperature and humidity, and non-integer costs and quantities. Money and quantities are integers.
- Rounding.RoundDiv: JS rounds the floating-point quotient. At an exact `.5` boundary the float can fall on the other side of the exact rational the model rounds.
- Tally.AccumulateKeys: JS enumerates integer-like object keys first, in numeric order. The model keeps every key in first-insertion order.
- The in-place sorts of the dashboard and the timeline reorder the caller's snapshot as a side effect. The model returns a new sequence and does not model that mutation.
- Text.Lower: maps only ASCII and Cyrillic capitals (including Ё). Other scripts are unchanged.
- A movement type other than in or out, and a stored sort string outside the menu, are not representable separately: `MovementKind` has two values, and unknown sort fields parse to `UnknownField`.
- Movement form fields beyond item, quantity, type, cost and date are not part of this model.
