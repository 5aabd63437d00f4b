/** Two projections of the repair list: the Kanban board (one column per
    status except cancelled) and the timeline (the newest repairs up to a
    limit, with a notice when some are left out). */
module RepairViews {
  import opened Wrappers
  import opened Seqs
  import opened StableSort
  import opened Domain

  /** The board's columns, left to right; cancelled has none. */
  const Columns: seq<RepairStatus> := [New, InProgress, WaitingParts, Completed]

  /** `getColumnRepairs`: the repairs with the column's status, in input order. */
  function ColumnRepairs(repairs: seq<Repair>, status: RepairStatus): (c: seq<Repair>)
    ensures Subseq(c, repairs)
    ensures forall i :: 0 <= i < |c| ==> c[i].status == status
    ensures forall i :: 0 <= i < |repairs| && repairs[i].status == status ==> repairs[i] in c
  {
    FilterIsSubseq(repairs, HasStatus(status));
    FilterMembership(repairs, HasStatus(status));
    Filter(repairs, HasStatus(status))
  }

  /** A repair appears in some column iff it is not cancelled, and then only in the column of its own status. */
  lemma ColumnMembership(repairs: seq<Repair>, i: int)
    requires 0 <= i < |repairs|
    ensures (exists k :: 0 <= k < |Columns| && repairs[i] in ColumnRepairs(repairs, Columns[k]))
            <==> repairs[i].status != Cancelled
    ensures forall k :: 0 <= k < |Columns| && repairs[i] in ColumnRepairs(repairs, Columns[k]) ==> Columns[k] == repairs[i].status
  {
    var r := repairs[i];
    forall k | 0 <= k < |Columns| && r in ColumnRepairs(repairs, Columns[k])
      ensures Columns[k] == r.status
    {
      var c := ColumnRepairs(repairs, Columns[k]);
      var j :| 0 <= j < |c| && c[j] == r;
    }
    if r.status != Cancelled {
      var k := if r.status == New then 0 else if r.status == InProgress then 1 else if r.status == WaitingParts then 2 else 3;
      assert Columns[k] == r.status;
    }
  }

  /** The column counts add up to the number of repairs that are not cancelled. */
  lemma ColumnCounts(repairs: seq<Repair>)
    ensures |ColumnRepairs(repairs, New)| + |ColumnRepairs(repairs, InProgress)|
          + |ColumnRepairs(repairs, WaitingParts)| + |ColumnRepairs(repairs, Completed)|
         == |repairs| - StatusCount(repairs, Cancelled)
  {
    StatusPartition(repairs);
  }

  // ---------------------------------------------------------------- timeline

  const DefaultLimit: int := 10

  function CreatedAt(r: Repair): int { r.createdAt }

  /** The timeline's limit: the given one, or 10. */
  function LimitOf(limit: Option<int>): int
  {
    limit.GetOr(DefaultLimit)
  }

  /** `repairs.sort(newest first).slice(0, limit)`. */
  function Timeline(repairs: seq<Repair>, limit: Option<int>): (shown: seq<Repair>)
    ensures LimitOf(limit) >= 0 ==> |shown| == if LimitOf(limit) < |repairs| then LimitOf(limit) else |repairs|
    ensures |shown| <= |repairs| && shown == Sort(repairs, CreatedAt, Desc)[..|shown|]
    ensures Sorted(shown, CreatedAt, Desc)
    ensures forall i, j :: 0 <= i < |shown| <= j < |repairs| ==> shown[i].createdAt >= Sort(repairs, CreatedAt, Desc)[j].createdAt
  {
    var sorted := Sort(repairs, CreatedAt, Desc);
    SortSorted(repairs, CreatedAt, Desc);
    var shown := SliceTo(sorted, LimitOf(limit));
    forall i, j | 0 <= i < |shown| <= j < |repairs|
      ensures shown[i].createdAt >= sorted[j].createdAt
    {
      assert shown[i] == sorted[i];
      assert InOrder(Desc, CreatedAt(sorted[i]), CreatedAt(sorted[j]));
    }
    assert forall i, j :: 0 <= i < j < |shown| ==> shown[i] == sorted[i] && shown[j] == sorted[j];
    shown
  }

  /** "Shown N of M" appears when the snapshot is longer than the limit. */
  predicate OverflowNotice(repairs: seq<Repair>, limit: Option<int>)
  {
    |repairs| > LimitOf(limit)
  }

  /** With a non-negative limit, the notice appears exactly when some repair is left out. */
  lemma NoticeIffTruncated(repairs: seq<Repair>, limit: Option<int>)
    requires LimitOf(limit) >= 0
    ensures OverflowNotice(repairs, limit) <==> |Timeline(repairs, limit)| < |repairs|
  {
  }

  /** The timeline is a permutation prefix: it holds only repairs of the snapshot, each at most as often. */
  lemma TimelineFromSnapshot(repairs: seq<Repair>, limit: Option<int>)
    ensures multiset(Timeline(repairs, limit)) <= multiset(repairs)
  {
    var sorted := Sort(repairs, CreatedAt, Desc);
    var shown := Timeline(repairs, limit);
    assert sorted == shown + sorted[|shown|..];
    assert multiset(sorted) == multiset(shown) + multiset(sorted[|shown|..]);
  }
}
