/** The quick status-change panel of the repair details dialog: which target
    statuses are offered for a repair, as a small state machine over
    `RepairStatus`. */
module RepairDetails {
  import opened Domain

  /** The panel is rendered only with a status-change handler and for a repair
      that is neither completed nor cancelled. */
  predicate PanelOffered(current: RepairStatus, hasHandler: bool)
  {
    hasHandler && current != Completed && current != Cancelled
  }

  /** The buttons of the panel, left to right. */
  function QuickTargets(current: RepairStatus, hasHandler: bool): (targets: seq<RepairStatus>)
    ensures |targets| == 0 <==> !PanelOffered(current, hasHandler)
    ensures PanelOffered(current, hasHandler) ==> |targets| >= 2 && targets[|targets| - 2..] == [Completed, Cancelled]
    ensures forall i, j :: 0 <= i < j < |targets| ==> targets[i] != targets[j]
  {
    if !PanelOffered(current, hasHandler) then
      []
    else
      (if current != InProgress then [InProgress] else [])
      + (if current != WaitingParts then [WaitingParts] else [])
      + [Completed, Cancelled]
  }

  /** Exactly the statuses other than `new` and the current one are offered, and only from an open status with a handler. */
  lemma OfferedTargets(current: RepairStatus, hasHandler: bool, t: RepairStatus)
    ensures t in QuickTargets(current, hasHandler)
        <==> hasHandler && IsOpen(current) && t != New && t != current
  {
  }

  /** `in_progress` is offered iff the panel shows and the repair is not already in progress; likewise `waiting_parts`. */
  lemma IntermediateTargets(current: RepairStatus)
    ensures InProgress in QuickTargets(current, true) <==> current == New || current == WaitingParts
    ensures WaitingParts in QuickTargets(current, true) <==> current == New || current == InProgress
    ensures IsOpen(current) ==> Completed in QuickTargets(current, true) && Cancelled in QuickTargets(current, true)
  {
  }

  /** From `new` all four buttons appear, in rendering order. */
  lemma FromNew()
    ensures QuickTargets(New, true) == [InProgress, WaitingParts, Completed, Cancelled]
    ensures QuickTargets(InProgress, true) == [WaitingParts, Completed, Cancelled]
    ensures QuickTargets(Completed, true) == []
  {
  }
}
