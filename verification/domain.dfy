/** The records the dashboard works on, as immutable snapshots. Optional
    fields of the source are `Option`s; instants are integer milliseconds;
    money and quantities are integers. */
module Domain {
  import opened Wrappers
  import opened Seqs

  datatype RepairStatus = New | InProgress | WaitingParts | Completed | Cancelled

  datatype Priority = Urgent | High | Medium | Low

  /** A repair ticket. Free-text fields the core never reads (serial number,
      diagnosis, notes, accessories) are not part of the model. */
  datatype Repair = Repair(
    id: string,
    clientId: string,
    clientName: string,
    technicianId: Option<string>,
    technicianName: Option<string>,
    deviceType: string,
    deviceModel: string,
    problem: string,
    status: RepairStatus,
    priority: Priority,
    estimatedCost: int,
    finalCost: Option<int>,
    estimatedDays: Option<int>,
    createdAt: int,
    completedAt: Option<int>)

  datatype Client = Client(id: string, name: string, createdAt: Option<int>)

  datatype TechnicianStatus = Available | Busy | OnBreak | OffDuty

  /** A technician; `completedRepairs` is the lifetime counter kept on the record. */
  datatype Technician = Technician(
    id: string,
    name: string,
    status: TechnicianStatus,
    completedRepairs: int,
    specialization: seq<string>)

  datatype InventoryItem = InventoryItem(id: string, name: string, quantity: int, minQuantity: int)

  datatype Zone = Zone(id: string, name: string, capacity: int, currentLoad: int)

  datatype MovementKind = In | Out

  /** A stock movement; `cost` is the unit cost, `date` an instant. */
  datatype Movement = Movement(
    id: string,
    itemId: string,
    itemName: string,
    kind: MovementKind,
    quantity: int,
    cost: Option<int>,
    date: int)

  /** JavaScript truthiness of an optional string: present and non-empty. */
  predicate Present(o: Option<string>)
  {
    o.Some? && o.value != ""
  }

  /** JavaScript truthiness of an optional number: present and non-zero. */
  predicate Nonzero(o: Option<int>)
  {
    o.Some? && o.value != 0
  }

  /** `x || 0` for an optional number. */
  function OrZero(o: Option<int>): (v: int)
    ensures Nonzero(o) ==> v == o.value
    ensures !Nonzero(o) ==> v == 0
  {
    if o.Some? then o.value else 0
  }

  /** `finalCost || estimatedCost || 0`: the final cost when it is truthy, so a
      final cost of 0 falls through to the estimate. */
  function DisplayCost(r: Repair): (c: int)
    ensures Nonzero(r.finalCost) ==> c == r.finalCost.value
    ensures !Nonzero(r.finalCost) ==> c == r.estimatedCost
  {
    if Nonzero(r.finalCost) then r.finalCost.value
    else if r.estimatedCost != 0 then r.estimatedCost
    else 0
  }

  predicate IsOpen(s: RepairStatus)
  {
    s == New || s == InProgress || s == WaitingParts
  }

  /** The `r => r.status === st` callback. */
  function HasStatus(st: RepairStatus): Repair -> bool
  {
    (r: Repair) => r.status == st
  }

  /** The number of repairs with status `st`. */
  function StatusCount(s: seq<Repair>, st: RepairStatus): nat
  {
    Count(s, HasStatus(st))
  }

  /** A completed repair with a truthy final cost: what the revenue counters sum. */
  predicate Earning(r: Repair)
  {
    r.status == Completed && Nonzero(r.finalCost)
  }

  /** `r.finalCost || 0`. */
  function FinalCostOf(r: Repair): int
  {
    OrZero(r.finalCost)
  }

  /** A completed repair with a completion instant: what the turnaround averages sum over. */
  predicate Timed(r: Repair)
  {
    r.status == Completed && r.completedAt.Some?
  }

  /** Milliseconds from creation to completion, 0 for a repair without a completion instant. */
  function Duration(r: Repair): int
  {
    if r.completedAt.Some? then r.completedAt.value - r.createdAt else 0
  }

  /** Every repair has exactly one status, so the five status counts add up to the snapshot size. */
  lemma {:induction false} StatusPartition(s: seq<Repair>)
    ensures StatusCount(s, New) + StatusCount(s, InProgress) + StatusCount(s, WaitingParts)
          + StatusCount(s, Completed) + StatusCount(s, Cancelled) == |s|
  {
    if |s| > 0 {
      StatusPartition(s[1..]);
    }
  }
}
