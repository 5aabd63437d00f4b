/** The warehouse page: zone totals and utilisation, the filtered movement
    journal with its in/out aggregates, per-item movement totals and the most
    active item, and the validation and stock effect of recording a movement
    or creating a zone. */
module Warehouse {
  import opened Wrappers
  import opened Seqs
  import opened Rounding
  import opened StableSort
  import opened Tally
  import opened Domain

  function Load(z: Zone): int { z.currentLoad }

  function Capacity(z: Zone): int { z.capacity }

  function Quantity(m: Movement): int { m.quantity }

  /** `(m.cost || 0) * m.quantity`. */
  function Value(m: Movement): int { OrZero(m.cost) * m.quantity }

  function KindIs(k: MovementKind): Movement -> bool
  {
    (m: Movement) => m.kind == k
  }

  /** The journal filters: a day key (empty for none) and an optional movement type. */
  datatype MovementFilter = MovementFilter(day: string, kind: Option<MovementKind>)

  /** A movement passes when its ISO day key equals a non-empty day filter and
      its type equals a set type filter; `dayKey` is the day key of an instant. */
  function Passes(f: MovementFilter, dayKey: int -> string): Movement -> bool
  {
    (m: Movement) => (f.day == "" || dayKey(m.date) == f.day) && (f.kind.None? || m.kind == f.kind.value)
  }

  /** `filteredMovements`: an order-preserving subsequence; no filter keeps everything. */
  function FilteredMovements(movements: seq<Movement>, f: MovementFilter, dayKey: int -> string): (r: seq<Movement>)
    ensures Subseq(r, movements)
    ensures f == MovementFilter("", None) ==> r == movements
    ensures forall i :: 0 <= i < |r| ==> (f.day == "" || dayKey(r[i].date) == f.day) && (f.kind.None? || r[i].kind == f.kind.value)
    ensures forall i :: 0 <= i < |movements| && Passes(f, dayKey)(movements[i]) ==> movements[i] in r
    ensures |r| == Count(movements, Passes(f, dayKey))
  {
    FilterIsSubseq(movements, Passes(f, dayKey));
    FilterMembership(movements, Passes(f, dayKey));
    UnfilteredKeepsAll(movements, f, dayKey);
    Filter(movements, Passes(f, dayKey))
  }

  /** With neither filter set, every movement passes. */
  lemma UnfilteredKeepsAll(movements: seq<Movement>, f: MovementFilter, dayKey: int -> string)
    ensures f == MovementFilter("", None) ==> Filter(movements, Passes(f, dayKey)) == movements
  {
    if f == MovementFilter("", None) {
      FilterAllKept(movements, Passes(f, dayKey));
    }
  }

  /** `movementsByItem[m.itemId]` gets the quantity as "in" for an in-movement and as "out" otherwise. */
  function ItemContribution(): Movement -> Contribution
  {
    (m: Movement) => Add(m.itemId, m.itemName, if m.kind == In then m.quantity else 0, if m.kind == In then 0 else m.quantity)
  }

  /** An item's in and out quantity together: what "most active" ranks by. */
  function Activity(b: Bucket): int { b.first + b.second }

  /** The "in" term of an item contribution is the in-quantity, and the "out" term the out-quantity. */
  lemma ItemTotals(movements: seq<Movement>)
    ensures Sum(MovementsByItem(movements), BucketFirst) == Sum(Filter(movements, KindIs(In)), Quantity)
    ensures Sum(MovementsByItem(movements), BucketSecond) == Sum(Filter(movements, KindIs(Out)), Quantity)
  {
    AccumulateTotals(movements, ItemContribution());
    SumFilter(movements, KindIs(In), Quantity, FirstOf(ItemContribution()));
    SumFilter(movements, KindIs(Out), Quantity, SecondOf(ItemContribution()));
  }

  /** `movementsByItem`, over all movements whatever the journal filters: one entry per item id in first-seen order. */
  function MovementsByItem(movements: seq<Movement>): (t: seq<Bucket>)
    ensures |movements| == 0 <==> |t| == 0
    ensures Keys(t) == FirstSeen(ContributedKeys(movements, ItemContribution()))
    ensures forall i, j :: 0 <= i < j < |t| ==> t[i].key != t[j].key
    ensures forall i :: 0 <= i < |t| ==>
              t[i].first == Sum(Filter(movements, OfItem(t[i].key, In)), Quantity)
              && t[i].second == Sum(Filter(movements, OfItem(t[i].key, Out)), Quantity)
    ensures forall i :: 0 <= i < |t| ==> FirstName(movements, ItemContribution(), t[i].key) == Some(t[i].name)
  {
    AccumulateKeys(movements, ItemContribution());
    ItemEntries(movements);
    var t := Accumulate(movements, ItemContribution());
    assert forall i :: 0 <= i < |t| ==> Keys(t)[i] == t[i].key;
    assert |movements| > 0 ==> movements[|movements| - 1].itemId in ContributedKeys(movements, ItemContribution());
    t
  }

  /** Movements of item `id` with type `k`. */
  function OfItem(id: string, k: MovementKind): Movement -> bool
  {
    (m: Movement) => m.itemId == id && m.kind == k
  }

  /** Each item's entry holds the in-quantities and the out-quantities of exactly that item's movements. */
  lemma ItemEntries(movements: seq<Movement>)
    ensures var t := Accumulate(movements, ItemContribution());
            forall i :: 0 <= i < |t| ==>
              t[i].first == Sum(Filter(movements, OfItem(t[i].key, In)), Quantity)
              && t[i].second == Sum(Filter(movements, OfItem(t[i].key, Out)), Quantity)
              && FirstName(movements, ItemContribution(), t[i].key) == Some(t[i].name)
  {
    var f := ItemContribution();
    var t := Accumulate(movements, f);
    forall i | 0 <= i < |t|
      ensures t[i].first == Sum(Filter(movements, OfItem(t[i].key, In)), Quantity)
      ensures t[i].second == Sum(Filter(movements, OfItem(t[i].key, Out)), Quantity)
      ensures FirstName(movements, f, t[i].key) == Some(t[i].name)
    {
      AccumulateEntry(movements, f, i);
      SumFilter(movements, OfItem(t[i].key, In), Quantity, FirstFor(f, t[i].key));
      SumFilter(movements, OfItem(t[i].key, Out), Quantity, SecondFor(f, t[i].key));
    }
  }

  /** `mostActiveItem`: the name of the first item with the largest in+out
      quantity, or "-" when there are no movements. */
  function MostActiveItem(movements: seq<Movement>): (name: string)
    ensures |movements| == 0 ==> name == "-"
    ensures |movements| > 0 ==>
              var t := MovementsByItem(movements);
              exists i :: 0 <= i < |t| && t[i].name == name
                && (forall j :: 0 <= j < |t| ==> Activity(t[j]) <= Activity(t[i]))
                && (forall j :: 0 <= j < i ==> Activity(t[j]) < Activity(t[i]))
  {
    var t := MovementsByItem(movements);
    if |t| == 0 then "-"
    else
      FirstMostActive(t);
      Sort(t, Activity, Desc)[0].name
  }

  /** The head of the descending activity sort is named like the first most active entry. */
  lemma FirstMostActive(t: seq<Bucket>)
    requires |t| > 0
    ensures exists i :: 0 <= i < |t| && t[i].name == Sort(t, Activity, Desc)[0].name
              && (forall j :: 0 <= j < |t| ==> Activity(t[j]) <= Activity(t[i]))
              && (forall j :: 0 <= j < i ==> Activity(t[j]) < Activity(t[i]))
  {
    HeadIsFirstMaximum(t, Activity);
  }

  datatype WarehouseStats = WarehouseStats(
    totalItems: int,
    totalCapacity: int,
    utilizationRate: int,
    inMovements: nat,
    outMovements: nat,
    totalInQuantity: int,
    totalOutQuantity: int,
    totalInValue: int,
    totalOutValue: int,
    mostActiveItem: string,
    filteredMovements: seq<Movement>)

  /** `utilizationRate`: the total load as a rounded percentage of the total capacity, 0 without capacity. */
  function UtilizationRate(zones: seq<Zone>): (r: int)
    ensures Sum(zones, Capacity) <= 0 ==> r == 0
    ensures var c := Sum(zones, Capacity);
            c > 0 ==> 2 * c * r - c <= 200 * Sum(zones, Load) < 2 * c * r + c
    ensures (forall i :: 0 <= i < |zones| ==> 0 <= zones[i].currentLoad <= zones[i].capacity) ==> 0 <= r <= 100
  {
    UtilizationWithinRange(zones);
    Percent(Sum(zones, Load), Sum(zones, Capacity))
  }

  /** A set type filter leaves no movement of the other type in the journal. */
  lemma KindFilterExcludes(movements: seq<Movement>, f: MovementFilter, dayKey: int -> string)
    ensures f.kind == Some(In) ==> Filter(FilteredMovements(movements, f, dayKey), KindIs(Out)) == []
    ensures f.kind == Some(Out) ==> Filter(FilteredMovements(movements, f, dayKey), KindIs(In)) == []
  {
    var filtered := FilteredMovements(movements, f, dayKey);
    NoneOfKind(filtered, Out);
    NoneOfKind(filtered, In);
  }

  /** The `warehouseStats` memo. */
  function ComputeWarehouseStats(zones: seq<Zone>, movements: seq<Movement>, f: MovementFilter,
                                 dayKey: int -> string): (w: WarehouseStats)
    ensures w.totalItems == Sum(zones, Load) && w.totalCapacity == Sum(zones, Capacity)
    ensures w.utilizationRate == UtilizationRate(zones)
    ensures w.filteredMovements == FilteredMovements(movements, f, dayKey)
    ensures w.inMovements == Count(w.filteredMovements, KindIs(In))
    ensures w.outMovements == Count(w.filteredMovements, KindIs(Out))
    ensures w.inMovements + w.outMovements == |w.filteredMovements|
    ensures w.totalInQuantity == Sum(Filter(w.filteredMovements, KindIs(In)), Quantity)
    ensures w.totalOutQuantity == Sum(Filter(w.filteredMovements, KindIs(Out)), Quantity)
    ensures w.totalInValue == Sum(Filter(w.filteredMovements, KindIs(In)), Value)
    ensures w.totalOutValue == Sum(Filter(w.filteredMovements, KindIs(Out)), Value)
    ensures w.mostActiveItem == MostActiveItem(movements)
    ensures f.kind == Some(In) ==> w.outMovements == 0 && w.totalOutQuantity == 0 && w.totalOutValue == 0
    ensures f.kind == Some(Out) ==> w.inMovements == 0 && w.totalInQuantity == 0 && w.totalInValue == 0
  {
    var filtered := FilteredMovements(movements, f, dayKey);
    var ins := Filter(filtered, KindIs(In));
    var outs := Filter(filtered, KindIs(Out));
    CountComplement(filtered, KindIs(In), KindIs(Out));
    KindFilterExcludes(movements, f, dayKey);
    WarehouseStats(Sum(zones, Load), Sum(zones, Capacity), UtilizationRate(zones), |ins|, |outs|,
                   Sum(ins, Quantity), Sum(outs, Quantity), Sum(ins, Value), Sum(outs, Value),
                   MostActiveItem(movements), filtered)
  }

  /** With every zone loaded within its capacity, the totals are too, and so the rate is a percentage. */
  lemma UtilizationWithinRange(zones: seq<Zone>)
    ensures (forall i :: 0 <= i < |zones| ==> 0 <= zones[i].currentLoad <= zones[i].capacity)
            ==> 0 <= Percent(Sum(zones, Load), Sum(zones, Capacity)) <= 100
  {
    if forall i :: 0 <= i < |zones| ==> 0 <= zones[i].currentLoad <= zones[i].capacity {
      SumLe(zones, Load, Capacity);
      SumNonNegative(zones, Load);
      PercentRange(Sum(zones, Load), Sum(zones, Capacity));
    }
  }

  /** Filtering by a kind no element has leaves nothing. */
  lemma NoneOfKind(s: seq<Movement>, k: MovementKind)
    ensures (forall i :: 0 <= i < |s| ==> s[i].kind != k) ==> Filter(s, KindIs(k)) == []
  {
    var r := Filter(s, KindIs(k));
    if |r| > 0 {
      FilterMembership(s, KindIs(k));
      assert r[0] in s;
    }
  }

  // ---------------------------------------------------------------- handlers

  /** The movement form; `cost` is the unit cost entered (0 when left alone). */
  datatype MovementForm = MovementForm(itemId: string, quantity: int, kind: MovementKind, cost: int, date: int)

  datatype MovementError = ItemNotFound | NonPositiveQuantity

  /** The three stores a movement can touch. */
  datatype Ledger = Ledger(items: seq<InventoryItem>, zones: seq<Zone>, movements: seq<Movement>)

  /** `items.find(i => i.id === id)`'s test. */
  function ItemWithId(id: string): InventoryItem -> bool
  {
    (it: InventoryItem) => it.id == id
  }

  /** `+q` for an in-movement, `-q` for an out-movement. */
  function Signed(kind: MovementKind, q: int): int
  {
    if kind == In then q else -q
  }

  /** `handleCreateMovement`: an unknown item is rejected first, then a
      quantity that is not positive; otherwise the movement is journalled under
      the item's name and the item's stock moves by the quantity, with no lower
      bound. Zones, and so their loads, are never touched. */
  function CreateMovement(ledger: Ledger, form: MovementForm, newId: string): (r: Result<Ledger, MovementError>)
    ensures r == Err(ItemNotFound) <==> forall i :: 0 <= i < |ledger.items| ==> ledger.items[i].id != form.itemId
    ensures r == Err(NonPositiveQuantity) <==>
              (exists i :: 0 <= i < |ledger.items| && ledger.items[i].id == form.itemId) && form.quantity <= 0
    ensures r.Ok? ==>
              r.value.zones == ledger.zones
              && FindFirst(ledger.items, ItemWithId(form.itemId)).Some?
              && var i := FindFirst(ledger.items, ItemWithId(form.itemId)).value;
                 r.value.items == ledger.items[i := ledger.items[i].(quantity := ledger.items[i].quantity + Signed(form.kind, form.quantity))]
                 && r.value.movements == ledger.movements
                      + [Movement(newId, form.itemId, ledger.items[i].name, form.kind, form.quantity, Some(form.cost), form.date)]
  {
    match FindFirst(ledger.items, ItemWithId(form.itemId))
    case None => Err(ItemNotFound)
    case Some(i) =>
      if form.quantity <= 0 then Err(NonPositiveQuantity)
      else
        var item := ledger.items[i];
        var moved := item.(quantity := if form.kind == Out then item.quantity - form.quantity else item.quantity + form.quantity);
        Ok(Ledger(ledger.items[i := moved], ledger.zones,
                  ledger.movements + [Movement(newId, form.itemId, item.name, form.kind, form.quantity, Some(form.cost), form.date)]))
  }

  /** Recording an in-movement and then an out-movement of the same quantity restores every stock level. */
  lemma InThenOutRestores(ledger: Ledger, form: MovementForm, id1: string, id2: string)
    requires form.kind == In
    requires CreateMovement(ledger, form, id1).Ok?
    ensures var after := CreateMovement(ledger, form, id1).value;
            CreateMovement(after, form.(kind := Out), id2).Ok?
            && CreateMovement(after, form.(kind := Out), id2).value.items == ledger.items
  {
    var p := ItemWithId(form.itemId);
    var i := FindFirst(ledger.items, p).value;
    var item := ledger.items[i];
    var items' := ledger.items[i := item.(quantity := item.quantity + form.quantity)];
    assert CreateMovement(ledger, form, id1).value.items == items';
    FindFirstPointwise(items', ledger.items, p);
    assert items'[i := items'[i].(quantity := items'[i].quantity - form.quantity)] == ledger.items;
  }

  /** Ten units in stock: receiving 5 gives 15, issuing 5 gives 5, issuing 20 gives -10. */
  lemma StockScenario()
    ensures var item := InventoryItem("p", "Part", 10, 2);
            var ledger := Ledger([item], [], []);
            var form := MovementForm("p", 5, In, 0, 0);
            CreateMovement(ledger, form, "m").value.items[0].quantity == 15
            && CreateMovement(ledger, form.(kind := Out), "m").value.items[0].quantity == 5
            && CreateMovement(ledger, form.(kind := Out, quantity := 20), "m").value.items[0].quantity == -10
            && CreateMovement(ledger, form.(quantity := 0), "m") == Err(NonPositiveQuantity)
            && CreateMovement(ledger, form.(itemId := "q", quantity := 0), "m") == Err(ItemNotFound)
  {
  }

  datatype ZoneError = EmptyName

  /** `handleCreateZone`: a zone without a name is rejected; otherwise it is appended under the store's id. */
  function CreateZone(zones: seq<Zone>, form: Zone, newId: string): (r: Result<seq<Zone>, ZoneError>)
    ensures r.Err? <==> form.name == ""
    ensures r.Ok? ==> |r.value| == |zones| + 1 && r.value[..|zones|] == zones && r.value[|zones|].name == form.name
    ensures r.Ok? ==> r.value[|zones|].id == newId && r.value[|zones|] == form.(id := r.value[|zones|].id)
  {
    if form.name == "" then Err(EmptyName) else Ok(zones + [form.(id := newId)])
  }

  /** A new zone adds its capacity and load to the warehouse totals, so the
      utilization rate is computed over the old zones plus the new one. */
  lemma {:induction false} CreateZoneTotals(zones: seq<Zone>, form: Zone, newId: string)
    requires form.name != ""
    ensures var r := CreateZone(zones, form, newId).value;
            Sum(r, Capacity) == Sum(zones, Capacity) + form.capacity
            && Sum(r, Load) == Sum(zones, Load) + form.currentLoad
  {
    var z := form.(id := newId);
    SumAppend(zones, [z], Capacity);
    SumAppend(zones, [z], Load);
  }
}
