/**
 The supply pipeline of a country: what is ordered, shipped, in transit and
 received for each SKU, counted once, with the expected arrivals it is made of.
 */
module SupplyPipeline {
  import opened Wrappers

  datatype Issue =
    // supply
    | ShipmentReceiptOverallocated | WmsAllocationRequiresReview | DispatchAllocationOverallocated
    | LocalReceiptQuantityDifference | OverdueEta | UnknownEta | UnassignedWarehouseSupply
    | WarehouseSupplyScopeIncomplete | WmsReceiptOverlapUnresolved | SupplySummaryNotAuthorized
    // stock
    | MissingInventorySnapshot | AvailableQuantityUnverified | InventorySourceIncomplete
    | StaleInventorySnapshot | AmbiguousInventoryAliases | UnmappedInventory
    // sales
    | NoSalesFacts | UnmappedSalesLines | CollectionCoverageUnproven | InvalidStoreTimezone
    | UnfinishedStoreDay | NoAuthorizedSalesStore | BundleCompositionUnverified

  datatype Stage = Collecting | Departed | ArrivedPort | ArrivedWarehouse

  datatype Batch = Batch(id: int, stage: Stage, eta: Option<int>, sentAt: int, plannedWarehouse: Option<int>)

  datatype PurchaseLine = PurchaseLine(pk: int, sku: int, quantity: nat)

  datatype ShipmentLine = ShipmentLine(
    pk: int, sku: int, quantity: nat, excess: nat, additional: bool, purchaseLine: Option<int>)

  datatype Allocation = Allocation(line: int, batch: Batch, quantity: nat)

  datatype Receipt = Receipt(pk: int, line: int, batch: int, quantity: nat, warehouse: int)

  datatype EtaRow = EtaRow(date: Option<int>, quantity: nat, batch: Option<int>)

  /** `scope` is the set of warehouses a restricted reader may see. */
  datatype Context = Context(
    today: int, targetDays: nat, scope: Option<set<int>>,
    matched: map<int, nat>, invalid: set<int>, latestUnmatched: map<(int, int), int>)

  datatype Item = Item(
    production: nat, awaiting: nat, transporting: nat, arrived: nat,
    receivedAwaitingWms: nat, wmsReceived: nat, excess: nat, additional: nat,
    incoming: nat, unknownEta: nat, etaRows: seq<EtaRow>, issues: set<Issue>, unattributable: bool)

  /** What the pipeline publishes for a SKU; `None` is an unknown quantity. */
  datatype Pipe = Pipe(
    authorized: bool, production: Option<nat>, awaiting: Option<nat>, transporting: Option<nat>,
    arrived: Option<nat>, receivedAwaitingWms: Option<nat>, wmsReceived: Option<nat>,
    excess: Option<nat>, additional: Option<nat>, effectiveIncoming: Option<nat>,
    unknownEta: Option<nat>, openDemand: Option<nat>, etaRows: seq<EtaRow>, issues: set<Issue>)

  const EMPTY := Item(0, 0, 0, 0, 0, 0, 0, 0, 0, 0, [], {}, false)

  // ---------------------------------------------------------------- what a line refers to

  function AllocationsOf(allocations: seq<Allocation>, line: int): seq<Allocation> {
    if allocations == [] then []
    else
      var rest := AllocationsOf(allocations[..|allocations| - 1], line);
      if allocations[|allocations| - 1].line == line then rest + [allocations[|allocations| - 1]] else rest
  }

  function ReceiptsOf(receipts: seq<Receipt>, line: int): seq<Receipt> {
    if receipts == [] then []
    else
      var rest := ReceiptsOf(receipts[..|receipts| - 1], line);
      if receipts[|receipts| - 1].line == line then rest + [receipts[|receipts| - 1]] else rest
  }

  function Received(receipts: seq<Receipt>): nat {
    if receipts == [] then 0 else Received(receipts[..|receipts| - 1]) + receipts[|receipts| - 1].quantity
  }

  function ReceivedIn(receipts: seq<Receipt>, batch: int): nat {
    if receipts == [] then 0
    else
      var last := receipts[|receipts| - 1];
      ReceivedIn(receipts[..|receipts| - 1], batch) + (if last.batch == batch then last.quantity else 0)
  }

  function Allocated(allocations: seq<Allocation>): nat {
    if allocations == [] then 0
      else Allocated(allocations[..|allocations| - 1]) + allocations[|allocations| - 1].quantity
  }

  /** The warehouse that received a batch's goods, else the planned one. */
  function Destination(batch: Batch, received: seq<Receipt>): Option<int> {
    if received == [] then batch.plannedWarehouse
    else if received[0].batch == batch.id then Some(received[0].warehouse)
    else Destination(batch, received[1..])
  }

  predicate InScope(ctx: Context, warehouse: Option<int>) {
    ctx.scope.None? || (warehouse.Some? && warehouse.value in ctx.scope.value)
  }

  /** A later WMS receipt of this SKU may already contain the batch. */
  predicate Overlaps(ctx: Context, sku: int, batch: Batch) {
    exists key :: key in ctx.latestUnmatched && key.0 == sku
      && (batch.plannedWarehouse.None? || batch.plannedWarehouse == Some(key.1))
      && ctx.latestUnmatched[key] >= batch.sentAt
  }

  // ---------------------------------------------------------------- one line

  function Flag(item: Item, condition: bool, issue: Issue): Item {
    if condition then item.(issues := item.issues + {issue}) else item
  }

  function ReceiptStep(ctx: Context, item: Item, r: Receipt): Item {
    if !InScope(ctx, Some(r.warehouse)) then item
    else
      var reconciled := Min(r.quantity, Get(ctx.matched, r.pk, 0));
      Flag(item.(receivedAwaitingWms := item.receivedAwaitingWms + (r.quantity - reconciled),
                 wmsReceived := item.wmsReceived + reconciled),
           r.pk in ctx.invalid, WmsAllocationRequiresReview)
  }

  function ReceiptSteps(ctx: Context, item: Item, receipts: seq<Receipt>): Item {
    if receipts == [] then item
    else ReceiptStep(ctx, ReceiptSteps(ctx, item, receipts[..|receipts| - 1]), receipts[|receipts| - 1])
  }

  function Remaining(a: Allocation, received: seq<Receipt>): nat {
    Max(0, a.quantity - ReceivedIn(received, a.batch.id))
  }

  function Staged(item: Item, stage: Stage, remaining: nat): Item {
    if stage == Departed || stage == ArrivedPort then item.(transporting := item.transporting + remaining)
    else item.(awaiting := item.awaiting + remaining)
  }

  /** The eta row of goods on their way, and the total its date belongs to. */
  function Dated(ctx: Context, item: Item, sku: int, batch: Batch, remaining: nat): Item {
    var listed := item.(etaRows := item.etaRows + [EtaRow(batch.eta, remaining, Some(batch.id))]);
    if batch.eta.None? then listed.(unknownEta := listed.unknownEta + remaining)
    else if batch.eta.value < ctx.today then Flag(listed, true, OverdueEta)
    else if batch.eta.value <= ctx.today + ctx.targetDays then
      Flag(listed.(incoming := listed.incoming + remaining), Overlaps(ctx, sku, batch), WmsReceiptOverlapUnresolved)
    else listed
  }

  function AllocationStep(ctx: Context, item: Item, sku: int, a: Allocation, received: seq<Receipt>): Item {
    var destination := Destination(a.batch, received);
    var remaining := Remaining(a, received);
    if !InScope(ctx, destination) then Flag(item, destination.None?, UnassignedWarehouseSupply)
    else if remaining == 0 then item
    else if a.batch.stage == ArrivedWarehouse then item.(arrived := item.arrived + remaining)
    else Dated(ctx, Staged(item, a.batch.stage, remaining), sku, a.batch, remaining)
  }

  function AllocationSteps(ctx: Context, item: Item, sku: int, allocations: seq<Allocation>,
      received: seq<Receipt>): Item {
    if allocations == [] then item
    else AllocationStep(ctx, AllocationSteps(ctx, item, sku, allocations[..|allocations| - 1], received),
                        sku, allocations[|allocations| - 1], received)
  }

  function Destinations(allocations: seq<Allocation>, received: seq<Receipt>): set<Option<int>> {
    set a | a in allocations :: Destination(a.batch, received)
  }

  /** Whether a restricted reader's totals include the whole line, and if not
      whether that is certain. */
  datatype Attribution = Counted | OutOfScope | Unattributable

  function Attribute(ctx: Context, line: ShipmentLine, allocations: seq<Allocation>,
      received: seq<Receipt>): Attribution {
    var destinations := Destinations(allocations, received);
    var whole := None !in destinations && Allocated(allocations) == line.quantity;
    if ctx.scope.None? then Counted
    else if whole && destinations != {} && (forall d :: d in destinations ==> !InScope(ctx, d)) then OutOfScope
    else if whole && |destinations| == 1 && (forall d :: d in destinations ==> InScope(ctx, d)) then Counted
    else Unattributable
  }

  function ExceptionStep(item: Item, line: ShipmentLine, attribution: Attribution): Item {
    match attribution
    case Counted => item.(excess := item.excess + line.excess,
                          additional := item.additional + (if line.additional then line.quantity else 0))
    case OutOfScope => item
    case Unattributable => item.(unattributable := true)
  }

  function RemainderStep(ctx: Context, item: Item, line: ShipmentLine, placed: nat): Item {
    var unallocated := Max(0, line.quantity - placed);
    if unallocated == 0 then item
    else if ctx.scope.Some? then Flag(item, true, WarehouseSupplyScopeIncomplete)
    else Waiting(item, unallocated)
  }

  /** Goods that nobody has dated yet. */
  function Waiting(item: Item, n: nat): Item {
    item.(awaiting := item.awaiting + n, unknownEta := item.unknownEta + n,
          etaRows := item.etaRows + [EtaRow(None, n, None)])
  }

  /** Exceptions and receipts, which leave the supply still on its way alone. */
  function ReceivedStep(ctx: Context, item: Item, line: ShipmentLine, allocations: seq<Allocation>,
      received: seq<Receipt>): Item {
    var a := ExceptionStep(item, line, Attribute(ctx, line, allocations, received));
    var b := Flag(a, Received(received) > line.quantity, ShipmentReceiptOverallocated);
    var c := ReceiptSteps(ctx, b, received);
    var d := Flag(c, Allocated(allocations) > line.quantity, DispatchAllocationOverallocated);
    Flag(d, Received(received) != line.quantity && Received(received) > 0, LocalReceiptQuantityDifference)
  }

  function LineStep(ctx: Context, item: Item, line: ShipmentLine, allocations: seq<Allocation>,
      received: seq<Receipt>): Item {
    var before := ReceivedStep(ctx, item, line, allocations, received);
    RemainderStep(ctx, AllocationSteps(ctx, before, line.sku, allocations, received), line, Allocated(allocations))
  }

  /** The lines of one SKU, in order. */
  function LineSteps(ctx: Context, item: Item, sku: int, lines: seq<ShipmentLine>,
                     allocations: seq<Allocation>, receipts: seq<Receipt>): Item {
    if lines == [] then item
    else
      var before := LineSteps(ctx, item, sku, lines[..|lines| - 1], allocations, receipts);
      var line := lines[|lines| - 1];
      if line.sku != sku then before
      else LineStep(ctx, before, line, AllocationsOf(allocations, line.pk), ReceiptsOf(receipts, line.pk))
  }

  // ---------------------------------------------------------------- what the eta rows say

  function EtaTotal(rows: seq<EtaRow>): nat {
    if rows == [] then 0 else EtaTotal(rows[..|rows| - 1]) + rows[|rows| - 1].quantity
  }

  function Dateless(rows: seq<EtaRow>): nat {
    if rows == [] then 0
    else Dateless(rows[..|rows| - 1]) + (if rows[|rows| - 1].date.None? then rows[|rows| - 1].quantity else 0)
  }

  function DueWithin(rows: seq<EtaRow>, first: int, last: int): nat {
    if rows == [] then 0
    else
      var row := rows[|rows| - 1];
      DueWithin(rows[..|rows| - 1], first, last)
      + (if row.date.Some? && first <= row.date.value <= last then row.quantity else 0)
  }

  /** The eta rows account for every unit on its way but `n`, the timely ones
      for the incoming, the dateless ones and the production for the rest. */
  predicate Owes(ctx: Context, item: Item, n: nat) {
    && EtaTotal(item.etaRows) + n == item.awaiting + item.transporting
    && DueWithin(item.etaRows, ctx.today, ctx.today + ctx.targetDays) == item.incoming
    && item.unknownEta == item.production + Dateless(item.etaRows)
  }

  predicate Balanced(ctx: Context, item: Item) {
    Owes(ctx, item, 0)
  }

  lemma {:induction false} AppendRow(rows: seq<EtaRow>, row: EtaRow, first: int, last: int)
    ensures EtaTotal(rows + [row]) == EtaTotal(rows) + row.quantity
    ensures Dateless(rows + [row]) == Dateless(rows) + (if row.date.None? then row.quantity else 0)
    ensures DueWithin(rows + [row], first, last) == DueWithin(rows, first, last)
      + (if row.date.Some? && first <= row.date.value <= last then row.quantity else 0)
  {
    assert (rows + [row])[..|rows|] == rows;
  }

  lemma DatedSettles(ctx: Context, item: Item, sku: int, batch: Batch, remaining: nat)
    requires Owes(ctx, item, remaining)
    ensures Balanced(ctx, Dated(ctx, item, sku, batch, remaining))
  {
    var row := EtaRow(batch.eta, remaining, Some(batch.id));
    AppendRow(item.etaRows, row, ctx.today, ctx.today + ctx.targetDays);
    DatedIs(ctx, item, sku, batch, remaining);
  }

  lemma DatedIs(ctx: Context, item: Item, sku: int, batch: Batch, remaining: nat)
    ensures var after := Dated(ctx, item, sku, batch, remaining);
      && after.etaRows == item.etaRows + [EtaRow(batch.eta, remaining, Some(batch.id))]
      && after.awaiting == item.awaiting && after.transporting == item.transporting
        && after.production == item.production
      && after.unknownEta == item.unknownEta + (if batch.eta.None? then remaining else 0)
      && after.incoming == item.incoming
         + (if batch.eta.Some? && ctx.today <= batch.eta.value <= ctx.today + ctx.targetDays then remaining else 0)
  {
  }

  lemma WaitingTotal(item: Item, n: nat)
    ensures EtaTotal(Waiting(item, n).etaRows) == EtaTotal(item.etaRows) + n
  {
    AppendRow(item.etaRows, EtaRow(None, n, None), 0, 0);
  }

  lemma WaitingDateless(item: Item, n: nat)
    ensures Dateless(Waiting(item, n).etaRows) == Dateless(item.etaRows) + n
  {
    AppendRow(item.etaRows, EtaRow(None, n, None), 0, 0);
  }

  lemma WaitingDue(item: Item, n: nat, first: int, last: int)
    ensures DueWithin(Waiting(item, n).etaRows, first, last) == DueWithin(item.etaRows, first, last)
  {
    AppendRow(item.etaRows, EtaRow(None, n, None), first, last);
  }

  /** A row without a date, for goods that wait, keeps the balance. */
  lemma WaitingBalances(ctx: Context, item: Item, n: nat)
    requires Balanced(ctx, item)
    ensures Balanced(ctx, Waiting(item, n))
  {
    WaitingTotal(item, n);
    WaitingDateless(item, n);
    WaitingDue(item, n, ctx.today, ctx.today + ctx.targetDays);
  }

  lemma FlagBalances(ctx: Context, item: Item, condition: bool, issue: Issue)
    requires Balanced(ctx, item)
    ensures Balanced(ctx, Flag(item, condition, issue))
  {
  }

  lemma RemainderBalances(ctx: Context, item: Item, line: ShipmentLine, placed: nat)
    requires Balanced(ctx, item)
    ensures Balanced(ctx, RemainderStep(ctx, item, line, placed))
  {
    WaitingBalances(ctx, item, Max(0, line.quantity - placed));
    FlagBalances(ctx, item, true, WarehouseSupplyScopeIncomplete);
  }

  lemma AllocationStepBalances(ctx: Context, item: Item, sku: int, a: Allocation, received: seq<Receipt>)
    requires Balanced(ctx, item)
    ensures Balanced(ctx, AllocationStep(ctx, item, sku, a, received))
  {
    var remaining := Remaining(a, received);
    var moved := Staged(item, a.batch.stage, remaining);
    assert Owes(ctx, moved, remaining);
    DatedSettles(ctx, moved, sku, a.batch, remaining);
  }

  /** The same supply on its way. */
  predicate SameSupply(a: Item, b: Item) {
    && a.production == b.production && a.awaiting == b.awaiting && a.transporting == b.transporting
      && a.arrived == b.arrived
    && a.incoming == b.incoming && a.unknownEta == b.unknownEta && a.etaRows == b.etaRows
  }

  lemma {:induction false} ReceiptStepsKeepSupply(ctx: Context, item: Item, receipts: seq<Receipt>)
    ensures SameSupply(ReceiptSteps(ctx, item, receipts), item)
    ensures var after := ReceiptSteps(ctx, item, receipts);
      ctx.scope.None? ==>
        after.receivedAwaitingWms + after.wmsReceived
          == item.receivedAwaitingWms + item.wmsReceived + Received(receipts)
  {
    if receipts != [] { ReceiptStepsKeepSupply(ctx, item, receipts[..|receipts| - 1]); }
  }

  lemma ReceivedStepKeepsSupply(ctx: Context, item: Item, line: ShipmentLine, allocations: seq<Allocation>,
      received: seq<Receipt>)
    ensures SameSupply(ReceivedStep(ctx, item, line, allocations, received), item)
    ensures ctx.scope.None? ==>
      Placed(ReceivedStep(ctx, item, line, allocations, received)) == Placed(item) + Received(received)
  {
    var a := ExceptionStep(item, line, Attribute(ctx, line, allocations, received));
    ReceiptStepsKeepSupply(ctx, Flag(a, Received(received) > line.quantity, ShipmentReceiptOverallocated), received);
  }

  lemma {:induction false} AllocationStepsBalance(ctx: Context, item: Item, sku: int, allocations: seq<Allocation>,
      received: seq<Receipt>)
    requires Balanced(ctx, item)
    ensures Balanced(ctx, AllocationSteps(ctx, item, sku, allocations, received))
  {
    if allocations != [] {
      AllocationStepsBalance(ctx, item, sku, allocations[..|allocations| - 1], received);
      AllocationStepBalances(ctx, AllocationSteps(ctx, item, sku, allocations[..|allocations| - 1], received),
                             sku, allocations[|allocations| - 1], received);
    }
  }

  lemma LineStepBalances(ctx: Context, item: Item, line: ShipmentLine, allocations: seq<Allocation>,
      received: seq<Receipt>)
    requires Balanced(ctx, item)
    ensures Balanced(ctx, LineStep(ctx, item, line, allocations, received))
  {
    ReceivedStepKeepsSupply(ctx, item, line, allocations, received);
    var before := ReceivedStep(ctx, item, line, allocations, received);
    AllocationStepsBalance(ctx, before, line.sku, allocations, received);
    RemainderBalances(ctx, AllocationSteps(ctx, before, line.sku, allocations, received), line, Allocated(allocations));
  }

  /** Whatever was ordered, shipped or received, a SKU's eta rows balance. */
  lemma {:induction false} LineStepsBalance(ctx: Context, item: Item, sku: int, lines: seq<ShipmentLine>,
                                            allocations: seq<Allocation>, receipts: seq<Receipt>)
    requires Balanced(ctx, item)
    ensures Balanced(ctx, LineSteps(ctx, item, sku, lines, allocations, receipts))
  {
    if lines != [] {
      LineStepsBalance(ctx, item, sku, lines[..|lines| - 1], allocations, receipts);
      var line := lines[|lines| - 1];
      LineStepBalances(ctx, LineSteps(ctx, item, sku, lines[..|lines| - 1], allocations, receipts), line,
                       AllocationsOf(allocations, line.pk), ReceiptsOf(receipts, line.pk));
    }
  }

  // ---------------------------------------------------------------- conservation of a line

  /** Every stage a shipped unit can be in. */
  function Placed(item: Item): nat {
    item.awaiting + item.transporting + item.arrived + item.receivedAwaitingWms + item.wmsReceived
  }

  /** How much of the allocations their batches have received. */
  function Absorbed(allocations: seq<Allocation>, received: seq<Receipt>): nat {
    if allocations == [] then 0
    else
      var a := allocations[|allocations| - 1];
      Absorbed(allocations[..|allocations| - 1], received) + Min(a.quantity, ReceivedIn(received, a.batch.id))
  }

  lemma AllocationStepPlaces(ctx: Context, item: Item, sku: int, a: Allocation, received: seq<Receipt>)
    requires ctx.scope.None?
    ensures Placed(AllocationStep(ctx, item, sku, a, received)) == Placed(item) + Remaining(a, received)
  {
  }

  lemma {:induction false} AllocationStepsPlace(ctx: Context, item: Item, sku: int, allocations: seq<Allocation>,
      received: seq<Receipt>)
    requires ctx.scope.None?
    ensures Placed(AllocationSteps(ctx, item, sku, allocations, received)) + Absorbed(allocations, received)
         == Placed(item) + Allocated(allocations)
  {
    if allocations != [] {
      var before := allocations[..|allocations| - 1];
      AllocationStepsPlace(ctx, item, sku, before, received);
      AllocationStepPlaces(ctx, AllocationSteps(ctx, item, sku, before, received), sku, allocations[|allocations| - 1],
        received);
    }
  }

  /** For any line whatever: the stages hold the larger of what was shipped and
      what was allocated, plus the receipts no allocation absorbs. */
  lemma LineStepPlaces(ctx: Context, item: Item, line: ShipmentLine, allocations: seq<Allocation>,
      received: seq<Receipt>)
    requires ctx.scope.None?
    ensures Placed(LineStep(ctx, item, line, allocations, received)) + Absorbed(allocations, received)
         == Placed(item) + Max(line.quantity, Allocated(allocations)) + Received(received)
  {
    ReceivedStepKeepsSupply(ctx, item, line, allocations, received);
    AllocationStepsPlace(ctx, ReceivedStep(ctx, item, line, allocations, received), line.sku, allocations, received);
  }

  predicate DistinctBatches(allocations: seq<Allocation>) {
    forall i, j :: 0 <= i < j < |allocations| ==> allocations[i].batch.id != allocations[j].batch.id
  }

  predicate WithinAllocations(allocations: seq<Allocation>, received: seq<Receipt>) {
    && (forall a :: a in allocations ==> ReceivedIn(received, a.batch.id) <= a.quantity)
    && (forall r :: r in received ==> exists a :: a in allocations && a.batch.id == r.batch)
  }

  /** Receipts of the batches in a list of allocations. */
  function ReceivedAmong(received: seq<Receipt>, allocations: seq<Allocation>): nat {
    if allocations == [] then 0
    else
      var last := allocations[|allocations| - 1];
      ReceivedAmong(received, allocations[..|allocations| - 1]) + ReceivedIn(received, last.batch.id)
  }

  lemma {:induction false} OneReceiptAmong(received: seq<Receipt>, allocations: seq<Allocation>)
    requires received != [] && DistinctBatches(allocations)
    ensures var r := received[|received| - 1];
      ReceivedAmong(received, allocations) == ReceivedAmong(received[..|received| - 1], allocations)
        + (if exists a :: a in allocations && a.batch.id == r.batch then r.quantity else 0)
    decreases |allocations|
  {
    if allocations != [] {
      var n := |allocations| - 1;
      var r := received[|received| - 1];
      OneReceiptAmong(received, allocations[..n]);
      assert allocations[n] in allocations;
      if exists a :: a in allocations[..n] && a.batch.id == r.batch {
        var a :| a in allocations[..n] && a.batch.id == r.batch;
        var i :| 0 <= i < n && allocations[i] == a;
        assert allocations[n].batch.id != r.batch;
      }
      forall a | a in allocations && a.batch.id == r.batch
        ensures a in allocations[..n] || allocations[n].batch.id == r.batch
      {
        var i :| 0 <= i < |allocations| && allocations[i] == a;
        if i < n { assert allocations[..n][i] == a; }
      }
    }
  }

  lemma {:induction false} AllReceivedAmong(received: seq<Receipt>, allocations: seq<Allocation>)
    requires DistinctBatches(allocations)
    requires forall r :: r in received ==> exists a :: a in allocations && a.batch.id == r.batch
    ensures ReceivedAmong(received, allocations) == Received(received)
    decreases |received|
  {
    if received == [] {
      NoneReceived(allocations);
    } else {
      var before := received[..|received| - 1];
      assert received == before + [received[|received| - 1]];
      assert forall r :: r in before ==> r in received;
      assert received[|received| - 1] in received;
      AllReceivedAmong(before, allocations);
      OneReceiptAmong(received, allocations);
    }
  }

  lemma {:induction false} NoneReceived(allocations: seq<Allocation>)
    ensures ReceivedAmong([], allocations) == 0
  {
    if allocations != [] { NoneReceived(allocations[..|allocations| - 1]); }
  }

  lemma {:induction false} AbsorbsAll(allocations: seq<Allocation>, received: seq<Receipt>)
    requires forall a :: a in allocations ==> ReceivedIn(received, a.batch.id) <= a.quantity
    ensures Absorbed(allocations, received) == ReceivedAmong(received, allocations)
    decreases |allocations|
  {
    if allocations != [] {
      assert allocations[|allocations| - 1] in allocations;
      AbsorbsAll(allocations[..|allocations| - 1], received);
    }
  }

  /** A consistent line is conserved: one allocation a batch, receipts within
      their batch's allocation, allocations within the line. */
  lemma LineConserved(ctx: Context, item: Item, line: ShipmentLine, allocations: seq<Allocation>,
      received: seq<Receipt>)
    requires ctx.scope.None?
    requires DistinctBatches(allocations) && WithinAllocations(allocations, received)
    requires Allocated(allocations) <= line.quantity
    ensures Placed(LineStep(ctx, item, line, allocations, received)) == Placed(item) + line.quantity
  {
    LineStepPlaces(ctx, item, line, allocations, received);
    AbsorbsAll(allocations, received);
    AllReceivedAmong(received, allocations);
  }

  /** And exactly the lines whose surpluses cancel are. */
  lemma LineConservedExactly(ctx: Context, item: Item, line: ShipmentLine, allocations: seq<Allocation>,
      received: seq<Receipt>)
    requires ctx.scope.None?
    ensures Placed(LineStep(ctx, item, line, allocations, received)) == Placed(item) + line.quantity
      <==> Max(0, Allocated(allocations) - line.quantity) + Received(received) == Absorbed(allocations, received)
  {
    LineStepPlaces(ctx, item, line, allocations, received);
  }

  function Shipped(lines: seq<ShipmentLine>, sku: int): nat {
    if lines == [] then 0
    else Shipped(lines[..|lines| - 1], sku) + (if lines[|lines| - 1].sku == sku then lines[|lines| - 1].quantity else 0)
  }

  /** The whole pipeline of a SKU holds exactly what was shipped of it. */
  lemma {:induction false} SkuConserved(ctx: Context, item: Item, sku: int, lines: seq<ShipmentLine>,
                                        allocations: seq<Allocation>, receipts: seq<Receipt>)
    requires ctx.scope.None?
    requires forall line :: line in lines ==>
      && DistinctBatches(AllocationsOf(allocations, line.pk))
      && WithinAllocations(AllocationsOf(allocations, line.pk), ReceiptsOf(receipts, line.pk))
      && Allocated(AllocationsOf(allocations, line.pk)) <= line.quantity
    ensures Placed(LineSteps(ctx, item, sku, lines, allocations, receipts)) == Placed(item) + Shipped(lines, sku)
  {
    if lines != [] {
      SkuConserved(ctx, item, sku, lines[..|lines| - 1], allocations, receipts);
      var line := lines[|lines| - 1];
      assert line in lines;
      if line.sku == sku {
        LineConserved(ctx, LineSteps(ctx, item, sku, lines[..|lines| - 1], allocations, receipts), line,
                      AllocationsOf(allocations, line.pk), ReceiptsOf(receipts, line.pk));
      }
    }
  }

  // ---------------------------------------------------------------- what is published

  function ShippedFrom(lines: seq<ShipmentLine>, purchase: int): nat {
    if lines == [] then 0
    else
      var last := lines[|lines| - 1];
      ShippedFrom(lines[..|lines| - 1], purchase) + (if last.purchaseLine == Some(purchase) then last.quantity else 0)
  }

  /** Ordered but not shipped, purchase line by purchase line. */
  function Unshipped(purchases: seq<PurchaseLine>, lines: seq<ShipmentLine>, sku: int): nat {
    if purchases == [] then 0
    else
      var last := purchases[|purchases| - 1];
      Unshipped(purchases[..|purchases| - 1], lines, sku)
      + (if last.sku == sku then Max(0, last.quantity - ShippedFrom(lines, last.pk)) else 0)
  }

  /** A restricted reader is shown no production: it has no warehouse. */
  function StartOf(ctx: Context, purchases: seq<PurchaseLine>, lines: seq<ShipmentLine>, sku: int): Item {
    if ctx.scope.Some? then EMPTY.(issues := {WarehouseSupplyScopeIncomplete})
    else EMPTY.(production := Unshipped(purchases, lines, sku), unknownEta := Unshipped(purchases, lines, sku))
  }

  function Unless<T>(hidden: bool, value: T): Option<T> {
    if hidden then None else Some(value)
  }

  function Publish(ctx: Context, item: Item, demand: nat): Pipe {
    Pipe(true, Unless(ctx.scope.Some?, item.production), Some(item.awaiting), Some(item.transporting),
         Some(item.arrived), Some(item.receivedAwaitingWms), Some(item.wmsReceived),
         Unless(item.unattributable, item.excess), Unless(item.unattributable, item.additional),
         Unless(WmsReceiptOverlapUnresolved in item.issues, item.incoming),
         Some(item.unknownEta), Unless(ctx.scope.Some?, demand), item.etaRows,
         item.issues + (if item.unknownEta > 0 then {UnknownEta} else {})
                     + (if item.unattributable then {WarehouseSupplyScopeIncomplete} else {}))
  }

  const UNAUTHORIZED := Pipe(false, None, None, None, None, None, None, None, None, None, None, None, [], {})

  function PipelineOf(ctx: Context, sku: int, purchases: seq<PurchaseLine>, lines: seq<ShipmentLine>,
                      allocations: seq<Allocation>, receipts: seq<Receipt>, demand: nat): Pipe {
    Publish(ctx, LineSteps(ctx, StartOf(ctx, purchases, lines, sku), sku, lines, allocations, receipts), demand)
  }

  /** Every unknown figure comes with the issue that explains it, as does every
      quantity without a date; no other figure of an authorized pipeline is
      ever unknown. */
  predicate AllExplained(pipe: Pipe) {
    pipe.authorized ==>
      && Explained(pipe)
      && (pipe.production.None? || pipe.excess.None? || pipe.additional.None? ==>
        WarehouseSupplyScopeIncomplete in pipe.issues)
      && pipe.awaiting.Some? && pipe.transporting.Some? && pipe.arrived.Some?
      && pipe.receivedAwaitingWms.Some? && pipe.wmsReceived.Some?
      && pipe.unknownEta.Some? && (pipe.unknownEta.value > 0 ==> UnknownEta in pipe.issues)
  }

  /** The unknowns that a suggestion would need. */
  predicate Explained(pipe: Pipe) {
    pipe.authorized ==>
      && (pipe.effectiveIncoming.None? ==> WmsReceiptOverlapUnresolved in pipe.issues)
      && (pipe.openDemand.None? ==> WarehouseSupplyScopeIncomplete in pipe.issues)
  }

  lemma {:induction false} LineStepsKeepIssues(ctx: Context, item: Item, sku: int, lines: seq<ShipmentLine>,
                                               allocations: seq<Allocation>, receipts: seq<Receipt>)
    requires WarehouseSupplyScopeIncomplete in item.issues
    ensures WarehouseSupplyScopeIncomplete in LineSteps(ctx, item, sku, lines, allocations, receipts).issues
  {
    if lines != [] {
      var before := lines[..|lines| - 1];
      LineStepsKeepIssues(ctx, item, sku, before, allocations, receipts);
      var line := lines[|lines| - 1];
      LineStepKeepsIssues(ctx, LineSteps(ctx, item, sku, before, allocations, receipts), line,
                          AllocationsOf(allocations, line.pk), ReceiptsOf(receipts, line.pk));
    }
  }

  lemma LineStepKeepsIssues(ctx: Context, item: Item, line: ShipmentLine, allocations: seq<Allocation>,
      received: seq<Receipt>)
    ensures item.issues <= LineStep(ctx, item, line, allocations, received).issues
  {
    var a := ExceptionStep(item, line, Attribute(ctx, line, allocations, received));
    ReceiptStepsKeepIssues(ctx, Flag(a, Received(received) > line.quantity, ShipmentReceiptOverallocated), received);
    AllocationStepsKeepIssues(ctx, ReceivedStep(ctx, item, line, allocations, received), line.sku, allocations,
      received);
  }

  lemma {:induction false} ReceiptStepsKeepIssues(ctx: Context, item: Item, receipts: seq<Receipt>)
    ensures item.issues <= ReceiptSteps(ctx, item, receipts).issues
  {
    if receipts != [] { ReceiptStepsKeepIssues(ctx, item, receipts[..|receipts| - 1]); }
  }

  lemma {:induction false} AllocationStepsKeepIssues(ctx: Context, item: Item, sku: int, allocations: seq<Allocation>,
      received: seq<Receipt>)
    ensures item.issues <= AllocationSteps(ctx, item, sku, allocations, received).issues
  {
    if allocations != [] { AllocationStepsKeepIssues(ctx, item, sku, allocations[..|allocations| - 1], received); }
  }

  /** The published figures of a SKU, whatever the inputs: eta rows account for
      the supply on its way, the timely ones for the incoming unless an overlap
      vetoes it, the rest for the unknown; and every unknown is explained. */
  lemma PipelineBalances(ctx: Context, sku: int, purchases: seq<PurchaseLine>, lines: seq<ShipmentLine>,
                         allocations: seq<Allocation>, receipts: seq<Receipt>, demand: nat)
    ensures var pipe := PipelineOf(ctx, sku, purchases, lines, allocations, receipts, demand);
      && EtaTotal(pipe.etaRows) == pipe.awaiting.value + pipe.transporting.value
      && (pipe.effectiveIncoming.Some? ==>
            pipe.effectiveIncoming.value == DueWithin(pipe.etaRows, ctx.today, ctx.today + ctx.targetDays))
      && (pipe.effectiveIncoming.None? <==> WmsReceiptOverlapUnresolved in pipe.issues)
      && pipe.unknownEta.value == Dateless(pipe.etaRows) + (if pipe.production.Some? then pipe.production.value else 0)
      && AllExplained(pipe) && Explained(pipe)
  {
    var start := StartOf(ctx, purchases, lines, sku);
    LineStepsBalance(ctx, start, sku, lines, allocations, receipts);
    LineStepsKeepProduction(ctx, start, sku, lines, allocations, receipts);
    if ctx.scope.Some? {
      LineStepsKeepIssues(ctx, start, sku, lines, allocations, receipts);
    }
  }

  lemma {:induction false} AllocationStepsKeepProduction(ctx: Context, item: Item, sku: int,
      allocations: seq<Allocation>, received: seq<Receipt>)
    ensures AllocationSteps(ctx, item, sku, allocations, received).production == item.production
  {
    if allocations != [] { AllocationStepsKeepProduction(ctx, item, sku, allocations[..|allocations| - 1], received); }
  }

  lemma {:induction false} LineStepsKeepProduction(ctx: Context, item: Item, sku: int, lines: seq<ShipmentLine>,
                                                   allocations: seq<Allocation>, receipts: seq<Receipt>)
    ensures LineSteps(ctx, item, sku, lines, allocations, receipts).production == item.production
  {
    if lines != [] {
      var before := LineSteps(ctx, item, sku, lines[..|lines| - 1], allocations, receipts);
      LineStepsKeepProduction(ctx, item, sku, lines[..|lines| - 1], allocations, receipts);
      var line := lines[|lines| - 1];
      var placed, received := AllocationsOf(allocations, line.pk), ReceiptsOf(receipts, line.pk);
      ReceivedStepKeepsSupply(ctx, before, line, placed, received);
      AllocationStepsKeepProduction(ctx, ReceivedStep(ctx, before, line, placed, received), line.sku, placed, received);
    }
  }

  /** With consistent records an unrestricted reader's stages hold exactly what
      was shipped. */
  lemma PipelineConserves(ctx: Context, sku: int, purchases: seq<PurchaseLine>, lines: seq<ShipmentLine>,
                          allocations: seq<Allocation>, receipts: seq<Receipt>, demand: nat)
    requires ctx.scope.None?
    requires forall line :: line in lines ==>
      && DistinctBatches(AllocationsOf(allocations, line.pk))
      && WithinAllocations(AllocationsOf(allocations, line.pk), ReceiptsOf(receipts, line.pk))
      && Allocated(AllocationsOf(allocations, line.pk)) <= line.quantity
    ensures var pipe := PipelineOf(ctx, sku, purchases, lines, allocations, receipts, demand);
      pipe.awaiting.value + pipe.transporting.value + pipe.arrived.value
      + pipe.receivedAwaitingWms.value + pipe.wmsReceived.value == Shipped(lines, sku)
  {
    SkuConserved(ctx, StartOf(ctx, purchases, lines, sku), sku, lines, allocations, receipts);
  }

  // ---------------------------------------------------------------- what each figure is the sum of

  /** What is still to come of an allocation whose batch is in one of these
      stages, if the reader may see where it is bound. */
  function ToCome(ctx: Context, a: Allocation, received: seq<Receipt>, stages: set<Stage>): nat {
    var bound := Destination(a.batch, received);
    if a.batch.stage in stages && (ctx.scope.None? || (bound.Some? && bound.value in ctx.scope.value))
    then Max(0, a.quantity - ReceivedIn(received, a.batch.id))
    else 0
  }

  function LineToCome(ctx: Context, allocations: seq<Allocation>, received: seq<Receipt>, stages: set<Stage>): nat {
    if allocations == [] then 0
    else
      var a := allocations[|allocations| - 1];
      LineToCome(ctx, allocations[..|allocations| - 1], received, stages) + ToCome(ctx, a, received, stages)
  }

  function AllToCome(ctx: Context, sku: int, lines: seq<ShipmentLine>, allocations: seq<Allocation>,
      receipts: seq<Receipt>, stages: set<Stage>): nat {
    if lines == [] then 0
    else
      var line := lines[|lines| - 1];
      AllToCome(ctx, sku, lines[..|lines| - 1], allocations, receipts, stages)
      + (if line.sku == sku
         then LineToCome(ctx, AllocationsOf(allocations, line.pk), ReceiptsOf(receipts, line.pk), stages) else 0)
  }

  /** What the lines of a SKU hold beyond what is allocated of them. */
  function Unplaced(sku: int, lines: seq<ShipmentLine>, allocations: seq<Allocation>): nat {
    if lines == [] then 0
    else
      var line := lines[|lines| - 1];
      Unplaced(sku, lines[..|lines| - 1], allocations)
      + (if line.sku == sku then Max(0, line.quantity - Allocated(AllocationsOf(allocations, line.pk))) else 0)
  }

  /** The receipts of a line in the reader's warehouses. */
  function ReceivedHere(ctx: Context, received: seq<Receipt>): nat {
    if received == [] then 0
    else
      var r := received[|received| - 1];
      ReceivedHere(ctx, received[..|received| - 1])
      + (if ctx.scope.None? || r.warehouse in ctx.scope.value then r.quantity else 0)
  }

  function AllReceived(ctx: Context, sku: int, lines: seq<ShipmentLine>, receipts: seq<Receipt>): nat {
    if lines == [] then 0
    else
      var line := lines[|lines| - 1];
      AllReceived(ctx, sku, lines[..|lines| - 1], receipts)
      + (if line.sku == sku then ReceivedHere(ctx, ReceiptsOf(receipts, line.pk)) else 0)
  }

  /** A step of an item adds these amounts to its stages. */
  predicate Adds(before: Item, after: Item, waiting: nat, moving: nat, arrived: nat, received: nat) {
    && after.awaiting == before.awaiting + waiting && after.transporting == before.transporting + moving
    && after.arrived == before.arrived + arrived
    && after.receivedAwaitingWms + after.wmsReceived == before.receivedAwaitingWms + before.wmsReceived + received
  }

  lemma AllocationStepAdds(ctx: Context, item: Item, sku: int, a: Allocation, received: seq<Receipt>)
    ensures Adds(item, AllocationStep(ctx, item, sku, a, received),
      ToCome(ctx, a, received, {Collecting}), ToCome(ctx, a, received, {Departed, ArrivedPort}),
      ToCome(ctx, a, received, {ArrivedWarehouse}), 0)
  {
  }

  lemma {:induction false} AllocationStepsAdd(ctx: Context, item: Item, sku: int, allocations: seq<Allocation>,
      received: seq<Receipt>)
    ensures Adds(item, AllocationSteps(ctx, item, sku, allocations, received),
      LineToCome(ctx, allocations, received, {Collecting}),
      LineToCome(ctx, allocations, received, {Departed, ArrivedPort}),
      LineToCome(ctx, allocations, received, {ArrivedWarehouse}), 0)
  {
    if allocations != [] {
      var before := allocations[..|allocations| - 1];
      AllocationStepsAdd(ctx, item, sku, before, received);
      AllocationStepAdds(ctx, AllocationSteps(ctx, item, sku, before, received), sku, allocations[|allocations| - 1],
        received);
    }
  }

  lemma {:induction false} ReceiptStepsAdd(ctx: Context, item: Item, received: seq<Receipt>)
    ensures Adds(item, ReceiptSteps(ctx, item, received), 0, 0, 0, ReceivedHere(ctx, received))
  {
    if received != [] { ReceiptStepsAdd(ctx, item, received[..|received| - 1]); }
  }

  lemma LineStepAdds(ctx: Context, item: Item, line: ShipmentLine, allocations: seq<Allocation>,
      received: seq<Receipt>)
    ensures Adds(item, LineStep(ctx, item, line, allocations, received),
      LineToCome(ctx, allocations, received, {Collecting})
        + (if ctx.scope.None? then Max(0, line.quantity - Allocated(allocations)) else 0),
      LineToCome(ctx, allocations, received, {Departed, ArrivedPort}),
      LineToCome(ctx, allocations, received, {ArrivedWarehouse}), ReceivedHere(ctx, received))
  {
    var a := ExceptionStep(item, line, Attribute(ctx, line, allocations, received));
    ReceiptStepsAdd(ctx, Flag(a, Received(received) > line.quantity, ShipmentReceiptOverallocated), received);
    AllocationStepsAdd(ctx, ReceivedStep(ctx, item, line, allocations, received), line.sku, allocations, received);
  }

  lemma {:induction false} LineStepsAdd(ctx: Context, item: Item, sku: int, lines: seq<ShipmentLine>,
      allocations: seq<Allocation>, receipts: seq<Receipt>)
    ensures Adds(item, LineSteps(ctx, item, sku, lines, allocations, receipts),
      AllToCome(ctx, sku, lines, allocations, receipts, {Collecting})
        + (if ctx.scope.None? then Unplaced(sku, lines, allocations) else 0),
      AllToCome(ctx, sku, lines, allocations, receipts, {Departed, ArrivedPort}),
      AllToCome(ctx, sku, lines, allocations, receipts, {ArrivedWarehouse}), AllReceived(ctx, sku, lines, receipts))
  {
    if lines != [] {
      var n := |lines| - 1;
      var line := lines[n];
      LineStepsAdd(ctx, item, sku, lines[..n], allocations, receipts);
      LineStepAdds(ctx, LineSteps(ctx, item, sku, lines[..n], allocations, receipts), line,
        AllocationsOf(allocations, line.pk), ReceiptsOf(receipts, line.pk));
    }
  }

  /** Each published stage by itself, for any records and any reader: on the way
      is what is still to come of allocations to departed or landed batches,
      arrived that of batches at their warehouse, awaiting that of the others and
      whatever no batch has been given. */
  lemma PipelineStages(ctx: Context, sku: int, purchases: seq<PurchaseLine>, lines: seq<ShipmentLine>,
                       allocations: seq<Allocation>, receipts: seq<Receipt>, demand: nat)
    ensures var pipe := PipelineOf(ctx, sku, purchases, lines, allocations, receipts, demand);
      && pipe.transporting == Some(AllToCome(ctx, sku, lines, allocations, receipts, {Departed, ArrivedPort}))
      && pipe.arrived == Some(AllToCome(ctx, sku, lines, allocations, receipts, {ArrivedWarehouse}))
      && pipe.awaiting == Some(AllToCome(ctx, sku, lines, allocations, receipts, {Collecting})
           + (if ctx.scope.None? then Unplaced(sku, lines, allocations) else 0))
      && pipe.receivedAwaitingWms.Some? && pipe.wmsReceived.Some?
      && pipe.receivedAwaitingWms.value + pipe.wmsReceived.value == AllReceived(ctx, sku, lines, receipts)
      && pipe.production == (if ctx.scope.Some? then None else Some(Unshipped(purchases, lines, sku)))
  {
    var start := StartOf(ctx, purchases, lines, sku);
    LineStepsAdd(ctx, start, sku, lines, allocations, receipts);
    LineStepsKeepProduction(ctx, start, sku, lines, allocations, receipts);
  }

  // ---------------------------------------------------------------- what raises each issue

  /** Goods the reader may see that are neither received nor at their warehouse. */
  predicate OnItsWay(ctx: Context, a: Allocation, received: seq<Receipt>) {
    ToCome(ctx, a, received, {Collecting, Departed, ArrivedPort}) > 0
  }

  ghost predicate SomeUnderReview(ctx: Context, received: seq<Receipt>) {
    exists r :: r in received && r.pk in ctx.invalid && (ctx.scope.None? || r.warehouse in ctx.scope.value)
  }

  /** What makes a line raise an issue for its SKU, by its totals ... */
  ghost predicate TotalsRaise(ctx: Context, line: ShipmentLine, placed: nat, received: seq<Receipt>, issue: Issue) {
    match issue
    case ShipmentReceiptOverallocated => Received(received) > line.quantity
    case DispatchAllocationOverallocated => placed > line.quantity
    case LocalReceiptQuantityDifference => Received(received) != line.quantity && Received(received) > 0
    case WmsAllocationRequiresReview => SomeUnderReview(ctx, received)
    case WarehouseSupplyScopeIncomplete => ctx.scope.Some? && placed < line.quantity
    case _ => false
  }

  /** ... or by one of its allocations. */
  predicate AllocationRaises(ctx: Context, sku: int, a: Allocation, received: seq<Receipt>, issue: Issue) {
    match issue
    case UnassignedWarehouseSupply => ctx.scope.Some? && Destination(a.batch, received) == None
    case OverdueEta => OnItsWay(ctx, a, received) && a.batch.eta.Some? && a.batch.eta.value < ctx.today
    case WmsReceiptOverlapUnresolved =>
      OnItsWay(ctx, a, received) && a.batch.eta.Some?
      && ctx.today <= a.batch.eta.value <= ctx.today + ctx.targetDays && Overlaps(ctx, sku, a.batch)
    case _ => false
  }

  ghost predicate Raises(ctx: Context, line: ShipmentLine, allocations: seq<Allocation>, received: seq<Receipt>,
      issue: Issue) {
    || TotalsRaise(ctx, line, Allocated(allocations), received, issue)
    || exists a :: a in allocations && AllocationRaises(ctx, line.sku, a, received, issue)
  }

  lemma AllocationStepRaises(ctx: Context, item: Item, sku: int, a: Allocation, received: seq<Receipt>, issue: Issue)
    ensures issue in AllocationStep(ctx, item, sku, a, received).issues
      <==> issue in item.issues || AllocationRaises(ctx, sku, a, received, issue)
  {
  }

  lemma {:induction false} AllocationStepsRaise(ctx: Context, item: Item, sku: int, allocations: seq<Allocation>,
      received: seq<Receipt>, issue: Issue)
    ensures issue in AllocationSteps(ctx, item, sku, allocations, received).issues
      <==> issue in item.issues || exists a :: a in allocations && AllocationRaises(ctx, sku, a, received, issue)
  {
    if allocations != [] {
      var n := |allocations| - 1;
      assert allocations == allocations[..n] + [allocations[n]];
      AllocationStepsRaise(ctx, item, sku, allocations[..n], received, issue);
      AllocationStepRaises(ctx, AllocationSteps(ctx, item, sku, allocations[..n], received), sku, allocations[n],
        received, issue);
    }
  }

  lemma {:induction false} ReceiptStepsRaise(ctx: Context, item: Item, received: seq<Receipt>, issue: Issue)
    ensures issue in ReceiptSteps(ctx, item, received).issues
      <==> issue in item.issues || (issue == WmsAllocationRequiresReview && SomeUnderReview(ctx, received))
  {
    if received != [] {
      var n := |received| - 1;
      assert received == received[..n] + [received[n]];
      ReceiptStepsRaise(ctx, item, received[..n], issue);
    }
  }

  predicate Restricts(ctx: Context, line: ShipmentLine, placed: nat, issue: Issue) {
    issue == WarehouseSupplyScopeIncomplete && ctx.scope.Some? && placed < line.quantity
  }

  lemma ReceivedStepRaises(ctx: Context, item: Item, line: ShipmentLine, allocations: seq<Allocation>,
      received: seq<Receipt>, issue: Issue)
    ensures issue in ReceivedStep(ctx, item, line, allocations, received).issues
        || Restricts(ctx, line, Allocated(allocations), issue)
      <==> issue in item.issues || TotalsRaise(ctx, line, Allocated(allocations), received, issue)
  {
    var a := ExceptionStep(item, line, Attribute(ctx, line, allocations, received));
    ReceiptStepsRaise(ctx, Flag(a, Received(received) > line.quantity, ShipmentReceiptOverallocated), received, issue);
  }

  lemma RemainderRaises(ctx: Context, item: Item, line: ShipmentLine, placed: nat, issue: Issue)
    ensures issue in RemainderStep(ctx, item, line, placed).issues
      <==> issue in item.issues || Restricts(ctx, line, placed, issue)
  {
  }

  lemma LineStepRaises(ctx: Context, item: Item, line: ShipmentLine, allocations: seq<Allocation>,
      received: seq<Receipt>, issue: Issue)
    ensures issue in LineStep(ctx, item, line, allocations, received).issues
      <==> issue in item.issues || Raises(ctx, line, allocations, received, issue)
  {
    var before := ReceivedStep(ctx, item, line, allocations, received);
    ReceivedStepRaises(ctx, item, line, allocations, received, issue);
    AllocationStepsRaise(ctx, before, line.sku, allocations, received, issue);
    RemainderRaises(ctx, AllocationSteps(ctx, before, line.sku, allocations, received), line, Allocated(allocations),
      issue);
  }

  ghost predicate SomeLineRaises(ctx: Context, sku: int, lines: seq<ShipmentLine>, allocations: seq<Allocation>,
      receipts: seq<Receipt>, issue: Issue) {
    exists line :: line in lines && line.sku == sku
      && Raises(ctx, line, AllocationsOf(allocations, line.pk), ReceiptsOf(receipts, line.pk), issue)
  }

  lemma {:induction false} LineStepsRaise(ctx: Context, item: Item, sku: int, lines: seq<ShipmentLine>,
      allocations: seq<Allocation>, receipts: seq<Receipt>, issue: Issue)
    ensures issue in LineSteps(ctx, item, sku, lines, allocations, receipts).issues
      <==> issue in item.issues || SomeLineRaises(ctx, sku, lines, allocations, receipts, issue)
  {
    if lines != [] {
      var n := |lines| - 1;
      var line := lines[n];
      assert lines == lines[..n] + [line];
      LineStepsRaise(ctx, item, sku, lines[..n], allocations, receipts, issue);
      LineStepRaises(ctx, LineSteps(ctx, item, sku, lines[..n], allocations, receipts), line,
        AllocationsOf(allocations, line.pk), ReceiptsOf(receipts, line.pk), issue);
    }
  }

  /** Each published issue, exactly: the restriction of the reader, the quantity
      without a date, or a line of the SKU that raises it. */
  lemma PipelineIssues(ctx: Context, sku: int, purchases: seq<PurchaseLine>, lines: seq<ShipmentLine>,
                       allocations: seq<Allocation>, receipts: seq<Receipt>, demand: nat, issue: Issue)
    ensures var pipe := PipelineOf(ctx, sku, purchases, lines, allocations, receipts, demand);
      issue in pipe.issues <==>
        if issue == WarehouseSupplyScopeIncomplete then ctx.scope.Some?
        else if issue == UnknownEta then pipe.unknownEta.value > 0
        else SomeLineRaises(ctx, sku, lines, allocations, receipts, issue)
  {
    var start := StartOf(ctx, purchases, lines, sku);
    LineStepsRaise(ctx, start, sku, lines, allocations, receipts, issue);
    LineStepsAttribute(ctx, start, sku, lines, allocations, receipts);
  }

  // ---------------------------------------------------------------- exceptions of a line

  /** All of a line is bound for one warehouse that the reader may see. */
  ghost predicate LiesHere(ctx: Context, line: ShipmentLine, allocations: seq<Allocation>, received: seq<Receipt>) {
    ctx.scope.None?
    || (allocations != [] && Allocated(allocations) == line.quantity
        && exists w :: w in ctx.scope.value && forall a :: a in allocations ==>
          Destination(a.batch, received) == Some(w))
  }

  /** All of a line is bound for warehouses that the reader may not see. */
  ghost predicate LiesElsewhere(ctx: Context, line: ShipmentLine, allocations: seq<Allocation>,
      received: seq<Receipt>) {
    ctx.scope.Some? && allocations != [] && Allocated(allocations) == line.quantity
    && forall a :: a in allocations ==>
         Destination(a.batch, received).Some? && Destination(a.batch, received).value !in ctx.scope.value
  }

  lemma AttributeIs(ctx: Context, line: ShipmentLine, allocations: seq<Allocation>, received: seq<Receipt>)
    ensures Attribute(ctx, line, allocations, received) == Counted <==> LiesHere(ctx, line, allocations, received)
    ensures Attribute(ctx, line, allocations, received) == OutOfScope
      <==> LiesElsewhere(ctx, line, allocations, received)
  {
    if ctx.scope.Some? {
      if allocations == [] {
        assert Destinations(allocations, received) == {};
      } else {
        BoundElsewhere(ctx, line, allocations, received);
        BoundHere(ctx, line, allocations, received);
      }
    }
  }

  lemma DestinationsAre(allocations: seq<Allocation>, received: seq<Receipt>)
    requires allocations != []
    ensures forall a :: a in allocations ==> Destination(a.batch, received) in Destinations(allocations, received)
    ensures Destination(allocations[0].batch, received) in Destinations(allocations, received)
  {
    assert allocations[0] in allocations;
  }

  lemma BoundElsewhere(ctx: Context, line: ShipmentLine, allocations: seq<Allocation>, received: seq<Receipt>)
    requires ctx.scope.Some? && allocations != []
    ensures Attribute(ctx, line, allocations, received) == OutOfScope
      <==> LiesElsewhere(ctx, line, allocations, received)
  {
    DestinationsAre(allocations, received);
  }

  lemma BoundHere(ctx: Context, line: ShipmentLine, allocations: seq<Allocation>, received: seq<Receipt>)
    requires ctx.scope.Some? && allocations != []
    ensures Attribute(ctx, line, allocations, received) == Counted <==> LiesHere(ctx, line, allocations, received)
  {
    var all := Destinations(allocations, received);
    DestinationsAre(allocations, received);
    var first := Destination(allocations[0].batch, received);
    if LiesHere(ctx, line, allocations, received) {
      assert allocations[0] in allocations && first.Some?;
      assert all == {first};
      assert Attribute(ctx, line, allocations, received) == Counted;
    }
    if Attribute(ctx, line, allocations, received) == Counted {
      OnlyOne(all);
      assert InScope(ctx, first) && first == Some(first.value);
      var w := first.value;
      assert w in ctx.scope.value && forall a :: a in allocations ==> Destination(a.batch, received) == Some(w);
    }
  }

  lemma Fewer(all: set<Option<int>>, a: Option<int>, b: Option<int>)
    requires a in all && b in all && a != b
    ensures |all| > 1
  {
    assert b in all - {a} && |all| == |all - {a}| + 1;
  }

  lemma OnlyOne(all: set<Option<int>>)
    requires |all| == 1
    ensures forall a, b :: a in all && b in all ==> a == b
  {
    forall a, b | a in all && b in all ensures a == b {
      if a != b {
        Fewer(all, a, b);
      }
    }
  }

  /** The lines of a SKU that count for the reader, one by one. */
  ghost function ExcessHere(ctx: Context, sku: int, lines: seq<ShipmentLine>, allocations: seq<Allocation>,
      receipts: seq<Receipt>, additional: bool): nat {
    if lines == [] then 0
    else
      var line := lines[|lines| - 1];
      ExcessHere(ctx, sku, lines[..|lines| - 1], allocations, receipts, additional)
      + (if line.sku == sku
            && LiesHere(ctx, line, AllocationsOf(allocations, line.pk), ReceiptsOf(receipts, line.pk))
         then if !additional then line.excess else if line.additional then line.quantity else 0
         else 0)
  }

  ghost predicate Unclear(ctx: Context, sku: int, lines: seq<ShipmentLine>, allocations: seq<Allocation>,
      receipts: seq<Receipt>) {
    exists line :: line in lines && line.sku == sku
      && !LiesHere(ctx, line, AllocationsOf(allocations, line.pk), ReceiptsOf(receipts, line.pk))
      && !LiesElsewhere(ctx, line, AllocationsOf(allocations, line.pk), ReceiptsOf(receipts, line.pk))
  }

  lemma {:induction false} StepsKeepExceptions(ctx: Context, item: Item, sku: int, allocations: seq<Allocation>,
      received: seq<Receipt>)
    ensures var after := AllocationSteps(ctx, item, sku, allocations, received);
      after.excess == item.excess && after.additional == item.additional && after.unattributable == item.unattributable
    ensures var after := ReceiptSteps(ctx, item, received);
      after.excess == item.excess && after.additional == item.additional && after.unattributable == item.unattributable
    decreases |allocations| + |received|
  {
    if allocations != [] { StepsKeepExceptions(ctx, item, sku, allocations[..|allocations| - 1], received); }
    if received != [] { StepsKeepExceptions(ctx, item, sku, [], received[..|received| - 1]); }
  }

  lemma LineStepAttributes(ctx: Context, item: Item, line: ShipmentLine, allocations: seq<Allocation>,
      received: seq<Receipt>)
    ensures var after := LineStep(ctx, item, line, allocations, received);
      var here := LiesHere(ctx, line, allocations, received);
      && after.excess == item.excess + (if here then line.excess else 0)
      && after.additional == item.additional + (if here && line.additional then line.quantity else 0)
      && after.unattributable == (item.unattributable || (!here && !LiesElsewhere(ctx, line, allocations, received)))
  {
    AttributeIs(ctx, line, allocations, received);
    var a := ExceptionStep(item, line, Attribute(ctx, line, allocations, received));
    StepsKeepExceptions(ctx, Flag(a, Received(received) > line.quantity, ShipmentReceiptOverallocated), line.sku, [],
      received);
    StepsKeepExceptions(ctx, ReceivedStep(ctx, item, line, allocations, received), line.sku, allocations, received);
  }

  lemma {:induction false} LineStepsAttribute(ctx: Context, item: Item, sku: int, lines: seq<ShipmentLine>,
      allocations: seq<Allocation>, receipts: seq<Receipt>)
    ensures var after := LineSteps(ctx, item, sku, lines, allocations, receipts);
      && after.excess == item.excess + ExcessHere(ctx, sku, lines, allocations, receipts, false)
      && after.additional == item.additional + ExcessHere(ctx, sku, lines, allocations, receipts, true)
      && (after.unattributable <==> item.unattributable || Unclear(ctx, sku, lines, allocations, receipts))
    ensures ctx.scope.None? ==> !Unclear(ctx, sku, lines, allocations, receipts)
  {
    if lines != [] {
      var n := |lines| - 1;
      var line := lines[n];
      assert lines == lines[..n] + [line];
      LineStepsAttribute(ctx, item, sku, lines[..n], allocations, receipts);
      LineStepAttributes(ctx, LineSteps(ctx, item, sku, lines[..n], allocations, receipts), line,
        AllocationsOf(allocations, line.pk), ReceiptsOf(receipts, line.pk));
    }
  }

  /** The published exceptions are those of the lines that lie in one of the
      reader's warehouses as a whole, and are unknown exactly if some line lies
      neither there nor elsewhere. */
  lemma PipelineExceptions(ctx: Context, sku: int, purchases: seq<PurchaseLine>, lines: seq<ShipmentLine>,
                           allocations: seq<Allocation>, receipts: seq<Receipt>, demand: nat)
    ensures var pipe := PipelineOf(ctx, sku, purchases, lines, allocations, receipts, demand);
      if Unclear(ctx, sku, lines, allocations, receipts) then pipe.excess == None && pipe.additional == None
      else
        && pipe.excess == Some(ExcessHere(ctx, sku, lines, allocations, receipts, false))
        && pipe.additional == Some(ExcessHere(ctx, sku, lines, allocations, receipts, true))
  {
    LineStepsAttribute(ctx, StartOf(ctx, purchases, lines, sku), sku, lines, allocations, receipts);
  }

  // ---------------------------------------------------------------- the loops

  method SumReceived(received: seq<Receipt>) returns (total: nat)
    ensures total == Received(received)
  {
    total := 0;
    for i := 0 to |received|
      invariant total == Received(received[..i])
    {
      assert received[..i + 1][..i] == received[..i];
      total := total + received[i].quantity;
    }
    assert received[..|received|] == received;
  }

  method SumAllocated(allocations: seq<Allocation>) returns (placed: nat)
    ensures placed == Allocated(allocations)
  {
    placed := 0;
    for i := 0 to |allocations|
      invariant placed == Allocated(allocations[..i])
    {
      assert allocations[..i + 1][..i] == allocations[..i];
      placed := placed + allocations[i].quantity;
    }
    assert allocations[..|allocations|] == allocations;
  }

  /** Where goods of a batch are bound: the first receipt of it tells. */
  method FindDestination(batch: Batch, received: seq<Receipt>) returns (destination: Option<int>)
    ensures destination == Destination(batch, received)
  {
    for i := 0 to |received|
      invariant Destination(batch, received) == Destination(batch, received[i..])
    {
      if received[i].batch == batch.id { return Some(received[i].warehouse); }
    }
    destination := batch.plannedWarehouse;
  }

  /** Whether a line's exceptions count for the reader: only a line that lies
      as a whole in one place can be attributed. */
  method AttributeLine(ctx: Context, line: ShipmentLine, allocations: seq<Allocation>, received: seq<Receipt>)
      returns (attribution: Attribution)
    ensures attribution == Attribute(ctx, line, allocations, received)
  {
    if ctx.scope.None? { return Counted; }
    var destinations: set<int>, unknown := {}, false;
    for i := 0 to |allocations|
      invariant unknown <==> None in Destinations(allocations[..i], received)
      invariant forall d :: d in destinations <==> Some(d) in Destinations(allocations[..i], received)
    {
      DestinationsGrow(allocations, received, i);
      var d := FindDestination(allocations[i].batch, received);
      if d.None? { unknown := true; } else { destinations := destinations + {d.value}; }
    }
    assert allocations[..|allocations|] == allocations;
    var placed := SumAllocated(allocations);
    ghost var all := Destinations(allocations, received);
    if !unknown { KnownDestinations(destinations, all); }
    if destinations != {} && !unknown && destinations !! ctx.scope.value && placed == line.quantity {
      assert forall d :: d in all ==> d.Some? && d.value in destinations;
      return OutOfScope;
    }
    if !unknown && |destinations| == 1 && destinations <= ctx.scope.value && placed == line.quantity {
      assert forall d :: d in all ==> d.Some? && d.value in destinations;
      return Counted;
    }
    return Unattributable;
  }

  lemma DestinationsGrow(allocations: seq<Allocation>, received: seq<Receipt>, i: nat)
    requires i < |allocations|
    ensures Destinations(allocations[..i + 1], received)
      == Destinations(allocations[..i], received) + {Destination(allocations[i].batch, received)}
  {
    assert allocations[..i + 1] == allocations[..i] + [allocations[i]];
  }

  lemma {:induction false} KnownDestinations(some: set<int>, all: set<Option<int>>)
    requires None !in all && forall d :: d in some <==> Some(d) in all
    ensures |all| == |some| && (all == {} <==> some == {})
    decreases |all|
  {
    if all == {} {
      assert forall d :: d !in some;
      assert some == {};
    } else {
      var d :| d in all;
      KnownDestinations(some - {d.value}, all - {d});
      var known := d.value;
      assert d == Some(known);
      assert Some(known) in all && known in some;
    }
  }

  /** The receipts of a line that the reader may see, told apart by whether the
      warehouse system has confirmed them. */
  method AddReceipts(ctx: Context, start: Item, received: seq<Receipt>) returns (item: Item)
    ensures item == ReceiptSteps(ctx, start, received)
  {
    item := start;
    for i := 0 to |received|
      invariant item == ReceiptSteps(ctx, start, received[..i])
    {
      assert received[..i + 1][..i] == received[..i];
      var r := received[i];
      if ctx.scope.Some? && r.warehouse !in ctx.scope.value { continue; }
      var reconciled := if r.pk in ctx.matched && ctx.matched[r.pk] < r.quantity then ctx.matched[r.pk]
        else if r.pk in ctx.matched then r.quantity else 0;
      item := item.(receivedAwaitingWms := item.receivedAwaitingWms + (r.quantity - reconciled),
                    wmsReceived := item.wmsReceived + reconciled);
      if r.pk in ctx.invalid { item := item.(issues := item.issues + {WmsAllocationRequiresReview}); }
    }
    assert received[..|received|] == received;
  }

  /** One allocation's turn: goods not received yet go to the stage their batch
      is in, and unless they have arrived to the total their date belongs to. */
  method AddAllocation(ctx: Context, start: Item, sku: int, a: Allocation, received: seq<Receipt>, here: nat)
      returns (item: Item)
    requires here == ReceivedIn(received, a.batch.id)
    ensures item == AllocationStep(ctx, start, sku, a, received)
  {
    item := start;
    var destination := FindDestination(a.batch, received);
    if ctx.scope.Some? && (destination.None? || destination.value !in ctx.scope.value) {
      if destination.None? { item := item.(issues := item.issues + {UnassignedWarehouseSupply}); }
      return;
    }
    if a.quantity <= here { return; }
    var remaining := a.quantity - here;
    if a.batch.stage == ArrivedWarehouse { return item.(arrived := item.arrived + remaining); }
    if a.batch.stage == Departed || a.batch.stage == ArrivedPort {
      item := item.(transporting := item.transporting + remaining);
    } else {
      item := item.(awaiting := item.awaiting + remaining);
    }
    item := DateGoods(ctx, item, sku, a.batch, remaining);
  }

  method DateGoods(ctx: Context, start: Item, sku: int, batch: Batch, remaining: nat) returns (item: Item)
    ensures item == Dated(ctx, start, sku, batch, remaining)
  {
    item := start.(etaRows := start.etaRows + [EtaRow(batch.eta, remaining, Some(batch.id))]);
    if batch.eta.None? { return item.(unknownEta := item.unknownEta + remaining); }
    var eta := batch.eta.value;
    if eta < ctx.today { return item.(issues := item.issues + {OverdueEta}); }
    if eta <= ctx.today + ctx.targetDays {
      item := item.(incoming := item.incoming + remaining);
      var later, sent, planned := ctx.latestUnmatched, batch.sentAt, batch.plannedWarehouse;
      var overlap := exists key :: key in later && key.0 == sku && later[key] >= sent && planned in {None, Some(key.1)};
      if overlap { item := item.(issues := item.issues + {WmsReceiptOverlapUnresolved}); }
    }
  }

  method CountExceptions(ctx: Context, start: Item, line: ShipmentLine, allocations: seq<Allocation>,
      received: seq<Receipt>) returns (item: Item)
    ensures item == ExceptionStep(start, line, Attribute(ctx, line, allocations, received))
  {
    item := start;
    var attribution := AttributeLine(ctx, line, allocations, received);
    if attribution == Counted {
      item := item.(excess := item.excess + line.excess);
      if line.additional { item := item.(additional := item.additional + line.quantity); }
    } else if attribution == Unattributable {
      item := item.(unattributable := true);
    }
  }

  /** One shipment line's turn in the main loop; `byBatch` is what each batch
      has received of each line. */
  method ProcessLine(ctx: Context, start: Item, line: ShipmentLine, allocations: seq<Allocation>,
      received: seq<Receipt>, byBatch: map<(int, int), nat>)
      returns (item: Item)
    requires forall batch :: Get(byBatch, (line.pk, batch), 0) == ReceivedIn(received, batch)
    ensures item == LineStep(ctx, start, line, allocations, received)
  {
    item := CountExceptions(ctx, start, line, allocations, received);
    var total := SumReceived(received);
    if total > line.quantity { item := item.(issues := item.issues + {ShipmentReceiptOverallocated}); }
    item := AddReceipts(ctx, item, received);
    var placed := SumAllocated(allocations);
    if placed > line.quantity { item := item.(issues := item.issues + {DispatchAllocationOverallocated}); }
    if total != line.quantity && total > 0 { item := item.(issues := item.issues + {LocalReceiptQuantityDifference}); }
    assert item == ReceivedStep(ctx, start, line, allocations, received);
    ghost var before := item;
    for i := 0 to |allocations|
      invariant item == AllocationSteps(ctx, before, line.sku, allocations[..i], received)
    {
      assert allocations[..i + 1][..i] == allocations[..i];
      var a := allocations[i];
      item := AddAllocation(ctx, item, line.sku, a, received, Get(byBatch, (line.pk, a.batch.id), 0));
    }
    assert allocations[..|allocations|] == allocations;
    if placed < line.quantity {
      var unallocated := line.quantity - placed;
      if ctx.scope.Some? {
        item := item.(issues := item.issues + {WarehouseSupplyScopeIncomplete});
      } else {
        item := item.(awaiting := item.awaiting + unallocated, unknownEta := item.unknownEta + unallocated,
                      etaRows := item.etaRows + [EtaRow(None, unallocated, None)]);
      }
    }
  }

  /** Received quantity by shipment line and batch. */
  method SumByBatch(receipts: seq<Receipt>) returns (byBatch: map<(int, int), nat>)
    ensures forall line, batch :: Get(byBatch, (line, batch), 0) == ReceivedIn(ReceiptsOf(receipts, line), batch)
  {
    byBatch := map[];
    for i := 0 to |receipts|
      invariant forall line, batch ::
        Get(byBatch, (line, batch), 0) == ReceivedIn(ReceiptsOf(receipts[..i], line), batch)
    {
      assert receipts[..i + 1][..i] == receipts[..i];
      var r := receipts[i];
      byBatch := byBatch[(r.line, r.batch) := Get(byBatch, (r.line, r.batch), 0) + r.quantity];
      forall line, batch
        ensures Get(byBatch, (line, batch), 0) == ReceivedIn(ReceiptsOf(receipts[..i + 1], line), batch)
      {
        if line == r.line { LastReceipt(ReceiptsOf(receipts[..i], line), r, batch); }
      }
    }
    assert receipts[..|receipts|] == receipts;
  }

  lemma LastReceipt(received: seq<Receipt>, r: Receipt, batch: int)
    ensures ReceivedIn(received + [r], batch)
      == ReceivedIn(received, batch) + (if r.batch == batch then r.quantity else 0)
  {
    assert (received + [r])[..|received|] == received;
  }

  method GroupAllocations(allocations: seq<Allocation>) returns (byLine: map<int, seq<Allocation>>)
    ensures forall line :: Get(byLine, line, []) == AllocationsOf(allocations, line)
  {
    byLine := map[];
    for i := 0 to |allocations|
      invariant forall line :: Get(byLine, line, []) == AllocationsOf(allocations[..i], line)
    {
      assert allocations[..i + 1][..i] == allocations[..i];
      var a := allocations[i];
      byLine := byLine[a.line := Get(byLine, a.line, []) + [a]];
    }
    assert allocations[..|allocations|] == allocations;
  }

  method GroupReceipts(receipts: seq<Receipt>) returns (byLine: map<int, seq<Receipt>>)
    ensures forall line :: Get(byLine, line, []) == ReceiptsOf(receipts, line)
  {
    byLine := map[];
    for i := 0 to |receipts|
      invariant forall line :: Get(byLine, line, []) == ReceiptsOf(receipts[..i], line)
    {
      assert receipts[..i + 1][..i] == receipts[..i];
      var r := receipts[i];
      byLine := byLine[r.line := Get(byLine, r.line, []) + [r]];
    }
    assert receipts[..|receipts|] == receipts;
  }

  /** Shipped quantity by purchase line. */
  method SumShipped(lines: seq<ShipmentLine>) returns (shipped: map<int, nat>)
    ensures forall p :: Get(shipped, p, 0) == ShippedFrom(lines, p)
  {
    shipped := map[];
    for i := 0 to |lines|
      invariant forall p :: Get(shipped, p, 0) == ShippedFrom(lines[..i], p)
    {
      assert lines[..i + 1][..i] == lines[..i];
      if lines[i].purchaseLine.Some? {
        var p := lines[i].purchaseLine.value;
        shipped := shipped[p := Get(shipped, p, 0) + lines[i].quantity];
      }
    }
    assert lines[..|lines|] == lines;
  }

  method StartItems(ctx: Context, skus: set<int>, purchases: seq<PurchaseLine>, lines: seq<ShipmentLine>)
      returns (items: map<int, Item>)
    requires forall p :: p in purchases ==> p.sku in skus
    ensures items.Keys == skus && forall sku :: sku in skus ==> items[sku] == StartOf(ctx, purchases, lines, sku)
  {
    items := map sku | sku in skus :: EMPTY;
    if ctx.scope.Some? {
      items := map sku | sku in skus :: EMPTY.(issues := {WarehouseSupplyScopeIncomplete});
      return;
    }
    var shipped := SumShipped(lines);
    for i := 0 to |purchases|
      invariant items.Keys == skus
      invariant forall sku :: sku in skus ==>
        items[sku] == EMPTY.(production := Unshipped(purchases[..i], lines, sku),
          unknownEta := Unshipped(purchases[..i], lines, sku))
    {
      assert purchases[..i + 1][..i] == purchases[..i];
      var p := purchases[i];
      var remaining := Max(0, p.quantity - Get(shipped, p.pk, 0));
      var item := items[p.sku];
      items := items[p.sku := item.(production := item.production + remaining,
        unknownEta := item.unknownEta + remaining)];
    }
    assert purchases[..|purchases|] == purchases;
  }

  /** The passes over the items once every line is in. */
  method PublishAll(ctx: Context, items: map<int, Item>, demand: map<int, nat>) returns (result: map<int, Pipe>)
    ensures result.Keys == items.Keys
    ensures forall sku :: sku in items ==> result[sku] == Publish(ctx, items[sku], Get(demand, sku, 0))
  {
    result := map sku | sku in items ::
      var item := items[sku];
      Pipe(true, if ctx.scope.Some? then None else Some(item.production), Some(item.awaiting),
        Some(item.transporting), Some(item.arrived), Some(item.receivedAwaitingWms), Some(item.wmsReceived),
        if item.unattributable then None else Some(item.excess),
        if item.unattributable then None else Some(item.additional),
        if WmsReceiptOverlapUnresolved in item.issues then None else Some(item.incoming), Some(item.unknownEta),
        if ctx.scope.Some? then None else Some(if sku in demand then demand[sku] else 0), item.etaRows,
        item.issues + (if item.unknownEta > 0 then {UnknownEta} else {})
          + (if item.unattributable then {WarehouseSupplyScopeIncomplete} else {}));
  }

  /** `pipeline_for`, over rows already selected for these SKUs. */
  method PipelineFor(authorized: bool, ctx: Context, skus: set<int>, purchases: seq<PurchaseLine>,
      lines: seq<ShipmentLine>,
                     allocations: seq<Allocation>, receipts: seq<Receipt>, demand: map<int, nat>)
      returns (result: map<int, Pipe>)
    requires forall p :: p in purchases ==> p.sku in skus
    requires forall line :: line in lines ==> line.sku in skus
    ensures result.Keys == skus
    ensures !authorized ==> forall sku :: sku in skus ==> result[sku] == UNAUTHORIZED
    ensures authorized ==> forall sku :: sku in skus ==>
      result[sku] == PipelineOf(ctx, sku, purchases, lines, allocations, receipts, Get(demand, sku, 0))
  {
    if !authorized {
      result := map sku | sku in skus :: UNAUTHORIZED;
      return;
    }
    var items := StartItems(ctx, skus, purchases, lines);
    var allocationsByLine := GroupAllocations(allocations);
    var receiptsByLine := GroupReceipts(receipts);
    var receivedByBatch := SumByBatch(receipts);
    for i := 0 to |lines|
      invariant items.Keys == skus
      invariant forall sku :: sku in skus ==>
        items[sku] == LineSteps(ctx, StartOf(ctx, purchases, lines, sku), sku, lines[..i], allocations, receipts)
    {
      assert lines[..i + 1][..i] == lines[..i];
      var line := lines[i];
      var item := ProcessLine(ctx, items[line.sku], line,
        Get(allocationsByLine, line.pk, []),
        Get(receiptsByLine, line.pk, []), receivedByBatch);
      items := items[line.sku := item];
    }
    assert lines[..|lines|] == lines;
    result := PublishAll(ctx, items, demand);
  }
}
