/**
 From the stores' history, orders and compositions and the supply records to a
 suggestion: the sales of one window, and the decision made of them.
 */
module CountrySuggestions {
  import opened Wrappers
  import opened SupplyPipeline
  import SalesCoverage
  import BundleDemand
  import opened CountryDecisions

  /** One authorized store, for one window and SKU: its zone and whether its last
      day is over, the window's bounds in its zone, its collected segments, and
      the orders of the window. */
  datatype Store = Store(
    zoneKnown: bool, finished: bool, start: int, stop: int, scopes: seq<SalesCoverage.Scope>,
    unmapped: bool, direct: nat, items: seq<BundleDemand.Item>)

  /** The orders of a store are only read for a finished window. */
  predicate IsRead(s: Store) {
    s.zoneKnown && s.finished
  }

  ghost predicate IsCovered(s: Store) {
    forall t :: s.start <= t < s.stop ==> SalesCoverage.Collected(s.scopes, t)
  }

  predicate NoDoubt(records: BundleDemand.Records, s: Store) {
    forall i :: 0 <= i < |s.items| ==> !BundleDemand.Doubtful(records, s.items[i])
  }

  /** Nothing in the store's window is in doubt. */
  ghost predicate Proven(records: BundleDemand.Records, s: Store) {
    IsRead(s) && !s.unmapped && IsCovered(s) && NoDoubt(records, s)
  }

  ghost predicate AllProven(records: BundleDemand.Records, stores: seq<Store>) {
    forall i :: 0 <= i < |stores| ==> Proven(records, stores[i])
  }

  /** Sold as itself and, unless it is a bundle, within bundles. */
  function UnitsOf(records: BundleDemand.Records, requested: set<int>, s: Store, sku: int, bundle: bool): int {
    if !IsRead(s) then 0
    else s.direct + if bundle then 0 else BundleDemand.Counted(records, requested, s.items, sku)
  }

  function Units(records: BundleDemand.Records, requested: set<int>, stores: seq<Store>, sku: int, bundle: bool): int {
    if stores == [] then 0
    else
      Units(records, requested, stores[..|stores| - 1], sku, bundle)
      + UnitsOf(records, requested, stores[|stores| - 1], sku, bundle)
  }

  predicate WellFormed(s: Store) {
    s.start < s.stop && BundleDemand.SameItemPerId(s.items)
  }

  /** What is certain of the sales so far. */
  predicate CleanSales(sales: Sales) {
    sales.coverageComplete && !sales.unmapped && sales.issues == {}
  }

  const CHUNK: nat := 500

  /** One store's turn in `sales_windows`. */
  method ReadStore(records: BundleDemand.Records, requested: set<int>, s: Store, sku: int, bundle: bool, before: Sales)
      returns (sales: Sales)
    requires WellFormed(s) && before.issues <= SALES_ISSUES
    ensures sales.units == before.units + UnitsOf(records, requested, s, sku, bundle) && sales.issues <= SALES_ISSUES
    ensures CleanSales(sales) <==> CleanSales(before) && Proven(records, s)
  {
    sales := before;
    if !s.zoneKnown {
      return sales.(coverageComplete := false, issues := sales.issues + {InvalidStoreTimezone});
    }
    if !s.finished {
      return sales.(coverageComplete := false, issues := sales.issues + {UnfinishedStoreDay});
    }
    var complete := SalesCoverage.ProvesCoverage(s.scopes, s.start, s.stop);
    var demand, unverified := BundleDemand.ChunkedDemand(records, s.items, requested, CHUNK);
    assert unverified <==> !NoDoubt(records, s);
    sales := Sales(sales.units + s.direct + (if bundle then 0 else Get(demand, sku, 0)),
      sales.coverageComplete && complete, sales.unmapped || s.unmapped,
      sales.issues + When(unverified, BundleCompositionUnverified));
  }

  /** The sales of one window: certain exactly if there is a store, every second
      of every store's window is collected, every line is mapped and no bundle
      line is in doubt. */
  method WindowSales(records: BundleDemand.Records, requested: set<int>, stores: seq<Store>, sku: int, bundle: bool)
      returns (sales: Sales)
    requires forall i :: 0 <= i < |stores| ==> WellFormed(stores[i])
    ensures sales.units == Units(records, requested, stores, sku, bundle) && sales.issues <= SALES_ISSUES
    ensures CleanSales(sales) <==> stores != [] && AllProven(records, stores)
  {
    sales := Sales(0, true, false, {});
    for i := 0 to |stores|
      invariant sales.units == Units(records, requested, stores[..i], sku, bundle) && sales.issues <= SALES_ISSUES
      invariant CleanSales(sales) <==> AllProven(records, stores[..i])
    {
      assert stores[..i + 1] == stores[..i] + [stores[i]];
      NextProven(records, stores, i);
      sales := ReadStore(records, requested, stores[i], sku, bundle, sales);
    }
    assert stores[..|stores|] == stores;
    if stores == [] {
      sales := sales.(coverageComplete := false, issues := sales.issues + {NoAuthorizedSalesStore});
    }
  }

  lemma NextProven(records: BundleDemand.Records, stores: seq<Store>, i: nat)
    requires i < |stores|
    ensures AllProven(records, stores[..i + 1]) <==> AllProven(records, stores[..i]) && Proven(records, stores[i])
  {
    assert forall j :: 0 <= j < i ==> stores[..i + 1][j] == stores[..i][j];
    assert stores[..i + 1][i] == stores[i];
  }

  // ---------------------------------------------------------------- the pipeline's own codes

  /** The pipeline speaks of supply alone. */
  predicate OnlySupply(issues: set<Issue>) {
    issues !! STOCK_ISSUES + SALES_ISSUES + {SupplySummaryNotAuthorized}
  }

  lemma PipelineOnlySupply(ctx: Context, sku: int, purchases: seq<PurchaseLine>, lines: seq<ShipmentLine>,
      allocations: seq<Allocation>, receipts: seq<Receipt>, demand: nat)
    ensures OnlySupply(PipelineOf(ctx, sku, purchases, lines, allocations, receipts, demand).issues)
  {
    var issues := PipelineOf(ctx, sku, purchases, lines, allocations, receipts, demand).issues;
    forall issue | issue in issues ensures issue !in STOCK_ISSUES + SALES_ISSUES + {SupplySummaryNotAuthorized} {
      PipelineIssues(ctx, sku, purchases, lines, allocations, receipts, demand, issue);
      if SomeLineRaises(ctx, sku, lines, allocations, receipts, issue) {
        LinesRaiseSupply(ctx, sku, lines, allocations, receipts, issue);
      }
    }
  }

  lemma LinesRaiseSupply(ctx: Context, sku: int, lines: seq<ShipmentLine>, allocations: seq<Allocation>,
      receipts: seq<Receipt>, issue: Issue)
    requires SomeLineRaises(ctx, sku, lines, allocations, receipts, issue)
    ensures issue !in STOCK_ISSUES + SALES_ISSUES + {SupplySummaryNotAuthorized}
  {
    var line :| line in lines && line.sku == sku
      && Raises(ctx, line, AllocationsOf(allocations, line.pk), ReceiptsOf(receipts, line.pk), issue);
    RaisesSupply(ctx, line, AllocationsOf(allocations, line.pk), ReceiptsOf(receipts, line.pk), issue);
  }

  lemma RaisesSupply(ctx: Context, line: ShipmentLine, allocations: seq<Allocation>, received: seq<Receipt>,
      issue: Issue)
    requires Raises(ctx, line, allocations, received, issue)
    ensures issue !in STOCK_ISSUES + SALES_ISSUES + {SupplySummaryNotAuthorized}
  {
  }

  /** No reader's restriction and no overlap with what the warehouses received. */
  lemma SupplyIsCertain(ctx: Context, sku: int, purchases: seq<PurchaseLine>, lines: seq<ShipmentLine>,
      allocations: seq<Allocation>, receipts: seq<Receipt>, demand: nat)
    ensures PipelineOf(ctx, sku, purchases, lines, allocations, receipts, demand).issues !! SUPPLY_ISSUES
      <==> ctx.scope.None? && !SomeLineRaises(ctx, sku, lines, allocations, receipts, WmsReceiptOverlapUnresolved)
  {
    var issues := PipelineOf(ctx, sku, purchases, lines, allocations, receipts, demand).issues;
    forall issue | issue in SUPPLY_ISSUES
      ensures issue in issues <==>
        if issue == WarehouseSupplyScopeIncomplete then ctx.scope.Some?
        else SomeLineRaises(ctx, sku, lines, allocations, receipts, issue)
    {
      PipelineIssues(ctx, sku, purchases, lines, allocations, receipts, demand, issue);
    }
    assert WarehouseSupplyScopeIncomplete in SUPPLY_ISSUES && WmsReceiptOverlapUnresolved in SUPPLY_ISSUES;
  }

  // ---------------------------------------------------------------- the decision, from the records

  /** The supply records and what the reader may see of them. */
  datatype Supply = Supply(
    authorized: bool, ctx: Context, purchases: seq<PurchaseLine>, lines: seq<ShipmentLine>,
    allocations: seq<Allocation>, receipts: seq<Receipt>, demand: nat)

  function PipeOf(s: Supply, sku: int): Pipe {
    if s.authorized then PipelineOf(s.ctx, sku, s.purchases, s.lines, s.allocations, s.receipts, s.demand)
      else UNAUTHORIZED
  }

  lemma PipeIsSound(s: Supply, sku: int)
    ensures var pipe := PipeOf(s, sku);
      && Explained(pipe) && OnlySupply(pipe.issues)
      && (pipe.authorized && pipe.effectiveIncoming.Some? ==>
            pipe.effectiveIncoming.value == DueWithin(pipe.etaRows, s.ctx.today, s.ctx.today + s.ctx.targetDays))
      && (pipe.authorized && pipe.openDemand.Some? ==> pipe.openDemand.value == s.demand)
  {
    PipelineBalances(s.ctx, sku, s.purchases, s.lines, s.allocations, s.receipts, s.demand);
    PipelineOnlySupply(s.ctx, sku, s.purchases, s.lines, s.allocations, s.receipts, s.demand);
  }

  /** Nothing the records hold is in doubt. */
  ghost predicate AllCertain(supply: Supply, sku: int, warehouses: seq<seq<Stock>>, unmapped: bool,
      records: BundleDemand.Records, stores: seq<Store>, now: int)
  {
    && warehouses != [] && !unmapped && (forall c, issue :: c in warehouses ==> !Faulty(c, now, issue))
    && stores != [] && AllProven(records, stores)
    && supply.authorized && supply.ctx.scope.None?
    && !SomeLineRaises(supply.ctx, sku, supply.lines, supply.allocations, supply.receipts, WmsReceiptOverlapUnresolved)
  }

  lemma CertainFromRecords(supply: Supply, sku: int, warehouses: seq<seq<Stock>>, unmapped: bool,
      records: BundleDemand.Records, stores: seq<Store>, sales: Sales, now: int)
    requires sales.issues <= SALES_ISSUES && (CleanSales(sales) <==> stores != [] && AllProven(records, stores))
    ensures Certain(PipeOf(supply, sku), warehouses, unmapped, sales, now)
      <==> AllCertain(supply, sku, warehouses, unmapped, records, stores, now)
  {
    PipeIsSound(supply, sku);
    SalesClean(sales);
    SupplyIsCertain(supply.ctx, sku, supply.purchases, supply.lines, supply.allocations, supply.receipts,
      supply.demand);
    StockIsFaultless(warehouses, now);
  }

  lemma StockIsFaultless(warehouses: seq<seq<Stock>>, now: int)
    ensures StockIssues(warehouses, now) == {} <==> forall c, issue :: c in warehouses ==> !Faulty(c, now, issue)
  {
    forall issue ensures issue in StockIssues(warehouses, now) <==> exists c :: c in warehouses && Faulty(c, now, issue)
    {
      WarehouseIssues(warehouses, now, issue);
    }
  }

  lemma SalesClean(sales: Sales)
    requires sales.issues <= SALES_ISSUES
    ensures sales.issues !! SALES_ISSUES <==> sales.issues == {}
  {
    if sales.issues !! SALES_ISSUES { assert sales.issues == sales.issues * SALES_ISSUES; }
  }

  /** From the records to the suggestion: there is one if and only if every
      second of every store's window is collected, every sales line is mapped, no
      bundle line is in doubt, the stock is complete and the supply explained;
      then it is the least that, with the stock, the shipments due within the
      target and the open demand, lasts for the target. */
  method DecideFromRecords(supply: Supply, sku: int, warehouses: seq<seq<Stock>>, unmapped: bool,
      records: BundleDemand.Records, requested: set<int>, stores: seq<Store>, bundle: bool, factor: Factor,
      includeInTransit: bool, now: int)
      returns (d: Decision)
    requires Defined(factor) && forall i :: 0 <= i < |stores| ==> WellFormed(stores[i])
    ensures d.quantity.Some? <==> AllCertain(supply, sku, warehouses, unmapped, records, stores, now)
    ensures d.quantity.Some? <==> d.blocking == {}
    ensures d.blocking == d.issues * BLOCKING_ISSUES
    ensures d.quantity.Some? ==>
      LeastSufficient(Units(records, requested, stores, sku, bundle), factor, StockTotal(warehouses) as real,
        if includeInTransit
        then DueWithin(PipeOf(supply, sku).etaRows, supply.ctx.today, supply.ctx.today + supply.ctx.targetDays) else 0,
        supply.demand, d.quantity.value)
  {
    var sales := WindowSales(records, requested, stores, sku, bundle);
    PipeIsSound(supply, sku);
    CertainFromRecords(supply, sku, warehouses, unmapped, records, stores, sales, now);
    d := DecideSku(PipeOf(supply, sku), warehouses, unmapped, sales, factor, includeInTransit, now);
  }
}
