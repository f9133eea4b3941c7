/**
 When a SKU may be given a replenishment suggestion, and which one.  The gate
 fails closed: one doubt about stock, sales or supply and there is no number,
 and then there is a stated reason.
 */
module CountryDecisions {
  import opened Wrappers
  import opened SupplyPipeline

  // ---------------------------------------------------------------- the suggestion

  function Ceiling(x: real): int {
    -((-x).Floor)
  }

  lemma CeilingIsLeast(x: real, n: int)
    ensures Ceiling(x) as real >= x
    ensures n as real >= x ==> n >= Ceiling(x)
  {
    assert ((-x).Floor) as real <= -x;
    if n as real >= x {
      assert (-n) as real <= -x;
      assert -n <= (-x).Floor;
    }
  }

  /** Target days over window days, or the ratio an order preview passes. */
  datatype Factor = Coverage(targetDays: nat, windowDays: nat) | Ratio(ratio: real)

  predicate Defined(f: Factor) {
    f.Coverage? ==> f.windowDays > 0
  }

  function Multiplier(f: Factor): real
    requires Defined(f)
  {
    if f.Ratio? then f.ratio else f.targetDays as real / f.windowDays as real
  }

  function SuggestionQuantity(sales: int, factor: Factor, available: real, incoming: int, reserved: int): (q: nat)
    requires Defined(factor)
  {
    Max(0, Ceiling(sales as real * Multiplier(factor) - available - incoming as real - reserved as real))
  }

  /** Available, arriving and already ordered stock, with a suggestion on top,
      lasts for the target at the pace of the window, or meets the ratio. */
  predicate Suffices(sales: int, factor: Factor, available: real, incoming: int, reserved: int, q: nat)
    requires Defined(factor)
  {
    var stock := available + incoming as real + reserved as real + q as real;
    match factor
    case Coverage(target, window) => stock * window as real >= (sales * target) as real
    case Ratio(ratio) => stock >= sales as real * ratio
  }

  /** The suggestion suffices and no smaller one does: no rounding is lost. */
  lemma SuggestionIsLeast(sales: int, factor: Factor, available: real, incoming: int, reserved: int, q: nat)
    requires Defined(factor)
    ensures Suffices(sales, factor, available, incoming, reserved, q)
      <==> q >= SuggestionQuantity(sales, factor, available, incoming, reserved)
  {
    var need := sales as real * Multiplier(factor);
    LeastAbove(need - available - incoming as real - reserved as real, q);
    if factor.Coverage? {
      LastsForTarget(available + incoming as real + reserved as real + q as real, sales, factor.targetDays,
        factor.windowDays);
    }
  }

  /** A quotient compared without dividing. */
  lemma LastsForTarget(stock: real, sales: int, target: nat, window: nat)
    requires window > 0
    ensures stock * window as real >= (sales * target) as real
      <==> stock >= sales as real * (target as real / window as real)
  {
    var w, pace := window as real, sales as real * (target as real / window as real);
    var quotient := target as real / w;
    assert quotient * w == target as real;
    assert pace * w == sales as real * (quotient * w);
    assert (sales * target) as real == sales as real * target as real;
    Scaled(stock, pace, w);
  }

  lemma Scaled(a: real, b: real, w: real)
    requires w > 0.0
    ensures a * w >= b * w <==> a >= b
  {
  }

  lemma LeastAbove(demand: real, q: nat)
    ensures q as real >= demand <==> q >= Max(0, Ceiling(demand))
  {
    CeilingIsLeast(demand, q);
    if q >= Ceiling(demand) {
      assert q as real >= Ceiling(demand) as real;
    }
  }

  ghost predicate LeastSufficient(sales: int, factor: Factor, available: real, incoming: int, reserved: int,
      quantity: nat)
    requires Defined(factor)
  {
    forall q: nat :: Suffices(sales, factor, available, incoming, reserved, q) <==> q >= quantity
  }

  lemma SuggestionIsLeastSufficient(sales: int, factor: Factor, available: real, incoming: int, reserved: int)
    requires Defined(factor)
    ensures LeastSufficient(sales, factor, available, incoming, reserved,
      SuggestionQuantity(sales, factor, available, incoming, reserved))
  {
    forall q: nat
      ensures Suffices(sales, factor, available, incoming, reserved, q)
        <==> q >= SuggestionQuantity(sales, factor, available, incoming, reserved)
    {
      SuggestionIsLeast(sales, factor, available, incoming, reserved, q);
    }
  }

  // ---------------------------------------------------------------- what a SKU's row is decided from

  /** A stock record of one warehouse, newest first in its list. */
  datatype Stock = Stock(sourceSku: int, available: int, providesAvailable: bool, runComplete: bool, snapshotAt: int)

  datatype Sales = Sales(units: int, coverageComplete: bool, unmapped: bool, issues: set<Issue>)

  const STALE_AFTER := 86400

  const STOCK_ISSUES: set<Issue> := {
    MissingInventorySnapshot, AvailableQuantityUnverified, InventorySourceIncomplete,
    StaleInventorySnapshot, AmbiguousInventoryAliases, UnmappedInventory}

  const SALES_ISSUES: set<Issue> := {
    NoSalesFacts, UnmappedSalesLines, CollectionCoverageUnproven, InvalidStoreTimezone,
    UnfinishedStoreDay, NoAuthorizedSalesStore, BundleCompositionUnverified}

  const SUPPLY_ISSUES: set<Issue> := {
    WarehouseSupplyScopeIncomplete, UnassignedWarehouseSupply, WmsReceiptOverlapUnresolved}

  datatype Decision = Decision(
    quantity: Option<nat>, available: Option<int>, issues: set<Issue>, blocking: set<Issue>, dataAt: Option<int>)

  function Problems(candidates: seq<Stock>, now: int): set<Issue> {
    if candidates == [] then {MissingInventorySnapshot}
    else
      var row := candidates[0];
      (if row.providesAvailable then {} else {AvailableQuantityUnverified})
      + (if row.runComplete then {} else {InventorySourceIncomplete})
      + (if row.snapshotAt < now - STALE_AFTER then {StaleInventorySnapshot} else {})
      + (if exists r :: r in candidates && r.sourceSku != row.sourceSku then {AmbiguousInventoryAliases} else {})
  }

  function StockIssues(warehouses: seq<seq<Stock>>, now: int): set<Issue> {
    if warehouses == [] then {}
    else StockIssues(warehouses[..|warehouses| - 1], now) + Problems(warehouses[|warehouses| - 1], now)
  }

  function StockTotal(warehouses: seq<seq<Stock>>): int {
    if warehouses == [] then 0
    else
      var last := warehouses[|warehouses| - 1];
      StockTotal(warehouses[..|warehouses| - 1]) + (if last == [] then 0 else last[0].available)
  }

  function OldestSnapshot(warehouses: seq<seq<Stock>>): Option<int> {
    if warehouses == [] then None
    else
      var before, last := OldestSnapshot(warehouses[..|warehouses| - 1]), warehouses[|warehouses| - 1];
      if last == [] then before
      else if before.None? then Some(last[0].snapshotAt)
      else Some(Min(before.value, last[0].snapshotAt))
  }

  method ReadStock(warehouses: seq<seq<Stock>>, now: int)
      returns (issues: set<Issue>, total: int, clean: bool, dataAt: Option<int>)
    ensures issues == StockIssues(warehouses, now) && total == StockTotal(warehouses)
    ensures dataAt == OldestSnapshot(warehouses)
    ensures clean <==> issues == {}
  {
    issues, total, clean, dataAt := {}, 0, true, None;
    for i := 0 to |warehouses|
      invariant issues == StockIssues(warehouses[..i], now) && total == StockTotal(warehouses[..i])
      invariant dataAt == OldestSnapshot(warehouses[..i])
      invariant clean <==> issues == {}
    {
      assert warehouses[..i + 1][..i] == warehouses[..i];
      var candidates := warehouses[i];
      var problems: set<Issue> := {};
      if candidates == [] {
        problems := {MissingInventorySnapshot};
      } else {
        var row := candidates[0];
        if !row.providesAvailable { problems := problems + {AvailableQuantityUnverified}; }
        if !row.runComplete { problems := problems + {InventorySourceIncomplete}; }
        if row.snapshotAt < now - 86400 { problems := problems + {StaleInventorySnapshot}; }
        if exists r :: r in candidates && r.sourceSku != row.sourceSku {
          problems := problems + {AmbiguousInventoryAliases};
        }
        total := total + candidates[0].available;
        dataAt := if dataAt.None? then Some(candidates[0].snapshotAt)
          else Some(Min(dataAt.value, candidates[0].snapshotAt));
      }
      issues := issues + problems;
      if problems != {} { clean := false; }
    }
    assert warehouses[..|warehouses|] == warehouses;
  }

  /** What is wrong with the records of one warehouse, newest first. */
  predicate Faulty(candidates: seq<Stock>, now: int, issue: Issue) {
    match issue
    case MissingInventorySnapshot => candidates == []
    case AvailableQuantityUnverified => candidates != [] && !candidates[0].providesAvailable
    case InventorySourceIncomplete => candidates != [] && !candidates[0].runComplete
    case StaleInventorySnapshot => candidates != [] && candidates[0].snapshotAt < now - 86400
    case AmbiguousInventoryAliases => exists a, b :: a in candidates && b in candidates && a.sourceSku != b.sourceSku
    case _ => false
  }

  lemma ProblemsExactly(candidates: seq<Stock>, now: int, issue: Issue)
    ensures issue in Problems(candidates, now) <==> Faulty(candidates, now, issue)
  {
    if candidates != [] { assert candidates[0] in candidates; }
  }

  lemma {:induction false} WarehouseIssues(warehouses: seq<seq<Stock>>, now: int, issue: Issue)
    ensures issue in StockIssues(warehouses, now) <==> exists c :: c in warehouses && Faulty(c, now, issue)
  {
    if warehouses != [] {
      var n := |warehouses| - 1;
      assert warehouses == warehouses[..n] + [warehouses[n]];
      WarehouseIssues(warehouses[..n], now, issue);
      ProblemsExactly(warehouses[n], now, issue);
    }
  }

  /** Each stock issue, exactly: a warehouse whose newest record is absent, does
      not provide the figure, comes of an unfinished run, is more than a day old
      or has a rival under another source SKU; no warehouse; unmapped stock. */
  lemma StockIssuesExactly(warehouses: seq<seq<Stock>>, unmapped: bool, now: int, issue: Issue)
    ensures issue in AllStockIssues(warehouses, unmapped, now) <==>
      || (issue == UnmappedInventory && unmapped)
      || (issue == MissingInventorySnapshot && warehouses == [])
      || exists c :: c in warehouses && Faulty(c, now, issue)
  {
    WarehouseIssues(warehouses, now, issue);
  }

  /** Each sales issue, exactly. */
  lemma SalesIssuesExactly(sales: Sales, issue: Issue)
    ensures issue in AllSalesIssues(sales) <==>
      || issue in sales.issues
      || (issue == CollectionCoverageUnproven && !sales.coverageComplete)
      || (issue == UnmappedSalesLines && sales.unmapped)
      || (issue == NoSalesFacts && sales.units == 0 && !sales.coverageComplete)
  {
  }

  /** Every issue keeps the suggestion back, but for six that only advise. */
  lemma OnlyAdviceLetsThrough(issue: Issue)
    ensures issue in BLOCKING_ISSUES <==> issue !in {
      ShipmentReceiptOverallocated, WmsAllocationRequiresReview, DispatchAllocationOverallocated,
      LocalReceiptQuantityDifference, OverdueEta, UnknownEta}
    ensures issue in SALES_ISSUES ==> issue !in STOCK_ISSUES + SUPPLY_ISSUES
    ensures issue in SUPPLY_ISSUES ==> issue !in STOCK_ISSUES
  {
  }

  lemma {:induction false} StockIssuesAreStock(warehouses: seq<seq<Stock>>, now: int)
    ensures StockIssues(warehouses, now) <= STOCK_ISSUES
  {
    if warehouses != [] { StockIssuesAreStock(warehouses[..|warehouses| - 1], now); }
  }

  function When(condition: bool, issue: Issue): set<Issue> {
    if condition then {issue} else {}
  }

  function AllStockIssues(warehouses: seq<seq<Stock>>, unmapped: bool, now: int): set<Issue> {
    StockIssues(warehouses, now) + When(warehouses == [], MissingInventorySnapshot) + When(unmapped, UnmappedInventory)
  }

  function AllSalesIssues(sales: Sales): set<Issue> {
    sales.issues + When(!sales.coverageComplete, CollectionCoverageUnproven) + When(sales.unmapped, UnmappedSalesLines)
    + When(sales.units == 0 && !sales.coverageComplete, NoSalesFacts)
  }

  /** Nothing in the stock, sales or supply of the SKU is in doubt. */
  predicate Certain(pipe: Pipe, warehouses: seq<seq<Stock>>, unmapped: bool, sales: Sales, now: int) {
    && warehouses != [] && !unmapped && StockIssues(warehouses, now) == {}
    && sales.coverageComplete && !sales.unmapped && sales.issues !! SALES_ISSUES
    && pipe.authorized && pipe.issues !! (SUPPLY_ISSUES + SALES_ISSUES)
  }

  lemma CertainIsEveryCheck(pipe: Pipe, warehouses: seq<seq<Stock>>, unmapped: bool, sales: Sales, now: int)
    ensures var issues := pipe.issues + AllStockIssues(warehouses, unmapped, now) + AllSalesIssues(sales);
      Certain(pipe, warehouses, unmapped, sales, now) <==>
        && warehouses != [] && !unmapped && StockIssues(warehouses, now) == {}
        && issues !! SALES_ISSUES && pipe.authorized && pipe.issues !! SUPPLY_ISSUES
  {
    StockIssuesAreStock(warehouses, now);
    assert CollectionCoverageUnproven in SALES_ISSUES && UnmappedSalesLines in SALES_ISSUES
      && NoSalesFacts in SALES_ISSUES;
    assert STOCK_ISSUES !! SALES_ISSUES;
    assert AllStockIssues(warehouses, unmapped, now) <= STOCK_ISSUES;
  }

  /** A stock that is not complete always leaves a stock issue behind. */
  lemma IncompleteStockShows(warehouses: seq<seq<Stock>>, unmapped: bool, now: int)
    ensures AllStockIssues(warehouses, unmapped, now) <= STOCK_ISSUES
    ensures AllStockIssues(warehouses, unmapped, now) == {}
      <==> warehouses != [] && !unmapped && StockIssues(warehouses, now) == {}
  {
    StockIssuesAreStock(warehouses, now);
    assert warehouses == [] ==> MissingInventorySnapshot in AllStockIssues(warehouses, unmapped, now);
    assert unmapped ==> UnmappedInventory in AllStockIssues(warehouses, unmapped, now);
  }

  /** The codes that keep a suggestion back, each an own reason. */
  const BLOCKING_ISSUES: set<Issue> := STOCK_ISSUES + SALES_ISSUES + SUPPLY_ISSUES + {SupplySummaryNotAuthorized}

  function IssuesOf(pipe: Pipe, stock: set<Issue>, sales: set<Issue>): set<Issue> {
    pipe.issues + stock + sales
  }

  function InvalidSales(pipe: Pipe, stock: set<Issue>, sales: set<Issue>): bool {
    IssuesOf(pipe, stock, sales) * SALES_ISSUES != {}
  }

  /** What blocks is what is in doubt, and only a certain SKU is not blocked. */
  method Blocking(pipe: Pipe, stock: set<Issue>, sales: set<Issue>, complete: bool) returns (blocking: set<Issue>)
    requires complete == (stock == {}) && stock <= STOCK_ISSUES
    ensures blocking == {} <==>
      complete && !InvalidSales(pipe, stock, sales) && pipe.authorized && pipe.issues * SUPPLY_ISSUES == {}
    ensures blocking <= IssuesOf(pipe, stock, sales) + When(!pipe.authorized, SupplySummaryNotAuthorized)
    ensures pipe.issues !! STOCK_ISSUES + {SupplySummaryNotAuthorized} && sales <= SALES_ISSUES ==>
      blocking == (IssuesOf(pipe, stock, sales) + When(!pipe.authorized, SupplySummaryNotAuthorized)) * BLOCKING_ISSUES
  {
    var issues := IssuesOf(pipe, stock, sales);
    blocking := {};
    if !complete {
      blocking := blocking + issues * STOCK_ISSUES;
      assert stock <= blocking;
    }
    if InvalidSales(pipe, stock, sales) { blocking := blocking + issues * SALES_ISSUES; }
    if !pipe.authorized { blocking := blocking + {SupplySummaryNotAuthorized}; }
    if pipe.issues * SUPPLY_ISSUES != {} { blocking := blocking + pipe.issues * SUPPLY_ISSUES; }
    SupplyIssuesArePipes(pipe, stock, sales);
  }

  lemma SupplyIssuesArePipes(pipe: Pipe, stock: set<Issue>, sales: set<Issue>)
    requires stock <= STOCK_ISSUES
    ensures IssuesOf(pipe, stock, sales) * SUPPLY_ISSUES == (pipe.issues + sales) * SUPPLY_ISSUES
  {
    assert STOCK_ISSUES !! SUPPLY_ISSUES;
  }

  method SalesCodes(sales: Sales) returns (issues: set<Issue>)
    ensures issues == AllSalesIssues(sales)
  {
    issues := sales.issues;
    if !sales.coverageComplete { issues := issues + {CollectionCoverageUnproven}; }
    if sales.unmapped { issues := issues + {UnmappedSalesLines}; }
    if sales.units == 0 && !sales.coverageComplete { issues := issues + {NoSalesFacts}; }
  }

  /** The part of `decision_rows` that decides one SKU. */
  method DecideSku(pipe: Pipe, warehouses: seq<seq<Stock>>, unmapped: bool, sales: Sales, factor: Factor,
                   includeInTransit: bool, now: int) returns (d: Decision)
    requires Defined(factor) && Explained(pipe)
    ensures d.quantity.Some? <==> d.blocking == {}
    ensures d.quantity.Some? <==> Certain(pipe, warehouses, unmapped, sales, now)
    ensures d.issues == pipe.issues + AllStockIssues(warehouses, unmapped, now) + AllSalesIssues(sales)
      + When(!pipe.authorized, SupplySummaryNotAuthorized)
    ensures d.blocking <= d.issues && d.dataAt == OldestSnapshot(warehouses)
    ensures pipe.issues !! STOCK_ISSUES + {SupplySummaryNotAuthorized} && sales.issues <= SALES_ISSUES ==>
      d.blocking == d.issues * BLOCKING_ISSUES
    ensures d.available == if AllStockIssues(warehouses, unmapped, now) == {} then Some(StockTotal(warehouses))
      else None
    ensures d.quantity.Some? ==>
      && pipe.effectiveIncoming.Some? && pipe.openDemand.Some?
      && LeastSufficient(sales.units, factor, StockTotal(warehouses) as real,
           if includeInTransit then pipe.effectiveIncoming.value else 0, pipe.openDemand.value, d.quantity.value)
  {
    var stockIssues, total, clean, dataAt := ReadStock(warehouses, now);
    var complete := warehouses != [] && !unmapped && clean;
    var available := if complete then Some(total) else None;
    var stock := stockIssues;
    if warehouses == [] { stock := stock + {MissingInventorySnapshot}; }
    if unmapped { stock := stock + {UnmappedInventory}; }
    assert stock == AllStockIssues(warehouses, unmapped, now);
    var sold := SalesCodes(sales);
    IncompleteStockShows(warehouses, unmapped, now);
    CertainIsEveryCheck(pipe, warehouses, unmapped, sales, now);
    var quantity := None;
    if complete && !InvalidSales(pipe, stock, sold) && pipe.authorized && pipe.issues * SUPPLY_ISSUES == {} {
      quantity := Suggest(pipe, sales, factor, includeInTransit, total);
    }
    var blocking := Blocking(pipe, stock, sold, complete);
    d := Decision(quantity, available, IssuesOf(pipe, stock, sold) + When(!pipe.authorized, SupplySummaryNotAuthorized),
      blocking, dataAt);
  }

  /** No unknown quantity can reach the arithmetic. */
  method Suggest(pipe: Pipe, sales: Sales, factor: Factor, includeInTransit: bool, available: int)
      returns (quantity: Option<nat>)
    requires Defined(factor) && Explained(pipe) && pipe.authorized && pipe.issues * SUPPLY_ISSUES == {}
    ensures quantity.Some? && pipe.effectiveIncoming.Some? && pipe.openDemand.Some?
    ensures LeastSufficient(sales.units, factor, available as real,
      if includeInTransit then pipe.effectiveIncoming.value else 0, pipe.openDemand.value, quantity.value)
  {
    var vetoed := pipe.issues * SUPPLY_ISSUES;
    assert WmsReceiptOverlapUnresolved in pipe.issues ==> WmsReceiptOverlapUnresolved in vetoed;
    assert WarehouseSupplyScopeIncomplete in pipe.issues ==> WarehouseSupplyScopeIncomplete in vetoed;
    var incoming := if includeInTransit then pipe.effectiveIncoming.value else 0;
    quantity := Some(SuggestionQuantity(sales.units, factor, available as real, incoming, pipe.openDemand.value));
    SuggestionIsLeastSufficient(sales.units, factor, available as real, incoming, pipe.openDemand.value);
  }

  /** A reader limited to some warehouses is never given a suggestion. */
  lemma RestrictedIsNeverReady(ctx: Context, sku: int, purchases: seq<PurchaseLine>, lines: seq<ShipmentLine>,
                               allocations: seq<Allocation>, receipts: seq<Receipt>, demand: nat,
                               warehouses: seq<seq<Stock>>, unmapped: bool, sales: Sales, now: int)
    requires ctx.scope.Some?
    ensures !Certain(PipelineOf(ctx, sku, purchases, lines, allocations, receipts, demand), warehouses, unmapped, sales,
      now)
  {
    PipelineBalances(ctx, sku, purchases, lines, allocations, receipts, demand);
    var pipe := PipelineOf(ctx, sku, purchases, lines, allocations, receipts, demand);
    assert WarehouseSupplyScopeIncomplete in pipe.issues * (SUPPLY_ISSUES + SALES_ISSUES);
  }
}
