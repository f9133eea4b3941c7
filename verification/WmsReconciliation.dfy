/**
 Matching local receipts against the warehouse system's own inbound lines: an
 upstream correction invalidates an over-allocated line instead of hiding it.
 */
module WmsReconciliation {
  import opened Wrappers
  import opened SupplyPipeline

  /** An inbound line as the warehouse system reported it. */
  datatype WmsLine = WmsLine(
    pk: int, trusted: bool, sku: int, warehouse: int, site: string, received: nat, moment: int)

  /** A local receipt line an allocation points at. */
  datatype Local = Local(pk: int, sku: int, warehouse: int, site: string)

  datatype Link = Link(wms: WmsLine, local: Local, quantity: nat)

  function LinkedTo(links: seq<Link>, wms: int): nat {
    if links == [] then 0
    else
      var last := links[|links| - 1];
      LinkedTo(links[..|links| - 1], wms) + (if last.wms.pk == wms then last.quantity else 0)
  }

  /** `all` are the active links of the tenant: the over-allocation test sums
      every one of them, whichever receipts the caller selected. */
  predicate Valid(all: seq<Link>, link: Link) {
    && link.wms.trusted
    && link.wms.sku == link.local.sku && link.wms.warehouse == link.local.warehouse && link.wms.site == link.local.site
    && LinkedTo(all, link.wms.pk) <= link.wms.received
  }

  function MatchedTo(all: seq<Link>, links: seq<Link>, local: int): nat {
    if links == [] then 0
    else
      var last := links[|links| - 1];
      MatchedTo(all, links[..|links| - 1], local)
      + (if Valid(all, last) && last.local.pk == local then last.quantity else 0)
  }

  method SumLinks(all: seq<Link>) returns (totals: map<int, nat>)
    ensures forall wms :: Get(totals, wms, 0) == LinkedTo(all, wms)
  {
    totals := map[];
    for i := 0 to |all|
      invariant forall wms :: Get(totals, wms, 0) == LinkedTo(all[..i], wms)
    {
      assert all[..i + 1][..i] == all[..i];
      var wms := all[i].wms.pk;
      totals := totals[wms := Get(totals, wms, 0) + all[i].quantity];
    }
    assert all[..|all|] == all;
  }

  /** `valid_wms_allocations`: reconciled quantity by receipt, and the receipts
      with a link that needs review. */
  method ValidWmsAllocations(all: seq<Link>, links: seq<Link>) returns (valid: map<int, nat>, invalid: set<int>)
    ensures forall local :: Get(valid, local, 0) == MatchedTo(all, links, local)
    ensures forall local ::
      local in invalid <==> exists i :: 0 <= i < |links| && links[i].local.pk == local && !Valid(all, links[i])
  {
    var totals := SumLinks(all);
    valid, invalid := map[], {};
    for i := 0 to |links|
      invariant forall local :: Get(valid, local, 0) == MatchedTo(all, links[..i], local)
      invariant forall local ::
        local in invalid <==> exists j :: 0 <= j < i && links[j].local.pk == local && !Valid(all, links[j])
    {
      assert links[..i + 1][..i] == links[..i];
      var row := links[i];
      if !row.wms.trusted || row.wms.sku != row.local.sku || row.wms.warehouse != row.local.warehouse
         || row.wms.site != row.local.site || Get(totals, row.wms.pk, 0) > row.wms.received {
        invalid := invalid + {row.local.pk};
      } else {
        valid := valid[row.local.pk := Get(valid, row.local.pk, 0) + row.quantity];
      }
    }
    assert links[..|links|] == links;
  }

  // ---------------------------------------------------------------- never more than upstream received

  /** Valid quantity a selection of links draws from one upstream line. */
  function DrawnFrom(all: seq<Link>, links: seq<Link>, wms: int): nat {
    if links == [] then 0
    else
      var last := links[|links| - 1];
      DrawnFrom(all, links[..|links| - 1], wms)
      + (if Valid(all, last) && last.wms.pk == wms then last.quantity else 0)
  }

  ghost predicate SelectedFrom(links: seq<Link>, all: seq<Link>) {
    multiset(links) <= multiset(all)
  }

  /** Upstream lines are identified by their key. */
  ghost predicate OneLinePerKey(all: seq<Link>) {
    forall a, b :: a in all && b in all && a.wms.pk == b.wms.pk ==> a.wms == b.wms
  }

  function Without(links: seq<Link>, link: Link): (rest: seq<Link>)
    requires link in links
    ensures multiset(rest) == multiset(links) - multiset{link}
  {
    var last := links[|links| - 1];
    assert links == links[..|links| - 1] + [last];
    if last == link then links[..|links| - 1] else Without(links[..|links| - 1], link) + [last]
  }

  lemma {:induction false} LinkedWithout(links: seq<Link>, link: Link, wms: int)
    requires link in links
    ensures LinkedTo(links, wms)
      == LinkedTo(Without(links, link), wms) + (if link.wms.pk == wms then link.quantity else 0)
  {
    var last := links[|links| - 1];
    assert links == links[..|links| - 1] + [last];
    if last != link {
      LinkedWithout(links[..|links| - 1], link, wms);
      LinkedLast(Without(links[..|links| - 1], link), last, wms);
      LinkedLast(links[..|links| - 1], last, wms);
    }
  }

  lemma LinkedLast(links: seq<Link>, last: Link, wms: int)
    ensures LinkedTo(links + [last], wms) == LinkedTo(links, wms) + (if last.wms.pk == wms then last.quantity else 0)
  {
    assert (links + [last])[..|links|] == links;
  }

  /** A selection of the active links draws no more than all of them link. */
  lemma {:induction false} SelectionDrawsLess(all: seq<Link>, links: seq<Link>, active: seq<Link>, wms: int)
    requires SelectedFrom(links, active)
    ensures DrawnFrom(all, links, wms) <= LinkedTo(active, wms)
    decreases |links|
  {
    if links != [] {
      var last := links[|links| - 1];
      assert links == links[..|links| - 1] + [last];
      assert last in multiset(active);
      LinkedWithout(active, last, wms);
      SelectionDrawsLess(all, links[..|links| - 1], Without(active, last), wms);
    }
  }

  lemma {:induction false} DrawsNeedValid(all: seq<Link>, links: seq<Link>, wms: int) returns (link: Link)
    requires DrawnFrom(all, links, wms) > 0
    ensures link in links && Valid(all, link) && link.wms.pk == wms
  {
    var last := links[|links| - 1];
    if Valid(all, last) && last.wms.pk == wms {
      link := last;
    } else {
      link := DrawsNeedValid(all, links[..|links| - 1], wms);
    }
  }

  /** No upstream line is reconciled beyond what it received. */
  lemma NeverBeyondReceived(all: seq<Link>, links: seq<Link>, link: Link)
    requires SelectedFrom(links, all) && OneLinePerKey(all) && link in all
    ensures DrawnFrom(all, links, link.wms.pk) <= link.wms.received
  {
    if DrawnFrom(all, links, link.wms.pk) > 0 {
      SelectionDrawsLess(all, links, all, link.wms.pk);
      var some := DrawsNeedValid(all, links, link.wms.pk);
      assert some in multiset(links) && some in multiset(all);
      assert some in all && some.wms == link.wms;
    }
  }

  function ReceivedUpstream(lines: seq<WmsLine>): nat {
    if lines == [] then 0 else ReceivedUpstream(lines[..|lines| - 1]) + lines[|lines| - 1].received
  }

  function DrawnFromAll(all: seq<Link>, links: seq<Link>, lines: seq<WmsLine>): nat {
    if lines == [] then 0
    else DrawnFromAll(all, links, lines[..|lines| - 1]) + DrawnFrom(all, links, lines[|lines| - 1].pk)
  }

  /** What the pipeline counts as received by the warehouse, over its receipts. */
  function Reconciled(receipts: seq<Receipt>, matched: map<int, nat>): nat {
    if receipts == [] then 0
    else
      var last := receipts[|receipts| - 1];
      Reconciled(receipts[..|receipts| - 1], matched) + Min(last.quantity, Get(matched, last.pk, 0))
  }

  function MatchedToAll(all: seq<Link>, links: seq<Link>, receipts: seq<Receipt>): nat {
    if receipts == [] then 0
    else MatchedToAll(all, links, receipts[..|receipts| - 1]) + MatchedTo(all, links, receipts[|receipts| - 1].pk)
  }

  ghost predicate DistinctReceipts(receipts: seq<Receipt>) {
    forall i, j :: 0 <= i < j < |receipts| ==> receipts[i].pk != receipts[j].pk
  }

  function ValidQuantity(all: seq<Link>, link: Link): nat {
    if Valid(all, link) then link.quantity else 0
  }

  function ValidTotal(all: seq<Link>, links: seq<Link>): nat {
    if links == [] then 0 else ValidTotal(all, links[..|links| - 1]) + ValidQuantity(all, links[|links| - 1])
  }

  lemma {:induction false} OneLinkMatches(all: seq<Link>, links: seq<Link>, receipts: seq<Receipt>)
    requires links != [] && DistinctReceipts(receipts)
    ensures MatchedToAll(all, links, receipts) <=
      MatchedToAll(all, links[..|links| - 1], receipts)
      + (if exists r :: r in receipts && r.pk == links[|links| - 1].local.pk then ValidQuantity(all, links[|links| - 1])
        else 0)
    decreases |receipts|
  {
    if receipts != [] {
      var n := |receipts| - 1;
      OneLinkMatches(all, links, receipts[..n]);
      var pk := links[|links| - 1].local.pk;
      assert receipts[n] in receipts;
      if r :| r in receipts[..n] && r.pk == pk {
        var i :| 0 <= i < n && receipts[i] == r;
        assert r in receipts && receipts[n].pk != pk;
      }
    }
  }

  lemma {:induction false} MatchesAreValid(all: seq<Link>, links: seq<Link>, receipts: seq<Receipt>)
    requires DistinctReceipts(receipts)
    ensures MatchedToAll(all, links, receipts) <= ValidTotal(all, links)
    decreases |links|
  {
    if links == [] {
      NothingMatched(all, receipts);
    } else {
      OneLinkMatches(all, links, receipts);
      MatchesAreValid(all, links[..|links| - 1], receipts);
    }
  }

  lemma {:induction false} NothingMatched(all: seq<Link>, receipts: seq<Receipt>)
    ensures MatchedToAll(all, [], receipts) == 0
  {
    if receipts != [] { NothingMatched(all, receipts[..|receipts| - 1]); }
  }

  lemma {:induction false} OneLinkDraws(all: seq<Link>, links: seq<Link>, lines: seq<WmsLine>, line: WmsLine)
    requires links != [] && line in lines && line.pk == links[|links| - 1].wms.pk
    ensures DrawnFromAll(all, links, lines) >= DrawnFromAll(all, links[..|links| - 1], lines)
      + ValidQuantity(all, links[|links| - 1])
    decreases |lines|
  {
    var n := |lines| - 1;
    if line in lines[..n] {
      OneLinkDraws(all, links, lines[..n], line);
    } else {
      assert lines == lines[..n] + [lines[n]];
      assert lines[n] == line;
      DrawsGrow(all, links, lines[..n]);
    }
  }

  lemma {:induction false} DrawsGrow(all: seq<Link>, links: seq<Link>, lines: seq<WmsLine>)
    requires links != []
    ensures DrawnFromAll(all, links, lines) >= DrawnFromAll(all, links[..|links| - 1], lines)
    decreases |lines|
  {
    if lines != [] { DrawsGrow(all, links, lines[..|lines| - 1]); }
  }

  lemma {:induction false} ValidIsDrawn(all: seq<Link>, links: seq<Link>, lines: seq<WmsLine>)
    requires forall link :: link in links ==> link.wms in lines
    ensures ValidTotal(all, links) <= DrawnFromAll(all, links, lines)
    decreases |links|
  {
    if links != [] {
      var last := links[|links| - 1];
      assert last in links;
      assert forall link :: link in links[..|links| - 1] ==> link in links;
      ValidIsDrawn(all, links[..|links| - 1], lines);
      OneLinkDraws(all, links, lines, last.wms);
    }
  }

  ghost predicate HasLink(all: seq<Link>, line: WmsLine) {
    exists link :: link in all && link.wms == line
  }

  lemma {:induction false} DrawnIsReceived(all: seq<Link>, links: seq<Link>, lines: seq<WmsLine>)
    requires SelectedFrom(links, all) && OneLinePerKey(all)
    requires forall line :: line in lines ==> HasLink(all, line)
    ensures DrawnFromAll(all, links, lines) <= ReceivedUpstream(lines)
    decreases |lines|
  {
    if lines != [] {
      var line := lines[|lines| - 1];
      assert line in lines;
      assert HasLink(all, line);
      var link :| link in all && link.wms == line;
      NeverBeyondReceived(all, links, link);
      assert forall l :: l in lines[..|lines| - 1] ==> l in lines;
      DrawnIsReceived(all, links, lines[..|lines| - 1]);
    }
  }

  lemma {:induction false} ReconciledIsMatched(all: seq<Link>, links: seq<Link>, receipts: seq<Receipt>,
      matched: map<int, nat>)
    requires forall local :: Get(matched, local, 0) == MatchedTo(all, links, local)
    ensures Reconciled(receipts, matched) <= MatchedToAll(all, links, receipts)
    decreases |receipts|
  {
    if receipts != [] { ReconciledIsMatched(all, links, receipts[..|receipts| - 1], matched); }
  }

  /** Over any receipts: their reconciled part is never more than the upstream
      lines linked to them received. */
  lemma ReconciledWithinUpstream(all: seq<Link>, links: seq<Link>, receipts: seq<Receipt>, matched: map<int, nat>,
      lines: seq<WmsLine>)
    requires SelectedFrom(links, all) && OneLinePerKey(all) && DistinctReceipts(receipts)
    requires forall local :: Get(matched, local, 0) == MatchedTo(all, links, local)
    requires forall link :: link in links ==> link.wms in lines
    requires forall line :: line in lines ==> HasLink(all, line)
    ensures Reconciled(receipts, matched) <= ReceivedUpstream(lines)
  {
    ReconciledIsMatched(all, links, receipts, matched);
    MatchesAreValid(all, links, receipts);
    ValidIsDrawn(all, links, lines);
    DrawnIsReceived(all, links, lines);
  }

  // ---------------------------------------------------------------- the published figure

  /** The receipts a reader of the context is shown. */
  function InView(ctx: Context, receipts: seq<Receipt>): seq<Receipt> {
    if receipts == [] then []
    else
      var last := receipts[|receipts| - 1];
      InView(ctx, receipts[..|receipts| - 1]) + if InScope(ctx, Some(last.warehouse)) then [last] else []
  }

  /** Those of a SKU's shipment lines, line by line. */
  function InViewOf(ctx: Context, lines: seq<ShipmentLine>, receipts: seq<Receipt>, sku: int): seq<Receipt> {
    if lines == [] then []
    else
      var line := lines[|lines| - 1];
      InViewOf(ctx, lines[..|lines| - 1], receipts, sku)
      + if line.sku == sku then InView(ctx, ReceiptsOf(receipts, line.pk)) else []
  }

  lemma {:induction false} ReconciledAdds(a: seq<Receipt>, b: seq<Receipt>, matched: map<int, nat>)
    ensures Reconciled(a + b, matched) == Reconciled(a, matched) + Reconciled(b, matched)
    decreases |b|
  {
    if b == [] {
      assert a + b == a;
    } else {
      assert (a + b)[..|a + b| - 1] == a + b[..|b| - 1];
      ReconciledAdds(a, b[..|b| - 1], matched);
    }
  }

  lemma {:induction false} ReceiptStepsReconcile(ctx: Context, item: Item, receipts: seq<Receipt>)
    ensures ReceiptSteps(ctx, item, receipts).wmsReceived
      == item.wmsReceived + Reconciled(InView(ctx, receipts), ctx.matched)
  {
    if receipts != [] {
      var front, last := receipts[..|receipts| - 1], receipts[|receipts| - 1];
      ReceiptStepsReconcile(ctx, item, front);
      if InScope(ctx, Some(last.warehouse)) { ReconciledLast(InView(ctx, front), last, ctx.matched); }
      else { assert InView(ctx, front) + [] == InView(ctx, front); }
    }
  }

  lemma ReconciledLast(receipts: seq<Receipt>, last: Receipt, matched: map<int, nat>)
    ensures Reconciled(receipts + [last], matched)
      == Reconciled(receipts, matched) + Min(last.quantity, Get(matched, last.pk, 0))
  {
    assert (receipts + [last])[..|receipts|] == receipts;
  }

  lemma {:induction false} AllocationStepsKeepReceived(ctx: Context, item: Item, sku: int, allocations: seq<Allocation>,
      received: seq<Receipt>)
    ensures AllocationSteps(ctx, item, sku, allocations, received).wmsReceived == item.wmsReceived
  {
    if allocations != [] { AllocationStepsKeepReceived(ctx, item, sku, allocations[..|allocations| - 1], received); }
  }

  lemma LineStepReconciles(ctx: Context, item: Item, line: ShipmentLine, allocations: seq<Allocation>,
      received: seq<Receipt>)
    ensures LineStep(ctx, item, line, allocations, received).wmsReceived
      == item.wmsReceived + Reconciled(InView(ctx, received), ctx.matched)
  {
    var a := ExceptionStep(item, line, Attribute(ctx, line, allocations, received));
    ReceiptStepsReconcile(ctx, Flag(a, Received(received) > line.quantity, ShipmentReceiptOverallocated), received);
    AllocationStepsKeepReceived(ctx, ReceivedStep(ctx, item, line, allocations, received), line.sku, allocations,
      received);
  }

  /** What the pipeline calls received by the warehouse is the reconciled part of
      the receipts in view, whatever the records and the scope. */
  lemma {:induction false} LineStepsReconcile(ctx: Context, item: Item, sku: int, lines: seq<ShipmentLine>,
      allocations: seq<Allocation>, receipts: seq<Receipt>)
    ensures LineSteps(ctx, item, sku, lines, allocations, receipts).wmsReceived
      == item.wmsReceived + Reconciled(InViewOf(ctx, lines, receipts, sku), ctx.matched)
  {
    if lines != [] {
      var line, front := lines[|lines| - 1], lines[..|lines| - 1];
      LineStepsReconcile(ctx, item, sku, front, allocations, receipts);
      var mine := if line.sku == sku then InView(ctx, ReceiptsOf(receipts, line.pk)) else [];
      ReconciledAdds(InViewOf(ctx, front, receipts, sku), mine, ctx.matched);
      LineStepReconciles(ctx, LineSteps(ctx, item, sku, front, allocations, receipts), line,
        AllocationsOf(allocations, line.pk), ReceiptsOf(receipts, line.pk));
    }
  }

  ghost predicate DistinctLines(lines: seq<ShipmentLine>) {
    forall i, j :: 0 <= i < j < |lines| ==> lines[i].pk != lines[j].pk
  }

  lemma {:induction false} ReceiptsOfAreDistinct(receipts: seq<Receipt>, line: int)
    requires DistinctReceipts(receipts)
    ensures DistinctReceipts(ReceiptsOf(receipts, line))
    ensures forall r :: r in ReceiptsOf(receipts, line) ==> r in receipts && r.line == line
  {
    if receipts != [] {
      var n := |receipts| - 1;
      ReceiptsOfAreDistinct(receipts[..n], line);
      forall r | r in receipts[..n] ensures r.pk != receipts[n].pk {}
    }
  }

  lemma {:induction false} InViewAreDistinct(ctx: Context, receipts: seq<Receipt>)
    requires DistinctReceipts(receipts)
    ensures DistinctReceipts(InView(ctx, receipts))
    ensures forall r :: r in InView(ctx, receipts) ==> r in receipts
  {
    if receipts != [] {
      var n := |receipts| - 1;
      InViewAreDistinct(ctx, receipts[..n]);
      forall r | r in receipts[..n] ensures r.pk != receipts[n].pk {}
    }
  }

  lemma {:induction false} InViewOfAreDistinct(ctx: Context, lines: seq<ShipmentLine>, receipts: seq<Receipt>, sku: int)
    requires DistinctReceipts(receipts) && DistinctLines(lines)
    ensures DistinctReceipts(InViewOf(ctx, lines, receipts, sku))
    ensures forall r :: r in InViewOf(ctx, lines, receipts, sku) ==>
      r in receipts && exists line :: line in lines && line.pk == r.line
  {
    if lines != [] {
      var n := |lines| - 1;
      InViewOfAreDistinct(ctx, lines[..n], receipts, sku);
      ReceiptsOfAreDistinct(receipts, lines[n].pk);
      InViewAreDistinct(ctx, ReceiptsOf(receipts, lines[n].pk));
      var before, mine := InViewOf(ctx, lines[..n], receipts, sku), InView(ctx, ReceiptsOf(receipts, lines[n].pk));
      forall a, b | a in before && b in mine ensures a.pk != b.pk { OtherLineOtherKey(receipts, lines, n, a, b); }
    }
  }

  lemma OtherLineOtherKey(receipts: seq<Receipt>, lines: seq<ShipmentLine>, n: nat, a: Receipt, b: Receipt)
    requires DistinctReceipts(receipts) && DistinctLines(lines) && n < |lines| && a in receipts && b in receipts
    requires b.line == lines[n].pk && exists line :: line in lines[..n] && line.pk == a.line
    ensures a.pk != b.pk
  {
    var i :| 0 <= i < |receipts| && receipts[i] == a;
    var j :| 0 <= j < |receipts| && receipts[j] == b;
    assert a.line != b.line;
  }

  /** Over any records and in any scope: the quantity published as received by
      the warehouse is never more than the upstream lines linked to it received. */
  lemma PublishedWithinUpstream(ctx: Context, sku: int, purchases: seq<PurchaseLine>, lines: seq<ShipmentLine>,
      allocations: seq<Allocation>, receipts: seq<Receipt>, demand: nat, all: seq<Link>, links: seq<Link>,
      upstream: seq<WmsLine>)
    requires SelectedFrom(links, all) && OneLinePerKey(all) && DistinctReceipts(receipts) && DistinctLines(lines)
    requires forall local :: Get(ctx.matched, local, 0) == MatchedTo(all, links, local)
    requires forall link :: link in links ==> link.wms in upstream
    requires forall line :: line in upstream ==> HasLink(all, line)
    ensures var pipe := PipelineOf(ctx, sku, purchases, lines, allocations, receipts, demand);
      pipe.wmsReceived.Some? && pipe.wmsReceived.value <= ReceivedUpstream(upstream)
  {
    LineStepsReconcile(ctx, StartOf(ctx, purchases, lines, sku), sku, lines, allocations, receipts);
    InViewOfAreDistinct(ctx, lines, receipts, sku);
    ReconciledWithinUpstream(all, links, InViewOf(ctx, lines, receipts, sku), ctx.matched, upstream);
  }

  // ---------------------------------------------------------------- receipts nobody claimed yet

  predicate Claims(links: seq<Link>, wms: WmsLine) {
    ClaimedOf(links, wms.pk) == wms.received
  }

  /** Links count towards a line only when SKU and warehouse agree. */
  function ClaimedOf(links: seq<Link>, wms: int): nat {
    if links == [] then 0
    else
      var last := links[|links| - 1];
      ClaimedOf(links[..|links| - 1], wms)
      + (if last.wms.pk == wms && last.local.sku == last.wms.sku && last.local.warehouse == last.wms.warehouse
         then last.quantity else 0)
  }

  method SumClaimed(links: seq<Link>) returns (linked: map<int, nat>)
    ensures forall wms :: Get(linked, wms, 0) == ClaimedOf(links, wms)
  {
    linked := map[];
    for i := 0 to |links|
      invariant forall wms :: Get(linked, wms, 0) == ClaimedOf(links[..i], wms)
    {
      assert links[..i + 1][..i] == links[..i];
      var row := links[i];
      if row.local.sku == row.wms.sku && row.local.warehouse == row.wms.warehouse {
        linked := linked[row.wms.pk := Get(linked, row.wms.pk, 0) + row.quantity];
      }
    }
    assert links[..|links|] == links;
  }

  predicate LatestOf(lines: seq<WmsLine>, links: seq<Link>, sku: int, warehouse: int, moment: int) {
    && (exists i :: 0 <= i < |lines| && Pending(links, lines[i], sku, warehouse) && lines[i].moment == moment)
    && (forall i :: 0 <= i < |lines| && Pending(links, lines[i], sku, warehouse) ==> lines[i].moment <= moment)
  }

  predicate Pending(links: seq<Link>, line: WmsLine, sku: int, warehouse: int) {
    line.sku == sku && line.warehouse == warehouse && !Claims(links, line)
  }

  /** The latest upstream receipt of each SKU and warehouse not fully linked to
      local receipts: what an overlapping batch is vetoed by. */
  method LatestUnmatched(lines: seq<WmsLine>, links: seq<Link>) returns (latest: map<(int, int), int>)
    ensures forall key :: key in latest ==> LatestOf(lines, links, key.0, key.1, latest[key])
    ensures forall i :: 0 <= i < |lines| && !Claims(links, lines[i]) ==> (lines[i].sku, lines[i].warehouse) in latest
  {
    var linked := SumClaimed(links);
    latest := map[];
    for i := 0 to |lines|
      invariant AllLatest(lines[..i], links, latest)
    {
      var row := lines[i];
      assert lines[..i + 1] == lines[..i] + [row];
      AllLatestGrows(lines[..i], row, links, latest);
      if Get(linked, row.pk, 0) != row.received {
        var identity := (row.sku, row.warehouse);
        latest := latest[identity := Max(Get(latest, identity, row.moment), row.moment)];
      }
    }
    assert lines[..|lines|] == lines;
    assert forall i :: 0 <= i < |lines| ==> lines[i] in lines;
  }

  ghost predicate AllLatest(lines: seq<WmsLine>, links: seq<Link>, latest: map<(int, int), int>) {
    && (forall key :: key in latest ==> LatestOf(lines, links, key.0, key.1, latest[key]))
    && (forall line :: line in lines && !Claims(links, line) ==> (line.sku, line.warehouse) in latest)
  }

  lemma AllLatestGrows(lines: seq<WmsLine>, row: WmsLine, links: seq<Link>, before: map<(int, int), int>)
    requires AllLatest(lines, links, before)
    ensures AllLatest(lines + [row], links, if Claims(links, row) then before
      else before[(row.sku, row.warehouse) := Max(Get(before, (row.sku, row.warehouse), row.moment), row.moment)])
  {
    var after := if Claims(links, row) then before
      else before[(row.sku, row.warehouse) := Max(Get(before, (row.sku, row.warehouse), row.moment), row.moment)];
    forall key | key in after ensures LatestOf(lines + [row], links, key.0, key.1, after[key]) {
      LatestGrows(lines, row, links, key, before, after);
    }
  }

  lemma LatestGrows(lines: seq<WmsLine>, row: WmsLine, links: seq<Link>, key: (int, int),
      before: map<(int, int), int>, after: map<(int, int), int>)
    requires key in before ==> LatestOf(lines, links, key.0, key.1, before[key])
    requires forall line :: line in lines && !Claims(links, line) ==> (line.sku, line.warehouse) in before
    requires after == if Claims(links, row) then before
      else before[(row.sku, row.warehouse) := Max(Get(before, (row.sku, row.warehouse), row.moment), row.moment)]
    requires key in after
    ensures LatestOf(lines + [row], links, key.0, key.1, after[key])
  {
    if key in before {
      var i :| 0 <= i < |lines| && Pending(links, lines[i], key.0, key.1) && lines[i].moment == before[key];
      assert (lines + [row])[i] == lines[i];
    }
    assert (lines + [row])[|lines|] == row;
  }
}
