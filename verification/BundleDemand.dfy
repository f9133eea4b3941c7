/**
 Demand for components hidden in bundle sales.  A bundle line counts only if
 the immutable composition recorded with the order is beyond doubt; otherwise
 the line contributes nothing and the whole window is marked unverified.
 */
module BundleDemand {
  import opened Wrappers

  datatype Json = Int(value: int) | NotInt

  datatype Entry = Entry(component: Json, quantity: Json) | NotEntry

  datatype Payload = Components(entries: seq<Entry>) | NotList

  datatype Snapshot = Snapshot(
    tenant: int, orderTenant: int, versionTenant: int, bundleSku: int, effectiveAt: int,
    bundleTenant: int, isBundle: bool, payload: Payload)

  datatype Item = Item(id: int, tenant: int, createdAt: int, sku: int, quantity: int)

  /** One collected row of the composition of an order item. */
  datatype Part = Part(item: int, component: int, quantity: int)

  /** What the database says: compositions by order item, and the standard SKUs. */
  datatype Records = Records(snapshots: map<int, Snapshot>, standard: set<int>)

  // ---------------------------------------------------------------- specification

  predicate Provenance(records: Records, item: Item) {
    item.id in records.snapshots &&
    var s := records.snapshots[item.id];
    && s.tenant == item.tenant && s.orderTenant == item.tenant && s.versionTenant == item.tenant
    && s.bundleSku == item.sku && s.effectiveAt <= item.createdAt
    && s.bundleTenant == item.tenant && s.isBundle
  }

  predicate Numeric(e: Entry) {
    e.Entry? && e.component.Int? && e.component.value > 0 && e.quantity.Int? && e.quantity.value > 0
  }

  /** Every entry a positive quantity of another SKU, none named twice. */
  predicate Sound(entries: seq<Entry>, sku: int) {
    && (forall i :: 0 <= i < |entries| ==> Numeric(entries[i]) && entries[i].component.value != sku)
    && (forall i, j :: 0 <= i < j < |entries| ==> entries[i].component != entries[j].component)
  }

  predicate Verifiable(records: Records, item: Item) {
    Provenance(records, item) &&
    var payload := records.snapshots[item.id].payload;
    payload.Components? && payload.entries != [] && Sound(payload.entries, item.sku)
  }

  function EntryDemand(entries: seq<Entry>, component: int): int {
    if entries == [] then 0
    else
      var last := entries[|entries| - 1];
      EntryDemand(entries[..|entries| - 1], component)
      + (if Numeric(last) && last.component.value == component then last.quantity.value else 0)
  }

  function ItemDemand(records: Records, item: Item, component: int): int {
    if Verifiable(records, item) then item.quantity * EntryDemand(records.snapshots[item.id].payload.entries, component)
      else 0
  }

  /** Item quantity times component quantity, over the verifiable items. */
  function Demand(records: Records, items: seq<Item>, component: int): int {
    if items == [] then 0
    else Demand(records, items[..|items| - 1], component) + ItemDemand(records, items[|items| - 1], component)
  }

  predicate FullyStandard(records: Records, item: Item)
    requires Verifiable(records, item)
  {
    forall e :: e in records.snapshots[item.id].payload.entries ==> Numeric(e) && e.component.value in records.standard
  }

  predicate Doubtful(records: Records, item: Item) {
    !Verifiable(records, item) || !FullyStandard(records, item)
  }

  predicate SameItemPerId(items: seq<Item>) {
    forall a, b :: a in items && b in items && a.id == b.id ==> a == b
  }

  function Counted(records: Records, requested: set<int>, items: seq<Item>, component: int): int {
    if component in records.standard && component in requested then Demand(records, items, component) else 0
  }

  // ---------------------------------------------------------------- the collected rows

  function EntryParts(item: int, entries: seq<Entry>): seq<Part> {
    if entries == [] then []
    else
      var last := entries[|entries| - 1];
      EntryParts(item, entries[..|entries| - 1])
      + (if Numeric(last) then [Part(item, last.component.value, last.quantity.value)] else [])
  }

  function Parts(records: Records, items: seq<Item>): seq<Part> {
    if items == [] then []
    else
      var last := items[|items| - 1];
      Parts(records, items[..|items| - 1])
      + (if Verifiable(records, last) then EntryParts(last.id, records.snapshots[last.id].payload.entries) else [])
  }

  function Discard(parts: seq<Part>, item: int): seq<Part> {
    if parts == [] then []
    else
      var last := parts[|parts| - 1];
      Discard(parts[..|parts| - 1], item) + (if last.item == item then [] else [last])
  }

  lemma {:induction false} EntryPartsAreOfItem(item: int, entries: seq<Entry>)
    ensures forall p :: p in EntryParts(item, entries) ==> p.item == item
    ensures forall p :: p in EntryParts(item, entries) ==>
      exists e :: e in entries && Numeric(e) && p.component == e.component.value
    ensures forall e :: e in entries && Numeric(e) ==>
      exists p :: p in EntryParts(item, entries) && p.component == e.component.value
  {
    if entries != [] {
      var before, last := entries[..|entries| - 1], entries[|entries| - 1];
      EntryPartsAreOfItem(item, before);
      assert entries == before + [last];
      if Numeric(last) { assert Part(item, last.component.value, last.quantity.value) in EntryParts(item, entries); }
    }
  }

  lemma {:induction false} PartsAreOfVerifiable(records: Records, items: seq<Item>, p: Part) returns (i: nat)
    requires p in Parts(records, items)
    ensures i < |items| && items[i].id == p.item && Verifiable(records, items[i])
    ensures p in EntryParts(items[i].id, records.snapshots[items[i].id].payload.entries)
  {
    var n := |items| - 1;
    if p in Parts(records, items[..n]) {
      i := PartsAreOfVerifiable(records, items[..n], p);
    } else {
      i := n;
      EntryPartsAreOfItem(items[n].id, records.snapshots[items[n].id].payload.entries);
    }
  }

  lemma {:induction false} ItemsHaveParts(records: Records, items: seq<Item>, i: nat, p: Part)
    requires i < |items| && Verifiable(records, items[i])
    requires p in EntryParts(items[i].id, records.snapshots[items[i].id].payload.entries)
    ensures p in Parts(records, items)
    decreases |items|
  {
    if i < |items| - 1 {
      ItemsHaveParts(records, items[..|items| - 1], i, p);
    }
  }

  lemma {:induction false} DiscardKeeps(parts: seq<Part>, item: int)
    requires forall i :: 0 <= i < |parts| ==> parts[i].item != item
    ensures Discard(parts, item) == parts
  {
    if parts != [] {
      var n := |parts| - 1;
      DiscardKeeps(parts[..n], item);
      assert parts == parts[..n] + [parts[n]];
    }
  }

  lemma {:induction false} DiscardOthers(parts: seq<Part>, more: seq<Part>, item: int)
    requires forall i :: 0 <= i < |parts| ==> parts[i].item != item
    requires forall i :: 0 <= i < |more| ==> more[i].item == item
    ensures Discard(parts + more, item) == parts
    decreases |more|
  {
    if more == [] {
      assert parts + more == parts;
      DiscardKeeps(parts, item);
    } else {
      var n := |more| - 1;
      DiscardOthers(parts, more[..n], item);
      DiscardLast(parts + more[..n], more[n], item);
      assert parts + more == parts + more[..n] + [more[n]];
    }
  }

  lemma DiscardLast(parts: seq<Part>, last: Part, item: int)
    requires last.item == item
    ensures Discard(parts + [last], item) == Discard(parts, item)
  {
    assert (parts + [last])[..|parts|] == parts;
  }

  /** What the collected rows add up to for a component. */
  function PartDemand(quantities: map<int, int>, parts: seq<Part>, component: int): int {
    if parts == [] then 0
    else
      var last := parts[|parts| - 1];
      PartDemand(quantities, parts[..|parts| - 1], component)
      + (if last.component == component && last.item in quantities then quantities[last.item] * last.quantity else 0)
  }

  lemma {:induction false} PartDemandAdds(quantities: map<int, int>, a: seq<Part>, b: seq<Part>, component: int)
    ensures PartDemand(quantities, a + b, component)
      == PartDemand(quantities, a, component) + PartDemand(quantities, b, component)
    decreases |b|
  {
    if b == [] {
      assert a + b == a;
    } else {
      assert (a + b)[..|a + b| - 1] == a + b[..|b| - 1];
      PartDemandAdds(quantities, a, b[..|b| - 1], component);
    }
  }

  lemma {:induction false} EntryPartDemand(quantities: map<int, int>, item: Item, entries: seq<Entry>, component: int)
    requires item.id in quantities && quantities[item.id] == item.quantity
    ensures PartDemand(quantities, EntryParts(item.id, entries), component)
      == item.quantity * EntryDemand(entries, component)
  {
    if entries != [] {
      var before, last := entries[..|entries| - 1], entries[|entries| - 1];
      EntryPartDemand(quantities, item, before, component);
      if Numeric(last) {
        var one := [Part(item.id, last.component.value, last.quantity.value)];
        PartDemandAdds(quantities, EntryParts(item.id, before), one, component);
        assert one[..0] == [];
        assert PartDemand(quantities, one, component)
          == if last.component.value == component then item.quantity * last.quantity.value else 0;
        Distribute(item.quantity, EntryDemand(before, component), if last.component.value == component
          then last.quantity.value else 0);
      } else {
        assert EntryParts(item.id, before) + [] == EntryParts(item.id, before);
      }
    }
  }

  lemma Distribute(q: int, a: int, b: int)
    ensures q * (a + b) == q * a + q * b
  {
  }

  /** The rows carry exactly the specified demand. */
  lemma {:induction false} PartsCarryDemand(quantities: map<int, int>, records: Records, items: seq<Item>,
      component: int)
    requires forall item :: item in items ==> item.id in quantities && quantities[item.id] == item.quantity
    ensures PartDemand(quantities, Parts(records, items), component) == Demand(records, items, component)
  {
    if items != [] {
      var before, last := items[..|items| - 1], items[|items| - 1];
      assert last in items && forall item :: item in before ==> item in items;
      PartsCarryDemand(quantities, records, before, component);
      if Verifiable(records, last) {
        var entries := records.snapshots[last.id].payload.entries;
        PartDemandAdds(quantities, Parts(records, before), EntryParts(last.id, entries), component);
        EntryPartDemand(quantities, last, entries, component);
      } else {
        assert Parts(records, before) + [] == Parts(records, before);
      }
    }
  }

  // ---------------------------------------------------------------- the loops

  lemma DiscardPartial(parts: seq<Part>, item: int, entries: seq<Entry>)
    requires forall p :: p in parts ==> p.item != item
    ensures Discard(parts + EntryParts(item, entries), item) == parts
  {
    EntryPartsAreOfItem(item, entries);
    DiscardOthers(parts, EntryParts(item, entries), item);
  }

  ghost predicate SeenAre(seen: set<int>, entries: seq<Entry>) {
    forall c :: c in seen <==> Names(entries, c)
  }

  ghost predicate Names(entries: seq<Entry>, c: int) {
    exists j :: 0 <= j < |entries| && entries[j].Entry? && entries[j].component == Int(c)
  }

  lemma NeverSound(entries: seq<Entry>, i: nat, item: Item, seen: set<int>)
    requires i < |entries| && Sound(entries[..i], item.sku) && SeenAre(seen, entries[..i])
    requires Numeric(entries[i]) ==> entries[i].component.value in seen || entries[i].component.value == item.sku
    ensures !Sound(entries, item.sku)
  {
    if Numeric(entries[i]) && entries[i].component.value in seen {
      assert Names(entries[..i], entries[i].component.value);
      var j :| 0 <= j < i && entries[j].Entry? && entries[j].component == entries[i].component;
    }
  }

  lemma SoundNext(entries: seq<Entry>, i: nat, item: Item, seen: set<int>)
    requires i < |entries| && Sound(entries[..i], item.sku) && SeenAre(seen, entries[..i]) && Numeric(entries[i])
    requires entries[i].component.value !in seen && entries[i].component.value != item.sku
    ensures Sound(entries[..i + 1], item.sku) && SeenAre(seen + {entries[i].component.value}, entries[..i + 1])
    ensures EntryParts(item.id, entries[..i + 1])
      == EntryParts(item.id, entries[..i]) + [Part(item.id, entries[i].component.value, entries[i].quantity.value)]
  {
    var before, value := entries[..i], entries[i].component.value;
    assert entries[..i + 1] == before + [entries[i]];
    assert !Names(before, value);
    forall c ensures c in seen + {value} <==> Names(entries[..i + 1], c) { NamesOneMore(before, entries[i], c); }
  }

  lemma NamesOneMore(before: seq<Entry>, e: Entry, c: int)
    requires Numeric(e)
    ensures Names(before + [e], c) <==> Names(before, c) || c == e.component.value
  {
    if Names(before, c) {
      var j :| 0 <= j < |before| && before[j].Entry? && before[j].component == Int(c);
      assert (before + [e])[j].component == Int(c);
    }
    assert (before + [e])[|before|] == e;
  }

  /** One composition's turn: its rows are appended, or the partial ones discarded. */
  method CollectEntries(parts: seq<Part>, item: Item, entries: seq<Entry>) returns (collected: seq<Part>, valid: bool)
    requires Sound(entries, item.sku) || forall p :: p in parts ==> p.item != item.id
    ensures valid == Sound(entries, item.sku)
    ensures collected == if valid then parts + EntryParts(item.id, entries) else parts
  {
    var seen: set<int> := {};
    collected, valid := parts, true;
    var i := 0;
    while i < |entries| && valid
      invariant 0 <= i <= |entries|
      invariant valid ==> Sound(entries[..i], item.sku)
      invariant valid ==> SeenAre(seen, entries[..i])
      invariant !valid ==> !Sound(entries, item.sku)
      invariant i <= |entries| && collected == parts + EntryParts(item.id, entries[..i])
    {
      var e := entries[i];
      if e.NotEntry? || e.component.NotInt? || e.component.value <= 0 || e.quantity.NotInt? || e.quantity.value <= 0
         || e.component.value in seen || e.component.value == item.sku {
        NeverSound(entries, i, item, seen);
        valid := false;
        break;
      }
      SoundNext(entries, i, item, seen);
      seen := seen + {e.component.value};
      collected := collected + [Part(item.id, e.component.value, e.quantity.value)];
      i := i + 1;
    }
    assert valid ==> entries[..i] == entries;
    if !valid {
      DiscardPartial(parts, item.id, entries[..i]);
      collected := Discard(collected, item.id);
    }
  }

  /** One item's turn: its rows are appended, or it is found unverifiable. */
  method CollectItem(records: Records, item: Item, parts: seq<Part>) returns (collected: seq<Part>, verified: bool)
    requires Verifiable(records, item) || forall p :: p in parts ==> p.item != item.id
    ensures verified == Verifiable(records, item)
    ensures collected
      == parts + (if verified then EntryParts(item.id, records.snapshots[item.id].payload.entries) else [])
  {
    if item.id !in records.snapshots { return parts, false; }
    var s := records.snapshots[item.id];
    if s.tenant != item.tenant || s.orderTenant != item.tenant || s.versionTenant != item.tenant
       || s.bundleSku != item.sku || item.createdAt < s.effectiveAt || s.bundleTenant != item.tenant || !s.isBundle {
      return parts, false;
    }
    var payload := s.payload;
    if payload.NotList? || payload.entries == [] { return parts, false; }
    collected, verified := CollectEntries(parts, item, payload.entries);
  }

  lemma NoPartsYet(records: Records, items: seq<Item>, n: nat)
    requires n < |items| && SameItemPerId(items) && !Verifiable(records, items[n])
    ensures forall p :: p in Parts(records, items[..n]) ==> p.item != items[n].id
  {
    forall p | p in Parts(records, items[..n]) ensures p.item != items[n].id {
      var i := PartsAreOfVerifiable(records, items[..n], p);
      assert items[i] in items && items[n] in items;
    }
  }

  lemma PartsNext(records: Records, items: seq<Item>, n: nat)
    requires n < |items|
    ensures Parts(records, items[..n + 1]) == Parts(records, items[..n])
      + (if Verifiable(records, items[n]) then EntryParts(items[n].id, records.snapshots[items[n].id].payload.entries)
        else [])
  {
    assert items[..n + 1][..n] == items[..n];
  }

  predicate AllVerifiable(records: Records, items: seq<Item>, n: nat)
    requires n <= |items|
  {
    forall i :: 0 <= i < n ==> Verifiable(records, items[i])
  }

  /** Every item's rows, and whether some item is unverifiable. */
  method CollectParts(records: Records, items: seq<Item>) returns (parts: seq<Part>, unverified: bool)
    requires SameItemPerId(items)
    ensures parts == Parts(records, items)
    ensures unverified <==> exists i :: 0 <= i < |items| && !Verifiable(records, items[i])
  {
    parts, unverified := [], false;
    for n := 0 to |items|
      invariant parts == Parts(records, items[..n])
      invariant unverified == !AllVerifiable(records, items, n)
    {
      if !Verifiable(records, items[n]) { NoPartsYet(records, items, n); }
      PartsNext(records, items, n);
      var verified;
      parts, verified := CollectItem(records, items[n], parts);
      if !verified { unverified := true; }
    }
    assert items[..|items|] == items;
  }

  /** The last two loops: is every component a standard SKU, and what do the
      requested ones add up to. */
  method SumDemand(standard: set<int>, requested: set<int>, quantities: map<int, int>, parts: seq<Part>)
      returns (demand: map<int, int>, allStandard: bool)
    requires forall p :: p in parts ==> p.item in quantities
    ensures allStandard <==> forall p :: p in parts ==> p.component in standard
    ensures forall c ::
      Get(demand, c, 0) == (if c in standard && c in requested then PartDemand(quantities, parts, c) else 0)
  {
    demand, allStandard := map[], true;
    for n := 0 to |parts|
      invariant allStandard <==> forall p :: p in parts[..n] ==> p.component in standard
      invariant forall c ::
        Get(demand, c, 0) == (if c in standard && c in requested then PartDemand(quantities, parts[..n], c) else 0)
    {
      assert parts[..n + 1][..n] == parts[..n] && parts[..n + 1] == parts[..n] + [parts[n]];
      var part := parts[n];
      if part.component !in standard { allStandard := false; }
      if part.component in standard && part.component in requested {
        demand := demand[part.component :=
          Get(demand, part.component, 0) + quantities[part.item] * part.quantity];
      }
    }
    assert parts[..|parts|] == parts;
  }

  /** `_bundle_components_for_orders`: the demand is the specified one, and the
      flag is raised exactly when some item is in doubt. */
  method BundleComponents(records: Records, items: seq<Item>, requested: set<int>)
      returns (demand: map<int, int>, unverified: bool)
    requires SameItemPerId(items)
    ensures forall c :: Get(demand, c, 0) == Counted(records, requested, items, c)
    ensures unverified <==> exists i :: 0 <= i < |items| && Doubtful(records, items[i])
  {
    var parts, unsound := CollectParts(records, items);
    var quantities := QuantitiesOf(items);
    forall p | p in parts ensures p.item in quantities {
      PartHasQuantity(records, items, p, quantities);
    }
    var allStandard;
    demand, allStandard := SumDemand(records.standard, requested, quantities, parts);
    forall c ensures PartDemand(quantities, parts, c) == Demand(records, items, c) {
      PartsCarryDemand(quantities, records, items, c);
    }
    PartsTellStandard(records, items);
    unverified := unsound || !allStandard;
  }

  function QuantitiesOf(items: seq<Item>): (quantities: map<int, int>)
    requires SameItemPerId(items)
    ensures forall item :: item in items ==> item.id in quantities && quantities[item.id] == item.quantity
  {
    map item | item in items :: item.id := item.quantity
  }

  lemma PartHasQuantity(records: Records, items: seq<Item>, part: Part, quantities: map<int, int>)
    requires part in Parts(records, items)
    requires forall item :: item in items ==> item.id in quantities
    ensures part.item in quantities
  {
    var i := PartsAreOfVerifiable(records, items, part);
    assert items[i] in items;
  }

  /** Some collected row is not a standard SKU exactly when some verifiable item
      is not fully standard. */
  lemma PartsTellStandard(records: Records, items: seq<Item>)
    ensures (forall p :: p in Parts(records, items) ==> p.component in records.standard)
      <==> (forall i :: 0 <= i < |items| && Verifiable(records, items[i]) ==> FullyStandard(records, items[i]))
  {
    if forall p :: p in Parts(records, items) ==> p.component in records.standard {
      forall i | 0 <= i < |items| && Verifiable(records, items[i]) ensures FullyStandard(records, items[i]) {
        var entries := records.snapshots[items[i].id].payload.entries;
        EntryPartsAreOfItem(items[i].id, entries);
        forall e | e in entries ensures Numeric(e) && e.component.value in records.standard {
          var k :| 0 <= k < |entries| && entries[k] == e;
          var p :| p in EntryParts(items[i].id, entries) && p.component == e.component.value;
          ItemsHaveParts(records, items, i, p);
        }
      }
    }
    if forall i :: 0 <= i < |items| && Verifiable(records, items[i]) ==> FullyStandard(records, items[i]) {
      forall p | p in Parts(records, items) ensures p.component in records.standard {
        var i := PartsAreOfVerifiable(records, items, p);
        EntryPartsAreOfItem(items[i].id, records.snapshots[items[i].id].payload.entries);
      }
    }
  }

  lemma {:induction false} DemandAdds(records: Records, a: seq<Item>, b: seq<Item>, component: int)
    ensures Demand(records, a + b, component) == Demand(records, a, component) + Demand(records, b, component)
    decreases |b|
  {
    if b == [] {
      assert a + b == a;
    } else {
      assert (a + b)[..|a + b| - 1] == a + b[..|b| - 1];
      DemandAdds(records, a, b[..|b| - 1], component);
    }
  }

  /** Reading the items in chunks of any size gives the demand and the flag of
      one pass over all of them. */
  method ChunkedDemand(records: Records, items: seq<Item>, requested: set<int>, size: nat)
      returns (demand: map<int, int>, unverified: bool)
    requires size > 0 && SameItemPerId(items)
    ensures forall c :: Get(demand, c, 0) == Counted(records, requested, items, c)
    ensures unverified <==> exists i :: 0 <= i < |items| && Doubtful(records, items[i])
  {
    demand, unverified := map[], false;
    var at := 0;
    while at < |items|
      invariant 0 <= at <= |items|
      invariant forall c :: Get(demand, c, 0) == Counted(records, requested, items[..at], c)
      invariant unverified <==> exists i :: 0 <= i < at && Doubtful(records, items[i])
    {
      var end := Min(at + size, |items|);
      var chunk := items[at..end];
      assert forall item :: item in chunk ==> item in items;
      var part, doubt := BundleComponents(records, chunk, requested);
      if doubt {
        var i :| 0 <= i < |chunk| && Doubtful(records, chunk[i]);
        assert Doubtful(records, items[at + i]);
      } else {
        assert forall i :: at <= i < end ==> items[i] == chunk[i - at];
      }
      demand := AddAll(demand, part);
      forall c ensures Counted(records, requested, items[..end], c)
        == Counted(records, requested, items[..at], c) + Counted(records, requested, chunk, c)
      {
        DemandAdds(records, items[..at], chunk, c);
        assert items[..end] == items[..at] + chunk;
      }
      unverified := unverified || doubt;
      at := end;
    }
    assert items[..at] == items;
  }

  function AddAll(a: map<int, int>, b: map<int, int>): (r: map<int, int>)
    ensures forall c :: Get(r, c, 0) == Get(a, c, 0) + Get(b, c, 0)
  {
    map c | c in a.Keys + b.Keys :: Get(a, c, 0) + Get(b, c, 0)
  }
}
