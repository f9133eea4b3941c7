/**
 A page of warehouse stock snapshots, stored row by row or all at once.

 The table holds one warehouse's rows at its own site.  Times and codes are
 normalised, the audit log is append-only, and each call is one transaction.
 The catalogue's history is what the rows themselves say.
 */
module BulkUpsert {
  import opened Wrappers
  import opened SkuResolution

  datatype Key = Key(source: string, at: int)
  datatype Run = Run(id: int, wms: bool)
  datatype Values = Values(product: string, variant: string, seller: string, quantities: seq<int>,
      provided: set<string>)
  datatype Row = Row(values: Values, hash: string, run: Run, sku: Option<int>)
  datatype Audit = Audit(key: Key, run: Run, sku: Option<int>, rule: Outcome)
  datatype State = State(rows: map<Key, Row>, audits: seq<Audit>)

  /** A warehouse answers to its number and to its code. */
  datatype Warehouse = Warehouse(names: set<string>, country: string)
  datatype Payload = Payload(warehouse: string, site: string, source: string, at: Option<int>, values: Values,
      hash: string)
  datatype Refusal = RunRefused | OneWarehouseOnly | NoWarehouse | WrongSite | NoSource | NoTime

  // ---------------------------------------------------------------- what is refused

  function RefusedRow(w: Warehouse, p: Payload): Option<Refusal> {
    if p.site != w.country then Some(WrongSite)
    else if p.source == "" then Some(NoSource)
    else if p.at.None? then Some(NoTime)
    else None
  }

  function RefusedOne(w: Warehouse, run: Run, p: Payload): Option<Refusal> {
    if !run.wms then Some(RunRefused)
    else if p.warehouse !in w.names then Some(NoWarehouse)
    else RefusedRow(w, p)
  }

  function FirstRefused(w: Warehouse, ps: seq<Payload>): (e: Option<Refusal>)
    ensures e.None? <==> forall p :: p in ps ==> RefusedRow(w, p).None?
  {
    if ps == [] then None else if RefusedRow(w, ps[0]).Some? then RefusedRow(w, ps[0]) else FirstRefused(w, ps[1..])
  }

  predicate OneName(ps: seq<Payload>) {
    forall p :: p in ps ==> p.warehouse == ps[0].warehouse
  }

  function RefusedPage(w: Warehouse, run: Run, ps: seq<Payload>): Option<Refusal> {
    if ps == [] then None
    else if !run.wms then Some(RunRefused)
    else if !OneName(ps) then Some(OneWarehouseOnly)
    else if ps[0].warehouse !in w.names then Some(NoWarehouse)
    else FirstRefused(w, ps)
  }

  /** A page under one name of the warehouse is refused as its first refused
      payload would be alone; only mixed names make the page stricter. */
  lemma PageRefusesAsItsRows(w: Warehouse, run: Run, ps: seq<Payload>)
    ensures RefusedPage(w, run, ps).None? <==> (OneName(ps) && forall p :: p in ps ==> RefusedOne(w, run, p).None?)
    ensures OneName(ps) && RefusedPage(w, run, ps).Some? ==>
      exists i :: 0 <= i < |ps| && RefusedOne(w, run, ps[i]) == RefusedPage(w, run, ps) && forall j :: 0 <= j < i ==>
        RefusedOne(w, run, ps[j]).None?
  {
    if ps != [] {
      assert ps[0] in ps;
      if run.wms && OneName(ps) && ps[0].warehouse in w.names {
        FirstIsFirst(w, ps);
        if RefusedPage(w, run, ps).Some? {
          var i :| 0 <= i < |ps| && RefusedRow(w, ps[i]) == FirstRefused(w, ps) && forall j :: 0 <= j < i ==>
            RefusedRow(w, ps[j]).None?;
          assert forall j :: 0 <= j <= i ==> ps[j] in ps;
          assert RefusedOne(w, run, ps[i]) == RefusedPage(w, run, ps);
        }
      }
    }
  }

  lemma {:induction false} FirstIsFirst(w: Warehouse, ps: seq<Payload>)
    ensures FirstRefused(w, ps).Some? ==>
      exists i :: 0 <= i < |ps| && RefusedRow(w, ps[i]) == FirstRefused(w, ps) && forall j :: 0 <= j < i ==>
        RefusedRow(w, ps[j]).None?
  {
    if FirstRefused(w, ps).Some? && RefusedRow(w, ps[0]).None? {
      FirstIsFirst(w, ps[1..]);
      var i :| 0 <= i < |ps[1..]| && RefusedRow(w, ps[1..][i]) == FirstRefused(w, ps[1..]) && forall j :: 0 <= j < i ==>
        RefusedRow(w, ps[1..][j]).None?;
      assert RefusedRow(w, ps[i + 1]) == FirstRefused(w, ps);
      forall j | 0 <= j < i + 1 ensures RefusedRow(w, ps[j]).None? { if j > 0 { assert ps[j] == ps[1..][j - 1]; } }
    }
  }

  // ---------------------------------------------------------------- one row

  function KeyOf(p: Payload): Key
    requires p.at.Some?
  {
    Key(p.source, p.at.value)
  }

  function PairOf(p: Payload): Pair {
    Pair(p.source, p.values.seller, p.at)
  }

  function Find(rows: map<Key, Row>, k: Key): Option<Row> {
    if k in rows then Some(rows[k]) else None
  }

  function HistoryOf(rows: map<Key, Row>): set<HistoryRow> {
    set k | k in rows && rows[k].sku.Some? && rows[k].run.wms :: HistoryRow(k.source, rows[k].sku.value)
  }

  function Seen(c: Catalogue, rows: map<Key, Row>): Catalogue {
    c.(history := HistoryOf(rows))
  }

  function LinkOf(row: Option<Row>): Option<int> {
    if row.Some? then row.value.sku else None
  }

  /** The row after the payload: an earlier link is kept. */
  function Stored(row: Option<Row>, p: Payload, run: Run, r: Resolution): Row {
    Row(p.values, p.hash, run, if LinkOf(row).Some? then LinkOf(row) else r.sku)
  }

  /** A new link is audited, and so is a new row without one. */
  function Audits(row: Option<Row>, p: Payload, run: Run, r: Resolution): seq<Audit>
    requires p.at.Some?
  {
    if LinkOf(row).None? && (r.sku.Some? || row.None?) then [Audit(KeyOf(p), run, r.sku, r.outcome)] else []
  }

  /** The page leaves a row alone whose hash and link would stay. */
  predicate Skipped(row: Option<Row>, p: Payload, r: Resolution) {
    row.Some? && row.value.hash == p.hash && (row.value.sku.Some? || r.sku.None?)
  }

  // ---------------------------------------------------------------- row by row

  function Store(s: State, p: Payload, run: Run, r: Resolution): State
    requires p.at.Some?
  {
    var row := Find(s.rows, KeyOf(p));
    State(s.rows[KeyOf(p) := Stored(row, p, run, r)], s.audits + Audits(row, p, run, r))
  }

  predicate Timed(ps: seq<Payload>) {
    forall i :: 0 <= i < |ps| ==> ps[i].at.Some?
  }

  ghost function ScalarOutcome(c: Catalogue, rows: map<Key, Row>, p: Payload): Resolution {
    Decided(Seen(c, rows), PairOf(p), ScalarTargets(Seen(c, rows), PairOf(p)))
  }

  ghost function PageOutcome(c: Catalogue, rows: map<Key, Row>, p: Payload): Resolution {
    Decided(Seen(c, rows), PairOf(p), PageTargets(Seen(c, rows), PairOf(p)))
  }

  /** Every payload upserted alone, each seeing what the others left. */
  ghost function Folded(c: Catalogue, s: State, ps: seq<Payload>, run: Run): State
    requires Timed(ps)
  {
    if ps == [] then s else
      var before := Folded(c, s, ps[..|ps| - 1], run);
      Store(before, ps[|ps| - 1], run, ScalarOutcome(c, before.rows, ps[|ps| - 1]))
  }

  /** The same with resolutions taken before the first write. */
  ghost function FoldedResolved(c: Catalogue, s: State, ps: seq<Payload>, run: Run): State
    requires Timed(ps)
  {
    if ps == [] then s else
      var before := FoldedResolved(c, s, ps[..|ps| - 1], run);
      Store(before, ps[|ps| - 1], run, PageOutcome(c, s.rows, ps[|ps| - 1]))
  }

  // ---------------------------------------------------------------- all at once

  /** The page's row for a payload, given what was there before the page. */
  function Replaced(row: Option<Row>, p: Payload, run: Run, r: Resolution): Row {
    if Skipped(row, p, r) then row.value else Stored(row, p, run, r)
  }

  ghost function Paged(c: Catalogue, s: State, ps: seq<Payload>, run: Run): State
    requires Timed(ps)
  {
    if ps == [] then s else
      PageStep(s.rows, Paged(c, s, ps[..|ps| - 1], run), ps[|ps| - 1], run, PageOutcome(c, s.rows, ps[|ps| - 1]))
  }

  /** Each payload is judged by what was there before the page. */
  function PageStep(existing: map<Key, Row>, before: State, p: Payload, run: Run, r: Resolution): State
    requires p.at.Some?
  {
    var row := Find(existing, KeyOf(p));
    State(before.rows[KeyOf(p) := Replaced(row, p, run, r)], before.audits + Audits(row, p, run, r))
  }

  lemma PagedNext(c: Catalogue, s: State, ps: seq<Payload>, i: nat, run: Run)
    requires i < |ps| && Timed(ps)
    ensures Paged(c, s, ps[..i + 1], run)
      == PageStep(s.rows, Paged(c, s, ps[..i], run), ps[i], run, PageOutcome(c, s.rows, ps[i]))
  {
    assert ps[..i + 1][..i] == ps[..i];
  }

  predicate DistinctKeys(ps: seq<Payload>)
    requires Timed(ps)
  {
    forall i, j :: 0 <= i < j < |ps| ==> KeyOf(ps[i]) != KeyOf(ps[j])
  }

  predicate DistinctSources(ps: seq<Payload>) {
    forall i, j :: 0 <= i < j < |ps| ==> ps[i].source != ps[j].source
  }

  ghost predicate Known(c: Catalogue, rows: map<Key, Row>, ps: seq<Payload>, resolved: map<Pair, Resolution>) {
    forall i :: 0 <= i < |ps| ==> PairOf(ps[i]) in resolved && resolved[PairOf(ps[i])] == PageOutcome(c, rows, ps[i])
  }

  lemma ResolvedAll(c: Catalogue, rows: map<Key, Row>, ps: seq<Payload>, pairs: seq<Pair>,
      resolved: map<Pair, Resolution>)
    requires |pairs| == |ps| && forall i :: 0 <= i < |ps| ==> pairs[i] == PairOf(ps[i])
    requires (forall p :: p in resolved <==> p in pairs) && AllDecided(Seen(c, rows), resolved)
    ensures Known(c, rows, ps, resolved)
  {
    forall i | 0 <= i < |ps|
      ensures PairOf(ps[i]) in resolved && resolved[PairOf(ps[i])] == PageOutcome(c, rows, ps[i])
    {
      var d, p := Seen(c, rows), PairOf(ps[i]);
      assert pairs[i] in pairs;
      DecidedOnce(d, d, p, PageTargets(d, p), resolved[p], PageOutcome(c, rows, ps[i]));
    }
  }

  lemma UnlinkedIsUnseen(rows: map<Key, Row>, k: Key, row: Row)
    requires row.sku.None? && LinkOf(Find(rows, k)).None?
    ensures HistoryOf(rows[k := row]) == HistoryOf(rows)
  {
  }

  /** So the payload's own row does not matter to its resolution. */
  lemma UnlinkedOutcome(c: Catalogue, rows: map<Key, Row>, row: Row, p: Payload, r: Resolution)
    requires p.at.Some? && row.sku.None? && LinkOf(Find(rows, KeyOf(p))).None?
    requires var d := Seen(c, rows[KeyOf(p) := row]); Decides(d, PairOf(p), ScalarTargets(d, PairOf(p)), r)
    ensures r == ScalarOutcome(c, rows, p)
  {
    UnlinkedIsUnseen(rows, KeyOf(p), row);
    var d := Seen(c, rows);
    DecidedOnce(d, d, PairOf(p), ScalarTargets(d, PairOf(p)), r, ScalarOutcome(c, rows, p));
  }

  /** What the stored rows of the warehouse's own runs are linked to. */
  method LinksIn(rows: map<Key, Row>) returns (history: set<HistoryRow>)
    ensures history == HistoryOf(rows)
  {
    history := set k | k in rows && rows[k].sku.Some? && rows[k].run.wms :: HistoryRow(k.source, rows[k].sku.value);
  }

  /** The resolution given, or the scalar one over the rows with the payload's. */
  method ResolveUnlinked(c: Catalogue, rows: map<Key, Row>, row: Row, p: Payload, resolved: Option<Resolution>)
      returns (r: Resolution)
    requires p.at.Some? && row.sku.None? && LinkOf(Find(rows, KeyOf(p))).None?
    ensures r == if resolved.Some? then resolved.value else ScalarOutcome(c, rows, p)
  {
    if resolved.Some? { return resolved.value; }
    var history := LinksIn(rows[Key(p.source, p.at.value) := row]);
    assert c.(history := history) == Seen(c, rows[KeyOf(p) := row]);
    r := Resolve(c.(history := history), Pair(p.source, p.values.seller, p.at));
    UnlinkedOutcome(c, rows, row, p, r);
  }

  /** The payload's row as `update_or_create` leaves it, then linked, and what is
      audited. */
  method UpsertRow(c: Catalogue, rows: map<Key, Row>, p: Payload, run: Run, resolved: Option<Resolution>)
      returns (row: Row, rule: seq<Audit>)
    requires p.at.Some?
    ensures var r := if resolved.Some? then resolved.value else ScalarOutcome(c, rows, p);
      row == Stored(Find(rows, KeyOf(p)), p, run, r) && rule == Audits(Find(rows, KeyOf(p)), p, run, r)
  {
    var key := Key(p.source, p.at.value);
    var found := if key in rows then Some(rows[key]) else None;
    row, rule := Row(p.values, p.hash, run, if found.Some? then found.value.sku else None), [];
    if row.sku.None? {
      var r := ResolveUnlinked(c, rows, row, p, resolved);
      if r.sku.Some? { row := row.(sku := r.sku); }
      if r.sku.Some? || found.None? { rule := [Audit(key, run, r.sku, r.outcome)]; }
    }
  }

  /** The checks of a page, in order. */
  method CheckPage(w: Warehouse, run: Run, ps: seq<Payload>) returns (e: Option<Refusal>)
    ensures e == RefusedPage(w, run, ps)
  {
    if ps == [] { return None; }
    if !run.wms { return Some(RunRefused); }
    if exists p :: p in ps && p.warehouse != ps[0].warehouse { return Some(OneWarehouseOnly); }
    if ps[0].warehouse !in w.names { return Some(NoWarehouse); }
    for i := 0 to |ps|
      invariant FirstRefused(w, ps) == FirstRefused(w, ps[i..])
    {
      if ps[i].site != w.country { return Some(WrongSite); }
      if ps[i].source == "" { return Some(NoSource); }
      if ps[i].at.None? { return Some(NoTime); }
    }
    e := None;
  }

  class SnapshotTable {
    var rows: map<Key, Row>
    var audits: seq<Audit>

    function Now(): State
      reads this
    {
      State(rows, audits)
    }

    /** `upsert_inventory_snapshot`. */
    method Upsert(c: Catalogue, w: Warehouse, p: Payload, run: Run, resolved: Option<Resolution>)
        returns (e: Option<Refusal>)
      modifies this
      ensures e == RefusedOne(w, run, p)
      ensures e.Some? ==> Now() == old(Now())
      ensures e.None? ==>
        Now() == Store(old(Now()), p, run, if resolved.Some? then resolved.value else ScalarOutcome(c, old(rows), p))
    {
      if !run.wms { return Some(RunRefused); }
      if p.warehouse !in w.names { return Some(NoWarehouse); }
      if p.site != w.country { return Some(WrongSite); }
      if p.source == "" { return Some(NoSource); }
      if p.at.None? { return Some(NoTime); }
      e := None;
      var row, rule := UpsertRow(c, rows, p, run, resolved);
      rows := rows[Key(p.source, p.at.value) := row];
      audits := audits + rule;
    }

    /** `bulk_upsert_inventory_snapshots`. */
    method UpsertPage(c: Catalogue, w: Warehouse, ps: seq<Payload>, run: Run) returns (e: Option<Refusal>)
      modifies this
      ensures e == RefusedPage(w, run, ps)
      ensures e.Some? ==> Now() == old(Now())
      ensures e.None? ==> Timed(ps)
      ensures e.None? && DistinctKeys(ps) ==> Now() == Paged(c, old(Now()), ps, run)
      ensures e.None? && !DistinctKeys(ps) ==> Now() == FoldedResolved(c, old(Now()), ps, run)
    {
      e := CheckPage(w, run, ps);
      if e.Some? { return; }
      PageRefusesAsItsRows(w, run, ps);
      forall i | 0 <= i < |ps| ensures ps[i].at.Some? {
        assert ps[i] in ps;
        assert RefusedOne(w, run, ps[i]).None?;
      }
      var pairs := seq(|ps|, i requires 0 <= i < |ps| => Pair(ps[i].source, ps[i].values.seller, ps[i].at));
      var history := LinksIn(rows);
      var resolved := ResolvePage(c.(history := history), pairs);
      ResolvedAll(c, rows, ps, pairs, resolved);
      if !DistinctKeys(ps) {
        UpsertEach(c, w, ps, run, resolved);
      } else {
        StorePage(c, ps, run, resolved);
      }
    }

    method UpsertEach(c: Catalogue, w: Warehouse, ps: seq<Payload>, run: Run, resolved: map<Pair, Resolution>)
      requires Timed(ps) && Known(c, rows, ps, resolved)
      requires forall i :: 0 <= i < |ps| ==> RefusedOne(w, run, ps[i]).None?
      modifies this
      ensures Now() == FoldedResolved(c, old(Now()), ps, run)
    {
      ghost var s := Now();
      for i := 0 to |ps|
        invariant Now() == FoldedResolved(c, s, ps[..i], run)
      {
        assert ps[..i + 1][..i] == ps[..i];
        var _ := Upsert(c, w, ps[i], run, Some(resolved[PairOf(ps[i])]));
      }
      assert ps[..|ps|] == ps;
    }

    method StorePage(c: Catalogue, ps: seq<Payload>, run: Run, resolved: map<Pair, Resolution>)
      requires Timed(ps) && DistinctKeys(ps) && Known(c, rows, ps, resolved)
      modifies this
      ensures Now() == Paged(c, old(Now()), ps, run)
    {
      ghost var s := Now();
      var existing := rows;
      var newRows: map<Key, Row>, log := map[], audits;
      for i := 0 to |ps|
        invariant Merged(rows, newRows, log) == Paged(c, s, ps[..i], run) && audits == s.audits
        invariant Halfway(existing, rows, newRows, ps, i)
      {
        var key := Key(ps[i].source, ps[i].at.value);
        var r := resolved[Pair(ps[i].source, ps[i].values.seller, ps[i].at)];
        PagedNext(c, s, ps, i, run);
        var row, save, rule := PrepareRow(Find(existing, key), ps[i], run, r);
        MergeStep(existing, rows, newRows, log, ps[i], run, r);
        HalfwayOn(existing, rows, newRows, ps, i, row);
        if key !in existing { newRows := newRows[key := row]; }
        else if save { rows := rows[key := row]; }
        log := log + rule;
      }
      assert ps[..|ps|] == ps;
      rows := rows + newRows;
      audits := log;
    }
  }

  /** The row a payload of the page leads to, and whether it is to be saved. */
  method PrepareRow(found: Option<Row>, p: Payload, run: Run, r: Resolution)
      returns (row: Row, save: bool, rule: seq<Audit>)
    requires p.at.Some?
    ensures row == Stored(found, p, run, r) && rule == Audits(found, p, run, r)
    ensures save == !Skipped(found, p, r)
  {
    var key := Key(p.source, p.at.value);
    if found.None? {
      return Row(p.values, p.hash, run, r.sku), true, [Audit(key, run, r.sku, r.outcome)];
    }
    row, rule := Row(p.values, p.hash, run, found.value.sku), [];
    if row.sku.None? && r.sku.Some? {
      row, rule := row.(sku := r.sku), [Audit(key, run, r.sku, r.outcome)];
    }
    save := found.value.hash != row.hash || found.value.sku != row.sku;
  }

  /** New keys wait apart, and the payloads to come find what was there. */
  ghost predicate Halfway(existing: map<Key, Row>, rows: map<Key, Row>, newRows: map<Key, Row>, ps: seq<Payload>,
      i: nat)
    requires Timed(ps)
  {
    && rows.Keys == existing.Keys && newRows.Keys !! existing.Keys
    && forall j :: i <= j < |ps| ==> Find(rows, KeyOf(ps[j])) == Find(existing, KeyOf(ps[j]))
  }

  lemma HalfwayOn(existing: map<Key, Row>, rows: map<Key, Row>, newRows: map<Key, Row>, ps: seq<Payload>, i: nat,
      row: Row)
    requires Timed(ps) && DistinctKeys(ps) && i < |ps| && Halfway(existing, rows, newRows, ps, i)
    ensures Halfway(existing, rows, newRows, ps, i + 1)
    ensures KeyOf(ps[i]) !in existing ==> Halfway(existing, rows, newRows[KeyOf(ps[i]) := row], ps, i + 1)
    ensures KeyOf(ps[i]) in existing ==> Halfway(existing, rows[KeyOf(ps[i]) := row], newRows, ps, i + 1)
  {
  }

  function Merged(rows: map<Key, Row>, newRows: map<Key, Row>, audits: seq<Audit>): State {
    State(rows + newRows, audits)
  }

  lemma MergeStep(existing: map<Key, Row>, rows: map<Key, Row>, newRows: map<Key, Row>, audits: seq<Audit>,
      p: Payload, run: Run, r: Resolution)
    requires p.at.Some? && rows.Keys == existing.Keys && newRows.Keys !! existing.Keys
    requires Find(rows, KeyOf(p)) == Find(existing, KeyOf(p))
    ensures var key, found, after := KeyOf(p), Find(existing, KeyOf(p)), Stored(Find(existing, KeyOf(p)), p, run, r);
      PageStep(existing, Merged(rows, newRows, audits), p, run, r) ==
        Merged(if found.Some? && !Skipped(found, p, r) then rows[key := after] else rows,
               if found.None? then newRows[key := after] else newRows, audits + Audits(found, p, run, r))
  {
    var key, found, after := KeyOf(p), Find(existing, KeyOf(p)), Stored(Find(existing, KeyOf(p)), p, run, r);
    if found.None? {
      assert (rows + newRows)[key := after] == rows + newRows[key := after];
    } else if Skipped(found, p, r) {
      assert (rows + newRows)[key := found.value] == rows + newRows;
    } else {
      assert (rows + newRows)[key := after] == rows[key := after] + newRows;
    }
  }

  // ---------------------------------------------------------------- repeated keys

  function LastFor(ps: seq<Payload>, k: Key): (p: Option<Payload>)
    requires Timed(ps)
    ensures p.Some? ==> p.value.at.Some? && KeyOf(p.value) == k && p.value in ps
  {
    if ps == [] then None
    else if KeyOf(ps[|ps| - 1]) == k then Some(ps[|ps| - 1])
    else LastFor(ps[..|ps| - 1], k)
  }

  /** The first payload of the key that the resolutions can link. */
  ghost function FirstLink(c: Catalogue, rows: map<Key, Row>, ps: seq<Payload>, k: Key): Option<int>
    requires Timed(ps)
  {
    if ps == [] then None
    else if KeyOf(ps[0]) == k && PageOutcome(c, rows, ps[0]).sku.Some? then PageOutcome(c, rows, ps[0]).sku
    else FirstLink(c, rows, ps[1..], k)
  }

  lemma {:induction false} FirstLinkExtends(c: Catalogue, rows: map<Key, Row>, ps: seq<Payload>, p: Payload, k: Key)
    requires Timed(ps) && p.at.Some?
    ensures Timed(ps + [p])
    ensures FirstLink(c, rows, ps + [p], k) ==
      if FirstLink(c, rows, ps, k).Some? || KeyOf(p) != k then FirstLink(c, rows, ps, k)
        else PageOutcome(c, rows, p).sku
  {
    if ps != [] {
      FirstLinkExtends(c, rows, ps[1..], p, k);
      assert (ps + [p])[1..] == ps[1..] + [p];
    } else {
      assert ([p])[1..] == [];
      assert [] + [p] == [p];
    }
  }

  /** With repeated keys the last payload gives each row its values, hash and
      run; its link is the one it had, or else the first that any payload of the
      key was given before the page. */
  lemma {:induction false} LastPayloadWins(c: Catalogue, s: State, ps: seq<Payload>, run: Run, k: Key)
    requires Timed(ps)
    ensures Find(FoldedResolved(c, s, ps, run).rows, k) ==
      match LastFor(ps, k)
      case None => Find(s.rows, k)
      case Some(p) => Some(Row(p.values, p.hash, run,
        if LinkOf(Find(s.rows, k)).Some? then LinkOf(Find(s.rows, k)) else FirstLink(c, s.rows, ps, k)))
  {
    if ps != [] {
      var n := |ps| - 1;
      LastPayloadWins(c, s, ps[..n], run, k);
      FirstLinkExtends(c, s.rows, ps[..n], ps[n], k);
      assert ps == ps[..n] + [ps[n]];
      if LastFor(ps[..n], k).None? { NoLinkUnlessNamed(c, s.rows, ps[..n], k); }
    }
  }

  lemma {:induction false} NoLinkUnlessNamed(c: Catalogue, rows: map<Key, Row>, ps: seq<Payload>, k: Key)
    requires Timed(ps) && LastFor(ps, k).None?
    ensures FirstLink(c, rows, ps, k).None?
  {
    if ps != [] {
      var n := |ps| - 1;
      NoLinkUnlessNamed(c, rows, ps[..n], k);
      FirstLinkExtends(c, rows, ps[..n], ps[n], k);
      assert ps == ps[..n] + [ps[n]];
    }
  }
}
