/**
 When a page of distinct keys, stored all at once, leaves what storing its
 payloads one by one would leave.  One by one each payload sees the links that
 earlier payloads of its source were given; the page has looked before.
 */
module BulkRefinement {
  import opened Wrappers
  import opened SkuResolution
  import opened BulkUpsert

  // ---------------------------------------------------------------- what the fold stores

  lemma SourcesGiveKeys(ps: seq<Payload>)
    requires Timed(ps) && DistinctSources(ps)
    ensures DistinctKeys(ps)
  {
  }

  /** What the two forms audit and store, told from the rows before the page
      and each form's resolutions. */
  function AllAudits(rows: map<Key, Row>, ps: seq<Payload>, run: Run, rs: seq<Resolution>): seq<Audit>
    requires Timed(ps) && |rs| == |ps|
  {
    if ps == [] then [] else
      var last := |ps| - 1;
      AllAudits(rows, ps[..last], run, rs[..last]) + Audits(Find(rows, KeyOf(ps[last])), ps[last], run, rs[last])
  }

  ghost function FoldOutcomes(c: Catalogue, s: State, ps: seq<Payload>, run: Run): (rs: seq<Resolution>)
    requires Timed(ps)
    ensures |rs| == |ps| && forall i :: 0 <= i < |ps| ==> rs[i] == FoldOutcome(c, s, ps, run, i)
  {
    seq(|ps|, i requires 0 <= i < |ps| => FoldOutcome(c, s, ps, run, i))
  }

  /** The i-th payload is resolved against what the payloads before it left. */
  ghost function FoldOutcome(c: Catalogue, s: State, ps: seq<Payload>, run: Run, i: nat): Resolution
    requires Timed(ps) && i < |ps|
  {
    ScalarOutcome(c, Folded(c, s, ps[..i], run).rows, ps[i])
  }

  ghost function PageOutcomes(c: Catalogue, rows: map<Key, Row>, ps: seq<Payload>): (rs: seq<Resolution>)
    ensures |rs| == |ps| && forall i :: 0 <= i < |ps| ==> rs[i] == PageOutcome(c, rows, ps[i])
  {
    seq(|ps|, i requires 0 <= i < |ps| => PageOutcome(c, rows, ps[i]))
  }

  lemma SameCatalogueTargets(d: Catalogue, e: Catalogue, p: Pair)
    requires d == e.(history := d.history)
    ensures ScalarTargets(d, p) == ScalarTargets(e, p)
  {
    assert ActiveAliases(d, p.source, p.at) == ActiveAliases(e, p.source, p.at);
    assert Corrections(d, p.source) == Corrections(e, p.source);
  }

  ghost predicate StoresAll(rows: map<Key, Row>, after: map<Key, Row>, ps: seq<Payload>, run: Run, rs: seq<Resolution>)
    requires Timed(ps) && |rs| == |ps|
  {
    && (forall i :: 0 <= i < |ps| ==>
      Find(after, KeyOf(ps[i])) == Some(Stored(Find(rows, KeyOf(ps[i])), ps[i], run, rs[i])))
    && Untouched(rows, after, ps)
  }

  ghost predicate ReplacesAll(rows: map<Key, Row>, after: map<Key, Row>, ps: seq<Payload>, run: Run,
      rs: seq<Resolution>)
    requires Timed(ps) && |rs| == |ps|
  {
    && (forall i :: 0 <= i < |ps| ==>
      Find(after, KeyOf(ps[i])) == Some(Replaced(Find(rows, KeyOf(ps[i])), ps[i], run, rs[i])))
    && Untouched(rows, after, ps)
  }

  ghost predicate Untouched(rows: map<Key, Row>, after: map<Key, Row>, ps: seq<Payload>)
    requires Timed(ps)
  {
    forall k :: (forall i :: 0 <= i < |ps| ==> KeyOf(ps[i]) != k) ==> Find(after, k) == Find(rows, k)
  }

  lemma StoresOneMore(rows: map<Key, Row>, before: map<Key, Row>, ps: seq<Payload>, run: Run, rs: seq<Resolution>,
      n: nat)
    requires n + 1 == |ps| == |rs| && Timed(ps) && DistinctKeys(ps) && StoresAll(rows, before, ps[..n], run, rs[..n])
    ensures Find(before, KeyOf(ps[n])) == Find(rows, KeyOf(ps[n]))
    ensures StoresAll(rows, before[KeyOf(ps[n]) := Stored(Find(before, KeyOf(ps[n])), ps[n], run, rs[n])], ps, run, rs)
  {
    OneMoreUntouched(rows, before, ps, n, Stored(Find(before, KeyOf(ps[n])), ps[n], run, rs[n]));
  }

  lemma ReplacesOneMore(rows: map<Key, Row>, before: map<Key, Row>, ps: seq<Payload>, run: Run, rs: seq<Resolution>,
      n: nat)
    requires n + 1 == |ps| == |rs| && Timed(ps) && DistinctKeys(ps) && ReplacesAll(rows, before, ps[..n], run, rs[..n])
    ensures ReplacesAll(rows, before[KeyOf(ps[n]) := Replaced(Find(rows, KeyOf(ps[n])), ps[n], run, rs[n])], ps, run,
      rs)
  {
    OneMoreUntouched(rows, before, ps, n, Replaced(Find(rows, KeyOf(ps[n])), ps[n], run, rs[n]));
  }

  lemma OneMoreUntouched(rows: map<Key, Row>, before: map<Key, Row>, ps: seq<Payload>, n: nat, row: Row)
    requires n + 1 == |ps| && Timed(ps) && DistinctKeys(ps) && Untouched(rows, before, ps[..n])
    ensures Find(before, KeyOf(ps[n])) == Find(rows, KeyOf(ps[n]))
    ensures Untouched(rows, before[KeyOf(ps[n]) := row], ps)
  {
    forall k: Key | forall i :: 0 <= i < |ps| ==> KeyOf(ps[i]) != k
      ensures Find(before[KeyOf(ps[n]) := row], k) == Find(rows, k)
    {
      assert forall i :: 0 <= i < n ==> KeyOf(ps[..n][i]) == KeyOf(ps[i]);
      assert k != KeyOf(ps[n]);
    }
  }

  lemma FoldOutcomesPrefix(c: Catalogue, s: State, ps: seq<Payload>, run: Run, n: nat)
    requires Timed(ps) && n <= |ps|
    ensures FoldOutcomes(c, s, ps, run)[..n] == FoldOutcomes(c, s, ps[..n], run)
  {
    forall i | 0 <= i < n ensures FoldOutcomes(c, s, ps, run)[i] == FoldOutcomes(c, s, ps[..n], run)[i] {
      assert ps[..n][..i] == ps[..i];
    }
  }

  lemma PageOutcomesPrefix(c: Catalogue, rows: map<Key, Row>, ps: seq<Payload>, n: nat)
    requires n <= |ps|
    ensures PageOutcomes(c, rows, ps)[..n] == PageOutcomes(c, rows, ps[..n])
  {
  }

  lemma FoldStepStores(s: State, before: State, ps: seq<Payload>, run: Run, rs: seq<Resolution>, n: nat)
    requires n + 1 == |ps| == |rs| && Timed(ps) && DistinctKeys(ps)
    requires StoresAll(s.rows, before.rows, ps[..n], run, rs[..n])
    requires before.audits == s.audits + AllAudits(s.rows, ps[..n], run, rs[..n])
    ensures StoresAll(s.rows, Store(before, ps[n], run, rs[n]).rows, ps, run, rs)
    ensures Store(before, ps[n], run, rs[n]).audits == s.audits + AllAudits(s.rows, ps, run, rs)
  {
    StoresOneMore(s.rows, before.rows, ps, run, rs, n);
  }

  lemma {:induction false} FoldStores(c: Catalogue, s: State, ps: seq<Payload>, run: Run)
    requires Timed(ps) && DistinctKeys(ps)
    ensures StoresAll(s.rows, Folded(c, s, ps, run).rows, ps, run, FoldOutcomes(c, s, ps, run))
    ensures Folded(c, s, ps, run).audits == s.audits + AllAudits(s.rows, ps, run, FoldOutcomes(c, s, ps, run))
  {
    if ps != [] {
      var n, rs := |ps| - 1, FoldOutcomes(c, s, ps, run);
      FoldStores(c, s, ps[..n], run);
      FoldOutcomesPrefix(c, s, ps, run, n);
      FoldStepStores(s, Folded(c, s, ps[..n], run), ps, run, rs, n);
    }
  }

  lemma PageStepStores(s: State, before: State, ps: seq<Payload>, run: Run, rs: seq<Resolution>, n: nat)
    requires n + 1 == |ps| == |rs| && Timed(ps) && DistinctKeys(ps)
    requires ReplacesAll(s.rows, before.rows, ps[..n], run, rs[..n])
    requires before.audits == s.audits + AllAudits(s.rows, ps[..n], run, rs[..n])
    ensures ReplacesAll(s.rows, PageStep(s.rows, before, ps[n], run, rs[n]).rows, ps, run, rs)
    ensures PageStep(s.rows, before, ps[n], run, rs[n]).audits == s.audits + AllAudits(s.rows, ps, run, rs)
  {
    ReplacesOneMore(s.rows, before.rows, ps, run, rs, n);
  }

  lemma {:induction false} PageStores(c: Catalogue, s: State, ps: seq<Payload>, run: Run)
    requires Timed(ps) && DistinctKeys(ps)
    ensures ReplacesAll(s.rows, Paged(c, s, ps, run).rows, ps, run, PageOutcomes(c, s.rows, ps))
    ensures Paged(c, s, ps, run).audits == s.audits + AllAudits(s.rows, ps, run, PageOutcomes(c, s.rows, ps))
  {
    if ps != [] {
      var n, rs := |ps| - 1, PageOutcomes(c, s.rows, ps);
      PageStores(c, s, ps[..n], run);
      assert ps[..n + 1] == ps;
      PagedNext(c, s, ps, n, run);
      PageOutcomesPrefix(c, s.rows, ps, n);
      PageStepStores(s, Paged(c, s, ps[..n], run), ps, run, rs, n);
    }
  }

  /** Equal rows, but for the run that a skipped row keeps. */
  predicate SameRow(scalar: Option<Row>, page: Option<Row>, mayKeepRun: bool) {
    if scalar.None? || page.None? then scalar == page
    else page.value == scalar.value || (mayKeepRun && page.value.(run := scalar.value.run) == scalar.value)
  }

  ghost predicate Matches(c: Catalogue, s: State, ps: seq<Payload>, run: Run)
    requires Timed(ps)
  {
    var scalar, page := Folded(c, s, ps, run), Paged(c, s, ps, run);
    && page.audits == scalar.audits
    && RowsMatch(s.rows, scalar.rows, page.rows, ps, PageOutcomes(c, s.rows, ps))
  }

  ghost predicate RowsMatch(rows: map<Key, Row>, scalar: map<Key, Row>, page: map<Key, Row>, ps: seq<Payload>,
      qs: seq<Resolution>)
    requires Timed(ps) && |qs| == |ps|
  {
    && (forall i :: 0 <= i < |ps| ==> SameAt(rows, scalar, page, ps[i], qs[i]))
    && Untouched(scalar, page, ps)
  }

  predicate SameAt(rows: map<Key, Row>, scalar: map<Key, Row>, page: map<Key, Row>, p: Payload, q: Resolution)
    requires p.at.Some?
  {
    SameRow(Find(scalar, KeyOf(p)), Find(page, KeyOf(p)), Skipped(Find(rows, KeyOf(p)), p, q))
  }

  /** What both forms write for one payload is the same row. */
  predicate SameWrite(row: Option<Row>, p: Payload, run: Run, r: Resolution, q: Resolution) {
    SameRow(Some(Stored(row, p, run, r)), Some(Replaced(row, p, run, q)), Skipped(row, p, q))
  }

  /** Two resolutions of one payload lead to the same row and the same audits. */
  predicate Same(row: Option<Row>, p: Payload, r: Resolution, q: Resolution) {
    && (Skipped(row, p, q) ==> row.value.values == p.values)
    && (LinkOf(row).None? ==> r.sku == q.sku && (row.None? || r.sku.Some? ==> r == q))
  }

  lemma SameIff(row: Option<Row>, p: Payload, run: Run, r: Resolution, q: Resolution)
    requires p.at.Some?
    ensures Same(row, p, r, q) <==> SameWrite(row, p, run, r, q) && Audits(row, p, run, r) == Audits(row, p, run, q)
    ensures SameWrite(row, p, run, r, q) ==> |Audits(row, p, run, r)| == |Audits(row, p, run, q)|
  {
  }

  /** Audit logs of equal parts are equal exactly part by part. */
  lemma {:induction false} AuditsPartByPart(rows: map<Key, Row>, ps: seq<Payload>, run: Run, rs: seq<Resolution>,
      qs: seq<Resolution>)
    requires Timed(ps) && |rs| == |ps| == |qs|
    requires forall i :: 0 <= i < |ps| ==> |Part(rows, ps, run, rs, i)| == |Part(rows, ps, run, qs, i)|
    ensures |AllAudits(rows, ps, run, rs)| == |AllAudits(rows, ps, run, qs)|
    ensures AllAudits(rows, ps, run, rs) == AllAudits(rows, ps, run, qs) <==>
      forall i :: 0 <= i < |ps| ==> Part(rows, ps, run, rs, i) == Part(rows, ps, run, qs, i)
  {
    if ps != [] {
      var n := |ps| - 1;
      forall i | 0 <= i < n
        ensures Part(rows, ps[..n], run, rs[..n], i) == Part(rows, ps, run, rs, i)
        ensures Part(rows, ps[..n], run, qs[..n], i) == Part(rows, ps, run, qs, i) {}
      AuditsPartByPart(rows, ps[..n], run, rs[..n], qs[..n]);
      EqualHalves(AllAudits(rows, ps[..n], run, rs[..n]), Part(rows, ps, run, rs, n),
        AllAudits(rows, ps[..n], run, qs[..n]), Part(rows, ps, run, qs, n));
    }
  }

  function Part(rows: map<Key, Row>, ps: seq<Payload>, run: Run, rs: seq<Resolution>, i: nat): seq<Audit>
    requires i < |ps| == |rs| && Timed(ps)
  {
    Audits(Find(rows, KeyOf(ps[i])), ps[i], run, rs[i])
  }

  lemma EqualHalves(a: seq<Audit>, b: seq<Audit>, a': seq<Audit>, b': seq<Audit>)
    requires |a| == |a'| && |b| == |b'|
    ensures a + b == a' + b' <==> a == a' && b == b'
  {
    if a + b == a' + b' {
      assert a == (a + b)[..|a|] && b == (a + b)[|a|..];
      assert a' == (a' + b')[..|a'|] && b' == (a' + b')[|a'|..];
    }
  }

  lemma RowsMatchIff(rows: map<Key, Row>, scalar: map<Key, Row>, page: map<Key, Row>, ps: seq<Payload>, run: Run,
      rs: seq<Resolution>, qs: seq<Resolution>)
    requires Timed(ps) && |rs| == |ps| == |qs|
    requires StoresAll(rows, scalar, ps, run, rs) && ReplacesAll(rows, page, ps, run, qs)
    ensures RowsMatch(rows, scalar, page, ps, qs) <==>
      forall i :: 0 <= i < |ps| ==> SameWrite(Find(rows, KeyOf(ps[i])), ps[i], run, rs[i], qs[i])
  {
    forall i | 0 <= i < |ps|
      ensures SameAt(rows, scalar, page, ps[i], qs[i]) <==>
        SameWrite(Find(rows, KeyOf(ps[i])), ps[i], run, rs[i], qs[i]) {}
  }

  lemma EachPayload(rows: map<Key, Row>, ps: seq<Payload>, run: Run, rs: seq<Resolution>, qs: seq<Resolution>)
    requires Timed(ps) && |rs| == |ps| == |qs|
    ensures forall i :: 0 <= i < |ps| ==> (Same(Find(rows, KeyOf(ps[i])), ps[i], rs[i], qs[i]) <==>
      (SameWrite(Find(rows, KeyOf(ps[i])), ps[i], run, rs[i], qs[i])
        && Part(rows, ps, run, rs, i) == Part(rows, ps, run, qs, i)))
    ensures forall i :: 0 <= i < |ps| && SameWrite(Find(rows, KeyOf(ps[i])), ps[i], run, rs[i], qs[i]) ==>
      |Part(rows, ps, run, rs, i)| == |Part(rows, ps, run, qs, i)|
  {
    forall i | 0 <= i < |ps|
      ensures Same(Find(rows, KeyOf(ps[i])), ps[i], rs[i], qs[i]) <==>
        (SameWrite(Find(rows, KeyOf(ps[i])), ps[i], run, rs[i], qs[i])
          && Part(rows, ps, run, rs, i) == Part(rows, ps, run, qs, i))
      ensures SameWrite(Find(rows, KeyOf(ps[i])), ps[i], run, rs[i], qs[i]) ==>
        |Part(rows, ps, run, rs, i)| == |Part(rows, ps, run, qs, i)|
    {
      SameIff(Find(rows, KeyOf(ps[i])), ps[i], run, rs[i], qs[i]);
    }
  }

  lemma SamePrefix(a: seq<Audit>, b: seq<Audit>, b': seq<Audit>)
    requires |b| == |b'|
    ensures a + b == a + b' <==> b == b'
  {
    EqualHalves(a, b, a, b');
  }

  /** The first n payloads resolve alike. */
  predicate AllSame(rows: map<Key, Row>, ps: seq<Payload>, rs: seq<Resolution>, qs: seq<Resolution>, n: nat)
    requires Timed(ps) && n <= |ps| == |rs| == |qs|
  {
    forall i :: 0 <= i < n ==> Same(Find(rows, KeyOf(ps[i])), ps[i], rs[i], qs[i])
  }

  lemma MatchesPayloadByPayload(c: Catalogue, s: State, ps: seq<Payload>, run: Run)
    requires Timed(ps) && DistinctKeys(ps)
    ensures Matches(c, s, ps, run) <==>
      AllSame(s.rows, ps, FoldOutcomes(c, s, ps, run), PageOutcomes(c, s.rows, ps), |ps|)
  {
    FoldStores(c, s, ps, run);
    PageStores(c, s, ps, run);
    var rs, qs := FoldOutcomes(c, s, ps, run), PageOutcomes(c, s.rows, ps);
    RowsMatchIff(s.rows, Folded(c, s, ps, run).rows, Paged(c, s, ps, run).rows, ps, run, rs, qs);
    SameLogsIff(s.rows, ps, run, rs, qs, s.audits);
  }

  /** Same rows and same logs, told payload by payload. */
  lemma SameLogsIff(rows: map<Key, Row>, ps: seq<Payload>, run: Run, rs: seq<Resolution>, qs: seq<Resolution>,
      before: seq<Audit>)
    requires Timed(ps) && |rs| == |ps| == |qs|
    ensures AllSame(rows, ps, rs, qs, |ps|) <==>
      (forall i :: 0 <= i < |ps| ==> SameWrite(Find(rows, KeyOf(ps[i])), ps[i], run, rs[i], qs[i]))
      && before + AllAudits(rows, ps, run, rs) == before + AllAudits(rows, ps, run, qs)
  {
    EachPayload(rows, ps, run, rs, qs);
    if forall i :: 0 <= i < |ps| ==> SameWrite(Find(rows, KeyOf(ps[i])), ps[i], run, rs[i], qs[i]) {
      AuditsPartByPart(rows, ps, run, rs, qs);
      SamePrefix(before, AllAudits(rows, ps, run, rs), AllAudits(rows, ps, run, qs));
    }
  }

  // ---------------------------------------------------------------- links given on the way

  function LinkAfter(row: Option<Row>, r: Resolution): Option<int> {
    if LinkOf(row).Some? then LinkOf(row) else r.sku
  }

  function LinkSet(link: Option<int>): set<int> {
    if link.Some? then {link.value} else {}
  }

  /** The SKUs that the rows of the first n payloads of a source end up with. */
  function Gained(rows: map<Key, Row>, ps: seq<Payload>, rs: seq<Resolution>, n: nat, source: string): set<int>
    requires Timed(ps) && n <= |ps| == |rs|
  {
    if n == 0 then {} else
      Gained(rows, ps, rs, n - 1, source) + GainOf(Find(rows, KeyOf(ps[n - 1])), ps[n - 1], rs[n - 1], source)
  }

  function GainOf(row: Option<Row>, p: Payload, r: Resolution, source: string): set<int> {
    if p.source == source then LinkSet(LinkAfter(row, r)) else {}
  }

  /** A row stored under a warehouse run, with the link it had, adds its link to
      the history of its own source and takes none away. */
  lemma StoreGrows(rows: map<Key, Row>, k: Key, row: Row, source: string)
    requires k.source == source ==> row.run.wms && (LinkOf(Find(rows, k)).Some? ==> row.sku == LinkOf(Find(rows, k)))
    ensures Linked(HistoryOf(rows[k := row]), source)
      == Linked(HistoryOf(rows), source) + if k.source == source then LinkSet(row.sku) else {}
  {
    var after := rows[k := row];
    var more := if k.source == source then LinkSet(row.sku) else {};
    forall x ensures x in Linked(HistoryOf(after), source) <==> x in Linked(HistoryOf(rows), source) + more {
      LinkedAre(HistoryOf(after), source);
      LinkedAre(HistoryOf(rows), source);
      InHistory(after, source, x);
      InHistory(rows, source, x);
      LinksGrow(rows, k, row, source, x);
    }
  }

  /** Some row of the source is linked to x by a warehouse run. */
  predicate Links(rows: map<Key, Row>, source: string, x: int) {
    exists l :: l in rows && LinksTo(rows[l], l, source, x)
  }

  predicate LinksTo(row: Row, l: Key, source: string, x: int) {
    l.source == source && row.run.wms && row.sku == Some(x)
  }

  lemma InHistory(rows: map<Key, Row>, source: string, x: int)
    ensures HistoryRow(source, x) in HistoryOf(rows) <==> Links(rows, source, x)
  {
    if HistoryRow(source, x) in HistoryOf(rows) {
      var l :| l in rows && rows[l].sku.Some? && rows[l].run.wms
        && HistoryRow(l.source, rows[l].sku.value) == HistoryRow(source, x);
      assert LinksTo(rows[l], l, source, x);
    }
    if Links(rows, source, x) {
      var l :| l in rows && LinksTo(rows[l], l, source, x);
      assert HistoryRow(l.source, rows[l].sku.value) in HistoryOf(rows);
    }
  }

  lemma LinksGrow(rows: map<Key, Row>, k: Key, row: Row, source: string, x: int)
    requires k.source == source ==> row.run.wms && (LinkOf(Find(rows, k)).Some? ==> row.sku == LinkOf(Find(rows, k)))
    ensures Links(rows[k := row], source, x) <==> Links(rows, source, x) || (k.source == source && row.sku == Some(x))
  {
    var after := rows[k := row];
    if Links(after, source, x) {
      var l :| l in after && LinksTo(after[l], l, source, x);
      if l != k { assert l in rows && LinksTo(rows[l], l, source, x); }
    }
    if Links(rows, source, x) {
      var l :| l in rows && LinksTo(rows[l], l, source, x);
      assert l in after && LinksTo(after[l], l, source, x);
    }
    if k.source == source && row.sku == Some(x) { assert k in after && LinksTo(after[k], k, source, x); }
  }

  lemma LinkedAre(history: set<HistoryRow>, source: string)
    ensures forall x :: x in Linked(history, source) <==> HistoryRow(source, x) in history
  {
  }

  /** The rows once the first n payloads are stored. */
  ghost function FoldRows(c: Catalogue, s: State, ps: seq<Payload>, run: Run, n: nat): map<Key, Row>
    requires Timed(ps) && n <= |ps|
  {
    Folded(c, s, ps[..n], run).rows
  }

  lemma FoldedNext(c: Catalogue, s: State, ps: seq<Payload>, run: Run, n: nat, r: Resolution)
    requires Timed(ps) && DistinctKeys(ps) && n < |ps| && r == FoldOutcome(c, s, ps, run, n)
    ensures LinkOf(Find(FoldRows(c, s, ps, run, n), KeyOf(ps[n]))) == LinkOf(Find(s.rows, KeyOf(ps[n])))
    ensures FoldRows(c, s, ps, run, n + 1) ==
      FoldRows(c, s, ps, run, n)[KeyOf(ps[n]) := Stored(Find(s.rows, KeyOf(ps[n])), ps[n], run, r)]
  {
    FoldStores(c, s, ps[..n], run);
    NotYetStored(s.rows, FoldRows(c, s, ps, run, n), ps, n);
    FoldedStep(c, s, ps, run, n);
  }

  lemma FoldedStep(c: Catalogue, s: State, ps: seq<Payload>, run: Run, n: nat)
    requires Timed(ps) && n < |ps|
    ensures FoldRows(c, s, ps, run, n + 1)
      == Store(Folded(c, s, ps[..n], run), ps[n], run, FoldOutcome(c, s, ps, run, n)).rows
  {
    assert ps[..n + 1][..n] == ps[..n] && ps[..n + 1][n] == ps[n];
  }

  /** What a payload sees of the history: what was there, and the links given to
      the payloads before it. */
  lemma FoldedHistory(c: Catalogue, s: State, ps: seq<Payload>, run: Run, rs: seq<Resolution>, n: nat, source: string)
    requires Timed(ps) && DistinctKeys(ps) && n <= |ps| == |rs|
    requires forall i :: 0 <= i < |ps| ==> rs[i] == FoldOutcome(c, s, ps, run, i)
    requires run.wms || forall i :: 0 <= i < n ==> ps[i].source != source
    ensures Linked(HistoryOf(FoldRows(c, s, ps, run, n)), source)
      == Linked(HistoryOf(s.rows), source) + Gained(s.rows, ps, rs, n, source)
  {
    var seen := seq(n + 1, i requires 0 <= i < n + 1 => Linked(HistoryOf(FoldRows(c, s, ps, run, i)), source));
    forall i | 0 <= i < n ensures seen[i + 1] == seen[i] + GainOf(Find(s.rows, KeyOf(ps[i])), ps[i], rs[i], source) {
      HistoryStep(c, s, ps, run, rs[i], i, source);
    }
    Accumulates(s.rows, ps, rs, n, source, seen);
    assert ps[..0] == [];
  }

  lemma {:induction false} Accumulates(rows: map<Key, Row>, ps: seq<Payload>, rs: seq<Resolution>, n: nat,
      source: string, seen: seq<set<int>>)
    requires Timed(ps) && n <= |ps| == |rs| && |seen| > n
    requires forall i :: 0 <= i < n ==> seen[i + 1] == seen[i] + GainOf(Find(rows, KeyOf(ps[i])), ps[i], rs[i], source)
    ensures seen[n] == seen[0] + Gained(rows, ps, rs, n, source)
  {
    if n > 0 {
      Accumulates(rows, ps, rs, n - 1, source, seen);
      assert seen[n - 1 + 1] == seen[n - 1] + GainOf(Find(rows, KeyOf(ps[n - 1])), ps[n - 1], rs[n - 1], source);
    }
  }

  lemma HistoryStep(c: Catalogue, s: State, ps: seq<Payload>, run: Run, r: Resolution, n: nat, source: string)
    requires Timed(ps) && DistinctKeys(ps) && n < |ps| && r == FoldOutcome(c, s, ps, run, n)
    requires ps[n].source == source ==> run.wms
    ensures Linked(HistoryOf(FoldRows(c, s, ps, run, n + 1)), source)
      == Linked(HistoryOf(FoldRows(c, s, ps, run, n)), source) + GainOf(Find(s.rows, KeyOf(ps[n])), ps[n], r, source)
  {
    FoldedNext(c, s, ps, run, n, r);
    GrowsByPayload(FoldRows(c, s, ps, run, n), Find(s.rows, KeyOf(ps[n])), ps[n], run, r, source);
  }

  lemma GrowsByPayload(rows: map<Key, Row>, row: Option<Row>, p: Payload, run: Run, r: Resolution, source: string)
    requires p.at.Some? && LinkOf(Find(rows, KeyOf(p))) == LinkOf(row) && (p.source == source ==> run.wms)
    ensures Linked(HistoryOf(rows[KeyOf(p) := Stored(row, p, run, r)]), source)
      == Linked(HistoryOf(rows), source) + GainOf(row, p, r, source)
  {
    StoreGrows(rows, KeyOf(p), Stored(row, p, run, r), source);
  }

  lemma NotYetStored(rows: map<Key, Row>, before: map<Key, Row>, ps: seq<Payload>, n: nat)
    requires n < |ps| && Timed(ps) && DistinctKeys(ps) && Untouched(rows, before, ps[..n])
    ensures Find(before, KeyOf(ps[n])) == Find(rows, KeyOf(ps[n]))
  {
    assert forall i :: 0 <= i < n ==> KeyOf(ps[..n][i]) != KeyOf(ps[n]);
  }

  /** The scalar outcome of a payload, had its source these links besides. */
  ghost function OutcomeWith(c: Catalogue, rows: map<Key, Row>, p: Payload, more: set<int>): (r: Resolution) {
    var d := c.(history := HistoryOf(rows) + set x | x in more :: HistoryRow(p.source, x));
    Decided(d, PairOf(p), ScalarTargets(Seen(c, rows), PairOf(p)))
  }

  lemma OutcomeWithIs(c: Catalogue, rows: map<Key, Row>, p: Payload, more: set<int>, after: map<Key, Row>)
    requires Linked(HistoryOf(after), p.source) == Linked(HistoryOf(rows), p.source) + more
    ensures ScalarOutcome(c, after, p) == OutcomeWith(c, rows, p, more)
  {
    var d := c.(history := HistoryOf(rows) + set x | x in more :: HistoryRow(p.source, x));
    LinkedWith(HistoryOf(rows), p.source, more);
    SameCatalogueTargets(Seen(c, after), Seen(c, rows), PairOf(p));
    DecidedOnce(Seen(c, after), d, PairOf(p), ScalarTargets(Seen(c, rows), PairOf(p)),
      ScalarOutcome(c, after, p), OutcomeWith(c, rows, p, more));
  }

  lemma LinkedWith(history: set<HistoryRow>, source: string, more: set<int>)
    ensures Linked(history + set x | x in more :: HistoryRow(source, x), source) == Linked(history, source) + more
  {
    var all := history + set x | x in more :: HistoryRow(source, x);
    LinkedAre(all, source);
    LinkedAre(history, source);
    forall x ensures HistoryRow(source, x) in all <==> HistoryRow(source, x) in history || x in more {
      if x in more { assert HistoryRow(source, x) in set y | y in more :: HistoryRow(source, y); }
    }
    assert forall x :: x in Linked(all, source) <==> x in Linked(history, source) + more;
  }

  // ---------------------------------------------------------------- the refinement

  /** What a caller can work out before the call, from the rows and the page's
      own resolutions: the payload, resolved alone with the links that the page
      gives to earlier payloads of its source, comes to what the page gives it. */
  ghost predicate SafeAfter(c: Catalogue, rows: map<Key, Row>, ps: seq<Payload>, j: nat)
    requires Timed(ps) && j < |ps|
  {
    var p := ps[j];
    Same(Find(rows, KeyOf(p)), p,
         OutcomeWith(c, rows, p, Gained(rows, ps, PageOutcomes(c, rows, ps), j, p.source)), PageOutcome(c, rows, p))
  }

  /** While the resolutions were the same, so are the links gained. */
  lemma {:induction false} SameGains(rows: map<Key, Row>, ps: seq<Payload>, rs: seq<Resolution>, qs: seq<Resolution>,
      n: nat, source: string)
    requires Timed(ps) && n <= |ps| == |rs| == |qs| && AllSame(rows, ps, rs, qs, n)
    ensures Gained(rows, ps, rs, n, source) == Gained(rows, ps, qs, n, source)
  {
    if n > 0 { SameGains(rows, ps, rs, qs, n - 1, source); }
  }

  /** Each resolution is the scalar one, given the links gained before it. */
  ghost predicate InTurn(c: Catalogue, rows: map<Key, Row>, ps: seq<Payload>, rs: seq<Resolution>)
    requires Timed(ps) && |rs| == |ps|
  {
    forall n :: 0 <= n < |ps| ==> rs[n] == OutcomeWith(c, rows, ps[n], Gained(rows, ps, rs, n, ps[n].source))
  }

  lemma FoldIsInTurn(c: Catalogue, s: State, ps: seq<Payload>, run: Run)
    requires Timed(ps) && DistinctKeys(ps) && (run.wms || DistinctSources(ps))
    ensures InTurn(c, s.rows, ps, FoldOutcomes(c, s, ps, run))
  {
    var rs := FoldOutcomes(c, s, ps, run);
    forall n | 0 <= n < |ps| ensures rs[n] == OutcomeWith(c, s.rows, ps[n], Gained(s.rows, ps, rs, n, ps[n].source)) {
      FoldedHistory(c, s, ps, run, rs, n, ps[n].source);
      OutcomeWithIs(c, s.rows, ps[n], Gained(s.rows, ps, rs, n, ps[n].source), FoldRows(c, s, ps, run, n));
    }
  }

  lemma {:induction false} SafeMeansSame(c: Catalogue, rows: map<Key, Row>, ps: seq<Payload>, rs: seq<Resolution>,
      qs: seq<Resolution>, n: nat)
    requires Timed(ps) && |rs| == |ps| && n <= |ps| && qs == PageOutcomes(c, rows, ps) && InTurn(c, rows, ps, rs)
    ensures AllSame(rows, ps, rs, qs, n) <==> AllSafe(c, rows, ps, n)
  {
    if n > 0 {
      SafeMeansSame(c, rows, ps, rs, qs, n - 1);
      SafeMeansSameNext(c, rows, ps, rs, qs, n - 1);
    }
  }

  lemma SafeMeansSameNext(c: Catalogue, rows: map<Key, Row>, ps: seq<Payload>, rs: seq<Resolution>,
      qs: seq<Resolution>, n: nat)
    requires Timed(ps) && |rs| == |ps| && n < |ps| && qs == PageOutcomes(c, rows, ps) && InTurn(c, rows, ps, rs)
    requires AllSame(rows, ps, rs, qs, n) <==> AllSafe(c, rows, ps, n)
    ensures AllSame(rows, ps, rs, qs, n + 1) <==> AllSafe(c, rows, ps, n + 1)
  {
    AllSameNext(rows, ps, rs, qs, n);
    AllSafeNext(c, rows, ps, n);
    if AllSame(rows, ps, rs, qs, n) { SafeNext(c, rows, ps, rs, qs, n); }
  }

  ghost predicate AllSafe(c: Catalogue, rows: map<Key, Row>, ps: seq<Payload>, n: nat)
    requires Timed(ps) && n <= |ps|
  {
    forall j :: 0 <= j < n ==> SafeAfter(c, rows, ps, j)
  }

  lemma AllSafeNext(c: Catalogue, rows: map<Key, Row>, ps: seq<Payload>, n: nat)
    requires Timed(ps) && n < |ps|
    ensures AllSafe(c, rows, ps, n + 1) <==> AllSafe(c, rows, ps, n) && SafeAfter(c, rows, ps, n)
  {
  }

  lemma AllSameNext(rows: map<Key, Row>, ps: seq<Payload>, rs: seq<Resolution>, qs: seq<Resolution>, n: nat)
    requires Timed(ps) && n < |ps| == |rs| == |qs|
    ensures AllSame(rows, ps, rs, qs, n + 1) <==>
      AllSame(rows, ps, rs, qs, n) && Same(Find(rows, KeyOf(ps[n])), ps[n], rs[n], qs[n])
  {
  }

  lemma SafeNext(c: Catalogue, rows: map<Key, Row>, ps: seq<Payload>, rs: seq<Resolution>, qs: seq<Resolution>, n: nat)
    requires Timed(ps) && |rs| == |ps| && n < |ps| && qs == PageOutcomes(c, rows, ps) && AllSame(rows, ps, rs, qs, n)
    requires rs[n] == OutcomeWith(c, rows, ps[n], Gained(rows, ps, rs, n, ps[n].source))
    ensures SafeAfter(c, rows, ps, n) <==> Same(Find(rows, KeyOf(ps[n])), ps[n], rs[n], qs[n])
  {
    SameGains(rows, ps, rs, qs, n, ps[n].source);
  }

  /** The refinement, for every page of distinct keys: storing all at once
      leaves the rows and the audits of storing one by one, but for the run of
      skipped rows, if and only if every payload is safe after those before it.
      A page with repeated sources is only accepted under a warehouse run. */
  lemma PageMatchesFold(c: Catalogue, s: State, ps: seq<Payload>, run: Run)
    requires Timed(ps) && DistinctKeys(ps) && (run.wms || DistinctSources(ps))
    ensures Matches(c, s, ps, run) <==> forall j :: 0 <= j < |ps| ==> SafeAfter(c, s.rows, ps, j)
  {
    MatchesPayloadByPayload(c, s, ps, run);
    FoldIsInTurn(c, s, ps, run);
    SafeMeansSame(c, s.rows, ps, FoldOutcomes(c, s, ps, run), PageOutcomes(c, s.rows, ps), |ps|);
  }

  /** Without the payloads before it: a row that will be skipped holds the
      payload's values already, and where a link is looked for the two
      resolvers' divergence does not show. */
  ghost predicate Safe(c: Catalogue, rows: map<Key, Row>, p: Payload)
    requires p.at.Some?
  {
    var row := Find(rows, KeyOf(p));
    && (Skipped(row, p, PageOutcome(c, rows, p)) ==> row.value.values == p.values)
    && (row.None? ==> !Diverges(Seen(c, rows), PairOf(p)))
    && (row.Some? && row.value.sku.None? ==> !LinkDiverges(Seen(c, rows), PairOf(p)))
  }

  lemma SafeIsSame(c: Catalogue, rows: map<Key, Row>, p: Payload)
    requires p.at.Some?
    ensures Safe(c, rows, p) <==> Same(Find(rows, KeyOf(p)), p, ScalarOutcome(c, rows, p), PageOutcome(c, rows, p))
  {
    PageRefinesScalar(Seen(c, rows), PairOf(p), ScalarOutcome(c, rows, p), PageOutcome(c, rows, p));
    LinksDiffer(Seen(c, rows), PairOf(p), ScalarOutcome(c, rows, p), PageOutcome(c, rows, p));
  }

  /** The payloads before the j-th give its source no link that is new. */
  ghost predicate NothingNew(c: Catalogue, rows: map<Key, Row>, ps: seq<Payload>, j: nat)
    requires Timed(ps) && j < |ps|
  {
    Gained(rows, ps, PageOutcomes(c, rows, ps), j, ps[j].source) <= Linked(HistoryOf(rows), ps[j].source)
  }

  /** Then each payload counts alone. */
  lemma NothingNewIsSafeAlone(c: Catalogue, rows: map<Key, Row>, ps: seq<Payload>, j: nat)
    requires Timed(ps) && j < |ps| && NothingNew(c, rows, ps, j)
    ensures SafeAfter(c, rows, ps, j) <==> Safe(c, rows, ps[j])
  {
    var gained := Gained(rows, ps, PageOutcomes(c, rows, ps), j, ps[j].source);
    assert Linked(HistoryOf(rows), ps[j].source) == Linked(HistoryOf(rows), ps[j].source) + gained;
    OutcomeWithIs(c, rows, ps[j], gained, rows);
    SafeIsSame(c, rows, ps[j]);
  }

  lemma PageMatchesFoldAlone(c: Catalogue, s: State, ps: seq<Payload>, run: Run)
    requires Timed(ps) && DistinctKeys(ps) && (run.wms || DistinctSources(ps))
    requires forall j :: 0 <= j < |ps| ==> NothingNew(c, s.rows, ps, j)
    ensures Matches(c, s, ps, run) <==> forall j :: 0 <= j < |ps| ==> Safe(c, s.rows, ps[j])
  {
    PageMatchesFold(c, s, ps, run);
    forall j | 0 <= j < |ps| ensures SafeAfter(c, s.rows, ps, j) <==> Safe(c, s.rows, ps[j]) {
      NothingNewIsSafeAlone(c, s.rows, ps, j);
    }
  }

  /** So on a page of distinct source codes. */
  lemma PageMatchesFoldOfSources(c: Catalogue, s: State, ps: seq<Payload>, run: Run)
    requires Timed(ps) && DistinctSources(ps)
    ensures Matches(c, s, ps, run) <==> forall j :: 0 <= j < |ps| ==> Safe(c, s.rows, ps[j])
  {
    SourcesGiveKeys(ps);
    forall j | 0 <= j < |ps| ensures NothingNew(c, s.rows, ps, j) {
      OthersGainNothing(s.rows, ps, PageOutcomes(c, s.rows, ps), j, ps[j].source);
    }
    PageMatchesFoldAlone(c, s, ps, run);
  }

  lemma {:induction false} OthersGainNothing(rows: map<Key, Row>, ps: seq<Payload>, rs: seq<Resolution>, n: nat,
      source: string)
    requires Timed(ps) && n <= |ps| == |rs| && forall i :: 0 <= i < n ==> ps[i].source != source
    ensures Gained(rows, ps, rs, n, source) == {}
  {
    if n > 0 { OthersGainNothing(rows, ps, rs, n - 1, source); }
  }

  // ---------------------------------------------------------------- repeated sources

  /** A source that brings no news: it has warehouse history, or none of its
      payloads resolves; and rows linked outside the warehouse's runs agree with
      that history, for storing them makes them part of it. */
  ghost predicate NoNews(c: Catalogue, rows: map<Key, Row>, ps: seq<Payload>, source: string)
    requires Timed(ps)
  {
    && (Linked(HistoryOf(rows), source) != {} || forall i :: 0 <= i < |ps| && ps[i].source == source ==>
      PageOutcome(c, rows, ps[i]).sku.None?)
    && (forall i :: 0 <= i < |ps| && ps[i].source == source ==>
      LinkSet(LinkOf(Find(rows, KeyOf(ps[i])))) <= Linked(HistoryOf(rows), source))
  }

  lemma NoNewsGainsNothing(c: Catalogue, rows: map<Key, Row>, ps: seq<Payload>, n: nat, source: string)
    requires Timed(ps) && n <= |ps| && NoNews(c, rows, ps, source)
    ensures Gained(rows, ps, PageOutcomes(c, rows, ps), n, source) <= Linked(HistoryOf(rows), source)
  {
    var qs, bound := PageOutcomes(c, rows, ps), Linked(HistoryOf(rows), source);
    forall i | 0 <= i < |ps| ensures GainOf(Find(rows, KeyOf(ps[i])), ps[i], qs[i], source) <= bound {
      NoNewsOf(c, rows, ps, i, source);
    }
    GainedWithin(rows, ps, qs, n, source, bound);
  }

  lemma {:induction false} GainedWithin(rows: map<Key, Row>, ps: seq<Payload>, rs: seq<Resolution>, n: nat,
      source: string, bound: set<int>)
    requires Timed(ps) && n <= |ps| == |rs|
    requires forall i :: 0 <= i < n ==> GainOf(Find(rows, KeyOf(ps[i])), ps[i], rs[i], source) <= bound
    ensures Gained(rows, ps, rs, n, source) <= bound
  {
    if n > 0 { GainedWithin(rows, ps, rs, n - 1, source, bound); }
  }

  lemma NoNewsOf(c: Catalogue, rows: map<Key, Row>, ps: seq<Payload>, i: nat, source: string)
    requires Timed(ps) && i < |ps| && NoNews(c, rows, ps, source)
    ensures GainOf(Find(rows, KeyOf(ps[i])), ps[i], PageOutcomes(c, rows, ps)[i], source) <= Linked(HistoryOf(rows),
      source)
  {
    ResolvedFromHistory(c, rows, ps[i]);
  }

  lemma ResolvedFromHistory(c: Catalogue, rows: map<Key, Row>, p: Payload)
    ensures Linked(HistoryOf(rows), p.source) != {} ==>
      LinkSet(PageOutcome(c, rows, p).sku) <= Linked(HistoryOf(rows), p.source)
  {
    var d, r := Seen(c, rows), PageOutcome(c, rows, p);
    var history, linked := History(d, p.source), History(d, p.source) + ActiveAliases(d, p.source, p.at);
    if history != {} && r.sku.Some? {
      HasMember(history);
      var x :| x in history;
      assert x in linked && linked == {r.sku.value};
      assert x == r.sku.value;
    }
  }

  /** A page whose repeated sources bring no news matches the fold exactly when
      its payloads are safe alone. */
  lemma PageMatchesFoldWithoutNews(c: Catalogue, s: State, ps: seq<Payload>, run: Run)
    requires Timed(ps) && DistinctKeys(ps) && run.wms
    requires forall i, j :: 0 <= i < j < |ps| && ps[i].source == ps[j].source ==> NoNews(c, s.rows, ps, ps[j].source)
    ensures Matches(c, s, ps, run) <==> forall j :: 0 <= j < |ps| ==> Safe(c, s.rows, ps[j])
  {
    forall j | 0 <= j < |ps| ensures NothingNew(c, s.rows, ps, j) {
      if i :| 0 <= i < j && ps[i].source == ps[j].source {
        NoNewsGainsNothing(c, s.rows, ps, j, ps[j].source);
      } else {
        OthersGainNothing(s.rows, ps, PageOutcomes(c, s.rows, ps), j, ps[j].source);
      }
    }
    PageMatchesFoldAlone(c, s, ps, run);
  }

  /** A source without history, linked first by the page itself: a later new row
      of it never matches, for one by one its audit names the history. */
  lemma RepeatedSourceDiffers(c: Catalogue, s: State, ps: seq<Payload>, run: Run, i: nat, j: nat)
    requires Timed(ps) && DistinctKeys(ps) && run.wms && i < j < |ps| && ps[i].source == ps[j].source
    requires Linked(HistoryOf(s.rows), ps[j].source) == {} && KeyOf(ps[j]) !in s.rows
    requires LinkAfter(Find(s.rows, KeyOf(ps[i])), PageOutcome(c, s.rows, ps[i])).Some?
    ensures !Matches(c, s, ps, run)
  {
    NewsIsUnsafe(c, s.rows, ps, PageOutcomes(c, s.rows, ps), i, j);
    PageMatchesFold(c, s, ps, run);
  }

  lemma NewsIsUnsafe(c: Catalogue, rows: map<Key, Row>, ps: seq<Payload>, qs: seq<Resolution>, i: nat, j: nat)
    requires Timed(ps) && i < j < |ps| && qs == PageOutcomes(c, rows, ps) && ps[i].source == ps[j].source
    requires Linked(HistoryOf(rows), ps[j].source) == {} && KeyOf(ps[j]) !in rows
    requires LinkAfter(Find(rows, KeyOf(ps[i])), qs[i]).Some?
    ensures !SafeAfter(c, rows, ps, j)
  {
    var p, gained := ps[j], Gained(rows, ps, qs, j, ps[j].source);
    GainsLink(rows, ps, qs, i, j);
    NewsIsHistory(c, rows, p, gained);
    UnsafeIfNew(c, rows, ps, j, gained);
  }

  lemma UnsafeIfNew(c: Catalogue, rows: map<Key, Row>, ps: seq<Payload>, j: nat, gained: set<int>)
    requires Timed(ps) && j < |ps| && gained == Gained(rows, ps, PageOutcomes(c, rows, ps), j, ps[j].source)
    requires KeyOf(ps[j]) !in rows && OutcomeWith(c, rows, ps[j], gained) != PageOutcome(c, rows, ps[j])
    ensures !SafeAfter(c, rows, ps, j)
  {
  }

  lemma NewsIsHistory(c: Catalogue, rows: map<Key, Row>, p: Payload, gained: set<int>)
    requires Linked(HistoryOf(rows), p.source) == {} && gained != {}
    ensures OutcomeWith(c, rows, p, gained).outcome != PageOutcome(c, rows, p).outcome
  {
    var d := c.(history := HistoryOf(rows) + set x | x in gained :: HistoryRow(p.source, x));
    LinkedWith(HistoryOf(rows), p.source, gained);
    assert History(d, p.source) == gained;
    assert History(Seen(c, rows), p.source) == {};
  }

  lemma {:induction false} GainsLink(rows: map<Key, Row>, ps: seq<Payload>, rs: seq<Resolution>, i: nat, n: nat)
    requires Timed(ps) && i < n <= |ps| == |rs| && LinkAfter(Find(rows, KeyOf(ps[i])), rs[i]).Some?
    ensures LinkAfter(Find(rows, KeyOf(ps[i])), rs[i]).value in Gained(rows, ps, rs, n, ps[i].source)
  {
    if i < n - 1 { GainsLink(rows, ps, rs, i, n - 1); }
  }

  /** Two times of one catalogue code, on an empty table. */
  lemma RepeatedSourceExample(run: Run, values: Values, hash: string, code: string)
    requires run.wms && code != "" && values.seller == ""
    ensures
      var c := Catalogue({}, {}, {Product(7, code, "")}, {});
      var ps := [Payload("", "", code, Some(1), values, hash), Payload("", "", code, Some(2), values, hash)];
      !Matches(c, State(map[], []), ps, run)
  {
    var c := Catalogue({}, {}, {Product(7, code, "")}, {});
    var ps := [Payload("", "", code, Some(1), values, hash), Payload("", "", code, Some(2), values, hash)];
    var s := State(map[], []);
    ResolvedByCode(c, s.rows, ps[0], code);
    assert Linked(HistoryOf(s.rows), code) == {};
    RepeatedSourceDiffers(c, s, ps, run, 0, 1);
  }

  lemma ResolvedByCode(c: Catalogue, rows: map<Key, Row>, p: Payload, code: string)
    requires c == Catalogue({}, {}, {Product(7, code, "")}, {}) && rows == map[]
    requires p.source == code && code != "" && p.values.seller == ""
    ensures PageOutcome(c, rows, p).sku == Some(7)
  {
    var d, pair := Seen(c, rows), PairOf(p);
    assert Product(7, code, "") in d.products;
    assert ByCode(d, code) == {7} && Generated(d, code) == {} && ActiveAliases(d, code, pair.at) == {};
    assert History(d, code) == {};
    assert PageTargets(d, pair) == {7};
    assert PageOutcome(c, rows, p).sku.value in {7};
  }
}
