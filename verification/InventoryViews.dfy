/**
 The materialized inventory menu.  A view record is built in key-ordered chunks
 by background workers, read without a lock, and thrown away by a revision
 number whenever something it was computed from changes.

 The first part is the database: one view record, its rows, and every
 transaction on them as a function.  The second part is the record as the
 object the program updates in place.  Interleavings are in InventoryViewRuns.
 */
module InventoryViews {
  import opened Wrappers

  const FIVE_MINUTES := 300
  const ONE_DAY := 86400
  const FAILED_RETRY := 30

  datatype Status = Normal | Risk | NotEvaluated | NoRules | Pending

  /** What one decorated decision row says about a SKU; `code` is the rank of its SKU code. */
  datatype Observation = Observation(
    code: nat, ready: bool, status: Status, suggested: Option<nat>, dataAt: Option<int>, payload: int)

  /** Everything the builder reads: the permitted SKUs, what a SKU shows at an
      instant, and which SKUs a search text matches. */
  datatype Source = Source(
    skus: set<int>, observe: (int, int) -> Observation, matches: (string, int) -> bool)

  datatype Seen = Seen(sku: int, observation: Observation)

  datatype Row = Row(revision: nat, sku: int, hasSuggestion: bool, computedAt: int, seen: Observation)

  datatype Phase = PendingPhase | Building | Claimed | Ready | Failed

  datatype View = View(
    pk: nat, phase: Phase, revision: nat, buildRevision: nat, cursor: int, processed: nat,
    generatedAt: Option<int>, expiresAt: Option<int>, requestedAt: int, updatedAt: int)

  datatype Database = Database(view: Option<View>, nextPk: nat, rows: set<Row>)

  /** A worker's claim on one chunk, and the chunk once computed. */
  datatype Claim = Claim(pk: nat, revision: nat, cursor: int)
  datatype Chunk = Chunk(seen: seq<Seen>, more: bool, at: int)

  // ---------------------------------------------------------------- transactions

  function Bump(v: View): View {
    v.(phase := PendingPhase, revision := v.revision + 1)
  }

  function Invalidated(db: Database): Database {
    if db.view.None? || db.view.value.phase == PendingPhase then db
    else db.(view := Some(Bump(db.view.value)))
  }

  function Created(db: Database, now: int): Database {
    if db.view.Some? then db
    else db.(view := Some(View(db.nextPk, PendingPhase, 1, 0, 0, 0, None, None, now, now)), nextPk := db.nextPk + 1)
  }

  predicate MustRebuild(v: View, refresh: bool, now: int) {
    || refresh
    || (v.phase == Failed && v.updatedAt < now - FAILED_RETRY)
    || (v.phase == Ready && (v.expiresAt.None? || v.expiresAt.value <= now))
  }

  function Touched(v: View, refresh: bool, now: int): View {
    (if MustRebuild(v, refresh, now) then Bump(v) else v).(requestedAt := now)
  }

  predicate Claimable(db: Database) {
    db.view.Some? && (db.view.value.phase == PendingPhase || db.view.value.phase == Building)
  }

  function ClaimedView(v: View, now: int): View {
    (if v.buildRevision != v.revision
     then v.(cursor := 0, processed := 0, buildRevision := v.revision, expiresAt := None)
     else v).(phase := Claimed, updatedAt := now)
  }

  function HasSuggestion(o: Observation): bool {
    o.suggested.Some? && o.suggested.value > 0
  }

  function RowFor(revision: nat, s: Seen, at: int): Row {
    Row(revision, s.sku, HasSuggestion(s.observation), at, s.observation)
  }

  function NewRows(revision: nat, chunk: Chunk): set<Row> {
    set i | 0 <= i < |chunk.seen| :: RowFor(revision, chunk.seen[i], chunk.at)
  }

  function Deadline(o: Observation): Option<int> {
    if o.ready && o.dataAt.Some? then Some(o.dataAt.value + ONE_DAY) else None
  }

  function Sooner(a: Option<int>, b: Option<int>): Option<int> {
    if a.None? then b else if b.None? then a else Some(Min(a.value, b.value))
  }

  /** The earliest deadline of a chunk, folded into one already known. */
  function FoldDeadline(seen: seq<Seen>, known: Option<int>): Option<int> {
    if seen == [] then known
    else Sooner(FoldDeadline(seen[..|seen| - 1], known), Deadline(seen[|seen| - 1].observation))
  }

  predicate Holds(db: Database, c: Claim) {
    db.view.Some? && db.view.value.pk == c.pk && db.view.value.revision == c.revision
  }

  function RowsAt(db: Database, revision: nat): set<Row> {
    set r | r in db.rows && r.revision == revision
  }

  /** The unique constraint on (view, revision, sku) that a bulk insert may violate. */
  predicate Collides(rows: set<Row>, added: set<Row>) {
    exists a, b :: a in rows && b in added && a.revision == b.revision && a.sku == b.sku
  }

  function CommittedView(v: View, chunk: Chunk, now: int): View {
    var expires := FoldDeadline(chunk.seen, v.expiresAt);
    var w := v.(expiresAt := expires,
                cursor := if chunk.seen == [] then v.cursor else chunk.seen[|chunk.seen| - 1].sku,
                processed := v.processed + |chunk.seen|,
                updatedAt := now);
    if chunk.more then w.(phase := Building)
    else w.(phase := Ready, generatedAt := Some(now), expiresAt := Sooner(Some(now + FIVE_MINUTES), expires))
  }

  function Committed(db: Database, c: Claim, chunk: Chunk, now: int): Database {
    if !Holds(db, c) || db.view.value.phase != Claimed then db
    else
      var added := NewRows(c.revision, chunk);
      if Collides(db.rows, added) then Broken(db, c)
      else
        var rows := db.rows + added;
        db.(view := Some(CommittedView(db.view.value, chunk, now)),
            rows := if chunk.more then rows else set r | r in rows && r.revision == c.revision)
  }

  function Broken(db: Database, c: Claim): Database {
    if Holds(db, c) then db.(view := Some(db.view.value.(phase := Failed))) else db
  }

  function RecoveredClaims(db: Database, now: int): Database {
    if db.view.Some? && db.view.value.phase == Claimed && db.view.value.updatedAt < now - FIVE_MINUTES
    then db.(view := Some(Bump(db.view.value)))
    else db
  }

  function Forgotten(db: Database, now: int): Database {
    if db.view.Some? && db.view.value.requestedAt < now - ONE_DAY then db.(view := None, rows := {}) else db
  }

  // ---------------------------------------------------------------- reading a page

  datatype Filter = Any | IsReady | IsPending | IsPositive | IsNormal | IsRisk | IsNotEvaluated | IsNoRules

  datatype Request = Request(filter: Filter, search: string, offset: nat, limit: nat, refresh: bool)

  datatype Summary = Summary(
    total: nat, ready: nat, positive: nat, pending: nat,
    normal: nat, risk: nat, notEvaluated: nat, noRules: nat)

  predicate Matching(source: Source, search: string, r: Row) {
    search == "" || source.matches(search, r.sku)
  }

  function Searched(source: Source, search: string, rows: set<Row>): set<Row> {
    set r | r in rows && Matching(source, search, r)
  }

  predicate HasStatus(r: Row, s: Status) {
    r.seen.status == s
  }

  predicate HasPositiveQuantity(r: Row) {
    r.seen.suggested.Some? && r.seen.suggested.value > 0
  }

  function WithStatus(rows: set<Row>, s: Status): set<Row> {
    set r | r in rows && HasStatus(r, s)
  }

  function SummaryOf(rows: set<Row>): Summary {
    Summary(|rows|,
            |set r | r in rows && r.seen.ready|,
            |set r | r in rows && HasPositiveQuantity(r)|,
            |set r | r in rows && !r.seen.ready|,
            |WithStatus(rows, Normal)|, |WithStatus(rows, Risk)|,
            |WithStatus(rows, NotEvaluated)|, |WithStatus(rows, NoRules)|)
  }

  function CountFor(s: Summary, f: Filter): nat {
    match f
    case Any => s.total
    case IsReady => s.ready
    case IsPending => s.pending
    case IsPositive => s.positive
    case IsNormal => s.normal
    case IsRisk => s.risk
    case IsNotEvaluated => s.notEvaluated
    case IsNoRules => s.noRules
  }

  /** The page query's filter; `positive` goes through the indexed boolean column. */
  predicate Keeps(f: Filter, r: Row) {
    match f
    case Any => true
    case IsReady => r.seen.ready
    case IsPending => !r.seen.ready
    case IsPositive => r.hasSuggestion
    case IsNormal => r.seen.status == Normal
    case IsRisk => r.seen.status == Risk
    case IsNotEvaluated => r.seen.status == NotEvaluated
    case IsNoRules => r.seen.status == NoRules
  }

  function Kept(f: Filter, rows: set<Row>): set<Row> {
    set r | r in rows && Keeps(f, r)
  }

  /** The page order: SKU code, then SKU id. */
  predicate Before(a: Row, b: Row) {
    a.seen.code < b.seen.code || (a.seen.code == b.seen.code && a.sku < b.sku)
  }

  ghost predicate OrderedAs(page: seq<Row>, rows: set<Row>) {
    && (forall i, j :: 0 <= i < j < |page| ==> Before(page[i], page[j]))
    && (forall r :: r in page <==> r in rows)
    && |page| == |rows|
  }

  ghost predicate DistinctSkus(rows: set<Row>) {
    forall a, b :: a in rows && b in rows && a.sku == b.sku ==> a == b
  }

  /** A page of the ordered rows, for the count the summary already gave. */
  function Slice<T>(ordered: seq<T>, offset: nat, limit: nat, count: nat): seq<T> {
    var size := Min(limit, Max(0, count - offset));
    ordered[Min(offset, |ordered|)..Min(offset + size, |ordered|)]
  }

  /** A page starts at the offset and has as many rows as the limit, the count and
      the list allow, even where the count is not that of the list. */
  lemma SliceIs<T>(ordered: seq<T>, offset: nat, limit: nat, count: nat)
    ensures var page := Slice(ordered, offset, limit, count);
      && |page| == Max(0, Min(limit, Min(count, |ordered|) - offset))
      && forall i :: 0 <= i < |page| ==> page[i] == ordered[offset + i]
  {
  }

  /** A summary count is the number of rows its page filter keeps. */
  lemma CountIsKept(rows: set<Row>, f: Filter)
    requires forall r :: r in rows ==> r.hasSuggestion == HasSuggestion(r.seen)
    ensures CountFor(SummaryOf(rows), f) == |Kept(f, rows)|
  {
    match f
    case Any => assert Kept(f, rows) == rows;
    case IsReady => assert Kept(f, rows) == set r | r in rows && r.seen.ready;
    case IsPending => assert Kept(f, rows) == set r | r in rows && !r.seen.ready;
    case IsPositive => assert Kept(f, rows) == set r | r in rows && HasPositiveQuantity(r);
    case IsNormal => assert Kept(f, rows) == WithStatus(rows, Normal);
    case IsRisk => assert Kept(f, rows) == WithStatus(rows, Risk);
    case IsNotEvaluated => assert Kept(f, rows) == WithStatus(rows, NotEvaluated);
    case IsNoRules => assert Kept(f, rows) == WithStatus(rows, NoRules);
  }

  lemma {:induction false} LeastRow(rows: set<Row>) returns (least: Row)
    requires rows != {} && DistinctSkus(rows)
    ensures least in rows && forall r :: r in rows && r != least ==> Before(least, r)
  {
    var some :| some in rows;
    if rows == {some} {
      least := some;
    } else {
      var rest := LeastRow(rows - {some});
      assert some.sku != rest.sku;
      least := if Before(some, rest) then some else rest;
      forall r | r in rows && r != least ensures Before(least, r) {
        if r != some && r != rest {
          assert r in rows - {some} && Before(rest, r);
        }
      }
    }
  }

  /** Rows of one revision have exactly one page order. */
  lemma {:induction false} OrderExists(rows: set<Row>) returns (page: seq<Row>)
    requires DistinctSkus(rows)
    ensures OrderedAs(page, rows)
  {
    if rows == {} {
      page := [];
    } else {
      var least := LeastRow(rows);
      var rest := OrderExists(rows - {least});
      page := [least] + rest;
    }
  }

  lemma {:induction false} OrderUnique(p: seq<Row>, q: seq<Row>, rows: set<Row>)
    requires OrderedAs(p, rows) && OrderedAs(q, rows)
    ensures p == q
    decreases |p|
  {
    if p == [] {
    } else {
      assert p[0] in q && q != [] && q[0] in p;
      assert p[0] == q[0];
      var rest := rows - {p[0]};
      TailOrdered(p, rows);
      TailOrdered(q, rows);
      OrderUnique(p[1..], q[1..], rest);
      assert p == [p[0]] + p[1..] && q == [q[0]] + q[1..];
    }
  }

  lemma TailOrdered(p: seq<Row>, rows: set<Row>)
    requires p != [] && OrderedAs(p, rows)
    ensures OrderedAs(p[1..], rows - {p[0]})
  {
    forall r ensures r in p[1..] <==> r in rows - {p[0]} {
      if r in p[1..] {
        var i :| 0 <= i < |p[1..]| && p[1..][i] == r;
        assert r == p[i + 1] && Before(p[0], r);
        assert r in p;
      }
      if r in rows - {p[0]} {
        assert r in p;
        var i :| 0 <= i < |p| && p[i] == r;
        assert r == p[1..][i - 1];
      }
    }
  }

  // ---------------------------------------------------------------- the record updated in place

  class InventoryDecisionView {
    var stored: bool
    var pk: nat
    var phase: Phase
    var revision: nat
    var buildRevision: nat
    var cursor: int
    var processed: nat
    var generatedAt: Option<int>
    var expiresAt: Option<int>
    var requestedAt: int
    var updatedAt: int
    var nextPk: nat
    var rows: set<Row>

    constructor ()
      ensures Db() == Database(None, 1, {})
    {
      stored, pk, phase, revision, buildRevision, cursor, processed := false, 0, PendingPhase, 1, 0, 0, 0;
      generatedAt, expiresAt, requestedAt, updatedAt, nextPk, rows := None, None, 0, 0, 1, {};
    }

    function Record(): View
      reads this
    {
      View(pk, phase, revision, buildRevision, cursor, processed, generatedAt, expiresAt, requestedAt, updatedAt)
    }

    function Db(): Database
      reads this
    {
      Database(if stored then Some(Record()) else None, nextPk, rows)
    }

    /** `invalidate_views`: a pending view is already going to be rebuilt. */
    method InvalidateViews()
      modifies this`phase, this`revision
      ensures Db() == Invalidated(old(Db()))
    {
      if stored && phase != PendingPhase {
        phase := PendingPhase;
        revision := revision + 1;
      }
    }

    method GetOrCreate(now: int)
      modifies this
      ensures Db() == Created(old(Db()), now)
    {
      if !stored {
        stored, pk, nextPk := true, nextPk, nextPk + 1;
        phase, revision, buildRevision, cursor, processed := PendingPhase, 1, 0, 0, 0;
        generatedAt, expiresAt, requestedAt, updatedAt := None, None, now, now;
      }
    }

    /** The one short transaction of a menu request. */
    method TouchForMenu(refresh: bool, now: int) returns (snapshot: View)
      requires stored
      modifies this`phase, this`revision, this`requestedAt
      ensures snapshot == Touched(old(Record()), refresh, now)
      ensures old(phase) == Failed && !refresh ==> (phase == PendingPhase <==> old(updatedAt) < now - 30)
      ensures Db() == old(Db()).(view := Some(snapshot))
    {
      if refresh || (phase == Failed && updatedAt < now - 30)
         || (phase == Ready && (expiresAt.None? || expiresAt.value <= now)) {
        phase := PendingPhase;
        revision := revision + 1;
      }
      requestedAt := now;
      snapshot := Record();
    }

    method ClaimChunk(now: int) returns (claim: Option<Claim>)
      modifies this
      ensures claim.Some? == Claimable(old(Db()))
      ensures claim.None? ==> Db() == old(Db())
      ensures claim.Some? ==>
        && Db() == old(Db()).(view := Some(ClaimedView(old(Record()), now)))
        && claim.value == Claim(pk, revision, cursor)
    {
      if !stored || (phase != PendingPhase && phase != Building) {
        return None;
      }
      if buildRevision != revision {
        cursor, processed, buildRevision, expiresAt := 0, 0, revision, None;
      }
      phase, updatedAt := Claimed, now;
      claim := Some(Claim(pk, revision, cursor));
    }

    /** The rows of a computed chunk and the earliest deadline seen so far. */
    static method PrepareRows(chunk: Chunk, revision: nat, known: Option<int>)
        returns (added: set<Row>, expires: Option<int>)
      ensures added == NewRows(revision, chunk)
      ensures expires == FoldDeadline(chunk.seen, known)
    {
      added, expires := {}, known;
      for i := 0 to |chunk.seen|
        invariant added == set j | 0 <= j < i :: RowFor(revision, chunk.seen[j], chunk.at)
        invariant expires == FoldDeadline(chunk.seen[..i], known)
      {
        var o := chunk.seen[i].observation;
        var hasSuggestion := o.suggested.Some? && o.suggested.value > 0;
        added := added + {Row(revision, chunk.seen[i].sku, hasSuggestion, chunk.at, o)};
        assert chunk.seen[..i + 1][..i] == chunk.seen[..i];
        if o.ready && o.dataAt.Some? && (expires.None? || o.dataAt.value + 86400 < expires.value) {
          expires := Some(o.dataAt.value + 86400);
        }
      }
      assert chunk.seen[..|chunk.seen|] == chunk.seen;
    }

    /** The commit of one computed chunk: insert its rows, fold its deadlines,
        advance the cursor and, on the last chunk, switch generations. */
    method CommitChunk(claim: Claim, chunk: Chunk, now: int)
      modifies this
      ensures Db() == Committed(old(Db()), claim, chunk, now)
    {
      if !stored || pk != claim.pk || revision != claim.revision || phase != Claimed {
        return;
      }
      var added, expires := PrepareRows(chunk, claim.revision, expiresAt);
      if exists a, b :: a in rows && b in added && a.revision == b.revision && a.sku == b.sku {
        phase := Failed;
        return;
      }
      Advance(chunk, expires, now);
      rows := rows + added;
      if !chunk.more {
        rows := set r | r in rows && r.revision == claim.revision;
      }
    }

    /** The record's half of a commit. */
    method Advance(chunk: Chunk, expires: Option<int>, now: int)
      requires expires == FoldDeadline(chunk.seen, expiresAt)
      modifies this`expiresAt, this`cursor, this`processed, this`updatedAt, this`phase, this`generatedAt
      ensures Record() == CommittedView(old(Record()), chunk, now)
    {
      expiresAt := expires;
      cursor := if chunk.seen == [] then cursor else chunk.seen[|chunk.seen| - 1].sku;
      processed := processed + |chunk.seen|;
      updatedAt := now;
      if chunk.more {
        phase := Building;
      } else {
        phase := Ready;
        generatedAt := Some(now);
        if expiresAt.None? || now + 300 < expiresAt.value {
          expiresAt := Some(now + 300);
        }
      }
    }

    method MarkFailed(claim: Claim)
      modifies this`phase
      ensures Db() == Broken(old(Db()), claim)
    {
      if stored && pk == claim.pk && revision == claim.revision {
        phase := Failed;
      }
    }

    method RecoverViews(now: int)
      modifies this
      ensures Db() == Forgotten(RecoveredClaims(old(Db()), now), now)
      ensures old(stored) && old(requestedAt) < now - 86400 <==> old(stored) && !stored
      ensures stored && old(phase) == Claimed && old(updatedAt) < now - 300 ==>
        phase == PendingPhase && revision == old(revision) + 1
    {
      if stored && phase == Claimed && updatedAt < now - 300 {
        phase := PendingPhase;
        revision := revision + 1;
      }
      if stored && requestedAt < now - 86400 {
        stored := false;
        rows := {};
      }
    }
  }
}
