/**
 Every interleaving of menu requests, source changes, invalidations, workers
 and recovery over one materialized view.  A source change commits first and
 invalidates later; a worker reads the source with no lock, so a chunk during
 which the source changed may hold anything; a reader asks the database three
 separate questions before it trusts its answer.
 */
module InventoryViewRuns {
  import opened Wrappers
  import opened InventoryViews

  datatype Work = Holding | Computed(chunk: Chunk)

  /** `version` is the number of source changes committed when the chunk was claimed. */
  datatype Worker = Worker(claim: Claim, version: nat, work: Work)

  datatype Reader =
    | Opened(now: int, request: Request)
    | Locked(now: int, request: Request, view: View)
    | Summarized(now: int, request: Request, view: View, summary: Summary, named: Source)
    | Paged(now: int, request: Request, view: View, summary: Summary, named: Source, page: seq<Row>, listed: Source)
    | Answered(answer: Answer)

  datatype Answer = NoAnswer(failed: bool) | Page(rows: seq<Row>, count: nat, summary: Summary, complete: bool)

  /** `changes` counts committed source changes, `outstanding` those whose
      invalidation has not run yet; `builtFrom` is the count at which the
      current build revision was claimed for the first time. */
  datatype World = World(
    clock: int, source: Source, changes: nat, outstanding: nat, builtFrom: nat,
    db: Database, workers: map<nat, Worker>, readers: map<nat, Reader>)

  datatype Event =
    | Tick(to: int)
    | ChangeSource(source: Source)
    | InvalidateAfterCommit
    | InvalidateAnyway
    | ChangeAndInvalidate(source: Source)
    | OpenMenu(reader: nat, request: Request)
    | LockMenu(reader: nat)
    | Summarize(reader: nat)
    | ReadPage(reader: nat, ordered: seq<Row>)
    | Recheck(reader: nat)
    | ClaimNext(worker: nat)
    | Compute(worker: nat, limit: nat, chunk: Chunk)
    | CommitWork(worker: nat)
    | FailWork(worker: nat)
    | Crash(worker: nat)
    | RecoverClaims(now: int)
    | ForgetView(now: int)

  // ---------------------------------------------------------------- what a worker reads

  ghost predicate PositiveIds(source: Source) {
    forall s :: s in source.skus ==> s > 0
  }

  ghost predicate IsNext(skus: set<int>, cursor: int, m: int) {
    m in skus && m > cursor && forall s :: s in skus && s > cursor ==> m <= s
  }

  lemma {:induction false} NextExists(skus: set<int>, cursor: int, some: int) returns (m: int)
    requires some in skus && some > cursor
    ensures IsNext(skus, cursor, m)
    decreases some - cursor
  {
    if lower :| lower in skus && cursor < lower < some {
      m := NextExists(skus, cursor, lower);
    } else {
      m := some;
    }
  }

  lemma NextIsThere(skus: set<int>, cursor: int)
    requires exists s :: s in skus && s > cursor
    ensures exists m :: IsNext(skus, cursor, m)
  {
    var some :| some in skus && some > cursor;
    var m := NextExists(skus, cursor, some);
  }

  ghost function Next(skus: set<int>, cursor: int): (m: int)
    requires exists s :: s in skus && s > cursor
    ensures IsNext(skus, cursor, m)
  {
    NextIsThere(skus, cursor);
    var m :| IsNext(skus, cursor, m);
    m
  }

  /** The keyset query: the first `n` permitted SKUs above the cursor, in id order. */
  ghost function Candidates(skus: set<int>, cursor: int, n: nat): (ids: seq<int>)
    decreases n
  {
    if n > 0 && exists s :: s in skus && s > cursor
    then [Next(skus, cursor)] + Candidates(skus, Next(skus, cursor), n - 1)
    else []
  }

  /** The permitted SKUs next above the cursor, as many as asked or all. */
  ghost predicate AreNext(skus: set<int>, cursor: int, n: nat, ids: seq<int>) {
    && |ids| <= n
    && (forall i :: 0 <= i < |ids| ==> ids[i] in skus && ids[i] > cursor)
    && (forall i, j :: 0 <= i < j < |ids| ==> ids[i] < ids[j])
    && (n > 0 ==> forall s :: s in skus && s > cursor && (|ids| < n || s <= ids[|ids| - 1]) ==> s in ids)
  }

  lemma {:induction false} CandidatesAreNext(skus: set<int>, cursor: int, n: nat)
    ensures AreNext(skus, cursor, n, Candidates(skus, cursor, n))
    decreases n
  {
    if n > 0 && exists s :: s in skus && s > cursor {
      var m := Next(skus, cursor);
      CandidatesAreNext(skus, m, n - 1);
      NextComesFirst(skus, cursor, n, m, Candidates(skus, m, n - 1));
    }
  }

  lemma NextComesFirst(skus: set<int>, cursor: int, n: nat, m: int, rest: seq<int>)
    requires n > 0 && IsNext(skus, cursor, m) && AreNext(skus, m, n - 1, rest)
    ensures AreNext(skus, cursor, n, [m] + rest)
  {
    var ids := [m] + rest;
    forall s | s in skus && s > cursor && (|ids| < n || s <= ids[|ids| - 1]) ensures s in ids {
      if s > m {
        assert rest != [] ==> ids[|ids| - 1] == rest[|rest| - 1];
        assert s in rest;
      }
    }
  }

  /** A chunk computed while the source stood still. */
  ghost predicate ReadFrom(source: Source, cursor: int, limit: nat, chunk: Chunk) {
    var found := Candidates(source.skus, cursor, limit + 1);
    var skus := found[..Min(limit, |found|)];
    && chunk.more == (|found| > limit)
    && |chunk.seen| == |skus|
    && forall i :: 0 <= i < |skus| ==>
         chunk.seen[i] == Seen(skus[i], source.observe(skus[i], chunk.at))
  }

  /** What holds of a chunk whatever happened to the source meanwhile. */
  ghost predicate WellShaped(cursor: int, chunk: Chunk) {
    && (chunk.more ==> chunk.seen != [])
    && (forall i :: 0 <= i < |chunk.seen| ==> chunk.seen[i].sku > cursor)
    && (forall i, j :: 0 <= i < j < |chunk.seen| ==> chunk.seen[i].sku < chunk.seen[j].sku)
  }

  ghost predicate Lists(chunk: Chunk, sku: int) {
    exists i :: 0 <= i < |chunk.seen| && chunk.seen[i].sku == sku
  }

  function EndOf(cursor: int, chunk: Chunk): int {
    if chunk.seen == [] then cursor else chunk.seen[|chunk.seen| - 1].sku
  }

  /** A chunk is the scan's next stretch: every permitted SKU up to its end, and
      nothing beyond unless it says there is more. */
  ghost predicate NextStretch(source: Source, cursor: int, chunk: Chunk) {
    && (forall s :: s > cursor ==> (Lists(chunk, s) <==> s in source.skus && s <= EndOf(cursor, chunk)))
    && (!chunk.more ==> forall s :: s in source.skus ==> s <= EndOf(cursor, chunk))
    && (forall i :: 0 <= i < |chunk.seen| ==>
          chunk.seen[i].observation == source.observe(chunk.seen[i].sku, chunk.at))
  }

  lemma ReadListsSku(source: Source, cursor: int, limit: nat, chunk: Chunk, s: int)
    requires limit >= 1 && ReadFrom(source, cursor, limit, chunk) && s > cursor
    ensures Lists(chunk, s) <==> s in source.skus && s <= EndOf(cursor, chunk)
    ensures s in source.skus && !chunk.more ==> s <= EndOf(cursor, chunk)
  {
    var found := Candidates(source.skus, cursor, limit + 1);
    CandidatesAreNext(source.skus, cursor, limit + 1);
    if s in found {
      var i :| 0 <= i < |found| && found[i] == s;
      if i < |chunk.seen| {
        assert chunk.seen[i].sku == s;
      }
    }
  }

  lemma ReadIsWellShaped(source: Source, cursor: int, limit: nat, chunk: Chunk)
    requires limit >= 1 && ReadFrom(source, cursor, limit, chunk)
    ensures WellShaped(cursor, chunk)
  {
    CandidatesAreNext(source.skus, cursor, limit + 1);
  }

  /** The page-plus-one trick reads exactly the next stretch of the scan. */
  lemma ReadFromIsNextStretch(source: Source, cursor: int, limit: nat, chunk: Chunk)
    requires limit >= 1 && ReadFrom(source, cursor, limit, chunk)
    ensures NextStretch(source, cursor, chunk)
  {
    forall s | s > cursor
      ensures Lists(chunk, s) <==> s in source.skus && s <= EndOf(cursor, chunk)
      ensures s in source.skus && !chunk.more ==> s <= EndOf(cursor, chunk)
    {
      ReadListsSku(source, cursor, limit, chunk, s);
    }
    ReadIsWellShaped(source, cursor, limit, chunk);
  }

  // ---------------------------------------------------------------- steps

  predicate Live(db: Database, worker: Worker) {
    Holds(db, worker.claim)
  }

  ghost predicate Enabled(w: World, e: Event) {
    match e
    case Tick(to) => to >= w.clock
    case ChangeSource(source) => PositiveIds(source)
    case InvalidateAfterCommit => w.outstanding > 0
    case InvalidateAnyway => true
    case ChangeAndInvalidate(source) => PositiveIds(source)
    case OpenMenu(id, _) => id !in w.readers
    case LockMenu(id) => id in w.readers && w.readers[id].Opened? && w.db.view.Some?
    case Summarize(id) => id in w.readers && w.readers[id].Locked?
    case ReadPage(id, ordered) =>
      && id in w.readers && w.readers[id].Summarized?
      && OrderedAs(ordered, Listed(w, w.readers[id].request, w.readers[id].view))
    case Recheck(id) => id in w.readers && w.readers[id].Paged?
    case ClaimNext(id) => id !in w.workers && Claimable(w.db)
    case Compute(id, limit, chunk) =>
      && id in w.workers && w.workers[id].work.Holding?
      && limit >= 1 && chunk.at <= w.clock
      && WellShaped(w.workers[id].claim.cursor, chunk)
      && (w.changes == w.workers[id].version ==> ReadFrom(w.source, w.workers[id].claim.cursor, limit, chunk))
    case CommitWork(id) => id in w.workers && w.workers[id].work.Computed?
    case FailWork(id) => id in w.workers
    case Crash(id) => id in w.workers
    case RecoverClaims(now) => now <= w.clock
    case ForgetView(now) => now <= w.clock
  }

  /** The rows a reader's summary counts: its revision, its search. */
  function Counted(w: World, request: Request, v: View): set<Row> {
    Searched(w.source, request.search, RowsAt(w.db, v.revision))
  }

  /** The rows a reader's page is cut from. */
  function Listed(w: World, request: Request, v: View): set<Row> {
    Kept(request.filter, Counted(w, request, v))
  }

  /** What the request does with the record it locked. */
  function AfterLock(now: int, request: Request, v: View): Reader {
    if v.phase == Failed then Answered(NoAnswer(true))
    else if v.phase != Ready && (v.phase == PendingPhase || v.buildRevision != v.revision || v.processed == 0)
    then Answered(NoAnswer(false))
    else Locked(now, request, v)
  }

  predicate StillCurrent(db: Database, v: View) {
    && db.view.Some? && db.view.value.pk == v.pk && db.view.value.revision == v.revision
    && (db.view.value.phase == Ready || db.view.value.phase == Building || db.view.value.phase == Claimed)
  }

  function AfterRecheck(db: Database, r: Reader): Reader
    requires r.Paged?
  {
    if StillCurrent(db, r.view)
    then Answered(Page(r.page, CountFor(r.summary, r.request.filter), r.summary, r.view.phase == Ready))
    else Answered(NoAnswer(false))
  }

  ghost function Apply(w: World, e: Event): World
    requires Enabled(w, e)
  {
    match e
    case Tick(to) => w.(clock := to)
    case ChangeSource(source) => w.(source := source, changes := w.changes + 1, outstanding := w.outstanding + 1)
    case InvalidateAfterCommit => w.(db := Invalidated(w.db), outstanding := w.outstanding - 1)
    case InvalidateAnyway => w.(db := Invalidated(w.db))
    case ChangeAndInvalidate(source) => w.(source := source, changes := w.changes + 1, db := Invalidated(w.db))
    case OpenMenu(id, request) => w.(db := Created(w.db, w.clock), readers := w.readers[id := Opened(w.clock, request)])
    case LockMenu(id) =>
      var r := w.readers[id];
      var v := Touched(w.db.view.value, r.request.refresh, r.now);
      w.(db := w.db.(view := Some(v)), readers := w.readers[id := AfterLock(r.now, r.request, v)])
    case Summarize(id) =>
      var r := w.readers[id];
      w.(readers := w.readers[id :=
        Summarized(r.now, r.request, r.view, SummaryOf(Counted(w, r.request, r.view)), w.source)])
    case ReadPage(id, ordered) =>
      var r := w.readers[id];
      var page := Slice(ordered, r.request.offset, r.request.limit, CountFor(r.summary, r.request.filter));
      w.(readers := w.readers[id := Paged(r.now, r.request, r.view, r.summary, r.named, page, w.source)])
    case Recheck(id) => w.(readers := w.readers[id := AfterRecheck(w.db, w.readers[id])])
    case ClaimNext(id) =>
      var v := ClaimedView(w.db.view.value, w.clock);
      w.(db := w.db.(view := Some(v)),
         builtFrom := if w.db.view.value.phase == PendingPhase then w.changes else w.builtFrom,
         workers := w.workers[id := Worker(Claim(v.pk, v.revision, v.cursor), w.changes, Holding)])
    case Compute(id, _, chunk) => w.(workers := w.workers[id := w.workers[id].(work := Computed(chunk))])
    case CommitWork(id) =>
      w.(db := Committed(w.db, w.workers[id].claim, w.workers[id].work.chunk, w.clock), workers := w.workers - {id})
    case FailWork(id) => w.(db := Broken(w.db, w.workers[id].claim), workers := w.workers - {id})
    case Crash(id) => w.(workers := w.workers - {id})
    case RecoverClaims(now) => w.(db := RecoveredClaims(w.db, now))
    case ForgetView(now) => w.(db := Forgotten(w.db, now))
  }

  ghost predicate Initial(w: World) {
    && PositiveIds(w.source) && w.outstanding == 0 && w.builtFrom <= w.changes
    && w.db == Database(None, 1, {}) && w.workers == map[] && w.readers == map[]
  }

  /** The states a world passes through, starting with itself. */
  ghost predicate Run(ws: seq<World>, es: seq<Event>) {
    && |ws| == |es| + 1
    && forall i :: 0 <= i < |es| ==> Enabled(ws[i], es[i]) && ws[i + 1] == Apply(ws[i], es[i])
  }

  // ---------------------------------------------------------------- the invariant

  ghost predicate ViewOk(db: Database) {
    db.view.Some? ==>
      var v := db.view.value;
      && v.pk < db.nextPk && v.buildRevision <= v.revision
      && (v.phase == PendingPhase <==> v.buildRevision < v.revision)
  }

  ghost predicate UniqueKeys(rows: set<Row>) {
    forall a, b :: a in rows && b in rows && a.revision == b.revision && a.sku == b.sku ==> a == b
  }

  ghost predicate RowsOk(db: Database) {
    && (db.view.None? ==> db.rows == {})
    && UniqueKeys(db.rows)
    && (forall r :: r in db.rows ==> r.hasSuggestion == HasSuggestion(r.seen))
    && (db.view.Some? ==>
        var v := db.view.value;
        && (forall r :: r in db.rows ==> r.revision <= v.buildRevision)
        && (forall r :: r in db.rows && r.revision == v.buildRevision ==> r.sku <= v.cursor)
        && (v.phase == Ready ==> forall r :: r in db.rows ==> r.revision == v.revision)
        && |RowsAt(db, v.buildRevision)| == v.processed)
  }

  /** `known` is the earliest deadline of a set of rows, or none has one. */
  ghost predicate Earliest(known: Option<int>, rows: set<Row>) {
    && (forall r :: r in rows && Deadline(r.seen).Some? ==> known.Some? && known.value <= Deadline(r.seen).value)
    && (known.Some? ==> exists r :: r in rows && Deadline(r.seen) == known)
  }

  ghost predicate ExpiryOk(db: Database) {
    db.view.Some? ==>
      var v := db.view.value;
      var rows := RowsAt(db, v.revision);
      match v.phase
      case PendingPhase => true
      case Ready =>
        && v.generatedAt.Some?
        && exists known ::
          Earliest(known, rows) && v.expiresAt == Sooner(Some(v.generatedAt.value + FIVE_MINUTES), known)
      case _ => Earliest(v.expiresAt, rows)
  }

  ghost predicate WorkerOk(w: World, worker: Worker) {
    && worker.claim.pk < w.db.nextPk
    && worker.version <= w.changes
    && (w.db.view.Some? && w.db.view.value.pk == worker.claim.pk ==> worker.claim.revision <= w.db.view.value.revision)
    && (worker.work.Computed? ==> WellShaped(worker.claim.cursor, worker.work.chunk) && worker.work.chunk.at <= w.clock)
    && (worker.work.Computed? && worker.version == w.changes ==>
          NextStretch(w.source, worker.claim.cursor, worker.work.chunk))
    && (Live(w.db, worker) ==>
          && w.db.view.value.phase == Claimed
          && worker.claim.cursor == w.db.view.value.cursor
          && worker.version >= w.builtFrom)
  }

  ghost predicate WorkersOk(w: World) {
    && (forall id :: id in w.workers ==> WorkerOk(w, w.workers[id]))
    && (forall a, b :: a in w.workers && b in w.workers && Live(w.db, w.workers[a]) && Live(w.db, w.workers[b]) ==>
      a == b)
  }

  /** The rows of the build revision are the scan up to the cursor. */
  ghost predicate ScansUpTo(w: World, v: View) {
    var rows := RowsAt(w.db, v.revision);
    && (forall s :: s in w.source.skus && s <= v.cursor ==> exists r :: r in rows && r.sku == s)
    && (forall r :: r in rows ==> r.sku in w.source.skus)
    && (forall r :: r in rows ==> r.seen == w.source.observe(r.sku, r.computedAt) && r.computedAt <= w.clock)
    && (v.phase == Ready ==> forall s :: s in w.source.skus ==> s <= v.cursor)
  }

  ghost predicate ScanOk(w: World) {
    && PositiveIds(w.source)
    && w.builtFrom <= w.changes
    && (w.db.view.Some? && w.db.view.value.phase != PendingPhase ==>
        && (w.outstanding == 0 ==> w.builtFrom == w.changes)
        && (w.builtFrom == w.changes ==> ScansUpTo(w, w.db.view.value)))
  }

  predicate Snapshot(r: Reader) {
    r.Locked? || r.Summarized? || r.Paged?
  }

  /** While a complete reader's revision is current, the record is still the
      ready one it saw and its two questions still have the answers it got. */
  ghost predicate ReaderOk(w: World, r: Reader) {
    Snapshot(r) ==>
      && r.view.pk < w.db.nextPk
      && (w.db.view.Some? && w.db.view.value.pk == r.view.pk ==> r.view.revision <= w.db.view.value.revision)
      && (r.view.phase == Ready ==> r.view.expiresAt.Some? && r.now < r.view.expiresAt.value)
      && (r.view.phase == Ready && w.db.view.Some? && w.db.view.value.pk == r.view.pk
          && w.db.view.value.revision == r.view.revision ==>
          && w.db.view.value.phase == Ready
          && w.db.view.value.generatedAt == r.view.generatedAt
          && w.db.view.value.expiresAt == r.view.expiresAt
          && AnsweredFrom(RowsAt(w.db, r.view.revision), r))
  }

  ghost predicate AnsweredFrom(rows: set<Row>, r: Reader)
    requires Snapshot(r)
  {
    && (!r.Locked? ==> r.summary == SummaryOf(Searched(r.named, r.request.search, rows)))
    && (r.Paged? ==> exists ordered ::
          && OrderedAs(ordered, Kept(r.request.filter, Searched(r.listed, r.request.search, rows)))
          && r.page == Slice(ordered, r.request.offset, r.request.limit, CountFor(r.summary, r.request.filter)))
  }

  ghost predicate ReadersOk(w: World) {
    forall id :: id in w.readers ==> ReaderOk(w, w.readers[id])
  }

  ghost predicate Inv(w: World) {
    ViewOk(w.db) && RowsOk(w.db) && ExpiryOk(w.db) && WorkersOk(w) && ScanOk(w) && ReadersOk(w)
  }

  // ---------------------------------------------------------------- every step keeps it

  lemma BumpKeepsInv(w: World, v: View)
    requires Inv(w) && w.db.view.Some?
    requires v == Bump(w.db.view.value).(requestedAt := v.requestedAt)
    ensures Inv(w.(db := w.db.(view := Some(v))))
  {
    var db := w.db.(view := Some(v));
    assert RowsAt(db, v.buildRevision) == RowsAt(w.db, v.buildRevision);
  }

  lemma TouchKeepsInv(w: World, v: View)
    requires Inv(w) && w.db.view.Some?
    requires v == w.db.view.value.(requestedAt := v.requestedAt)
    ensures Inv(w.(db := w.db.(view := Some(v))))
  {
    var db := w.db.(view := Some(v));
    assert forall n :: RowsAt(db, n) == RowsAt(w.db, n);
    assert ReadersOk(w.(db := db));
  }

  lemma InvalidateKeepsInv(w: World)
    requires Inv(w)
    ensures Inv(w.(db := Invalidated(w.db)))
    ensures var db := Invalidated(w.db); db.view.Some? ==> db.view.value.phase == PendingPhase
  {
    if w.db.view.Some? && w.db.view.value.phase != PendingPhase {
      BumpKeepsInv(w, Bump(w.db.view.value));
    }
  }

  lemma ChangeKeepsInv(w: World, source: Source)
    requires Inv(w) && PositiveIds(source)
    ensures Inv(w.(source := source, changes := w.changes + 1, outstanding := w.outstanding + 1))
  {
  }

  lemma ChangeAndInvalidateKeepsInv(w: World, source: Source)
    requires Inv(w) && PositiveIds(source)
    ensures Inv(w.(source := source, changes := w.changes + 1, db := Invalidated(w.db)))
  {
    ChangeKeepsInv(w, source);
    var changed := w.(source := source, changes := w.changes + 1, outstanding := w.outstanding + 1);
    InvalidateKeepsInv(changed);
    SettleKeepsInv(changed.(db := Invalidated(w.db)), w.outstanding);
  }

  lemma SettleKeepsInv(w: World, outstanding: nat)
    requires Inv(w) && (w.db.view.Some? ==> w.db.view.value.phase == PendingPhase)
    ensures Inv(w.(outstanding := outstanding))
  {
  }

  lemma ForgetKeepsInv(w: World)
    requires Inv(w)
    ensures Inv(w.(db := w.db.(view := None, rows := {})))
  {
  }

  lemma CreateKeepsInv(w: World, now: int)
    requires Inv(w)
    ensures Inv(w.(db := Created(w.db, now)))
  {
    var db := Created(w.db, now);
    if w.db.view.None? {
      assert RowsAt(db, 0) == {};
    }
  }

  lemma ClaimKeepsInv(w: World, id: nat)
    requires Inv(w) && Enabled(w, ClaimNext(id))
    ensures Inv(Apply(w, ClaimNext(id)))
  {
    var w' := Apply(w, ClaimNext(id));
    var v, v' := w.db.view.value, w'.db.view.value;
    assert forall n :: RowsAt(w'.db, n) == RowsAt(w.db, n);
    assert v.phase == PendingPhase ==> RowsAt(w.db, v.revision) == {};
    assert forall other :: other in w.workers ==> !Live(w.db, w.workers[other]);
    assert WorkersOk(w');
  }

  /** The unique constraint is never violated: a live chunk lies above the cursor. */
  lemma NeverCollides(w: World, worker: Worker)
    requires Inv(w) && WorkerOk(w, worker) && Live(w.db, worker) && worker.work.Computed?
    ensures !Collides(w.db.rows, NewRows(worker.claim.revision, worker.work.chunk))
  {
  }

  lemma {:induction false} NewRowsCount(revision: nat, cursor: int, chunk: Chunk)
    requires WellShaped(cursor, chunk)
    ensures |NewRows(revision, chunk)| == |chunk.seen|
    decreases |chunk.seen|
  {
    if chunk.seen == [] {
      assert NewRows(revision, chunk) == {};
    } else {
      var n := |chunk.seen| - 1;
      var shorter := Chunk(chunk.seen[..n], false, chunk.at);
      NewRowsCount(revision, cursor, shorter);
      var last := RowFor(revision, chunk.seen[n], chunk.at);
      assert NewRows(revision, chunk) == NewRows(revision, shorter) + {last};
    }
  }

  /** Folding deadlines chunk by chunk keeps the earliest of all rows so far. */
  lemma {:induction false} FoldIsEarliest(seen: seq<Seen>, known: Option<int>, rows: set<Row>, revision: nat, at: int)
    requires Earliest(known, rows)
    ensures Earliest(FoldDeadline(seen, known), rows + NewRows(revision, Chunk(seen, false, at)))
    decreases |seen|
  {
    if seen == [] {
      assert rows + NewRows(revision, Chunk(seen, false, at)) == rows;
    } else {
      var n := |seen| - 1;
      FoldIsEarliest(seen[..n], known, rows, revision, at);
      var before := rows + NewRows(revision, Chunk(seen[..n], false, at));
      var last := RowFor(revision, seen[n], at);
      assert rows + NewRows(revision, Chunk(seen, false, at)) == before + {last};
    }
  }

  /** The commit of a live chunk, seen from outside. */
  ghost predicate Extends(db: Database, db': Database, chunk: Chunk, now: int)
    requires db.view.Some?
  {
    var v := db.view.value;
    && db'.view == Some(CommittedView(v, chunk, now))
    && db'.nextPk == db.nextPk
    && RowsAt(db', v.revision) == RowsAt(db, v.revision) + NewRows(v.revision, chunk)
    && db'.rows <= db.rows + NewRows(v.revision, chunk)
    && (!chunk.more ==> forall r :: r in db'.rows ==> r.revision == v.revision)
  }

  lemma CommitExtends(w: World, worker: Worker)
    requires Inv(w) && WorkerOk(w, worker) && Live(w.db, worker) && worker.work.Computed?
    ensures Extends(w.db, Committed(w.db, worker.claim, worker.work.chunk, w.clock), worker.work.chunk, w.clock)
  {
    NeverCollides(w, worker);
  }

  lemma NewRowsLie(revision: nat, cursor: int, chunk: Chunk)
    requires WellShaped(cursor, chunk)
    ensures UniqueKeys(NewRows(revision, chunk))
    ensures forall r :: r in NewRows(revision, chunk) ==>
      r.revision == revision && cursor < r.sku <= EndOf(cursor, chunk) && r.hasSuggestion == HasSuggestion(r.seen)
  {
  }

  lemma UnionKeysUnique(rows: set<Row>, added: set<Row>)
    requires UniqueKeys(rows) && UniqueKeys(added)
    requires forall a, b :: a in rows && b in added && a.revision == b.revision ==> a.sku < b.sku
    ensures UniqueKeys(rows + added)
  {
  }

  lemma ExtendKeepsRows(db: Database, db': Database, chunk: Chunk, now: int)
    requires db.view.Some? && db.view.value.phase == Claimed && ViewOk(db) && RowsOk(db)
    requires Extends(db, db', chunk, now) && WellShaped(db.view.value.cursor, chunk)
    ensures ViewOk(db') && RowsOk(db')
  {
    ExtendKeepsKeys(db, chunk);
    ExtendCounts(db, chunk);
    ExtendPlaces(db, chunk);
    assert UniqueKeys(db'.rows);
    assert RowsAt(db', db'.view.value.buildRevision) == RowsAt(db', db.view.value.revision);
  }

  lemma ExtendPlaces(db: Database, chunk: Chunk)
    requires db.view.Some? && db.view.value.phase == Claimed && ViewOk(db) && RowsOk(db)
    requires WellShaped(db.view.value.cursor, chunk)
    ensures forall r :: r in db.rows + NewRows(db.view.value.revision, chunk) ==>
      r.hasSuggestion == HasSuggestion(r.seen) && r.revision <= db.view.value.revision
      && (r.revision == db.view.value.revision ==> r.sku <= EndOf(db.view.value.cursor, chunk))
  {
    var v := db.view.value;
    NewRowsLie(v.revision, v.cursor, chunk);
    assert chunk.seen != [] ==> v.cursor <= EndOf(v.cursor, chunk);
  }

  lemma ExtendKeepsKeys(db: Database, chunk: Chunk)
    requires db.view.Some? && db.view.value.phase == Claimed && ViewOk(db) && RowsOk(db)
    requires WellShaped(db.view.value.cursor, chunk)
    ensures UniqueKeys(db.rows + NewRows(db.view.value.revision, chunk))
  {
    var v := db.view.value;
    NewRowsLie(v.revision, v.cursor, chunk);
    UnionKeysUnique(db.rows, NewRows(v.revision, chunk));
  }

  lemma ExtendCounts(db: Database, chunk: Chunk)
    requires db.view.Some? && db.view.value.phase == Claimed && ViewOk(db) && RowsOk(db)
    requires WellShaped(db.view.value.cursor, chunk)
    ensures |RowsAt(db, db.view.value.revision) + NewRows(db.view.value.revision, chunk)|
      == db.view.value.processed + |chunk.seen|
  {
    var v := db.view.value;
    NewRowsCount(v.revision, v.cursor, chunk);
    NewRowsLie(v.revision, v.cursor, chunk);
    assert RowsAt(db, v.revision) !! NewRows(v.revision, chunk);
  }

  lemma ExtendKeepsExpiry(db: Database, db': Database, chunk: Chunk, now: int)
    requires db.view.Some? && db.view.value.phase == Claimed
    requires Earliest(db.view.value.expiresAt, RowsAt(db, db.view.value.revision))
    requires Extends(db, db', chunk, now)
    ensures ExpiryOk(db')
  {
    var v := db.view.value;
    FoldIsEarliest(chunk.seen, v.expiresAt, RowsAt(db, v.revision), v.revision, chunk.at);
    assert NewRows(v.revision, Chunk(chunk.seen, false, chunk.at)) == NewRows(v.revision, chunk);
  }

  lemma ExtendKeepsScan(w: World, db': Database, chunk: Chunk)
    requires w.db.view.Some? && w.db.view.value.phase == Claimed && ScansUpTo(w, w.db.view.value)
    requires Extends(w.db, db', chunk, w.clock) && chunk.at <= w.clock
    requires WellShaped(w.db.view.value.cursor, chunk) && NextStretch(w.source, w.db.view.value.cursor, chunk)
    ensures ScansUpTo(w.(db := db'), db'.view.value)
  {
    var v := w.db.view.value;
    var rows := RowsAt(db', v.revision);
    forall s | s in w.source.skus && s <= EndOf(v.cursor, chunk)
      ensures exists r :: r in rows && r.sku == s
    {
      if s <= v.cursor {
        var r :| r in RowsAt(w.db, v.revision) && r.sku == s;
        assert r in rows;
      } else {
        assert Lists(chunk, s);
        var i :| 0 <= i < |chunk.seen| && chunk.seen[i].sku == s;
        assert RowFor(v.revision, chunk.seen[i], chunk.at) in rows;
      }
    }
    forall r | r in NewRows(v.revision, chunk)
      ensures r.sku in w.source.skus && r.seen == w.source.observe(r.sku, r.computedAt) && r.computedAt <= w.clock
    {
      var i :| 0 <= i < |chunk.seen| && r == RowFor(v.revision, chunk.seen[i], chunk.at);
      assert Lists(chunk, r.sku);
    }
  }

  lemma CommitKeepsWorkersAndReaders(w: World, id: nat, db': Database)
    requires id in w.workers && WorkersOk(w) && ReadersOk(w) && Live(w.db, w.workers[id])
    requires w.workers[id].work.Computed?
    requires Extends(w.db, db', w.workers[id].work.chunk, w.clock)
    ensures var w' := w.(db := db', workers := w.workers - {id}); WorkersOk(w') && ReadersOk(w')
  {
    var w' := w.(db := db', workers := w.workers - {id});
    forall other | other in w'.workers
      ensures WorkerOk(w', w'.workers[other]) && !Live(w'.db, w'.workers[other])
    {
      assert other in w.workers && WorkerOk(w, w.workers[other]);
    }
    forall r | r in w'.readers
      ensures ReaderOk(w', w'.readers[r])
    {
      assert ReaderOk(w, w.readers[r]);
    }
  }

  lemma CommitKeepsInv(w: World, id: nat)
    requires Inv(w) && Enabled(w, CommitWork(id))
    ensures Inv(Apply(w, CommitWork(id)))
  {
    var worker := w.workers[id];
    assert WorkerOk(w, worker);
    if Live(w.db, worker) {
      var chunk := worker.work.chunk;
      var db' := Committed(w.db, worker.claim, chunk, w.clock);
      CommitExtends(w, worker);
      ExtendKeepsRows(w.db, db', chunk, w.clock);
      ExtendKeepsExpiry(w.db, db', chunk, w.clock);
      if w.builtFrom == w.changes { ExtendKeepsScan(w, db', chunk); }
      CommitKeepsWorkersAndReaders(w, id, db');
    } else {
      CrashKeepsInv(w, id);
    }
  }

  lemma CrashKeepsInv(w: World, id: nat)
    requires Inv(w) && id in w.workers
    ensures Inv(w.(workers := w.workers - {id}))
  {
  }

  lemma TickKeepsInv(w: World, to: int)
    requires Inv(w) && to >= w.clock
    ensures Inv(w.(clock := to))
  {
  }

  lemma RecoverKeepsInv(w: World, now: int)
    requires Inv(w)
    ensures Inv(w.(db := RecoveredClaims(w.db, now)))
  {
    if w.db.view.Some? && w.db.view.value.phase == Claimed { BumpKeepsInv(w, Bump(w.db.view.value)); }
  }

  lemma FailKeepsInv(w: World, id: nat)
    requires Inv(w) && Enabled(w, FailWork(id))
    ensures Inv(Apply(w, FailWork(id)))
  {
    var w' := Apply(w, FailWork(id));
    assert forall n :: RowsAt(w'.db, n) == RowsAt(w.db, n);
  }

  lemma ComputeKeepsInv(w: World, e: Event)
    requires Inv(w) && Enabled(w, e) && e.Compute?
    ensures Inv(Apply(w, e))
  {
    if w.changes == w.workers[e.worker].version {
      ReadFromIsNextStretch(w.source, w.workers[e.worker].claim.cursor, e.limit, e.chunk);
    }
  }

  lemma ReaderKeepsInv(w: World, id: nat, r: Reader)
    requires Inv(w) && ReaderOk(w, r)
    ensures Inv(w.(readers := w.readers[id := r]))
  {
    var w' := w.(readers := w.readers[id := r]);
    forall i | i in w'.readers ensures ReaderOk(w', w'.readers[i]) {
      assert i != id ==> ReaderOk(w, w.readers[i]);
    }
  }

  lemma LockedIsOk(w: World, now: int, request: Request, v: View)
    requires Inv(w) && w.db.view == Some(v) && !MustRebuild(v, request.refresh, now)
    ensures ReaderOk(w, AfterLock(now, request, v))
  {
  }

  lemma LockMenuKeepsInv(w: World, e: Event)
    requires Inv(w) && Enabled(w, e) && e.LockMenu?
    ensures Inv(Apply(w, e))
  {
    var r := w.readers[e.reader];
    var v := Touched(w.db.view.value, r.request.refresh, r.now);
    var touched := w.(db := w.db.(view := Some(v)));
    if MustRebuild(w.db.view.value, r.request.refresh, r.now) {
      BumpKeepsInv(w, v);
    } else {
      TouchKeepsInv(w, v);
      LockedIsOk(touched, r.now, r.request, v);
    }
    ReaderKeepsInv(touched, e.reader, AfterLock(r.now, r.request, v));
  }

  lemma ReadStepKeepsInv(w: World, e: Event)
    requires Inv(w) && Enabled(w, e) && (e.Summarize? || e.ReadPage? || e.Recheck?)
    ensures Inv(Apply(w, e))
  {
    assert ReaderOk(w, w.readers[e.reader]);
    var r := Apply(w, e).readers[e.reader];
    assert ReaderOk(w, r);
    ReaderKeepsInv(w, e.reader, r);
  }

  lemma ReaderStepKeepsInv(w: World, e: Event)
    requires Inv(w) && Enabled(w, e)
    requires e.OpenMenu? || e.LockMenu? || e.Summarize? || e.ReadPage? || e.Recheck?
    ensures Inv(Apply(w, e))
  {
    if e.OpenMenu? {
      CreateKeepsInv(w, w.clock);
      ReaderKeepsInv(w.(db := Created(w.db, w.clock)), e.reader, Opened(w.clock, e.request));
    } else if e.LockMenu? {
      LockMenuKeepsInv(w, e);
    } else {
      ReadStepKeepsInv(w, e);
    }
  }

  predicate WorkerStep(e: Event) {
    e.ClaimNext? || e.Compute? || e.CommitWork? || e.FailWork? || e.Crash?
  }

  lemma WorkerStepKeepsInv(w: World, e: Event)
    requires Inv(w) && Enabled(w, e) && WorkerStep(e)
    ensures Inv(Apply(w, e))
  {
    match e
    case ClaimNext(id) => ClaimKeepsInv(w, id);
    case Compute(_, _, _) => ComputeKeepsInv(w, e);
    case CommitWork(id) => CommitKeepsInv(w, id);
    case FailWork(id) => FailKeepsInv(w, id);
    case Crash(id) => CrashKeepsInv(w, id);
  }

  lemma InvalidateAfterCommitKeepsInv(w: World)
    requires Inv(w) && Enabled(w, InvalidateAfterCommit)
    ensures Inv(Apply(w, InvalidateAfterCommit))
  {
    InvalidateKeepsInv(w);
    SettleKeepsInv(w.(db := Invalidated(w.db)), w.outstanding - 1);
  }

  predicate SourceStep(e: Event) {
    e.ChangeSource? || e.InvalidateAfterCommit? || e.InvalidateAnyway? || e.ChangeAndInvalidate?
  }

  lemma SourceStepKeepsInv(w: World, e: Event)
    requires Inv(w) && Enabled(w, e) && SourceStep(e)
    ensures Inv(Apply(w, e))
  {
    match e
    case ChangeSource(source) => ChangeKeepsInv(w, source);
    case InvalidateAfterCommit => InvalidateAfterCommitKeepsInv(w);
    case InvalidateAnyway => InvalidateKeepsInv(w);
    case ChangeAndInvalidate(source) => ChangeAndInvalidateKeepsInv(w, source);
  }

  lemma ClockStepKeepsInv(w: World, e: Event)
    requires Inv(w) && Enabled(w, e) && (e.Tick? || e.RecoverClaims? || e.ForgetView?)
    ensures Inv(Apply(w, e))
  {
    match e
    case Tick(to) => TickKeepsInv(w, to);
    case RecoverClaims(now) => RecoverKeepsInv(w, now);
    case ForgetView(now) => ForgetKeepsInv(w);
  }

  lemma StepKeepsInv(w: World, e: Event)
    requires Inv(w) && Enabled(w, e)
    ensures Inv(Apply(w, e))
  {
    if WorkerStep(e) { WorkerStepKeepsInv(w, e); }
    else if SourceStep(e) { SourceStepKeepsInv(w, e); }
    else if e.Tick? || e.RecoverClaims? || e.ForgetView? { ClockStepKeepsInv(w, e); }
    else { ReaderStepKeepsInv(w, e); }
  }

  lemma InitialInv(w: World)
    requires Initial(w)
    ensures Inv(w)
  {
  }

  lemma {:induction false} RunFromInv(ws: seq<World>, es: seq<Event>, i: nat)
    requires Run(ws, es) && Inv(ws[0]) && i < |ws|
    ensures Inv(ws[i])
  {
    if i > 0 {
      RunFromInv(ws, es, i - 1);
      StepKeepsInv(ws[i - 1], es[i - 1]);
    }
  }

  lemma RunKeepsInv(ws: seq<World>, es: seq<Event>, i: nat)
    requires Run(ws, es) && Initial(ws[0]) && i < |ws|
    ensures Inv(ws[i])
  {
    InitialInv(ws[0]);
    RunFromInv(ws, es, i);
  }

  // ---------------------------------------------------------------- main results

  /** The rows are one per permitted SKU, each computed from this source. */
  ghost predicate IsScanOf(rows: set<Row>, source: Source) {
    && (forall s :: s in source.skus <==> exists r :: r in rows && r.sku == s)
    && DistinctSkus(rows)
    && forall r :: r in rows ==> r.seen == source.observe(r.sku, r.computedAt)
  }

  /** Source changes of a run whose own invalidation has not come yet. */
  function Unreported(es: seq<Event>): int {
    if es == [] then 0
    else
      var last := es[|es| - 1];
      Unreported(es[..|es| - 1]) + (if last.ChangeSource? then 1 else if last.InvalidateAfterCommit? then -1 else 0)
  }

  lemma OutstandingStep(w: World, e: Event)
    requires Enabled(w, e)
    ensures Apply(w, e).outstanding - w.outstanding
      == if e.ChangeSource? then 1 else if e.InvalidateAfterCommit? then -1 else 0
  {
  }

  /** Outstanding are the changes of the run that were not reported yet. */
  lemma {:induction false} OutstandingIsHistory(ws: seq<World>, es: seq<Event>, i: nat)
    requires Run(ws, es) && Initial(ws[0]) && i < |ws|
    ensures ws[i].outstanding == Unreported(es[..i])
  {
    if i > 0 {
      OutstandingIsHistory(ws, es, i - 1);
      assert es[..i][..i - 1] == es[..i - 1];
      OutstandingStep(ws[i - 1], es[i - 1]);
    }
  }

  /** In every run: once ready with no invalidation outstanding, the table is
      exactly the scan it replaces, and holds no other generation. */
  lemma ReadyIsTheScan(ws: seq<World>, es: seq<Event>, i: nat)
    requires Run(ws, es) && Initial(ws[0]) && i < |ws|
    requires ws[i].outstanding == 0 && ws[i].db.view.Some? && ws[i].db.view.value.phase == Ready
    ensures IsScanOf(ws[i].db.rows, ws[i].source)
    ensures |ws[i].db.rows| == ws[i].db.view.value.processed
  {
    RunKeepsInv(ws, es, i);
    assert RowsAt(ws[i].db, ws[i].db.view.value.revision) == ws[i].db.rows;
  }

  /** In every run: pending means the build is behind, at most one worker can
      still commit, and that commit cannot violate the unique constraint. */
  lemma WorkersExclude(ws: seq<World>, es: seq<Event>, i: nat)
    requires Run(ws, es) && Initial(ws[0]) && i < |ws|
    ensures var w := ws[i];
      && (w.db.view.Some? ==>
        (w.db.view.value.phase == PendingPhase <==> w.db.view.value.buildRevision < w.db.view.value.revision))
      && (forall a, b :: a in w.workers && b in w.workers && Live(w.db, w.workers[a]) && Live(w.db, w.workers[b]) ==>
        a == b)
      && (forall a :: a in w.workers && Live(w.db, w.workers[a]) ==> w.db.view.value.phase == Claimed)
      && (forall a :: a in w.workers && Live(w.db, w.workers[a]) && w.workers[a].work.Computed? ==>
            !Collides(w.db.rows, NewRows(w.workers[a].claim.revision, w.workers[a].work.chunk)))
  {
    RunKeepsInv(ws, es, i);
    var w := ws[i];
    forall a | a in w.workers && Live(w.db, w.workers[a]) && w.workers[a].work.Computed?
      ensures !Collides(w.db.rows, NewRows(w.workers[a].claim.revision, w.workers[a].work.chunk))
    {
      assert WorkerOk(w, w.workers[a]);
      NeverCollides(w, w.workers[a]);
    }
  }

  /** A reader's two questions asked of the rows as they stand at the recheck. */
  ghost predicate OneReading(rows: set<Row>, request: Request, named: Source, listed: Source, page: seq<Row>,
      count: nat, summary: Summary) {
    var counted := Searched(named, request.search, rows);
    && summary == SummaryOf(counted)
    && count == |Kept(request.filter, counted)|
    && exists ordered ::
         && OrderedAs(ordered, Kept(request.filter, Searched(listed, request.search, rows)))
         && page == Slice(ordered, request.offset, request.limit, count)
  }

  /** A complete answer is one reading of one ready generation: summary, count
      and page are those of the rows present at the recheck, and the read began
before an expiry no row outlives. */
  lemma CompleteAnswerIsOneReading(ws: seq<World>, es: seq<Event>, i: nat, id: nat)
    requires Run(ws, es) && Initial(ws[0]) && i < |ws|
    requires id in ws[i].readers && ws[i].readers[id].Paged?
    requires var a := AfterRecheck(ws[i].db, ws[i].readers[id]); a.answer.Page? && a.answer.complete
    ensures var r := ws[i].readers[id];
      var a := AfterRecheck(ws[i].db, r).answer;
      var v := ws[i].db.view.value;
      && v.phase == Ready && v.revision == r.view.revision
      && (forall row :: row in ws[i].db.rows ==> row.revision == v.revision)
      && OneReading(ws[i].db.rows, r.request, r.named, r.listed, a.rows, a.count, a.summary)
      && v.expiresAt.Some? && v.generatedAt.Some? && r.now < v.expiresAt.value <= v.generatedAt.value + 300
      && (forall row :: row in ws[i].db.rows && row.seen.ready && row.seen.dataAt.Some? ==>
            v.expiresAt.value <= row.seen.dataAt.value + 86400)
      && (v.expiresAt.value == v.generatedAt.value + 300
          || exists row :: row in ws[i].db.rows && row.seen.ready && row.seen.dataAt.Some?
               && v.expiresAt.value == row.seen.dataAt.value + 86400)
  {
    RunKeepsInv(ws, es, i);
    var w, r := ws[i], ws[i].readers[id];
    assert ReaderOk(w, r);
    var v := w.db.view.value;
    assert RowsAt(w.db, v.revision) == w.db.rows;
    CountIsKept(Searched(r.named, r.request.search, w.db.rows), r.request.filter);
  }

  /** The count is the length of the list, by the names of the page's own query,
      that the page is a slice of. */
  ghost predicate Agrees(rows: set<Row>, request: Request, listed: Source, page: seq<Row>, count: nat) {
    exists ordered ::
      && OrderedAs(ordered, Kept(request.filter, Searched(listed, request.search, rows)))
      && count == |ordered|
      && page == ordered[Min(request.offset, count)..Min(request.offset + request.limit, count)]
  }

  /** With no search text, or none that a renaming in between could affect, the
      count is the number of rows the page is cut from. */
  lemma UnsearchedAnswerAgrees(rows: set<Row>, request: Request, named: Source, listed: Source, page: seq<Row>,
      count: nat, summary: Summary)
    requires OneReading(rows, request, named, listed, page, count, summary)
    requires request.search == "" || named.matches == listed.matches
    ensures Agrees(rows, request, listed, page, count)
  {
    assert Searched(named, request.search, rows) == Searched(listed, request.search, rows);
    SlicedAgrees(rows, request, named, listed, page, count, summary);
  }

  /** Where the two queries keep equally many rows, the answer agrees. */
  lemma SlicedAgrees(rows: set<Row>, request: Request, named: Source, listed: Source, page: seq<Row>, count: nat,
      summary: Summary)
    requires OneReading(rows, request, named, listed, page, count, summary)
    requires |Kept(request.filter, Searched(named, request.search, rows))|
      == |Kept(request.filter, Searched(listed, request.search, rows))|
    ensures Agrees(rows, request, listed, page, count)
  {
    var ordered :| OrderedAs(ordered, Kept(request.filter, Searched(listed, request.search, rows)))
      && page == Slice(ordered, request.offset, request.limit, count);
    assert OrderedAs(ordered, Kept(request.filter, Searched(listed, request.search, rows))) && count == |ordered|;
  }

  /** What a menu request is told once it has locked the record: failed exactly
      if the record has failed and is not yet to be built again; building exactly while the current revision has no row;
        else it
      goes on to read the revision it locked. */
  lemma LockTells(w: World, id: nat)
    requires Inv(w) && Enabled(w, LockMenu(id))
    ensures var was, r, w' := w.db.view.value, w.readers[id], Apply(w, LockMenu(id));
      var again := r.request.refresh
        || (was.phase == Failed && was.updatedAt < r.now - 30)
        || (was.phase == Ready && was.expiresAt.value <= r.now);
      var building := was.phase != Failed && was.phase != Ready && RowsAt(w.db, was.revision) == {};
      && w'.db.rows == w.db.rows && w'.db.view.Some?
      && w'.db.view.value.revision == (if again then was.revision + 1 else was.revision)
      && (w'.db.view.value.phase == PendingPhase <==> again || was.phase == PendingPhase)
      && (w'.readers[id] == Answered(NoAnswer(true)) <==> was.phase == Failed && !again)
      && (w'.readers[id] == Answered(NoAnswer(false)) <==> again || building)
      && (w'.readers[id] == Locked(r.now, r.request, w'.db.view.value)
          <==> !again && was.phase != Failed && !building)
  {
    assert Inv(w);
  }

  /** What the last question decides: the answer is shown exactly if the record
      still has the revision that was read and is neither pending nor failed. */
  lemma RecheckTells(w: World, id: nat)
    requires Enabled(w, Recheck(id))
    ensures var r, w' := w.readers[id], Apply(w, Recheck(id));
      var shown := w.db.view.Some? && w.db.view.value.pk == r.view.pk && w.db.view.value.revision == r.view.revision
        && w.db.view.value.phase != PendingPhase && w.db.view.value.phase != Failed;
      w'.readers[id].Answered?
      && var a := w'.readers[id].answer;
        (if shown then a.Page? && a.rows == r.page && a.summary == r.summary && (a.complete <==> r.view.phase == Ready)
         else a == NoAnswer(false))
  {
  }

  predicate ReadyFor(w: World, id: nat) {
    && id in w.readers && w.readers[id].Opened? && !w.readers[id].request.refresh
    && w.db.view.Some? && w.db.view.value.phase == Ready && w.db.view.value.expiresAt.Some?
    && w.readers[id].now < w.db.view.value.expiresAt.value
  }

  /** A complete answer that is one reading of these rows by one source, in
      ascending order of SKU code and then SKU, with the count it lists. */
  ghost predicate CompletelyAnswered(r: Reader, request: Request, rows: set<Row>, source: Source) {
    && r.Answered? && r.answer.Page? && r.answer.complete
    && OneReading(rows, request, source, source, r.answer.rows, r.answer.count, r.answer.summary)
    && Agrees(rows, request, source, r.answer.rows, r.answer.count)
    && (forall i, j :: 0 <= i < j < |r.answer.rows| ==> var a, b := r.answer.rows[i], r.answer.rows[j];
          a.seen.code < b.seen.code || (a.seen.code == b.seen.code && a.sku < b.sku))
  }

  lemma ReadRowsDistinct(w: World, request: Request, v: View)
    requires RowsOk(w.db)
    ensures DistinctSkus(Listed(w, request, v))
  {
  }

  /** From any state in which the view is ready and not expired, a request left
      alone runs through and is answered completely. */
  lemma UndisturbedReadAnswers(w: World, id: nat) returns (ws: seq<World>, es: seq<Event>)
    requires Inv(w) && ReadyFor(w, id)
    ensures Run(ws, es) && ws[0] == w && |es| == 4
    ensures es[0] == LockMenu(id) && es[1] == Summarize(id) && es[2].ReadPage? && es[2].reader == id
    ensures es[3] == Recheck(id)
    ensures ws[4].db.rows == w.db.rows && ws[4].db.view.Some? && ws[4].db.view.value.phase == Ready
    ensures id in ws[4].readers
    ensures CompletelyAnswered(ws[4].readers[id], w.readers[id].request, w.db.rows, w.source)
  {
    var w1 := LockReady(w, id);
    ws, es := SummarizeAndFinish(w1, id);
    Prepend(w, LockMenu(id), ws, es);
    ws, es := [w] + ws, [LockMenu(id)] + es;
  }

  lemma Prepend(w: World, e: Event, ws: seq<World>, es: seq<Event>)
    requires Enabled(w, e) && Run(ws, es) && ws[0] == Apply(w, e)
    ensures Run([w] + ws, [e] + es)
  {
  }

  lemma SummarizeAndFinish(w: World, id: nat) returns (ws: seq<World>, es: seq<Event>)
    requires HasLocked(w, id)
    ensures Run(ws, es) && ws[0] == w && |es| == 3
    ensures es[0] == Summarize(id) && es[1].ReadPage? && es[1].reader == id && es[2] == Recheck(id)
    ensures ws[3].db == w.db && id in ws[3].readers
    ensures CompletelyAnswered(ws[3].readers[id], w.readers[id].request, w.db.rows, w.source)
  {
    var w2 := SummarizeReady(w, id);
    ws, es := FinishRead(w2, id);
    Prepend(w, Summarize(id), ws, es);
    ws, es := [w] + ws, [Summarize(id)] + es;
  }

  lemma FinishRead(w: World, id: nat) returns (ws: seq<World>, es: seq<Event>)
    requires HasCounted(w, id)
    ensures Run(ws, es) && ws[0] == w && |es| == 2
    ensures es[0].ReadPage? && es[0].reader == id && es[1] == Recheck(id)
    ensures ws[2].db == w.db && id in ws[2].readers
    ensures CompletelyAnswered(ws[2].readers[id], w.readers[id].request, w.db.rows, w.source)
  {
    var ordered, w3 := ReadAPage(w, id);
    var w4 := ShowPage(w3, id, ordered);
    ws, es := [w, w3, w4], [ReadPage(id, ordered), Recheck(id)];
  }

  /** A reader that has counted one ready generation, which the record still is. */
  ghost predicate HasCounted(w: World, id: nat) {
    && id in w.readers && w.readers[id].Summarized? && w.readers[id].view.phase == Ready
    && w.db.view == Some(w.readers[id].view) && w.readers[id].named == w.source
    && w.readers[id].summary == SummaryOf(Searched(w.source, w.readers[id].request.search, w.db.rows))
    && (forall r :: r in w.db.rows ==> r.revision == w.readers[id].view.revision)
    && RowsOk(w.db)
  }

  /** And has cut its page of the rows in order. */
  ghost predicate HasPaged(w: World, id: nat, ordered: seq<Row>) {
    && id in w.readers && w.readers[id].Paged? && w.readers[id].view.phase == Ready
    && w.db.view == Some(w.readers[id].view)
    && var r := w.readers[id];
      && r.summary == SummaryOf(Searched(w.source, r.request.search, w.db.rows))
      && (forall row :: row in w.db.rows ==> row.hasSuggestion == HasSuggestion(row.seen))
      && OrderedAs(ordered, Kept(r.request.filter, Searched(w.source, r.request.search, w.db.rows)))
      && r.page == Slice(ordered, r.request.offset, r.request.limit, CountFor(r.summary, r.request.filter))
  }

  /** A reader that has locked one ready generation, which the record still is. */
  ghost predicate HasLocked(w: World, id: nat) {
    && id in w.readers && w.readers[id].Locked? && w.readers[id].view.phase == Ready
    && w.db.view == Some(w.readers[id].view)
    && (forall r :: r in w.db.rows ==> r.revision == w.readers[id].view.revision)
    && RowsOk(w.db)
  }

  lemma LockReady(w: World, id: nat) returns (w': World)
    requires Inv(w) && ReadyFor(w, id)
    ensures Enabled(w, LockMenu(id)) && w' == Apply(w, LockMenu(id))
    ensures HasLocked(w', id) && w'.source == w.source && w'.db.rows == w.db.rows
    ensures w'.readers[id].request == w.readers[id].request
  {
    w' := Apply(w, LockMenu(id));
    var v := w'.db.view.value;
    assert RowsOk(w.db);
    assert v == w.db.view.value.(requestedAt := w.readers[id].now);
    assert w'.readers[id] == Locked(w.readers[id].now, w.readers[id].request, v);
    assert RowsAt(w'.db, v.buildRevision) == RowsAt(w.db, v.buildRevision);
  }

  lemma SummarizeReady(w: World, id: nat) returns (w': World)
    requires HasLocked(w, id)
    ensures Enabled(w, Summarize(id)) && w' == Apply(w, Summarize(id))
    ensures HasCounted(w', id) && w'.source == w.source && w'.db == w.db
    ensures w'.readers[id].request == w.readers[id].request
  {
    w' := Apply(w, Summarize(id));
    assert RowsAt(w.db, w.readers[id].view.revision) == w.db.rows;
  }

  lemma ReadAPage(w: World, id: nat) returns (ordered: seq<Row>, w': World)
    requires HasCounted(w, id)
    ensures var request := w.readers[id].request;
      && OrderedAs(ordered, Kept(request.filter, Searched(w.source, request.search, w.db.rows)))
      && Enabled(w, ReadPage(id, ordered)) && w' == Apply(w, ReadPage(id, ordered))
    ensures HasPaged(w', id, ordered) && w'.db == w.db && w'.source == w.source
    ensures w'.readers[id].request == w.readers[id].request
  {
    var r := w.readers[id];
    assert RowsAt(w.db, r.view.revision) == w.db.rows;
    ReadRowsDistinct(w, r.request, r.view);
    ordered := OrderExists(Listed(w, r.request, r.view));
    w' := Apply(w, ReadPage(id, ordered));
  }

  lemma ShowPage(w: World, id: nat, ordered: seq<Row>) returns (w': World)
    requires HasPaged(w, id, ordered)
    ensures Enabled(w, Recheck(id)) && w' == Apply(w, Recheck(id)) && w'.db == w.db && id in w'.readers
    ensures CompletelyAnswered(w'.readers[id], w.readers[id].request, w.db.rows, w.source)
  {
    var r := w.readers[id];
    var count := CountFor(r.summary, r.request.filter);
    w' := Apply(w, Recheck(id));
    CountIsKept(Searched(w.source, r.request.search, w.db.rows), r.request.filter);
    assert OneReading(w.db.rows, r.request, w.source, w.source, r.page, count, r.summary);
    SlicedAgrees(w.db.rows, r.request, w.source, w.source, r.page, count, r.summary);
  }

  /** The rows of a view's generation that a filter keeps, whatever their names. */
  function KeptOf(w: World, request: Request, v: View): set<Row> {
    Kept(request.filter, RowsAt(w.db, v.revision))
  }

  lemma EverythingMatches(w: World, request: Request, v: View)
    requires RowsOk(w.db) && forall sku :: w.source.matches(request.search, sku)
    ensures CountFor(SummaryOf(Counted(w, request, v)), request.filter) == |KeptOf(w, request, v)|
  {
    assert Counted(w, request, v) == RowsAt(w.db, v.revision);
    CountIsKept(Counted(w, request, v), request.filter);
  }

  lemma NothingMatches(w: World, request: Request, v: View)
    requires request.search != "" && forall sku :: !w.source.matches(request.search, sku)
    ensures OrderedAs([], Listed(w, request, v))
  {
    assert Listed(w, request, v) == {};
  }

  lemma Chain(w: World, w1: World, w2: World, w3: World, e0: Event, e1: Event, e2: Event)
    requires Enabled(w, e0) && w1 == Apply(w, e0)
    requires Enabled(w1, e1) && w2 == Apply(w1, e1)
    requires Enabled(w2, e2) && w3 == Apply(w2, e2)
    ensures Run([w, w1, w2, w3], [e0, e1, e2])
  {
  }

  lemma OneMore(ws: seq<World>, es: seq<Event>, e: Event)
    requires Run(ws, es) && Enabled(ws[|es|], e)
    ensures Run(ws + [Apply(ws[|es|], e)], es + [e])
  {
  }

  /** A reader whose ready revision is still current, about to ask. */
  predicate AboutToRead(w: World, id: nat) {
    id in w.readers && w.readers[id].Locked? && w.readers[id].view.phase == Ready
      && StillCurrent(w.db, w.readers[id].view)
  }

  function Renamed(w: World, all: bool): Source {
    w.source.(matches := (text, sku) => all)
  }

  /** Renaming every product before the first query and again before the
      second: all rows are counted, none is listed. */
  lemma TornSchedule(w: World, id: nat) returns (ws: seq<World>, es: seq<Event>)
    requires RowsOk(w.db) && PositiveIds(w.source) && AboutToRead(w, id) && w.readers[id].request.search != ""
    ensures Run(ws, es) && |es| == 5 && ws[0] == w && es[4] == Recheck(id)
    ensures ws[4].db == w.db && id in ws[4].readers && ws[4].readers[id].Paged?
    ensures var r := ws[4].readers[id];
      && r.request == w.readers[id].request && r.view == w.readers[id].view && r.page == []
      && (forall sku :: !r.listed.matches(r.request.search, sku))
      && CountFor(r.summary, r.request.filter) == |KeptOf(w, r.request, r.view)|
  {
    var w1, w2, w3 := CountAll(w, id);
    var w4 := ListNone(w3, id);
    var es3 := [ChangeSource(Renamed(w, true)), Summarize(id), ChangeSource(Renamed(w, false))];
    Chain(w, w1, w2, w3, es3[0], es3[1], es3[2]);
    OneMore([w, w1, w2, w3], es3, ReadPage(id, []));
    OneMore([w, w1, w2, w3] + [w4], es3 + [ReadPage(id, [])], Recheck(id));
    ws, es := [w, w1, w2, w3] + [w4] + [Apply(w4, Recheck(id))], es3 + [ReadPage(id, [])] + [Recheck(id)];
  }

  lemma CountAll(w: World, id: nat) returns (w1: World, w2: World, w3: World)
    requires RowsOk(w.db) && PositiveIds(w.source) && AboutToRead(w, id)
    ensures Enabled(w, ChangeSource(Renamed(w, true))) && w1 == Apply(w, ChangeSource(Renamed(w, true)))
    ensures Enabled(w1, Summarize(id)) && w2 == Apply(w1, Summarize(id))
    ensures Enabled(w2, ChangeSource(Renamed(w, false))) && w3 == Apply(w2, ChangeSource(Renamed(w, false)))
    ensures w3.db == w.db && w3.source == Renamed(w, false) && id in w3.readers && w3.readers[id].Summarized?
    ensures var r := w3.readers[id];
      && r.request == w.readers[id].request && r.view == w.readers[id].view
      && CountFor(r.summary, r.request.filter) == |KeptOf(w, r.request, r.view)|
  {
    w1 := Apply(w, ChangeSource(Renamed(w, true)));
    EverythingMatches(w1, w.readers[id].request, w.readers[id].view);
    w2 := Apply(w1, Summarize(id));
    w3 := Apply(w2, ChangeSource(Renamed(w, false)));
  }

  lemma ListNone(w: World, id: nat) returns (w': World)
    requires id in w.readers && w.readers[id].Summarized? && w.readers[id].request.search != ""
    requires forall sku :: !w.source.matches(w.readers[id].request.search, sku)
    ensures Enabled(w, ReadPage(id, [])) && w' == Apply(w, ReadPage(id, []))
    ensures w'.db == w.db && id in w'.readers
    ensures var r, r' := w.readers[id], w'.readers[id];
      r' == Paged(r.now, r.request, r.view, r.summary, r.named, [], w.source)
  {
    NothingMatches(w, w.readers[id].request, w.readers[id].view);
    w' := Apply(w, ReadPage(id, []));
  }

  /** With a search text the two questions see the product names at two times:
      whatever the names are now, if any row of the generation lies past the
      offset, some complete answer counts rows and shows none. */
  lemma SearchedAnswerCanTear(w: World, id: nat) returns (ws: seq<World>, es: seq<Event>)
    requires RowsOk(w.db) && PositiveIds(w.source) && AboutToRead(w, id) && w.readers[id].request.search != ""
    requires |KeptOf(w, w.readers[id].request, w.readers[id].view)| > w.readers[id].request.offset
    ensures Run(ws, es) && |es| == 5 && ws[0] == w
    ensures id in ws[5].readers && ws[5].readers[id].Answered?
    ensures var answer := ws[5].readers[id].answer;
      answer.Page? && answer.complete && answer.rows == [] && answer.count > w.readers[id].request.offset
  {
    ws, es := TornSchedule(w, id);
    assert ws[5] == Apply(ws[4], es[4]);
  }

  /** The j-th event of a schedule gives the reader a complete answer. */
  ghost predicate Completes(ws: seq<World>, es: seq<Event>, j: nat, id: nat) {
    && Run(ws, es) && j < |es| && es[j] == Recheck(id) && id in ws[j].readers && ws[j].readers[id].Paged?
    && StillCurrent(ws[j].db, ws[j].readers[id].view) && ws[j].readers[id].view.phase == Ready
  }

  ghost predicate AgreesAt(w: World, id: nat)
    requires id in w.readers && w.readers[id].Paged?
  {
    var r := w.readers[id];
    Agrees(RowsAt(w.db, r.view.revision), r.request, r.listed, r.page, CountFor(r.summary, r.request.filter))
  }

  /** A reader goes on with the request and the view it locked. */
  lemma {:induction false} SameQuestion(ws: seq<World>, es: seq<Event>, j: nat, id: nat)
    requires Run(ws, es) && j < |ws| && id in ws[0].readers && Snapshot(ws[0].readers[id])
    ensures id in ws[j].readers
    ensures var r := ws[j].readers[id];
      r.Answered? || (Snapshot(r) && r.request == ws[0].readers[id].request && r.view == ws[0].readers[id].view)
  {
    if j > 0 {
      SameQuestion(ws, es, j - 1, id);
      SameQuestionStep(ws[j - 1], es[j - 1], id);
    }
  }

  lemma SameQuestionStep(w: World, e: Event, id: nat)
    requires Enabled(w, e) && id in w.readers && (w.readers[id].Answered? || Snapshot(w.readers[id]))
    ensures id in Apply(w, e).readers
    ensures var r, r' := w.readers[id], Apply(w, e).readers[id];
      r'.Answered? || (Snapshot(r) && Snapshot(r') && r'.request == r.request && r'.view == r.view)
  {
  }

  /** The generation a complete answer comes from is the one locked. */
  lemma SameGeneration(ws: seq<World>, es: seq<Event>, j: nat, id: nat)
    requires Completes(ws, es, j, id) && Inv(ws[0]) && AboutToRead(ws[0], id)
    ensures ws[j].readers[id].request == ws[0].readers[id].request && ws[j].readers[id].view == ws[0].readers[id].view
    ensures ws[j].db.rows == ws[0].db.rows && Inv(ws[j])
  {
    SameQuestion(ws, es, j, id);
    RunFromInv(ws, es, j);
    var v := ws[0].readers[id].view;
    assert ReaderOk(ws[0], ws[0].readers[id]);
    ReadyThroughout(ws, es, 0, j, j, v, ws[0].db.rows);
  }

  /** A schedule's complete answer is one reading of the locked generation. */
  lemma CompletesAsOneReading(w: World, id: nat)
    requires Inv(w) && id in w.readers && w.readers[id].Paged?
    requires StillCurrent(w.db, w.readers[id].view) && w.readers[id].view.phase == Ready
    ensures var r := w.readers[id];
      OneReading(RowsAt(w.db, r.view.revision), r.request, r.named, r.listed, r.page,
        CountFor(r.summary, r.request.filter), r.summary)
  {
    var r := w.readers[id];
    assert ReaderOk(w, r);
    CountIsKept(Searched(r.named, r.request.search, RowsAt(w.db, r.view.revision)), r.request.filter);
  }

  lemma AgreesIfHarmless(w: World, id: nat)
    requires Inv(w) && id in w.readers && w.readers[id].Paged?
    requires StillCurrent(w.db, w.readers[id].view) && w.readers[id].view.phase == Ready
    requires w.readers[id].request.search == "" || KeptOf(w, w.readers[id].request, w.readers[id].view) == {}
    ensures AgreesAt(w, id)
  {
    var r := w.readers[id];
    var rows, count := RowsAt(w.db, r.view.revision), CountFor(r.summary, r.request.filter);
    CompletesAsOneReading(w, id);
    if r.request.search == "" {
      UnsearchedAnswerAgrees(rows, r.request, r.named, r.listed, r.page, count, r.summary);
    } else {
      NoneKept(rows, r.request, r.named);
      NoneKept(rows, r.request, r.listed);
      SlicedAgrees(rows, r.request, r.named, r.listed, r.page, count, r.summary);
    }
  }

  lemma NoneKept(rows: set<Row>, request: Request, names: Source)
    requires Kept(request.filter, rows) == {}
    ensures Kept(request.filter, Searched(names, request.search, rows)) == {}
  {
    forall r | r in Kept(request.filter, Searched(names, request.search, rows))
      ensures r in Kept(request.filter, rows) {}
  }

  /** From any state in which a reader has locked a ready view: every complete
      answer that any schedule gives it agrees, if and only if there is no
      search text or no row of the generation passes the filter. */
  lemma TearsExactlyWhenSearched(w: World, id: nat)
    requires Inv(w) && AboutToRead(w, id)
    ensures (forall ws, es, j :: Completes(ws, es, j, id) && ws[0] == w ==> AgreesAt(ws[j], id)) <==>
      (w.readers[id].request.search == "" || KeptOf(w, w.readers[id].request, w.readers[id].view) == {})
  {
    var r := w.readers[id];
    if r.request.search == "" || KeptOf(w, r.request, r.view) == {} {
      forall ws, es, j | Completes(ws, es, j, id) && ws[0] == w ensures AgreesAt(ws[j], id) {
        SameGeneration(ws, es, j, id);
        assert KeptOf(ws[j], r.request, r.view) == KeptOf(w, r.request, r.view);
        AgreesIfHarmless(ws[j], id);
      }
    } else {
      var ws, es := TornSchedule(w, id);
      TornDoesNotAgree(w, ws[4], id);
      assert Completes(ws, es, 4, id);
    }
  }

  lemma TornDoesNotAgree(w: World, w': World, id: nat)
    requires w'.db == w.db && id in w'.readers && w'.readers[id].Paged?
    requires var r := w'.readers[id];
      && KeptOf(w, r.request, r.view) != {} && r.request.search != ""
        && (forall sku :: !r.listed.matches(r.request.search, sku))
      && CountFor(r.summary, r.request.filter) == |KeptOf(w, r.request, r.view)|
    ensures !AgreesAt(w', id)
  {
    var r := w'.readers[id];
    var rows := RowsAt(w'.db, r.view.revision);
    assert Searched(r.listed, r.request.search, rows) == {};
    assert Kept(r.request.filter, Searched(r.listed, r.request.search, rows)) == {};
  }

  predicate Shows(db: Database, v: View) {
    db.view.Some? && db.view.value.pk == v.pk && db.view.value.revision == v.revision
  }

  ghost predicate Serves(db: Database, v: View, rows: set<Row>) {
    Shows(db, v) && db.view.value.phase == Ready && db.rows == rows && db.view.value.expiresAt == v.expiresAt
  }

  /** A revision that is over never comes back, not even by re-creating the record. */
  predicate Over(db: Database, v: View) {
    && v.pk < db.nextPk
    && (db.view.Some? && db.view.value.pk == v.pk ==> db.view.value.revision > v.revision)
  }

  lemma ReadyServesOrIsOver(w: World, e: Event, v: View, rows: set<Row>)
    requires Inv(w) && Enabled(w, e) && Serves(w.db, v, rows)
    ensures Serves(Apply(w, e).db, v, rows) || Over(Apply(w, e).db, v)
  {
    if e.CommitWork? || e.FailWork? {
      var id := e.worker;
      assert WorkerOk(w, w.workers[id]);
    }
  }

  lemma OverStaysOver(w: World, e: Event, v: View)
    requires Inv(w) && Enabled(w, e) && Over(w.db, v)
    ensures Over(Apply(w, e).db, v)
  {
  }

  lemma {:induction false} OverForGood(ws: seq<World>, es: seq<Event>, i: nat, k: nat, v: View)
    requires Run(ws, es) && Inv(ws[0]) && i <= k < |ws| && Over(ws[i].db, v)
    ensures Over(ws[k].db, v)
  {
    if i < k {
      OverForGood(ws, es, i, k - 1, v);
      RunFromInv(ws, es, k - 1);
      OverStaysOver(ws[k - 1], es[k - 1], v);
    }
  }

  /** If a revision was ready when a read locked it and is current at the
      recheck, it was ready, with the very same rows, all the way between. */
  lemma {:induction false} ReadyThroughout(ws: seq<World>, es: seq<Event>, i: nat, k: nat, j: nat, v: View,
      rows: set<Row>)
    requires Run(ws, es) && Inv(ws[0]) && i <= k <= j < |ws|
    requires Serves(ws[i].db, v, rows) && Shows(ws[j].db, v)
    ensures Serves(ws[k].db, v, rows)
  {
    if i < k {
      ReadyThroughout(ws, es, i, k - 1, j, v, rows);
      RunFromInv(ws, es, k - 1);
      ReadyServesOrIsOver(ws[k - 1], es[k - 1], v, rows);
      if Over(ws[k].db, v) {
        OverForGood(ws, es, k, j, v);
        assert false;
      }
    }
  }

  // ---------------------------------------------------------------- the record without its readers

  /** Every report of a change starts a new revision, once; a pending view is
      already waiting for it. */
  lemma InvalidationIs(w: World, e: Event)
    requires Enabled(w, e) && w.db.view.Some?
    requires e.InvalidateAfterCommit? || e.InvalidateAnyway? || e.ChangeAndInvalidate?
    ensures var v, db := w.db.view.value, Apply(w, e).db;
      && db.view.Some? && db.view.value.phase == PendingPhase && db.rows == w.db.rows
      && db.view.value.revision == (if v.phase == PendingPhase then v.revision else v.revision + 1)
      && db.view.value.requestedAt == v.requestedAt
  {
  }

  /** Recovery takes a claim of more than five minutes from its worker, who can
      commit nothing any more; a view nobody asked for in a day goes with its
      rows; a worker that fails marks the view it still holds. */
  lemma HousekeepingIs(w: World, e: Event)
    requires Inv(w) && Enabled(w, e) && w.db.view.Some? && (e.RecoverClaims? || e.ForgetView? || e.FailWork?)
    ensures var v, w' := w.db.view.value, Apply(w, e);
      match e
      case RecoverClaims(now) =>
        if v.phase == Claimed && v.updatedAt < now - 300
        then
          && w'.db == w.db.(view := Some(v.(phase := PendingPhase, revision := v.revision + 1)))
          && forall id :: id in w'.workers ==> !Live(w'.db, w'.workers[id])
        else w'.db == w.db
      case ForgetView(now) =>
        if v.requestedAt < now - 86400 then w'.db.view == None && w'.db.rows == {} else w'.db == w.db
      case FailWork(id) =>
        w'.db == if Live(w.db, w.workers[id]) then w.db.(view := Some(v.(phase := Failed))) else w.db
      case _ => true
  {
    if e.RecoverClaims? {
      forall id | id in w.workers ensures Live(Apply(w, e).db, w.workers[id]) ==> Live(w.db, w.workers[id]) {
        assert WorkerOk(w, w.workers[id]);
      }
    }
  }

  // ---------------------------------------------------------------- progress

  /** Where the next claim starts to read. */
  function ClaimCursor(v: View): int {
    if v.buildRevision != v.revision then 0 else v.cursor
  }

  /** The permitted SKUs that the build has still to read. */
  function Ahead(skus: set<int>, cursor: int): set<int> {
    set s | s in skus && s > cursor
  }

  ghost function ChunkOf(source: Source, cursor: int, limit: nat, at: int): (chunk: Chunk)
    requires limit >= 1
    ensures ReadFrom(source, cursor, limit, chunk) && chunk.at == at
  {
    var found := Candidates(source.skus, cursor, limit + 1);
    var skus := found[..Min(limit, |found|)];
    Chunk(seq(|skus|, i requires 0 <= i < |skus| => Seen(skus[i], source.observe(skus[i], at))), |found| > limit, at)
  }

  /** One chunk claimed, computed while nothing changes, and committed: the view
      is ready, or fewer SKUs lie ahead. */
  lemma OneChunk(w: World, id: nat, limit: nat) returns (chunk: Chunk, w1: World, w2: World, w3: World)
    requires Inv(w) && Claimable(w.db) && id !in w.workers && limit >= 1
    ensures Enabled(w, ClaimNext(id)) && w1 == Apply(w, ClaimNext(id))
    ensures Enabled(w1, Compute(id, limit, chunk)) && w2 == Apply(w1, Compute(id, limit, chunk))
    ensures Enabled(w2, CommitWork(id)) && w3 == Apply(w2, CommitWork(id))
    ensures Inv(w3) && id !in w3.workers && w3.source == w.source && w3.outstanding == w.outstanding
    ensures w3.clock == w.clock && w3.readers == w.readers
    ensures w3.db.view.Some? && w3.db.view.value.phase == Ready ==> w3.db.view.value.generatedAt == Some(w.clock)
    ensures w3.db.view.Some? && w3.db.view.value.revision == w.db.view.value.revision
    ensures var before, after := w.db.view.value, w3.db.view.value;
      || after.phase == Ready
      || (after.phase == Building
          && 1 <= |Ahead(w.source.skus, ClaimCursor(after))| < |Ahead(w.source.skus, ClaimCursor(before))|)
  {
    w1 := Apply(w, ClaimNext(id));
    StepKeepsInv(w, ClaimNext(id));
    var cursor := w1.workers[id].claim.cursor;
    chunk := ChunkOf(w.source, cursor, limit, w1.clock);
    ReadIsWellShaped(w.source, cursor, limit, chunk);
    w2 := Apply(w1, Compute(id, limit, chunk));
    StepKeepsInv(w1, Compute(id, limit, chunk));
    w3 := Apply(w2, CommitWork(id));
    StepKeepsInv(w2, CommitWork(id));
    assert WorkerOk(w2, w2.workers[id]);
    NeverCollides(w2, w2.workers[id]);
    if chunk.more { FewerAhead(w.source, cursor, limit, chunk); }
  }

  lemma FewerAhead(source: Source, cursor: int, limit: nat, chunk: Chunk)
    requires limit >= 1 && ReadFrom(source, cursor, limit, chunk) && chunk.more
    ensures chunk.seen != []
    ensures 1 <= |Ahead(source.skus, chunk.seen[|chunk.seen| - 1].sku)| < |Ahead(source.skus, cursor)|
  {
    CandidatesAreNext(source.skus, cursor, limit + 1);
    var last := chunk.seen[|chunk.seen| - 1].sku;
    assert last in Ahead(source.skus, cursor) && last !in Ahead(source.skus, last);
    Smaller(Ahead(source.skus, last), Ahead(source.skus, cursor), last);
    assert Candidates(source.skus, cursor, limit + 1)[limit] in Ahead(source.skus, last);
  }

  lemma Smaller(small: set<int>, big: set<int>, extra: int)
    requires small <= big && extra in big && extra !in small
    ensures |small| < |big|
  {
    assert big == small + (big - small) && small !! big - small;
    assert extra in big - small;
    assert |big| == |small| + |big - small|;
  }

  /** Nothing happens but this worker's claims, chunks and commits. */
  predicate OnlyWork(es: seq<Event>, from: nat, id: nat) {
    forall k :: from <= k < |es| ==> (es[k].ClaimNext? || es[k].Compute? || es[k].CommitWork?) && es[k].worker == id
  }

  /** One more chunk at the end of a run. */
  lemma ExtendByChunk(ws: seq<World>, es: seq<Event>, id: nat, limit: nat) returns (ws': seq<World>, es': seq<Event>)
    requires Run(ws, es) && limit >= 1
    requires var w := ws[|es|]; Inv(w) && Claimable(w.db) && id !in w.workers
    ensures Run(ws', es') && |es'| == |es| + 3 && ws'[..|ws|] == ws && es'[..|es|] == es && OnlyWork(es', |es|, id)
    ensures var w, w' := ws[|es|], ws'[|es'|];
      && Inv(w') && id !in w'.workers && w'.source == w.source && w'.outstanding == w.outstanding
      && w'.clock == w.clock && w'.readers == w.readers
      && w'.db.view.Some? && w'.db.view.value.revision == w.db.view.value.revision
      && ((w'.db.view.value.phase == Ready && w'.db.view.value.generatedAt == Some(w.clock))
          || (w'.db.view.value.phase == Building
              && 1 <= |Ahead(w.source.skus, ClaimCursor(w'.db.view.value))|
                < |Ahead(w.source.skus, ClaimCursor(w.db.view.value))|))
  {
    var w := ws[|es|];
    var chunk, w1, w2, w3 := OneChunk(w, id, limit);
    ws', es' := ThreeMore(ws, es, ClaimNext(id), Compute(id, limit, chunk), CommitWork(id), w1, w2, w3);
  }

  lemma ThreeMore(ws: seq<World>, es: seq<Event>, e: Event, f: Event, g: Event, w1: World, w2: World, w3: World)
      returns (ws': seq<World>, es': seq<Event>)
    requires Run(ws, es) && Enabled(ws[|es|], e) && w1 == Apply(ws[|es|], e)
    requires Enabled(w1, f) && w2 == Apply(w1, f)
    requires Enabled(w2, g) && w3 == Apply(w2, g)
    ensures Run(ws', es') && |es'| == |es| + 3 && ws'[..|ws|] == ws && es'[..|es|] == es && ws'[|es'|] == w3
    ensures es'[|es|] == e && es'[|es| + 1] == f && es'[|es| + 2] == g
  {
    OneMore(ws, es, e);
    OneMore(ws + [w1], es + [e], f);
    OneMore(ws + [w1] + [w2], es + [e] + [f], g);
    ws' := ws + [w1] + [w2] + [w3];
    es' := es + [e] + [f] + [g];
  }

  /** From any state in which the view waits to be built, one worker left alone
      makes it ready: with one chunk, or no more than there are SKUs ahead. */
  lemma {:induction false} BuildGetsReady(ws: seq<World>, es: seq<Event>, id: nat, limit: nat)
      returns (ws': seq<World>, es': seq<Event>)
    requires Run(ws, es) && limit >= 1
    requires var w := ws[|es|]; Inv(w) && Claimable(w.db) && id !in w.workers
    ensures Run(ws', es') && |es'| >= |es| && ws'[..|ws|] == ws && es'[..|es|] == es && OnlyWork(es', |es|, id)
    ensures |es'| - |es| <= 3 * Max(1, |Ahead(ws[|es|].source.skus, ClaimCursor(ws[|es|].db.view.value))|)
    ensures var w, w' := ws[|es|], ws'[|es'|];
      && Inv(w') && w'.source == w.source && w'.outstanding == w.outstanding
      && w'.clock == w.clock && w'.readers == w.readers
      && w'.db.view.Some? && w'.db.view.value.phase == Ready && w'.db.view.value.revision == w.db.view.value.revision
      && w'.db.view.value.generatedAt == Some(w.clock)
    decreases |Ahead(ws[|es|].source.skus, ClaimCursor(ws[|es|].db.view.value))|
  {
    ws', es' := ExtendByChunk(ws, es, id, limit);
    if ws'[|es'|].db.view.value.phase != Ready {
      var n, m := |es'|, |ws'|;
      ghost var first, events := ws', es';
      ws', es' := BuildGetsReady(ws', es', id, limit);
      assert ws'[..|ws|] == ws'[..m][..|ws|] && es'[..|es|] == es'[..n][..|es|];
      forall k | |es| <= k < |es'|
        ensures (es'[k].ClaimNext? || es'[k].Compute? || es'[k].CommitWork?) && es'[k].worker == id
      {
        if k < n { assert es'[k] == es'[..n][k]; }
      }
    }
  }

  /** A first menu request, then one worker: the menu is ready and is the scan. */
  lemma MenuGetsReady(w: World, reader: nat, request: Request, id: nat, limit: nat)
      returns (ws: seq<World>, es: seq<Event>)
    requires Initial(w) && limit >= 1
    ensures Run(ws, es) && ws[0] == w && |es| <= 1 + 3 * Max(1, |w.source.skus|)
    ensures var w' := ws[|es|];
      && Inv(w') && w'.clock == w.clock && w'.source == w.source && w'.outstanding == 0
      && (forall other :: other in w'.readers ==> other == reader)
      && w'.db.view.Some? && w'.db.view.value.phase == Ready && w'.db.view.value.generatedAt == Some(w.clock)
      && IsScanOf(w'.db.rows, w.source)
  {
    var open_ := OpenMenu(reader, request);
    var w1 := Apply(w, open_);
    InitialInv(w);
    StepKeepsInv(w, open_);
    assert Run([w], []);
    OneMore([w], [], open_);
    assert [w] + [w1] == [w, w1] && [] + [open_] == [open_];
    ws, es := BuildGetsReady([w, w1], [open_], id, limit);
    assert ws[0] == ws[..2][0];
    assert Ahead(w.source.skus, 0) == w.source.skus;
    ReadyIsTheScan(ws, es, |es|);
  }

  lemma Join(ws: seq<World>, es: seq<Event>, ws': seq<World>, es': seq<Event>)
    requires Run(ws, es) && Run(ws', es') && ws'[0] == ws[|es|]
    ensures Run(ws + ws'[1..], es + es') && (ws + ws'[1..])[|es + es'|] == ws'[|es'|]
  {
  }

  /** No SKU shows stock data that is already a day old. */
  ghost predicate FreshData(source: Source, now: int) {
    forall s, t :: s in source.skus && t <= now ==>
      var o := source.observe(s, t);
      o.ready && o.dataAt.Some? ==> now < o.dataAt.value + 86400
  }

  /** Opening the menu once it is built and reading it. */
  lemma OpenAndRead(w: World, reader: nat, request: Request) returns (ws: seq<World>, es: seq<Event>)
    requires Inv(w) && reader !in w.readers && !request.refresh && FreshData(w.source, w.clock)
    requires w.outstanding == 0 && w.db.view.Some? && w.db.view.value.phase == Ready
    requires w.db.view.value.generatedAt == Some(w.clock)
    ensures Run(ws, es) && ws[0] == w && |es| == 5
    ensures ws[5].db.rows == w.db.rows && reader in ws[5].readers
    ensures CompletelyAnswered(ws[5].readers[reader], request, w.db.rows, w.source)
  {
    NotExpired(w);
    var w1 := Reopened(w, reader, request);
    ws, es := UndisturbedReadAnswers(w1, reader);
    Prepend(w, OpenMenu(reader, request), ws, es);
    ws, es := [w] + ws, [OpenMenu(reader, request)] + es;
  }

  lemma Reopened(w: World, reader: nat, request: Request) returns (w': World)
    requires Inv(w) && reader !in w.readers && !request.refresh
    requires w.db.view.Some? && w.db.view.value.phase == Ready
    requires w.db.view.value.expiresAt.Some? && w.clock < w.db.view.value.expiresAt.value
    ensures Enabled(w, OpenMenu(reader, request)) && w' == Apply(w, OpenMenu(reader, request))
    ensures Inv(w') && w'.db == w.db && w'.source == w.source
    ensures ReadyFor(w', reader) && w'.readers[reader].request == request
  {
    w' := Apply(w, OpenMenu(reader, request));
    StepKeepsInv(w, OpenMenu(reader, request));
  }

  /** A view made ready just now from fresh data has not expired. */
  lemma NotExpired(w: World)
    requires Inv(w) && FreshData(w.source, w.clock)
    requires w.outstanding == 0 && w.db.view.Some? && w.db.view.value.phase == Ready
    requires w.db.view.value.generatedAt == Some(w.clock)
    ensures w.db.view.value.expiresAt.Some? && w.clock < w.db.view.value.expiresAt.value
  {
    var v := w.db.view.value;
    var rows := RowsAt(w.db, v.revision);
    var known :| Earliest(known, rows) && v.expiresAt == Sooner(Some(w.clock + FIVE_MINUTES), known);
    assert ScansUpTo(w, v);
    if known.Some? {
      var r :| r in rows && Deadline(r.seen) == known;
      assert r.seen == w.source.observe(r.sku, r.computedAt);
    }
  }

  /** A first menu request, one worker, and a second request: the user sees the
      page of the scan that was asked for. */
  lemma MenuShowsTheScan(w: World, reader: nat, request: Request, id: nat, limit: nat, again: nat, question: Request)
      returns (ws: seq<World>, es: seq<Event>)
    requires Initial(w) && limit >= 1 && again != reader && !question.refresh && FreshData(w.source, w.clock)
    ensures Run(ws, es) && ws[0] == w && |es| <= 6 + 3 * Max(1, |w.source.skus|)
    ensures IsScanOf(ws[|es|].db.rows, w.source) && again in ws[|es|].readers
    ensures CompletelyAnswered(ws[|es|].readers[again], question, ws[|es|].db.rows, w.source)
  {
    ws, es := MenuGetsReady(w, reader, request, id, limit);
    var ws', es' := OpenAndRead(ws[|es|], again, question);
    Join(ws, es, ws', es');
    ws, es := ws + ws'[1..], es + es';
  }

  /** A waiting view, whatever stopped it: the wait that ends it, and a build. */
  lemma WaitUntilClaimable(w: World, reader: nat, request: Request) returns (ws: seq<World>, es: seq<Event>)
    requires Inv(w) && w.db.view.Some? && w.db.view.value.phase != Ready
    requires reader !in w.readers && !request.refresh
    ensures Run(ws, es) && ws[0] == w && |es| <= 3
    ensures Inv(ws[|es|]) && Claimable(ws[|es|].db) && ws[|es|].workers == w.workers
    ensures ws[|es|].source == w.source && ws[|es|].outstanding == w.outstanding
  {
    var v := w.db.view.value;
    if v.phase == Claimed {
      ws, es := WaitForRecovery(w);
    } else if v.phase == Failed {
      ws, es := WaitForRetry(w, reader, request);
    } else {
      ws, es := [w], [];
    }
  }

  lemma WaitForRecovery(w: World) returns (ws: seq<World>, es: seq<Event>)
    requires Inv(w) && w.db.view.Some? && w.db.view.value.phase == Claimed
    ensures Run(ws, es) && ws[0] == w && |es| == 2
    ensures Inv(ws[2]) && Claimable(ws[2].db) && ws[2].workers == w.workers
    ensures ws[2].source == w.source && ws[2].outstanding == w.outstanding
  {
    var to := Max(w.clock, w.db.view.value.updatedAt + 301);
    var w1 := Apply(w, Tick(to));
    StepKeepsInv(w, Tick(to));
    var w2 := Apply(w1, RecoverClaims(to));
    StepKeepsInv(w1, RecoverClaims(to));
    ws, es := [w, w1, w2], [Tick(to), RecoverClaims(to)];
  }

  lemma WaitForRetry(w: World, reader: nat, request: Request) returns (ws: seq<World>, es: seq<Event>)
    requires Inv(w) && w.db.view.Some? && w.db.view.value.phase == Failed
    requires reader !in w.readers && !request.refresh
    ensures Run(ws, es) && ws[0] == w && |es| == 3
    ensures Inv(ws[3]) && Claimable(ws[3].db) && ws[3].workers == w.workers
    ensures ws[3].source == w.source && ws[3].outstanding == w.outstanding
  {
    var to := Max(w.clock, w.db.view.value.updatedAt + 31);
    var w1 := Apply(w, Tick(to));
    StepKeepsInv(w, Tick(to));
    var w2 := Apply(w1, OpenMenu(reader, request));
    StepKeepsInv(w1, OpenMenu(reader, request));
    assert w2.db == w.db && w2.readers[reader] == Opened(to, request);
    var w3 := LockAgain(w2, reader);
    ws, es := [w, w1, w2, w3], [Tick(to), OpenMenu(reader, request), LockMenu(reader)];
    Chain(w, w1, w2, w3, es[0], es[1], es[2]);
  }

  lemma LockAgain(w: World, id: nat) returns (w': World)
    requires Inv(w) && Enabled(w, LockMenu(id)) && w.db.view.value.phase == Failed
    requires w.db.view.value.updatedAt < w.readers[id].now - 30
    ensures w' == Apply(w, LockMenu(id)) && Inv(w') && Claimable(w'.db)
    ensures w'.workers == w.workers && w'.source == w.source && w'.outstanding == w.outstanding
  {
    w' := Apply(w, LockMenu(id));
    StepKeepsInv(w, LockMenu(id));
  }

  /** No reachable state is a dead end: whatever workers crashed, failed or lost
      their claim, waiting, one menu request and one worker make the view ready. */
  lemma NeverStuck(w: World, reader: nat, request: Request, id: nat, limit: nat)
      returns (ws: seq<World>, es: seq<Event>)
    requires Inv(w) && w.db.view.Some? && reader !in w.readers && !request.refresh && id !in w.workers && limit >= 1
    ensures Run(ws, es) && ws[0] == w
    ensures ws[|es|].source == w.source && ws[|es|].outstanding == w.outstanding
    ensures ws[|es|].db.view.Some? && ws[|es|].db.view.value.phase == Ready
  {
    if w.db.view.value.phase == Ready {
      ws, es := [w], [];
    } else {
      ws, es := WaitUntilClaimable(w, reader, request);
      ghost var first := ws;
      ws, es := BuildGetsReady(ws, es, id, limit);
      assert ws[0] == ws[..|first|][0];
    }
  }
}
