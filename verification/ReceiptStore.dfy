/**
 One-time receipts kept as files: a saver makes room and writes one, a taker
 marks it used and removes it, and anybody may stop at any point.

 A file is known by its inode, never used again; a name leads to at most one.
 The whole store shares a directory lock; each file has its own.
 */
module ReceiptStore {
  import opened Wrappers

  const CAPACITY: nat := 1000
  const REAP_LIMIT: nat := 64
  const REAP_SCAN: nat := 256
  const LIFETIME: nat := 120
  const MALFORMED_AGE: nat := 600

  /** The session, actor, tenant, store and configuration of a flow. */
  datatype Context = Context(session: string, actor: int, tenant: int, store: int, config: int)
  datatype Payload = Payload(context: Context, callback: string, exp: int, sealedAt: int)

  /** Sealed bytes decrypt to a payload; torn or partial ones do not. */
  datatype Content = Malformed | Sealed(payload: Payload) | Used

  /** Content is what a reader sees, durable what a power loss leaves. */
  datatype File = File(name: string, content: Content, durable: Content, mtime: int)

  datatype Claims = Claims(receipt: string, context: Context)
  datatype Taking = Taking(inode: int, claims: Claims, payload: Payload, at: int)

  /** The directory and its files; saved and returned are the history. */
  datatype Disk = Disk(now: int, names: map<string, int>, files: map<int, File>, saved: map<int, Payload>,
      returned: seq<Taking>)

  // ---------------------------------------------------------------- the tests of a file

  /** What the reaper may remove. */
  predicate Reapable(f: File, now: int) {
    match f.content
    case Used => true
    case Sealed(p) => p.exp <= now
    case Malformed => f.mtime < now - MALFORMED_AGE
  }

  /** A receipt that can still be taken, or a file that may still be written. */
  predicate Alive(f: File, now: int) {
    (f.content.Sealed? && now < f.content.payload.exp) || (f.content.Malformed? && now - 600 <= f.mtime)
  }

  predicate Linked(d: Disk, inode: int) {
    inode in d.files && d.files[inode].name in d.names && d.names[d.files[inode].name] == inode
  }

  /** What a taker accepts. */
  predicate Takeable(f: File, claims: Claims, now: int) {
    f.content.Sealed? && now <= f.content.payload.sealedAt + LIFETIME && now < f.content.payload.exp
      && claims.context == f.content.payload.context
  }

  predicate OldestFirst(d: Disk, a: string, b: string)
    requires a in d.names && b in d.names && d.names[a] in d.files && d.names[b] in d.files
  {
    d.files[d.names[a]].mtime <= d.files[d.names[b]].mtime
  }

  // ---------------------------------------------------------------- processes

  datatype Stage =
    | Saving
    | Reaping(rest: seq<string>, removed: nat)
    | ReapOpened(rest: seq<string>, removed: nat, inode: int)
    | ReapLocked(rest: seq<string>, removed: nat, inode: int)
    | Doomed(rest: seq<string>, removed: nat, inode: int)
    | Counted
    | Writing(inode: int, payload: Payload)
    | Syncing(inode: int)
    | Opened(claims: Claims, inode: int)
    | Locked(claims: Claims, inode: int)
    | Passed(take: Taking)
    | Torn(take: Taking)
    | Marked(take: Taking)
    | Synced(take: Taking)

  predicate InSave(s: Stage) {
    s.Saving? || s.Reaping? || s.ReapOpened? || s.ReapLocked? || s.Doomed? || s.Counted? || s.Writing? || s.Syncing?
  }

  predicate Consuming(s: Stage) {
    s.Passed? || s.Torn? || s.Marked? || s.Synced?
  }

  /** The file whose lock the stage holds. */
  function Held(s: Stage): Option<int> {
    if s.ReapLocked? || s.Doomed? || s.Locked? then Some(s.inode)
    else if Consuming(s) then Some(s.take.inode)
    else None
  }

  datatype World = World(disk: Disk, procs: map<int, Stage>, locks: map<int, int>, directory: Option<int>)

  datatype Event =
    | Tick(seconds: nat)
    | LockDirectory(p: int)
    | Glob(p: int, candidates: seq<string>)
    | ReapOpen(p: int)
    | ReapLock(p: int)
    | ReapJudge(p: int)
    | ReapUnlink(p: int)
    | Count(p: int)
    | Create(p: int, name: string, inode: int, context: Context, callback: string, until: int)
    | Write(p: int)
    | SaveSync(p: int)
    | Open(p: int, claims: Claims)
    | Lock(p: int)
    | Check(p: int)
    | Tear(p: int)
    | Mark(p: int)
    | TakeSync(p: int)
    | TakeUnlink(p: int)
    | Stop(p: int)
    | PowerLoss(lost: set<int>, torn: set<int>, names: map<string, int>)

  // ---------------------------------------------------------------- what a step does to the disk

  function PutContent(d: Disk, inode: int, content: Content): Disk
    requires inode in d.files
  {
    d.(files := d.files[inode := d.files[inode].(content := content, mtime := d.now)])
  }

  function SyncFile(d: Disk, inode: int): Disk
    requires inode in d.files
  {
    d.(files := d.files[inode := d.files[inode].(durable := d.files[inode].content)])
  }

  /** `_unlink_owned`: the name goes only while it leads to this very file. */
  function Unlinked(d: Disk, inode: int): Disk
    requires inode in d.files
  {
    if Linked(d, inode) then d.(names := d.names - {d.files[inode].name}) else d
  }

  function NewFile(d: Disk, name: string, inode: int): Disk {
    d.(names := d.names[name := inode], files := d.files[inode := File(name, Malformed, Malformed, d.now)])
  }

  function SealFile(d: Disk, inode: int, payload: Payload): Disk
    requires inode in d.files
  {
    PutContent(d, inode, Sealed(payload)).(saved := d.saved[inode := payload])
  }

  /** What is left of a file whose last writes were not synced: the content
      before them, bytes of both, or all of it. */
  function LeftOf(f: File, lost: bool, torn: bool): File {
    if f.content == f.durable then f
    else if torn then f.(content := Malformed, durable := Malformed)
    else if lost then f.(content := f.durable)
    else f
  }

  /** Unsynced contents may be lost or torn, and names come and go as they were. */
  function AfterPowerLoss(d: Disk, lost: set<int>, torn: set<int>, names: map<string, int>): Disk {
    d.(names := names, files := map i | i in d.files :: LeftOf(d.files[i], i in lost, i in torn))
  }

  // ---------------------------------------------------------------- steps of the world

  function At(w: World, p: int): Option<Stage> {
    if p in w.procs then Some(w.procs[p]) else None
  }

  function Go(w: World, p: int, s: Stage): World {
    w.(procs := w.procs[p := s])
  }

  /** Closing a file gives its lock back. */
  function Release(w: World, p: int, inode: int): World {
    w.(locks := w.locks - {inode})
  }

  function Finish(w: World, p: int): World {
    w.(procs := w.procs - {p}, directory := if w.directory == Some(p) then None else w.directory)
  }

  /** The stage's locks given back with the process gone. */
  function Gone(w: World, p: int, s: Stage): World {
    Finish(if Held(s).Some? then Release(w, p, Held(s).value) else w, p)
  }

  /** The oldest names, as many as one reap looks at. */
  ghost predicate Candidates(d: Disk, candidates: seq<string>) {
    && (forall i, j :: 0 <= i < j < |candidates| ==> candidates[i] != candidates[j])
    && |candidates| <= REAP_SCAN && (|candidates| < REAP_SCAN ==> forall n :: n in d.names ==> n in candidates)
    && (forall n :: n in candidates ==> n in d.names && d.names[n] in d.files)
    && (forall n, m :: n in candidates && m in d.names && m !in candidates && d.names[m] in d.files ==>
      OldestFirst(d, n, m))
  }

  ghost predicate Enabled(w: World, e: Event) {
    match e
    case Tick(_) => true
    case LockDirectory(p) => p !in w.procs && w.directory == None
    case Glob(p, candidates) => At(w, p) == Some(Saving) && Candidates(w.disk, candidates)
    case ReapOpen(p) => p in w.procs && w.procs[p].Reaping? && w.procs[p].rest != [] && w.procs[p].removed < REAP_LIMIT
    case ReapLock(p) => p in w.procs && w.procs[p].ReapOpened?
    case ReapJudge(p) => p in w.procs && w.procs[p].ReapLocked? && w.procs[p].inode in w.disk.files
    case ReapUnlink(p) => p in w.procs && w.procs[p].Doomed? && w.procs[p].inode in w.disk.files
    case Count(p) => p in w.procs && w.procs[p].Reaping? && (w.procs[p].rest == [] || w.procs[p].removed >= REAP_LIMIT)
    case Create(p, name, inode, _, _, _) => At(w, p) == Some(Counted) && inode !in w.disk.files
    case Write(p) => p in w.procs && w.procs[p].Writing? && w.procs[p].inode in w.disk.files
    case SaveSync(p) => p in w.procs && w.procs[p].Syncing? && w.procs[p].inode in w.disk.files
    case Open(p, _) => p !in w.procs
    case Lock(p) => p in w.procs && w.procs[p].Opened? && w.procs[p].inode !in w.locks
    case Check(p) => p in w.procs && w.procs[p].Locked? && w.procs[p].inode in w.disk.files
    case Tear(p) => p in w.procs && w.procs[p].Passed? && w.procs[p].take.inode in w.disk.files
    case Mark(p) => p in w.procs && w.procs[p].Torn? && w.procs[p].take.inode in w.disk.files
    case TakeSync(p) => p in w.procs && w.procs[p].Marked? && w.procs[p].take.inode in w.disk.files
    case TakeUnlink(p) => p in w.procs && w.procs[p].Synced? && w.procs[p].take.inode in w.disk.files
    case Stop(p) => p in w.procs
    case PowerLoss(_, _, names) => forall n :: n in names ==>
      names[n] in w.disk.files && w.disk.files[names[n]].name == n
  }

  ghost function Apply(w: World, e: Event): World
    requires Enabled(w, e)
  {
    var d := w.disk;
    match e
    case Tick(seconds) => w.(disk := d.(now := d.now + seconds))
    case LockDirectory(p) => Go(w, p, Saving).(directory := Some(p))
    case Glob(p, candidates) => Go(w, p, Reaping(candidates, 0))
    case ReapOpen(p) =>
      var s := w.procs[p];
      if s.rest[0] in d.names then Go(w, p, ReapOpened(s.rest[1..], s.removed, d.names[s.rest[0]]))
      else Go(w, p, Reaping(s.rest[1..], s.removed))
    case ReapLock(p) =>
      var s := w.procs[p];
      if s.inode in w.locks then Go(w, p, Reaping(s.rest, s.removed))
      else Go(w, p, ReapLocked(s.rest, s.removed, s.inode)).(locks := w.locks[s.inode := p])
    case ReapJudge(p) =>
      var s := w.procs[p];
      if Linked(d, s.inode) && Reapable(d.files[s.inode], d.now) then Go(w, p, Doomed(s.rest, s.removed, s.inode))
      else Release(Go(w, p, Reaping(s.rest, s.removed)), p, s.inode)
    case ReapUnlink(p) =>
      var s := w.procs[p];
      var removed := if Linked(d, s.inode) then s.removed + 1 else s.removed;
      Release(Go(w, p, Reaping(s.rest, removed)), p, s.inode).(disk := Unlinked(d, s.inode))
    case Count(p) => if |d.names| >= CAPACITY then Finish(w, p) else Go(w, p, Counted)
    case Create(p, name, inode, context, callback, until) =>
      if name in d.names then Finish(w, p)
      else
        var payload := Payload(context, callback, Min(until, d.now + LIFETIME), d.now);
        Go(w, p, Writing(inode, payload)).(disk := NewFile(d, name, inode))
    case Write(p) => var s := w.procs[p]; Go(w, p, Syncing(s.inode)).(disk := SealFile(d, s.inode, s.payload))
    case SaveSync(p) => Finish(w, p).(disk := SyncFile(d, w.procs[p].inode))
    case Open(p, claims) => if claims.receipt in d.names then Go(w, p, Opened(claims, d.names[claims.receipt])) else w
    case Lock(p) => var s := w.procs[p]; Go(w, p, Locked(s.claims, s.inode)).(locks := w.locks[s.inode := p])
    case Check(p) =>
      var s := w.procs[p];
      if Linked(d, s.inode) && Takeable(d.files[s.inode], s.claims, d.now)
      then Go(w, p, Passed(Taking(s.inode, s.claims, d.files[s.inode].content.payload, d.now)))
      else Gone(w, p, s)
    case Tear(p) => var t := w.procs[p].take; Go(w, p, Torn(t)).(disk := PutContent(d, t.inode, Malformed))
    case Mark(p) => var t := w.procs[p].take; Go(w, p, Marked(t)).(disk := PutContent(d, t.inode, Used))
    case TakeSync(p) => var t := w.procs[p].take; Go(w, p, Synced(t)).(disk := SyncFile(d, t.inode))
    case TakeUnlink(p) =>
      var t := w.procs[p].take;
      var after := if Linked(d, t.inode) then Unlinked(d, t.inode).(returned := d.returned + [t]) else d;
      Gone(w, p, w.procs[p]).(disk := after)
    case Stop(p) => Gone(w, p, w.procs[p])
    case PowerLoss(lost, torn, names) => World(AfterPowerLoss(d, lost, torn, names), map[], map[], None)
  }

  // ---------------------------------------------------------------- what every step keeps

  /** Locks and stages tell the same. */
  ghost predicate LocksOk(w: World) {
    && (forall i :: i in w.locks ==> w.locks[i] in w.procs && Held(w.procs[w.locks[i]]) == Some(i))
    && (forall p :: p in w.procs && Held(w.procs[p]).Some? ==> Holds(w, Held(w.procs[p]).value, p))
    && (forall p :: p in w.procs && InSave(w.procs[p]) ==> w.directory == Some(p))
    && (w.directory.Some? ==> w.directory.value in w.procs && InSave(w.procs[w.directory.value]))
  }

  predicate Holds(w: World, i: int, p: int) {
    i in w.locks && w.locks[i] == p
  }

  predicate Returned(d: Disk, inode: int) {
    exists k :: 0 <= k < |d.returned| && d.returned[k].inode == inode
  }

  predicate SavedAs(d: Disk, inode: int, payload: Payload) {
    inode in d.saved && d.saved[inode] == payload
  }

  /** What a taker has established of a receipt that it consumes. */
  predicate Claimed(d: Disk, t: Taking) {
    && SavedAs(d, t.inode, t.payload)
    && t.claims.context == t.payload.context && t.at < t.payload.exp && t.at <= t.payload.sealedAt + LIFETIME
  }

  predicate Consumes(d: Disk, t: Taking) {
    Linked(d, t.inode) && Claimed(d, t) && !Returned(d, t.inode) && d.files[t.inode].name == t.claims.receipt
  }

  predicate StageOk(d: Disk, s: Stage) {
    match s
    case Saving => true
    case Reaping(_, removed) => removed <= REAP_LIMIT
    case ReapOpened(_, removed, i) => removed < REAP_LIMIT && i in d.files
    case ReapLocked(_, removed, i) => removed < REAP_LIMIT && i in d.files
    case Doomed(_, removed, i) => removed < REAP_LIMIT && Linked(d, i) && Reapable(d.files[i], d.now)
    case Counted => |d.names| < CAPACITY
    case Writing(i, _) => i in d.files && i !in d.saved && d.files[i].content == d.files[i].durable == Malformed
    case Syncing(i) => i in d.files
    case Opened(c, i) => i in d.files && d.files[i].name == c.receipt
    case Locked(c, i) => i in d.files && d.files[i].name == c.receipt
    case Passed(t) => Consumes(d, t) && d.files[t.inode].content == Sealed(t.payload)
    case Torn(t) => Consumes(d, t) && d.files[t.inode].content == Malformed
    case Marked(t) => Consumes(d, t) && d.files[t.inode].content == Used
    case Synced(t) => Consumes(d, t) && d.files[t.inode].content == d.files[t.inode].durable == Used
  }

  predicate HoldsOnly(d: Disk, i: int, c: Content) {
    c.Sealed? ==> SavedAs(d, i, c.payload)
  }

  ghost predicate DiskOk(d: Disk) {
    && (forall n :: n in d.names ==> d.names[n] in d.files && d.files[d.names[n]].name == n)
    && (forall i :: i in d.files ==> HoldsOnly(d, i, d.files[i].content) && HoldsOnly(d, i, d.files[i].durable))
    && (forall i :: i in d.saved ==> i in d.files)
    && (forall k :: 0 <= k < |d.returned| ==> Spent(d, d.returned[k]))
    && (forall j, k :: 0 <= j < k < |d.returned| ==> d.returned[j].inode != d.returned[k].inode)
  }

  /** A returned receipt stays used, whatever is lost. */
  predicate Spent(d: Disk, t: Taking) {
    Claimed(d, t) && t.inode in d.files && d.files[t.inode].content == d.files[t.inode].durable == Used
  }

  ghost predicate StagesOk(w: World) {
    forall p :: p in w.procs ==> StageOk(w.disk, w.procs[p])
  }

  ghost predicate Inv(w: World) {
    LocksOk(w) && StagesOk(w) && DiskOk(w.disk)
  }

  // ---------------------------------------------------------------- locks

  lemma MoveKeepsLocks(w: World, p: int, s: Stage)
    requires LocksOk(w) && p in w.procs && Held(s) == Held(w.procs[p]) && InSave(s) == InSave(w.procs[p])
    ensures LocksOk(Go(w, p, s))
  {
  }

  lemma AcquireKeepsLocks(w: World, p: int, s: Stage, i: int)
    requires LocksOk(w) && p in w.procs && Held(w.procs[p]) == None && i !in w.locks
    requires Held(s) == Some(i) && InSave(s) == InSave(w.procs[p])
    ensures LocksOk(Go(w, p, s).(locks := w.locks[i := p]))
  {
  }

  lemma ReleaseKeepsLocks(w: World, p: int, s: Stage, i: int)
    requires LocksOk(w) && p in w.procs && Held(w.procs[p]) == Some(i) && Held(s) == None
    requires InSave(s) == InSave(w.procs[p])
    ensures LocksOk(Release(Go(w, p, s), p, i))
  {
    var after := Release(Go(w, p, s), p, i);
    forall q | q in after.procs && Held(after.procs[q]).Some? ensures Holds(after, Held(after.procs[q]).value, q) {
      assert q != p && Holds(w, Held(w.procs[q]).value, q) && Holds(w, i, p);
    }
  }

  lemma StartKeepsLocks(w: World, p: int, s: Stage)
    requires LocksOk(w) && p !in w.procs && Held(s) == None && (InSave(s) ==> w.directory == None)
    ensures LocksOk(Go(w, p, s).(directory := if InSave(s) then Some(p) else w.directory))
  {
  }

  lemma GoneKeepsLocks(w: World, p: int)
    requires LocksOk(w) && p in w.procs
    ensures LocksOk(Gone(w, p, w.procs[p]))
  {
    var after := Gone(w, p, w.procs[p]);
    forall q | q in after.procs && Held(after.procs[q]).Some? ensures Holds(after, Held(after.procs[q]).value, q) {
      assert q != p && Holds(w, Held(w.procs[q]).value, q);
      if Held(w.procs[p]).Some? { assert Holds(w, Held(w.procs[p]).value, p); }
    }
  }

  predicate SaverStep(e: Event) {
    e.LockDirectory? || e.Glob? || e.ReapOpen? || e.ReapLock? || e.ReapJudge? || e.ReapUnlink? || e.Count? || e.Create?
      || e.Write? || e.SaveSync?
  }

  predicate LocksSame(w: World, w': World) {
    w'.locks == w.locks && w'.directory == w.directory
  }

  /** One process of the world has another stage, or is gone. */
  predicate OneMoved(w: World, w': World, p: int) {
    w'.procs == if p in w'.procs then w.procs[p := w'.procs[p]] else w.procs - {p}
  }

  /** The ways a step may deal with locks: keep them while it moves on, take or
      give back one file's, start with none or the directory's, or go and leave
      them all. */
  predicate Moves(w: World, w': World, p: int) {
    p in w.procs && p in w'.procs && LocksSame(w, w')
    && Held(w'.procs[p]) == Held(w.procs[p]) && InSave(w'.procs[p]) == InSave(w.procs[p])
  }

  predicate Acquires(w: World, w': World, p: int) {
    && p in w.procs && p in w'.procs && InSave(w'.procs[p]) == InSave(w.procs[p]) && w'.directory == w.directory
    && Held(w.procs[p]).None? && Held(w'.procs[p]).Some? && Held(w'.procs[p]).value !in w.locks
    && w'.locks == w.locks[Held(w'.procs[p]).value := p]
  }

  predicate Releases(w: World, w': World, p: int) {
    && p in w.procs && p in w'.procs && InSave(w'.procs[p]) == InSave(w.procs[p]) && w'.directory == w.directory
    && Held(w.procs[p]).Some? && Held(w'.procs[p]).None? && w'.locks == w.locks - {Held(w.procs[p]).value}
  }

  predicate Starts(w: World, w': World, p: int) {
    && p !in w.procs && p in w'.procs && Held(w'.procs[p]).None? && w'.locks == w.locks
    && (InSave(w'.procs[p]) ==> w.directory == None)
    && w'.directory == if InSave(w'.procs[p]) then Some(p) else w.directory
  }

  predicate Goes(w: World, w': World, p: int) {
    && p in w.procs && p !in w'.procs
    && w'.locks == (if Held(w.procs[p]).Some? then w.locks - {Held(w.procs[p]).value} else w.locks)
    && w'.directory == if w.directory == Some(p) then None else w.directory
  }

  predicate LockStep(w: World, w': World, p: int) {
    OneMoved(w, w', p)
      && (Moves(w, w', p) || Acquires(w, w', p) || Releases(w, w', p) || Starts(w, w', p) || Goes(w, w', p))
  }

  lemma LockStepKeepsLocks(w: World, w': World, p: int)
    requires LocksOk(w) && LockStep(w, w', p)
    ensures LocksOk(w')
  {
    if p in w'.procs {
      var s := w'.procs[p];
      if Moves(w, w', p) { MoveKeepsLocks(w, p, s); OnlyHands(Go(w, p, s), w'); }
      else if Acquires(w, w', p) {
        AcquireKeepsLocks(w, p, s, Held(s).value);
        OnlyHands(Go(w, p, s).(locks := w'.locks), w');
      }
      else if Releases(w, w', p) {
        ReleaseKeepsLocks(w, p, s, Held(w.procs[p]).value);
        OnlyHands(Release(Go(w, p, s), p, Held(w.procs[p]).value), w');
      } else { StartKeepsLocks(w, p, s); OnlyHands(Go(w, p, s).(directory := w'.directory), w'); }
    } else {
      GoneKeepsLocks(w, p);
      OnlyHands(Gone(w, p, w.procs[p]), w');
    }
  }

  /** The disk has no part in it. */
  lemma OnlyHands(w: World, w': World)
    requires LocksOk(w) && w'.procs == w.procs && w'.locks == w.locks && w'.directory == w.directory
    ensures LocksOk(w')
  {
  }

  predicate ReaperStep(e: Event) {
    e.ReapOpen? || e.ReapLock? || e.ReapJudge? || e.ReapUnlink?
  }

  lemma ReaperDeals(w: World, e: Event)
    requires Enabled(w, e) && ReaperStep(e)
    ensures LockStep(w, Apply(w, e), e.p)
  {
  }

  lemma CounterDeals(w: World, e: Event)
    requires Enabled(w, e) && (e.LockDirectory? || e.Glob? || e.Count?)
    ensures LockStep(w, Apply(w, e), e.p)
  {
  }

  lemma WriterDeals(w: World, e: Event)
    requires Enabled(w, e) && (e.Create? || e.Write? || e.SaveSync?)
    ensures LockStep(w, Apply(w, e), e.p)
  {
  }

  lemma OpenerDeals(w: World, e: Event)
    requires Enabled(w, e) && (e.Open? || e.Lock? || e.Check? || e.Stop?)
    ensures (e.Open? && Apply(w, e) == w) || LockStep(w, Apply(w, e), e.p)
  {
  }

  lemma ConsumerDeals(w: World, e: Event)
    requires Enabled(w, e) && (e.Tear? || e.Mark? || e.TakeSync? || e.TakeUnlink?)
    ensures LockStep(w, Apply(w, e), e.p)
  {
  }

  lemma SaverKeepsLocks(w: World, e: Event)
    requires Enabled(w, e) && LocksOk(w) && SaverStep(e)
    ensures LocksOk(Apply(w, e))
  {
    if ReaperStep(e) { ReaperDeals(w, e); }
    else if e.LockDirectory? || e.Glob? || e.Count? { CounterDeals(w, e); }
    else { WriterDeals(w, e); }
    LockStepKeepsLocks(w, Apply(w, e), e.p);
  }

  lemma TakerKeepsLocks(w: World, e: Event)
    requires Enabled(w, e) && LocksOk(w) && !SaverStep(e)
    ensures LocksOk(Apply(w, e))
  {
    if e.Tick? || e.PowerLoss? {
      ClockKeepsLocks(w, e);
    } else {
      if e.Open? || e.Lock? || e.Check? || e.Stop? { OpenerDeals(w, e); } else { ConsumerDeals(w, e); }
      if Apply(w, e) != w { LockStepKeepsLocks(w, Apply(w, e), e.p); }
    }
  }

  lemma ClockKeepsLocks(w: World, e: Event)
    requires Enabled(w, e) && LocksOk(w) && (e.Tick? || e.PowerLoss?)
    ensures LocksOk(Apply(w, e))
  {
  }

  // ---------------------------------------------------------------- what a change leaves of the others

  lemma PutKeepsStage(d: Disk, s: Stage, i: int, c: Content)
    requires StageOk(d, s) && i in d.saved && i in d.files && Held(s) != Some(i)
    ensures StageOk(PutContent(d, i, c), s)
  {
  }

  lemma SealKeepsStage(d: Disk, s: Stage, i: int, payload: Payload)
    requires StageOk(d, s) && i in d.files && i !in d.saved && !InSave(s)
    ensures StageOk(SealFile(d, i, payload), s)
  {
  }

  lemma SyncKeepsStage(d: Disk, s: Stage, i: int)
    requires StageOk(d, s) && i in d.files
    ensures StageOk(SyncFile(d, i), s)
  {
  }

  lemma UnlinkKeepsStage(d: Disk, s: Stage, i: int)
    requires StageOk(d, s) && i in d.files && Held(s) != Some(i)
    ensures StageOk(Unlinked(d, i), s)
  {
    if Linked(d, i) && s.Counted? { FewerNames(d.names, d.files[i].name); }
  }

  lemma FewerNames(names: map<string, int>, name: string)
    requires name in names
    ensures |names - {name}| == |names| - 1
  {
    assert names.Keys == (names - {name}).Keys + {name};
    assert |names.Keys| == |(names - {name}).Keys| + 1;
  }

  lemma NewKeepsStage(d: Disk, s: Stage, name: string, i: int)
    requires StageOk(d, s) && i !in d.files && name !in d.names && i !in d.saved && !InSave(s)
    ensures StageOk(NewFile(d, name, i), s)
  {
  }

  lemma ReturnKeepsStage(d: Disk, s: Stage, t: Taking)
    requires StageOk(d, s) && Held(s) != Some(t.inode)
    ensures StageOk(d.(returned := d.returned + [t]), s)
  {
    if Consuming(s) {
      var after := d.(returned := d.returned + [t]);
      forall k | 0 <= k < |after.returned| ensures after.returned[k].inode != s.take.inode {
        assert !Returned(d, s.take.inode);
      }
    }
  }

  lemma TickKeepsStage(d: Disk, s: Stage, seconds: nat)
    requires StageOk(d, s)
    ensures StageOk(d.(now := d.now + seconds), s)
  {
  }

  // ---------------------------------------------------------------- and of the disk

  lemma PutKeepsDisk(d: Disk, i: int, c: Content)
    requires DiskOk(d) && i in d.files && !Returned(d, i) && HoldsOnly(d, i, c)
    ensures DiskOk(PutContent(d, i, c))
  {
  }

  lemma SealKeepsDisk(d: Disk, i: int, payload: Payload)
    requires DiskOk(d) && i in d.files && i !in d.saved && d.files[i].durable == Malformed
    ensures DiskOk(SealFile(d, i, payload))
  {
  }

  lemma SyncKeepsDisk(d: Disk, i: int)
    requires DiskOk(d) && i in d.files
    ensures DiskOk(SyncFile(d, i))
  {
  }

  lemma UnlinkKeepsDisk(d: Disk, i: int)
    requires DiskOk(d) && i in d.files
    ensures DiskOk(Unlinked(d, i))
  {
  }

  lemma NewKeepsDisk(d: Disk, name: string, i: int)
    requires DiskOk(d) && i !in d.files && name !in d.names
    ensures DiskOk(NewFile(d, name, i))
  {
  }

  lemma ReturnKeepsDisk(d: Disk, t: Taking)
    requires DiskOk(d) && Spent(d, t) && !Returned(d, t.inode)
    ensures DiskOk(d.(returned := d.returned + [t]))
  {
    forall k | 0 <= k < |d.returned| ensures d.returned[k].inode != t.inode {}
  }

  lemma LossKeepsDisk(d: Disk, lost: set<int>, torn: set<int>, names: map<string, int>)
    requires DiskOk(d) && forall n :: n in names ==> names[n] in d.files && d.files[names[n]].name == n
    ensures DiskOk(AfterPowerLoss(d, lost, torn, names))
  {
    var after := AfterPowerLoss(d, lost, torn, names);
    forall i | i in d.files ensures i in after.files && after.files[i].name == d.files[i].name
      && HoldsOnly(after, i, after.files[i].content) && HoldsOnly(after, i, after.files[i].durable) {}
    forall n | n in names ensures names[n] in after.files && after.files[names[n]].name == n {}
  }

  // ---------------------------------------------------------------- one step

  lemma AloneInSave(w: World, p: int, q: int)
    requires LocksOk(w) && p in w.procs && q in w.procs && p != q && InSave(w.procs[p])
    ensures !InSave(w.procs[q])
  {
  }

  lemma AloneOnFile(w: World, p: int, q: int, i: int)
    requires LocksOk(w) && p in w.procs && q in w.procs && p != q && Held(w.procs[p]) == Some(i)
    ensures Held(w.procs[q]) != Some(i)
  {
    assert Holds(w, i, p);
    assert Held(w.procs[q]) == Some(i) ==> Holds(w, i, q);
  }

  /** Every process other than p is as before. */
  ghost predicate OthersSame(w: World, after: World, p: int) {
    forall q :: q in after.procs && q != p ==> q in w.procs && after.procs[q] == w.procs[q]
  }

  lemma StagesStay(w: World, after: World, p: int)
    requires StagesOk(w) && after.disk == w.disk && OthersSame(w, after, p)
    requires p in after.procs ==> StageOk(w.disk, after.procs[p])
    ensures StagesOk(after)
  {
  }

  lemma CandidateKeepsStages(w: World, e: Event)
    requires Enabled(w, e) && Inv(w) && (e.ReapOpen? || e.ReapLock?)
    ensures StagesOk(Apply(w, e))
  {
    assert StageOk(w.disk, w.procs[e.p]);
    StagesStay(w, Apply(w, e), e.p);
  }

  lemma JudgeKeepsStages(w: World, e: Event)
    requires Enabled(w, e) && Inv(w) && e.ReapJudge?
    ensures StagesOk(Apply(w, e))
  {
    assert StageOk(w.disk, w.procs[e.p]);
    StagesStay(w, Apply(w, e), e.p);
  }

  lemma CounterKeepsStages(w: World, e: Event)
    requires Enabled(w, e) && Inv(w) && (e.LockDirectory? || e.Glob? || e.Count?)
    ensures StagesOk(Apply(w, e))
  {
    StagesStay(w, Apply(w, e), e.p);
  }

  lemma PlainTakerKeepsStages(w: World, e: Event)
    requires Enabled(w, e) && Inv(w) && (e.Open? || e.Lock? || e.Stop?)
    ensures StagesOk(Apply(w, e))
  {
    StagesStay(w, Apply(w, e), e.p);
  }

  lemma CheckKeepsStages(w: World, e: Event)
    requires Enabled(w, e) && Inv(w) && e.Check?
    ensures StagesOk(Apply(w, e))
  {
    var s, d := w.procs[e.p], w.disk;
    if Linked(d, s.inode) && Takeable(d.files[s.inode], s.claims, d.now) {
      assert StageOk(d, s) && HoldsOnly(d, s.inode, d.files[s.inode].content);
      forall k | 0 <= k < |d.returned| ensures d.returned[k].inode != s.inode { assert Spent(d, d.returned[k]); }
    }
    StagesStay(w, Apply(w, e), e.p);
  }

  lemma UnlinkStepKeeps(w: World, e: Event)
    requires Enabled(w, e) && Inv(w) && e.ReapUnlink?
    ensures StagesOk(Apply(w, e)) && DiskOk(Apply(w, e).disk)
  {
    var i := w.procs[e.p].inode;
    UnlinkKeepsDisk(w.disk, i);
    forall q | q in w.procs && q != e.p ensures StageOk(Unlinked(w.disk, i), w.procs[q]) {
      AloneOnFile(w, e.p, q, i);
      UnlinkKeepsStage(w.disk, w.procs[q], i);
    }
    assert StageOk(w.disk, w.procs[e.p]);
  }

  lemma CreateKeeps(w: World, e: Event)
    requires Enabled(w, e) && Inv(w) && e.Create?
    ensures StagesOk(Apply(w, e)) && DiskOk(Apply(w, e).disk)
  {
    if e.name !in w.disk.names {
      NewKeepsDisk(w.disk, e.name, e.inode);
      forall q | q in w.procs && q != e.p ensures StageOk(NewFile(w.disk, e.name, e.inode), w.procs[q]) {
        AloneInSave(w, e.p, q);
        NewKeepsStage(w.disk, w.procs[q], e.name, e.inode);
      }
    }
  }

  lemma WriteKeeps(w: World, e: Event)
    requires Enabled(w, e) && Inv(w) && e.Write?
    ensures StagesOk(Apply(w, e)) && DiskOk(Apply(w, e).disk)
  {
    var s := w.procs[e.p];
    assert StageOk(w.disk, s);
    SealKeepsDisk(w.disk, s.inode, s.payload);
    forall q | q in w.procs && q != e.p ensures StageOk(SealFile(w.disk, s.inode, s.payload), w.procs[q]) {
      AloneInSave(w, e.p, q);
      SealKeepsStage(w.disk, w.procs[q], s.inode, s.payload);
    }
  }

  lemma SaveSyncKeeps(w: World, e: Event)
    requires Enabled(w, e) && Inv(w) && e.SaveSync?
    ensures StagesOk(Apply(w, e)) && DiskOk(Apply(w, e).disk)
  {
    var i := w.procs[e.p].inode;
    SyncKeepsDisk(w.disk, i);
    forall q | q in w.procs ensures StageOk(SyncFile(w.disk, i), w.procs[q]) { SyncKeepsStage(w.disk, w.procs[q], i); }
  }

  lemma TakeSyncKeeps(w: World, e: Event)
    requires Enabled(w, e) && Inv(w) && e.TakeSync?
    ensures StagesOk(Apply(w, e)) && DiskOk(Apply(w, e).disk)
  {
    var i := w.procs[e.p].take.inode;
    SyncKeepsDisk(w.disk, i);
    forall q | q in w.procs ensures StageOk(SyncFile(w.disk, i), w.procs[q]) { SyncKeepsStage(w.disk, w.procs[q], i); }
  }

  /** A consumer rewrites its own file, which nobody else has locked. */
  lemma RewriteKeeps(w: World, p: int, c: Content)
    requires Inv(w) && p in w.procs && Consuming(w.procs[p]) && !c.Sealed?
    ensures w.procs[p].take.inode in w.disk.files && DiskOk(PutContent(w.disk, w.procs[p].take.inode, c))
    ensures forall q :: q in w.procs && q != p ==> StageOk(PutContent(w.disk, w.procs[p].take.inode, c), w.procs[q])
  {
    var t := w.procs[p].take;
    assert StageOk(w.disk, w.procs[p]);
    PutKeepsDisk(w.disk, t.inode, c);
    forall q | q in w.procs && q != p ensures StageOk(PutContent(w.disk, t.inode, c), w.procs[q]) {
      AloneOnFile(w, p, q, t.inode);
      PutKeepsStage(w.disk, w.procs[q], t.inode, c);
    }
  }

  /** Its own stage follows the content. */
  lemma RewriteIsOk(d: Disk, t: Taking, s: Stage)
    requires s.Passed? || s.Torn?
    requires StageOk(d, s) && s.take == t
    ensures t.inode in d.files
    ensures s.Passed? ==> StageOk(PutContent(d, t.inode, Malformed), Torn(t))
    ensures s.Torn? ==> StageOk(PutContent(d, t.inode, Used), Marked(t))
  {
  }

  lemma TearKeeps(w: World, e: Event)
    requires Enabled(w, e) && Inv(w) && e.Tear?
    ensures StagesOk(Apply(w, e)) && DiskOk(Apply(w, e).disk)
  {
    var t := w.procs[e.p].take;
    RewriteKeeps(w, e.p, Malformed);
    RewriteIsOk(w.disk, t, w.procs[e.p]);
    AllStages(w, PutContent(w.disk, t.inode, Malformed), e.p, Torn(t));
  }

  lemma MarkKeeps(w: World, e: Event)
    requires Enabled(w, e) && Inv(w) && e.Mark?
    ensures StagesOk(Apply(w, e)) && DiskOk(Apply(w, e).disk)
  {
    var t := w.procs[e.p].take;
    RewriteKeeps(w, e.p, Used);
    RewriteIsOk(w.disk, t, w.procs[e.p]);
    AllStages(w, PutContent(w.disk, t.inode, Used), e.p, Marked(t));
  }

  lemma AllStages(w: World, d: Disk, p: int, s: Stage)
    requires StageOk(d, s) && forall q :: q in w.procs && q != p ==> StageOk(d, w.procs[q])
    ensures StagesOk(Go(w, p, s).(disk := d))
  {
  }

  lemma ReturnStepKeeps(w: World, e: Event)
    requires Enabled(w, e) && Inv(w) && e.TakeUnlink?
    ensures StagesOk(Apply(w, e)) && DiskOk(Apply(w, e).disk)
  {
    var t, d := w.procs[e.p].take, w.disk;
    var removed := Unlinked(d, t.inode);
    assert StageOk(d, w.procs[e.p]) && Spent(removed, t) && !Returned(removed, t.inode);
    UnlinkKeepsDisk(d, t.inode);
    ReturnKeepsDisk(removed, t);
    forall q | q in w.procs && q != e.p ensures StageOk(removed.(returned := removed.returned + [t]), w.procs[q]) {
      AloneOnFile(w, e.p, q, t.inode);
      UnlinkKeepsStage(d, w.procs[q], t.inode);
      ReturnKeepsStage(removed, w.procs[q], t);
    }
  }

  lemma TickKeeps(w: World, e: Event)
    requires Enabled(w, e) && Inv(w) && e.Tick?
    ensures StagesOk(Apply(w, e)) && DiskOk(Apply(w, e).disk)
  {
    forall q | q in w.procs ensures StageOk(w.disk.(now := w.disk.now + e.seconds), w.procs[q]) {
      TickKeepsStage(w.disk, w.procs[q], e.seconds);
    }
  }

  lemma LossKeeps(w: World, e: Event)
    requires Enabled(w, e) && Inv(w) && e.PowerLoss?
    ensures StagesOk(Apply(w, e)) && DiskOk(Apply(w, e).disk)
  {
    LossKeepsDisk(w.disk, e.lost, e.torn, e.names);
  }

  lemma QuietStepKeeps(w: World, e: Event)
    requires Enabled(w, e) && Inv(w)
    requires e.LockDirectory? || e.Glob? || e.ReapOpen? || e.ReapLock? || e.ReapJudge? || e.Count? || e.Open? || e.Lock?
      || e.Stop? || e.Check?
    ensures StagesOk(Apply(w, e)) && DiskOk(Apply(w, e).disk)
  {
    if e.Check? { CheckKeepsStages(w, e); }
    else if e.Open? || e.Lock? || e.Stop? { PlainTakerKeepsStages(w, e); }
    else if e.ReapOpen? || e.ReapLock? { CandidateKeepsStages(w, e); }
    else if e.ReapJudge? { JudgeKeepsStages(w, e); }
    else { CounterKeepsStages(w, e); }
  }

  lemma StepKeepsStages(w: World, e: Event)
    requires Enabled(w, e) && Inv(w)
    ensures StagesOk(Apply(w, e)) && DiskOk(Apply(w, e).disk)
  {
    match e
    case Tick(_) => TickKeeps(w, e);
    case PowerLoss(_, _, _) => LossKeeps(w, e);
    case ReapUnlink(_) => UnlinkStepKeeps(w, e);
    case Create(_, _, _, _, _, _) => CreateKeeps(w, e);
    case Write(_) => WriteKeeps(w, e);
    case SaveSync(_) => SaveSyncKeeps(w, e);
    case TakeSync(_) => TakeSyncKeeps(w, e);
    case Tear(_) => TearKeeps(w, e);
    case Mark(_) => MarkKeeps(w, e);
    case TakeUnlink(_) => ReturnStepKeeps(w, e);
    case _ => QuietStepKeeps(w, e);
  }

  lemma StepKeepsInv(w: World, e: Event)
    requires Enabled(w, e) && Inv(w)
    ensures Inv(Apply(w, e))
  {
    if SaverStep(e) { SaverKeepsLocks(w, e); } else { TakerKeepsLocks(w, e); }
    StepKeepsStages(w, e);
  }

  // ---------------------------------------------------------------- runs

  ghost predicate IsRun(ws: seq<World>, es: seq<Event>) {
    && |ws| == |es| + 1 && Start(ws[0])
    && forall k :: 0 <= k < |es| ==> Enabled(ws[k], es[k]) && ws[k + 1] == Apply(ws[k], es[k])
  }

  /** An empty directory and nobody at work. */
  predicate Start(w: World) {
    w.procs == map[] && w.locks == map[] && w.directory == None
    && w.disk.names == map[] && w.disk.files == map[] && w.disk.saved == map[] && w.disk.returned == []
  }

  lemma {:induction false} RunKeepsInv(ws: seq<World>, es: seq<Event>, k: nat)
    requires IsRun(ws, es) && k < |ws|
    ensures Inv(ws[k])
  {
    if k > 0 {
      RunKeepsInv(ws, es, k - 1);
      StepKeepsInv(ws[k - 1], es[k - 1]);
    }
  }

  /** In every interleaving of saves, takes, reaps, stops and power losses each
      receipt is returned at most once; what is returned is what was saved for
      that very context, taken before it expired; and the file stays used. */
  lemma ReturnedOnce(ws: seq<World>, es: seq<Event>, k: nat)
    requires IsRun(ws, es) && k < |ws|
    ensures forall a, b :: 0 <= a < b < |ws[k].disk.returned| ==>
      ws[k].disk.returned[a].inode != ws[k].disk.returned[b].inode
    ensures forall a :: 0 <= a < |ws[k].disk.returned| ==>
      var d, t := ws[k].disk, ws[k].disk.returned[a];
      && t.inode in d.saved && t.inode in d.files && d.saved[t.inode] == t.payload
      && t.claims.context == t.payload.context && t.at < t.payload.exp && t.at <= t.payload.sealedAt + 120
      && d.files[t.inode].content == Used
  {
    RunKeepsInv(ws, es, k);
    forall a | 0 <= a < |ws[k].disk.returned| ensures Spent(ws[k].disk, ws[k].disk.returned[a]) {}
  }

  /** No step but a power loss removes the name of a receipt that has not
      expired, or of a file without a readable receipt in its first ten minutes. */
  lemma ValidReceiptStays(ws: seq<World>, es: seq<Event>, k: nat, name: string)
    requires IsRun(ws, es) && k < |es| && !es[k].PowerLoss? && name in ws[k].disk.names
    requires ws[k].disk.names[name] in ws[k].disk.files
    requires var f := ws[k].disk.files[ws[k].disk.names[name]];
      (f.content.Sealed? && ws[k].disk.now < f.content.payload.exp)
      || (f.content.Malformed? && ws[k].disk.now <= f.mtime + 600)
    ensures name in ws[k + 1].disk.names && ws[k + 1].disk.names[name] == ws[k].disk.names[name]
  {
    RunKeepsInv(ws, es, k);
    AliveStays(ws[k], es[k], name);
  }

  lemma AliveStays(w: World, e: Event, name: string)
    requires Enabled(w, e) && Inv(w) && !e.PowerLoss? && name in w.disk.names
    requires Alive(w.disk.files[w.disk.names[name]], w.disk.now)
    ensures name in Apply(w, e).disk.names && Apply(w, e).disk.names[name] == w.disk.names[name]
  {
    if e.ReapUnlink? || e.TakeUnlink? {
      assert StageOk(w.disk, w.procs[e.p]);
    } else if !e.Create? {
      NamesStay(w, e);
    }
  }

  /** The name leads to this file, and the file holds this receipt. */
  predicate Stores(d: Disk, name: string, i: int, payload: Payload) {
    name in d.names && d.names[name] == i && i in d.files && d.files[i].content == Sealed(payload)
  }

  /** From then on a receipt stays as it was saved until it expires, is taken or
      the power is lost, whatever savers, reapers and takers do and wherever they
      stop. */
  lemma ReceiptStaysUntilTaken(ws: seq<World>, es: seq<Event>, k: nat, j: nat, name: string, i: int,
      payload: Payload)
    requires IsRun(ws, es) && k <= j < |ws| && Stores(ws[k].disk, name, i, payload)
    requires ws[j].disk.now < payload.exp
    requires forall m :: k <= m < j ==> !es[m].PowerLoss? && !TearsUp(ws[m], es[m], i)
    ensures Stores(ws[j].disk, name, i, payload)
  {
    var disks := seq(|ws|, m requires 0 <= m < |ws| => ws[m].disk);
    forall m | k <= m < j
      ensures disks[m].now <= disks[m + 1].now
      ensures Stores(disks[m], name, i, payload) && disks[m].now < payload.exp
        ==> Stores(disks[m + 1], name, i, payload)
    {
      StoresAfter(ws, es, m, name, i, payload);
    }
    StoresAlong(disks, k, j, name, i, payload);
  }

  lemma {:induction false} StoresAlong(disks: seq<Disk>, k: nat, j: nat, name: string, i: int, payload: Payload)
    requires k <= j < |disks| && Stores(disks[k], name, i, payload) && disks[j].now < payload.exp
    requires forall m :: k <= m < j ==> disks[m].now <= disks[m + 1].now
    requires forall m :: k <= m < j ==>
      (Stores(disks[m], name, i, payload) && disks[m].now < payload.exp ==> Stores(disks[m + 1], name, i, payload))
    ensures Stores(disks[j], name, i, payload)
  {
    if k < j {
      assert disks[j - 1].now <= disks[j - 1 + 1].now;
      StoresAlong(disks, k, j - 1, name, i, payload);
      assert Stores(disks[j - 1 + 1], name, i, payload);
    }
  }

  lemma StoresAfter(ws: seq<World>, es: seq<Event>, m: nat, name: string, i: int, payload: Payload)
    requires IsRun(ws, es) && m < |es| && !es[m].PowerLoss? && !TearsUp(ws[m], es[m], i)
    ensures ws[m].disk.now <= ws[m + 1].disk.now
    ensures Stores(ws[m].disk, name, i, payload) && ws[m].disk.now < payload.exp
      ==> Stores(ws[m + 1].disk, name, i, payload)
  {
    RunKeepsInv(ws, es, m);
    TimeStep(ws[m], es[m]);
    if Stores(ws[m].disk, name, i, payload) && ws[m].disk.now < payload.exp {
      StoresStays(ws[m], es[m], name, i, payload);
    }
  }

  lemma StoresStays(w: World, e: Event, name: string, i: int, payload: Payload)
    requires Enabled(w, e) && Inv(w) && !e.PowerLoss? && !TearsUp(w, e, i)
    requires Stores(w.disk, name, i, payload) && w.disk.now < payload.exp
    ensures Stores(Apply(w, e).disk, name, i, payload)
  {
    AliveStays(w, e, name);
    StoresStep(w, e, i);
  }

  /** A taker begins to overwrite the file. */
  predicate TearsUp(w: World, e: Event, i: int) {
    e.Tear? && e.p in w.procs && Consuming(w.procs[e.p]) && w.procs[e.p].take.inode == i
  }

  lemma TimeStep(w: World, e: Event)
    requires Enabled(w, e)
    ensures w.disk.now <= Apply(w, e).disk.now
  {
  }

  lemma StoresStep(w: World, e: Event, i: int)
    requires Enabled(w, e) && Inv(w) && !e.PowerLoss? && !TearsUp(w, e, i)
    requires i in w.disk.files && w.disk.files[i].content.Sealed?
    ensures i in Apply(w, e).disk.files && Apply(w, e).disk.files[i].content == w.disk.files[i].content
  {
    if e.Mark? || e.Write? { assert StageOk(w.disk, w.procs[e.p]); }
    else if !Writes(e) { FilesSame(w, e); }
  }

  predicate Writes(e: Event) {
    e.Create? || e.Write? || e.SaveSync? || e.Tear? || e.Mark? || e.TakeSync? || e.PowerLoss?
  }

  lemma FilesSame(w: World, e: Event)
    requires Enabled(w, e) && !Writes(e)
    ensures Apply(w, e).disk.files == w.disk.files
  {
    match e
    case ReapUnlink(p) => UnlinkKeepsFiles(w.disk, w.procs[p].inode);
    case TakeUnlink(p) => UnlinkKeepsFiles(w.disk, w.procs[p].take.inode);
    case _ =>
  }

  lemma UnlinkKeepsFiles(d: Disk, i: int)
    requires i in d.files
    ensures Unlinked(d, i).files == d.files
  {
  }

  /** A receipt that was synced survives any power loss that leaves its name. */
  lemma SyncedReceiptSurvives(w: World, e: Event, name: string, i: int, payload: Payload)
    requires Enabled(w, e) && e.PowerLoss? && Stores(w.disk, name, i, payload)
    requires w.disk.files[i].durable == Sealed(payload) && name in e.names && e.names[name] == i
    ensures Stores(Apply(w, e).disk, name, i, payload)
    ensures Apply(w, e).procs == map[] && Apply(w, e).locks == map[] && Apply(w, e).directory == None
  {
  }

  /** One that was written and not yet synced need not: there are power losses
      that keep the name and leave nothing to take. */
  lemma UnsyncedReceiptMayBeLost(w: World, p: int, i: int) returns (lost: Event, torn: Event)
    requires Inv(w) && At(w, p) == Some(Syncing(i)) && w.disk.files[i].durable == Malformed
    ensures lost.PowerLoss? && torn.PowerLoss? && Enabled(w, lost) && Enabled(w, torn)
    ensures Apply(w, lost).disk.names == w.disk.names && Apply(w, torn).disk.names == w.disk.names
    ensures Apply(w, lost).disk.files[i].content == Malformed
    ensures w.disk.files[i].content != Malformed ==> Apply(w, torn).disk.files[i].content == Malformed
  {
    lost, torn := PowerLoss({i}, {}, w.disk.names), PowerLoss({}, {i}, w.disk.names);
  }

  /** One candidate's turn in a reap that nothing else interferes with: an unlocked
      file goes if it is used, holds an expired receipt, or has held no readable
      one for more than ten minutes; any other stays. */
  lemma UndisturbedReap(w: World, p: int, rest: seq<string>, removed: nat) returns (es: seq<Event>, end: World)
    requires Inv(w) && At(w, p) == Some(Reaping(rest, removed)) && rest != [] && removed < 64
    requires rest[0] in w.disk.names && w.disk.names[rest[0]] !in w.locks
    ensures var f := w.disk.files[w.disk.names[rest[0]]];
      var goes := f.content.Used? || (f.content.Sealed? && f.content.payload.exp <= w.disk.now)
        || (f.content.Malformed? && f.mtime < w.disk.now - 600);
      && Leads(w, es, end)
      && es == (if goes then [ReapOpen(p), ReapLock(p), ReapJudge(p), ReapUnlink(p)]
                else [ReapOpen(p), ReapLock(p), ReapJudge(p)])
      && At(end, p) == Some(Reaping(rest[1..], if goes then removed + 1 else removed))
      && end.disk == (if goes then w.disk.(names := w.disk.names - {rest[0]}) else w.disk)
  {
    var i := w.disk.names[rest[0]];
    assert w.disk.files[i].name == rest[0];
    var second := OpenAndLock(w, p, rest, removed);
    es, end := JudgeAndUnlink(second, p, rest[1..], removed, i);
    LeadsOn(w, [ReapOpen(p), ReapLock(p)], second, es, end);
    es := [ReapOpen(p), ReapLock(p)] + es;
  }

  lemma OpenAndLock(w: World, p: int, rest: seq<string>, removed: nat) returns (second: World)
    requires Inv(w) && At(w, p) == Some(Reaping(rest, removed)) && rest != [] && removed < 64
    requires rest[0] in w.disk.names && w.disk.names[rest[0]] !in w.locks
    ensures var i := w.disk.names[rest[0]];
      && Leads(w, [ReapOpen(p), ReapLock(p)], second) && second.disk == w.disk
      && At(second, p) == Some(ReapLocked(rest[1..], removed, i)) && i in w.disk.files
  {
    var first := Apply(w, ReapOpen(p));
    second := Apply(first, ReapLock(p));
    assert Leads(first, [ReapLock(p)], second);
    assert [ReapOpen(p), ReapLock(p)][1..] == [ReapLock(p)];
  }

  lemma JudgeAndUnlink(w: World, p: int, rest: seq<string>, removed: nat, i: int)
      returns (es: seq<Event>, end: World)
    requires At(w, p) == Some(ReapLocked(rest, removed, i)) && Linked(w.disk, i)
    ensures Leads(w, es, end)
    ensures if Reapable(w.disk.files[i], w.disk.now)
      then es == [ReapJudge(p), ReapUnlink(p)] && At(end, p) == Some(Reaping(rest, removed + 1))
        && end.disk == w.disk.(names := w.disk.names - {w.disk.files[i].name})
      else es == [ReapJudge(p)] && At(end, p) == Some(Reaping(rest, removed)) && end.disk == w.disk
  {
    end := Apply(w, ReapJudge(p));
    es := [ReapJudge(p)];
    if Reapable(w.disk.files[i], w.disk.now) {
      var judged := end;
      end := Apply(judged, ReapUnlink(p));
      assert Leads(judged, [ReapUnlink(p)], end);
      es := [ReapJudge(p), ReapUnlink(p)];
      assert es[1..] == [ReapUnlink(p)];
    } else {
      assert es[1..] == [];
    }
  }

  /** A save that has made its room, left alone: below a thousand names and under
      a new one it leaves a sealed and synced receipt that expires with its flow,
      and in two minutes at the latest. */
  lemma UndisturbedSave(w: World, p: int, removed: nat, name: string, i: int, context: Context, callback: string,
      until: int) returns (end: World)
    requires Inv(w) && At(w, p) == Some(Reaping([], removed)) && i !in w.disk.files
    requires |w.disk.names| < 1000 && name !in w.disk.names
    ensures Leads(w, [Count(p), Create(p, name, i, context, callback, until)] + [Write(p), SaveSync(p)], end)
    ensures p !in end.procs && end.directory == None
    ensures var payload := Payload(context, callback, Min(until, w.disk.now + 120), w.disk.now);
      end.disk == w.disk.(names := w.disk.names[name := i],
        files := w.disk.files[i := File(name, Sealed(payload), Sealed(payload), w.disk.now)],
        saved := w.disk.saved[i := payload])
  {
    var payload := Payload(context, callback, Min(until, w.disk.now + 120), w.disk.now);
    assert w.directory == Some(p);
    var second := MakeFile(w, p, removed, name, i, context, callback, until);
    end := SealAndSync(second, p, i, payload);
    SavedIs(w.disk, name, i, payload);
    LeadsOn(w, [Count(p), Create(p, name, i, context, callback, until)], second, [Write(p), SaveSync(p)], end);
  }

  lemma SavedIs(d: Disk, name: string, i: int, payload: Payload)
    ensures SyncFile(SealFile(NewFile(d, name, i), i, payload), i) == d.(names := d.names[name := i],
      files := d.files[i := File(name, Sealed(payload), Sealed(payload), d.now)], saved := d.saved[i := payload])
  {
  }

  lemma MakeFile(w: World, p: int, removed: nat, name: string, i: int, context: Context, callback: string, until: int)
      returns (second: World)
    requires At(w, p) == Some(Reaping([], removed)) && w.directory == Some(p) && i !in w.disk.files
    requires |w.disk.names| < 1000 && name !in w.disk.names
    ensures Leads(w, [Count(p), Create(p, name, i, context, callback, until)], second)
    ensures At(second, p)
      == Some(Writing(i, Payload(context, callback, Min(until, w.disk.now + 120), w.disk.now)))
    ensures second.directory == Some(p) && second.disk == NewFile(w.disk, name, i)
  {
    var first := Apply(w, Count(p));
    var create := Create(p, name, i, context, callback, until);
    second := Apply(first, create);
    assert Leads(first, [create], second);
    assert [Count(p), create][1..] == [create];
  }

  lemma SealAndSync(w: World, p: int, i: int, payload: Payload) returns (end: World)
    requires At(w, p) == Some(Writing(i, payload)) && w.directory == Some(p) && i in w.disk.files
    ensures Leads(w, [Write(p), SaveSync(p)], end)
    ensures p !in end.procs && end.directory == None
    ensures end.disk == SyncFile(SealFile(w.disk, i, payload), i)
  {
    var first := Apply(w, Write(p));
    end := Apply(first, SaveSync(p));
    assert Leads(first, [SaveSync(p)], end);
    assert [Write(p), SaveSync(p)][1..] == [SaveSync(p)];
  }

  lemma NamesStay(w: World, e: Event)
    requires Enabled(w, e) && !e.PowerLoss? && !e.ReapUnlink? && !e.TakeUnlink? && !e.Create?
    ensures Apply(w, e).disk.names == w.disk.names
  {
  }

  lemma OnlyUnlinksRemove(w: World, e: Event)
    requires Enabled(w, e) && !e.PowerLoss? && !e.ReapUnlink? && !e.TakeUnlink?
    ensures w.disk.names.Keys <= Apply(w, e).disk.names.Keys
  {
    if !e.Create? { NamesStay(w, e); }
  }

  /** Without power losses, which may bring names back, the directory never
      holds more than its capacity. */
  lemma {:induction false} CapacityKept(ws: seq<World>, es: seq<Event>, k: nat)
    requires IsRun(ws, es) && k < |ws| && forall j :: 0 <= j < k ==> !es[j].PowerLoss?
    ensures |ws[k].disk.names| <= 1000
  {
    if k > 0 {
      CapacityKept(ws, es, k - 1);
      RunKeepsInv(ws, es, k - 1);
      CapacityStep(ws[k - 1], es[k - 1]);
    }
  }

  lemma CapacityStep(w: World, e: Event)
    requires Enabled(w, e) && Inv(w) && !e.PowerLoss? && |w.disk.names| <= CAPACITY
    ensures |Apply(w, e).disk.names| <= CAPACITY
  {
    if e.Create? { CreateNames(w, e); }
    else if e.ReapUnlink? || e.TakeUnlink? { UnlinkNames(w, e); }
    else { NamesStay(w, e); }
  }

  lemma CreateNames(w: World, e: Event)
    requires Enabled(w, e) && StagesOk(w) && e.Create?
    ensures |Apply(w, e).disk.names| <= Max(|w.disk.names|, CAPACITY)
  {
    assert StageOk(w.disk, w.procs[e.p]);
    OneMoreName(w.disk.names, e.name, e.inode);
  }

  lemma OneMoreName(names: map<string, int>, name: string, i: int)
    ensures |names[name := i]| <= |names| + 1
  {
    if name in names { assert names[name := i].Keys == names.Keys; }
    else { assert names[name := i].Keys == names.Keys + {name}; }
    assert |names[name := i].Keys| <= |names.Keys| + 1;
  }

  lemma UnlinkNames(w: World, e: Event)
    requires Enabled(w, e) && (e.ReapUnlink? || e.TakeUnlink?)
    ensures |Apply(w, e).disk.names| <= |w.disk.names|
  {
    var i := if e.ReapUnlink? then w.procs[e.p].inode else w.procs[e.p].take.inode;
    if Linked(w.disk, i) { FewerNames(w.disk.names, w.disk.files[i].name); }
  }

  /** A taker that has marked its receipt finds it still linked: only a stop or
      a power loss can keep it from returning the callback. */
  lemma MarkedIsReturned(ws: seq<World>, es: seq<Event>, k: nat, p: int)
    requires IsRun(ws, es) && k < |es| && es[k] == TakeUnlink(p)
    ensures ws[k + 1].disk.returned == ws[k].disk.returned + [ws[k].procs[p].take]
  {
    RunKeepsInv(ws, es, k);
    assert StageOk(ws[k].disk, ws[k].procs[p]);
  }

  /** Left alone, a take of a valid, unlocked receipt of its own context goes
      through and returns what was saved. */
  lemma UndisturbedTakeReturns(w: World, p: int, claims: Claims)
    requires Inv(w) && p !in w.procs && claims.receipt in w.disk.names
    requires var i := w.disk.names[claims.receipt];
      var content := w.disk.files[i].content;
      && i !in w.locks && content.Sealed? && content.payload.context == claims.context
      && w.disk.now < content.payload.exp && w.disk.now - 120 <= content.payload.sealedAt
    ensures var i := w.disk.names[claims.receipt];
      exists end: World :: Leads(w, TakeSteps(p, claims), end) &&
        (i in w.disk.saved && end.disk.returned == w.disk.returned + [Taking(i, claims, w.disk.saved[i], w.disk.now)]
          && claims.receipt !in end.disk.names)
  {
    var i := w.disk.names[claims.receipt];
    assert HoldsOnly(w.disk, i, w.disk.files[i].content);
    var t := Taking(i, claims, w.disk.files[i].content.payload, w.disk.now);
    var checked := FirstHalf(w, p, claims, t);
    var end := SecondHalf(checked, p, t);
    LeadsOn(w, [Open(p, claims), Lock(p), Check(p)], checked, [Tear(p), Mark(p), TakeSync(p), TakeUnlink(p)], end);
    assert TakeSteps(p, claims)
      == [Open(p, claims), Lock(p), Check(p)] + [Tear(p), Mark(p), TakeSync(p), TakeUnlink(p)];
  }

  function TakeSteps(p: int, claims: Claims): seq<Event> {
    [Open(p, claims), Lock(p), Check(p), Tear(p), Mark(p), TakeSync(p), TakeUnlink(p)]
  }

  /** The events can happen in a row, and lead there. */
  ghost predicate Leads(w: World, es: seq<Event>, end: World)
    decreases |es|
  {
    if es == [] then w == end else Enabled(w, es[0]) && Leads(Apply(w, es[0]), es[1..], end)
  }

  lemma {:induction false} LeadsOn(w: World, es: seq<Event>, mid: World, fs: seq<Event>, end: World)
    requires Leads(w, es, mid) && Leads(mid, fs, end)
    ensures Leads(w, es + fs, end)
    decreases |es|
  {
    if es == [] { assert es + fs == fs; } else {
      LeadsOn(Apply(w, es[0]), es[1..], mid, fs, end);
      assert (es + fs)[1..] == es[1..] + fs;
    }
  }

  lemma FirstHalf(w: World, p: int, claims: Claims, t: Taking) returns (end: World)
    requires p !in w.procs && claims.receipt in w.disk.names && DiskOk(w.disk)
    requires var i := w.disk.names[claims.receipt];
      i !in w.locks && Takeable(w.disk.files[i], claims, w.disk.now)
        && t == Taking(i, claims, w.disk.files[i].content.payload, w.disk.now)
    ensures Leads(w, [Open(p, claims), Lock(p), Check(p)], end)
    ensures end.disk == w.disk && At(end, p) == Some(Passed(t))
  {
    var first := Apply(w, Open(p, claims));
    var second := Apply(first, Lock(p));
    end := Apply(second, Check(p));
    assert Leads(second, [Check(p)], end);
    LeadsOn(first, [Lock(p)], second, [Check(p)], end);
    LeadsOn(w, [Open(p, claims)], first, [Lock(p), Check(p)], end);
    assert [Lock(p)] + [Check(p)] == [Lock(p), Check(p)];
    assert [Open(p, claims)] + [Lock(p), Check(p)] == [Open(p, claims), Lock(p), Check(p)];
  }

  lemma SecondHalf(w: World, p: int, t: Taking) returns (end: World)
    requires At(w, p) == Some(Passed(t)) && Linked(w.disk, t.inode)
    ensures Leads(w, [Tear(p), Mark(p), TakeSync(p), TakeUnlink(p)], end)
    ensures end.disk.returned == w.disk.returned + [t] && w.disk.files[t.inode].name !in end.disk.names
  {
    var torn := Apply(w, Tear(p));
    var marked := Apply(torn, Mark(p));
    end := LastSteps(marked, p, t);
    LeadsOn(torn, [Mark(p)], marked, [TakeSync(p), TakeUnlink(p)], end);
    LeadsOn(w, [Tear(p)], torn, [Mark(p)] + [TakeSync(p), TakeUnlink(p)], end);
    assert [Tear(p)] + ([Mark(p)] + [TakeSync(p), TakeUnlink(p)]) == [Tear(p), Mark(p), TakeSync(p), TakeUnlink(p)];
  }

  lemma LastSteps(w: World, p: int, t: Taking) returns (end: World)
    requires At(w, p) == Some(Marked(t)) && Linked(w.disk, t.inode)
    ensures Leads(w, [TakeSync(p), TakeUnlink(p)], end)
    ensures end.disk.returned == w.disk.returned + [t] && w.disk.files[t.inode].name !in end.disk.names
  {
    var synced := Apply(w, TakeSync(p));
    end := Apply(synced, TakeUnlink(p));
    LeadsOn(synced, [], synced, [TakeUnlink(p)], end);
    LeadsOn(w, [TakeSync(p)], synced, [TakeUnlink(p)], end);
    assert [TakeSync(p)] + [TakeUnlink(p)] == [TakeSync(p), TakeUnlink(p)];
  }
}
