/**
 Concurrent submitters, executor tasks and restarts of the pilot runner.  Every
 acquire, release, store write and hand-over is its own step, so any number of
 requests may be between any two of them.  `handed` remembers every hand-over
 ever made, across restarts.
 */
module PilotRunnerRuns {
  import opened Wrappers
  import opened PilotRunner

  datatype Stage =
    | Fresh | HasSlot | HasLock | Marked | Announced
    | Unlocking(status: OperationStatus, code: Code)
    | Unslotting(status: OperationStatus, code: Code)
    | Recording(status: OperationStatus, code: Code)

  datatype Submitter =
    | Entered(key: string, hash: string, environment: string)
    | Owner(id: nat, environment: string, stage: Stage)
    | Told(id: nat, row: Operation)
    | Refused
    | Raised
    | Finished(id: nat)

  datatype Progress = Queued | Executing | Unlocked
  datatype Task = Task(environment: string, progress: Progress)

  /** `leaked` and `leakedLocks` are history like `handed`: what nobody is left
      to give back. */
  datatype World = World(
    store: Store, max: nat, free: nat, locked: set<string>,
    submitters: map<nat, Submitter>, tasks: map<nat, Task>,
    leaked: nat, leakedLocks: set<string>, handed: multiset<nat>, auditBroken: bool)

  datatype Event =
    | Enter(s: nat, key: string, hash: string, environment: string)
    | ClaimKey(s: nat, id: nat, ok: bool)
    | TakeSlot(s: nat)
    | TakeLock(s: nat)
    | Mark(s: nat, ok: bool)
    | Announce(s: nat, read: bool, append: bool)
    | HandOver(s: nat, ok: bool)
    | ReleaseLock(s: nat)
    | ReleaseSlot(s: nat)
    | Record(s: nat, ok: bool, append: bool)
    | StartTask(id: nat)
    | Report(id: nat, status: OperationStatus, code: Code, ok: bool, append: bool)
    | UnlockTask(id: nat)
    | EndTask(id: nat)
    | Restart

  predicate At(w: World, s: nat, stage: Stage) {
    s in w.submitters && w.submitters[s].Owner? && w.submitters[s].stage == stage
  }

  predicate Enabled(w: World, e: Event) {
    match e
    case Enter(s, _, _, _) => s !in w.submitters && !w.auditBroken
    case ClaimKey(s, _, _) => s in w.submitters && w.submitters[s].Entered?
    case TakeSlot(s) => At(w, s, Fresh)
    case TakeLock(s) => At(w, s, HasSlot)
    case Mark(s, _) => At(w, s, HasLock)
    case Announce(s, _, _) => At(w, s, Marked)
    case HandOver(s, _) => At(w, s, Announced)
    case ReleaseLock(s) => s in w.submitters && w.submitters[s].Owner? && w.submitters[s].stage.Unlocking?
    case ReleaseSlot(s) => s in w.submitters && w.submitters[s].Owner? && w.submitters[s].stage.Unslotting?
    case Record(s, _, _) => s in w.submitters && w.submitters[s].Owner? && w.submitters[s].stage.Recording?
    case StartTask(id) => id in w.tasks && w.tasks[id].progress == Queued
    case Report(id, status, _, _, _) => id in w.tasks && w.tasks[id].progress == Executing && Terminal(status)
    case UnlockTask(id) => id in w.tasks && w.tasks[id].progress == Executing
    case EndTask(id) => id in w.tasks && w.tasks[id].progress == Unlocked
    case Restart => true
  }

  /** Marking is the one step between acquiring and the try blocks. */
  predicate Loses(e: Event) {
    e.Mark? && !e.ok
  }

  function Moved(w: World, s: nat, stage: Stage): map<nat, Submitter>
    requires s in w.submitters && w.submitters[s].Owner?
  {
    w.submitters[s := w.submitters[s].(stage := stage)]
  }

  function AfterClaim(store: Store, r: Submitter, id: nat): Submitter
    requires r.Entered? && StoreOk(store)
  {
    match ClaimAnswer(store, r.key, r.hash, id)
    case Created(new_) => Owner(new_, r.environment, Fresh)
    case Existing(known, row) => Told(known, row)
    case Conflict => Refused
    case IdTaken => Raised
  }

  function Apply(w: World, e: Event): World
    requires StoreOk(w.store) && Enabled(w, e)
  {
    match e
    case Enter(s, key, hash, environment) => w.(submitters := w.submitters[s := Entered(key, hash, environment)])
    case ClaimKey(s, id, ok) =>
      var r := w.submitters[s];
      if !ok then w.(submitters := w.submitters[s := Raised]) else
      w.(store := Claimed(w.store, r.key, r.hash, r.environment, id),
         submitters := w.submitters[s := AfterClaim(w.store, r, id)])
    case TakeSlot(s) =>
      if w.free > 0 then w.(free := w.free - 1, submitters := Moved(w, s, HasSlot))
      else w.(submitters := Moved(w, s, Recording(Rejected, ConcurrencyLimit)))
    case TakeLock(s) =>
      var environment := w.submitters[s].environment;
      if environment in w.locked then w.(submitters := Moved(w, s, Unslotting(Rejected, EnvironmentBusy)))
      else w.(locked := w.locked + {environment}, submitters := Moved(w, s, HasLock))
    case Mark(s, ok) =>
      var r := w.submitters[s];
      if ok then w.(store := WithStatus(w.store, r.id, Running, NoCode), submitters := Moved(w, s, Marked))
      else w.(submitters := w.submitters[s := Raised], leaked := w.leaked + 1,
              leakedLocks := w.leakedLocks + {r.environment})
    case Announce(s, read, append) =>
      if read && append then w.(submitters := Moved(w, s, Announced))
      else w.(submitters := Moved(w, s, Unlocking(Rejected, AuditUnavailable)), auditBroken := w.auditBroken || read)
    case HandOver(s, ok) =>
      var r := w.submitters[s];
      if ok then w.(submitters := w.submitters[s := Finished(r.id)],
                    tasks := w.tasks[r.id := Task(r.environment, Queued)], handed := w.handed + multiset{r.id})
      else w.(submitters := Moved(w, s, Unlocking(Failed, SchedulingFailed)))
    case ReleaseLock(s) =>
      var r := w.submitters[s];
      w.(locked := w.locked - {r.environment}, submitters := Moved(w, s, Unslotting(r.stage.status, r.stage.code)))
    case ReleaseSlot(s) =>
      var r := w.submitters[s];
      w.(free := w.free + 1, submitters := Moved(w, s, Recording(r.stage.status, r.stage.code)))
    case Record(s, ok, append) =>
      var r := w.submitters[s];
      if !ok then w.(submitters := w.submitters[s := Raised])
      else w.(store := WithStatus(w.store, r.id, r.stage.status, r.stage.code),
              submitters := w.submitters[s := Finished(r.id)],
              auditBroken := w.auditBroken || r.stage.code == AuditUnavailable || !append)
    case StartTask(id) => w.(tasks := w.tasks[id := w.tasks[id].(progress := Executing)])
    case Report(id, status, code, ok, append) =>
      if !ok then w
      else w.(store := WithStatus(w.store, id, status, code), auditBroken := w.auditBroken || !append)
    case UnlockTask(id) =>
      w.(locked := w.locked - {w.tasks[id].environment}, tasks := w.tasks[id := w.tasks[id].(progress := Unlocked)])
    case EndTask(id) => w.(free := w.free + 1, tasks := w.tasks - {id})
    case Restart =>
      w.(store := Recovered(w.store), free := w.max, locked := {}, submitters := map[], tasks := map[],
         leaked := 0, leakedLocks := {}, auditBroken := false)
  }

  ghost predicate Initial(w: World) {
    && StoreOk(w.store) && w.free == w.max && w.locked == {} && w.submitters == map[] && w.tasks == map[]
    && w.leaked == 0 && w.leakedLocks == {} && w.handed == multiset{}
  }

  ghost predicate Run(ws: seq<World>, es: seq<Event>) {
    && |ws| == |es| + 1
    && forall i :: 0 <= i < |es| ==> StoreOk(ws[i].store) && Enabled(ws[i], es[i]) && ws[i + 1] == Apply(ws[i], es[i])
  }

  // ---------------------------------------------------------------- the invariant

  predicate HoldsSlot(r: Submitter) {
    r.Owner? && !r.stage.Fresh? && !r.stage.Recording?
  }

  predicate HoldsLock(r: Submitter) {
    r.Owner? && (r.stage.HasLock? || r.stage.Marked? || r.stage.Announced? || r.stage.Unlocking?)
  }

  function SlotHolders(submitters: map<nat, Submitter>): set<nat> {
    set s | s in submitters && HoldsSlot(submitters[s])
  }

  /** Every slot is free, held by one request or task, or lost for good. */
  ghost predicate SlotsOk(w: World) {
    w.free + |SlotHolders(w.submitters)| + |w.tasks| + w.leaked == w.max
  }

  predicate SubmitterLocks(w: World, s: nat, environment: string) {
    s in w.submitters && HoldsLock(w.submitters[s]) && w.submitters[s].environment == environment
  }

  predicate TaskLocks(w: World, id: nat, environment: string) {
    id in w.tasks && w.tasks[id].progress != Unlocked && w.tasks[id].environment == environment
  }

  /** Every taken lock has exactly one holder. */
  ghost predicate LocksOk(w: World) {
    && (forall environment :: environment in w.locked ==>
          || (exists s :: SubmitterLocks(w, s, environment))
          || (exists id :: TaskLocks(w, id, environment))
          || environment in w.leakedLocks)
    && (forall s, environment :: SubmitterLocks(w, s, environment) ==>
          environment in w.locked && environment !in w.leakedLocks)
    && (forall id, environment :: TaskLocks(w, id, environment) ==>
          environment in w.locked && environment !in w.leakedLocks)
    && w.leakedLocks <= w.locked
    && (forall s, t, environment :: SubmitterLocks(w, s, environment) && SubmitterLocks(w, t, environment) ==> s == t)
    && (forall a, b, environment :: TaskLocks(w, a, environment) && TaskLocks(w, b, environment) ==> a == b)
    && (forall s, id, environment :: SubmitterLocks(w, s, environment) ==> !TaskLocks(w, id, environment))
  }

  predicate Owns(w: World, s: nat, id: nat) {
    s in w.submitters && w.submitters[s].Owner? && w.submitters[s].id == id
  }

  /** An operation belongs to the request that created its row, until it is
      handed over, once. */
  ghost predicate OwnersOk(w: World) {
    && StoreOk(w.store)
    && (forall s, id :: Owns(w, s, id) ==> id in w.store.operations && id !in w.handed && id !in w.tasks)
    && (forall s, t, id :: Owns(w, s, id) && Owns(w, t, id) ==> s == t)
    && (forall id :: id in w.tasks ==> id in w.handed)
    && (forall id :: id in w.handed ==> id in w.store.operations && w.handed[id] == 1)
  }

  ghost predicate Inv(w: World) {
    SlotsOk(w) && LocksOk(w) && OwnersOk(w)
  }

  function Others(submitters: map<nat, Submitter>, s: nat): set<nat> {
    set t | t in submitters && t != s && HoldsSlot(submitters[t])
  }

  lemma HoldersSplit(submitters: map<nat, Submitter>, s: nat)
    ensures |SlotHolders(submitters)| ==
      |Others(submitters, s)| + (if s in submitters && HoldsSlot(submitters[s]) then 1 else 0)
  {
    if s in submitters && HoldsSlot(submitters[s]) {
      assert SlotHolders(submitters) == Others(submitters, s) + {s};
    } else {
      assert SlotHolders(submitters) == Others(submitters, s);
    }
  }

  lemma HoldersMove(submitters: map<nat, Submitter>, s: nat, r: Submitter)
    ensures |SlotHolders(submitters[s := r])| ==
      |SlotHolders(submitters)|
      - (if s in submitters && HoldsSlot(submitters[s]) then 1 else 0) + (if HoldsSlot(r) then 1 else 0)
  {
    HoldersSplit(submitters, s);
    HoldersSplit(submitters[s := r], s);
    assert Others(submitters[s := r], s) == Others(submitters, s);
  }

  lemma TaskStepKeepsSlots(w: World, e: Event)
    requires SlotsOk(w) && StoreOk(w.store) && Enabled(w, e)
    requires e.StartTask? || e.Report? || e.UnlockTask? || e.EndTask? || e.Restart?
    ensures SlotsOk(Apply(w, e))
  {
    var w' := Apply(w, e);
    match e
    case Restart => assert SlotHolders(w'.submitters) == {};
    case StartTask(_) => assert w'.tasks.Keys == w.tasks.Keys;
    case UnlockTask(_) => assert w'.tasks.Keys == w.tasks.Keys;
    case EndTask(id) => assert w'.tasks.Keys == w.tasks.Keys - {id};
    case Report(_, _, _, _, _) =>
  }

  predicate SubmitterStep(e: Event) {
    !(e.StartTask? || e.Report? || e.UnlockTask? || e.EndTask? || e.Restart?)
  }

  /** A request's step moves one slot at most, and says which way. */
  lemma SubmitterStepSlots(w: World, e: Event)
    requires StoreOk(w.store) && Enabled(w, e) && SubmitterStep(e)
    ensures var w' := Apply(w, e);
      && e.s in w'.submitters && w'.submitters == w.submitters[e.s := w'.submitters[e.s]]
      && w'.max == w.max
      && w'.free + (if HoldsSlot(w'.submitters[e.s]) then 1 else 0) + (w'.leaked - w.leaked)
         + (if e.HandOver? && e.ok then 1 else 0)
         == w.free + (if e.s in w.submitters && HoldsSlot(w.submitters[e.s]) then 1 else 0)
  {
  }

  lemma SubmitterStepTasks(w: World, e: Event)
    requires StoreOk(w.store) && Enabled(w, e) && SubmitterStep(e)
    requires forall s, id :: Owns(w, s, id) ==> id !in w.tasks
    ensures |Apply(w, e).tasks| == |w.tasks| + (if e.HandOver? && e.ok then 1 else 0)
  {
    if e.HandOver? && e.ok {
      assert Owns(w, e.s, w.submitters[e.s].id);
      assert Apply(w, e).tasks.Keys == w.tasks.Keys + {w.submitters[e.s].id};
    }
  }

  lemma StepKeepsSlots(w: World, e: Event)
    requires SlotsOk(w) && StoreOk(w.store) && Enabled(w, e)
    requires forall s, id :: Owns(w, s, id) ==> id !in w.tasks
    ensures SlotsOk(Apply(w, e))
  {
    if SubmitterStep(e) {
      SubmitterStepSlots(w, e);
      SubmitterStepTasks(w, e);
      HoldersMove(w.submitters, e.s, Apply(w, e).submitters[e.s]);
    } else {
      TaskStepKeepsSlots(w, e);
    }
  }

  lemma StatusKeepsStore(s: Store, id: nat, status: OperationStatus, code: Code)
    requires StoreOk(s)
    ensures StoreOk(WithStatus(s, id, status, code))
    ensures WithStatus(s, id, status, code).operations.Keys == s.operations.Keys
  {
  }

  lemma RecoveryKeepsStore(s: Store)
    requires StoreOk(s)
    ensures StoreOk(Recovered(s)) && Recovered(s).operations.Keys == s.operations.Keys
  {
  }

  /** A claim creates one row and its owner, or neither. */
  lemma ClaimIs(w: World, e: Event)
    requires StoreOk(w.store) && Enabled(w, e) && e.ClaimKey?
    ensures var w', r := Apply(w, e), w.submitters[e.s];
      && w'.handed == w.handed && w'.tasks == w.tasks && w'.submitters == w.submitters[e.s := w'.submitters[e.s]]
      && if e.ok && ClaimAnswer(w.store, r.key, r.hash, e.id).Created?
         then w'.store == Claimed(w.store, r.key, r.hash, r.environment, e.id)
           && w'.submitters[e.s] == Owner(e.id, r.environment, Fresh)
         else w'.store == w.store && !w'.submitters[e.s].Owner?
  {
  }

  lemma NewOwner(w: World, w': World, s: nat, id: nat)
    requires OwnersOk(w) && StoreOk(w'.store) && w'.handed == w.handed && w'.tasks == w.tasks
    requires id !in w.store.operations && w'.store.operations.Keys == w.store.operations.Keys + {id}
    requires forall t, k :: Owns(w', t, k) ==> Owns(w, t, k) || (t == s && k == id)
    ensures OwnersOk(w')
  {
  }

  /** One request goes on with nothing, or with the row created for it. */
  lemma CreatedKeepsOwners(w: World, w': World, s: nat, owner: Submitter)
    requires OwnersOk(w) && StoreOk(w'.store) && w'.handed == w.handed && w'.tasks == w.tasks && owner.Owner?
    requires owner.id !in w.store.operations && w'.store.operations.Keys == w.store.operations.Keys + {owner.id}
    requires w'.submitters == w.submitters[s := owner]
    ensures OwnersOk(w')
  {
    NewOwner(w, w', s, owner.id);
  }

  lemma AnsweredKeepsOwners(w: World, w': World, s: nat, r: Submitter)
    requires OwnersOk(w) && w'.store == w.store && w'.handed == w.handed && w'.tasks == w.tasks
    requires w'.submitters == w.submitters[s := r] && !r.Owner?
    ensures OwnersOk(w')
  {
    FewerKeepOwners(w, w');
  }

  lemma ClaimKeepsOwners(w: World, e: Event)
    requires OwnersOk(w) && Enabled(w, e) && e.ClaimKey?
    ensures OwnersOk(Apply(w, e))
  {
    var w', r := Apply(w, e), w.submitters[e.s];
    ClaimIs(w, e);
    if e.ok && ClaimAnswer(w.store, r.key, r.hash, e.id).Created? {
      ClaimedKeepsStore(w.store, r.key, r.hash, r.environment, e.id);
      CreatedKeepsOwners(w, w', e.s, Owner(e.id, r.environment, Fresh));
    } else {
      AnsweredKeepsOwners(w, w', e.s, w'.submitters[e.s]);
    }
  }

  lemma ClaimedKeepsStore(s: Store, key: string, hash: string, environment: string, id: nat)
    requires StoreOk(s) && ClaimAnswer(s, key, hash, id).Created?
    ensures StoreOk(Claimed(s, key, hash, environment, id)) && id !in s.operations
    ensures Claimed(s, key, hash, environment, id).operations.Keys == s.operations.Keys + {id}
  {
  }

  lemma HandOverKeepsOwners(w: World, e: Event)
    requires OwnersOk(w) && Enabled(w, e) && e.HandOver? && e.ok
    ensures OwnersOk(Apply(w, e))
  {
    var w' := Apply(w, e);
    assert Owns(w, e.s, w.submitters[e.s].id);
    assert forall t, id :: Owns(w', t, id) ==> Owns(w, t, id);
  }

  /** Steps that create and hand over nothing. */
  lemma FewerOwners(w: World, e: Event)
    requires StoreOk(w.store) && Enabled(w, e) && !e.ClaimKey? && !(e.HandOver? && e.ok)
    ensures var w' := Apply(w, e);
      && StoreOk(w'.store) && w'.store.operations.Keys == w.store.operations.Keys
      && w'.handed == w.handed && w'.tasks.Keys <= w.tasks.Keys
      && forall s, id :: Owns(w', s, id) ==> Owns(w, s, id)
  {
    match e
    case Mark(s, ok) => StatusKeepsStore(w.store, w.submitters[s].id, Running, NoCode);
    case Record(s, _, _) => StatusKeepsStore(w.store, w.submitters[s].id, w.submitters[s].stage.status,
      w.submitters[s].stage.code);
    case Report(id, status, code, _, _) => StatusKeepsStore(w.store, id, status, code);
    case Restart => RecoveryKeepsStore(w.store);
    case _ =>
  }

  lemma FewerKeepOwners(w: World, w': World)
    requires OwnersOk(w)
    requires StoreOk(w'.store) && w'.store.operations.Keys == w.store.operations.Keys
    requires w'.handed == w.handed && w'.tasks.Keys <= w.tasks.Keys
    requires forall s, id :: Owns(w', s, id) ==> Owns(w, s, id)
    ensures OwnersOk(w')
  {
  }

  lemma StepKeepsOwners(w: World, e: Event)
    requires OwnersOk(w) && Enabled(w, e)
    ensures OwnersOk(Apply(w, e))
  {
    if e.ClaimKey? { ClaimKeepsOwners(w, e); }
    else if e.HandOver? && e.ok { HandOverKeepsOwners(w, e); }
    else {
      FewerOwners(w, e);
      FewerKeepOwners(w, Apply(w, e));
    }
  }

  /** A step that takes or releases no lock and moves no holder. */
  lemma SameHoldersKeepLocks(w: World, w': World)
    requires LocksOk(w) && w'.locked == w.locked && w'.leakedLocks == w.leakedLocks
    requires forall s, environment :: SubmitterLocks(w', s, environment) <==> SubmitterLocks(w, s, environment)
    requires forall id, environment :: TaskLocks(w', id, environment) <==> TaskLocks(w, id, environment)
    ensures LocksOk(w')
  {
  }

  lemma TakeKeepsLocks(w: World, e: Event)
    requires LocksOk(w) && StoreOk(w.store) && Enabled(w, e) && e.TakeLock?
    requires w.submitters[e.s].environment !in w.locked
    ensures LocksOk(Apply(w, e))
  {
    var w', here := Apply(w, e), w.submitters[e.s].environment;
    assert SubmitterLocks(w', e.s, here);
    assert forall t, environment :: SubmitterLocks(w', t, environment) <==>
      SubmitterLocks(w, t, environment) || (t == e.s && environment == here);
    assert forall id, environment :: TaskLocks(w', id, environment) <==> TaskLocks(w, id, environment);
  }

  lemma LeakKeepsLocks(w: World, e: Event)
    requires LocksOk(w) && StoreOk(w.store) && Enabled(w, e) && e.Mark? && !e.ok
    ensures LocksOk(Apply(w, e))
  {
    var w', here := Apply(w, e), w.submitters[e.s].environment;
    assert SubmitterLocks(w, e.s, here);
    assert forall t, environment :: SubmitterLocks(w', t, environment) <==>
      SubmitterLocks(w, t, environment) && t != e.s;
    assert forall id, environment :: TaskLocks(w', id, environment) <==> TaskLocks(w, id, environment);
  }

  lemma PassKeepsLocks(w: World, e: Event)
    requires LocksOk(w) && OwnersOk(w) && Enabled(w, e) && e.HandOver? && e.ok
    ensures LocksOk(Apply(w, e))
  {
    var w', r := Apply(w, e), w.submitters[e.s];
    assert Owns(w, e.s, r.id) && SubmitterLocks(w, e.s, r.environment) && TaskLocks(w', r.id, r.environment);
    assert forall t, environment :: SubmitterLocks(w', t, environment) <==>
      SubmitterLocks(w, t, environment) && t != e.s;
    assert forall id, environment :: TaskLocks(w', id, environment) <==>
      TaskLocks(w, id, environment) || (id == r.id && environment == r.environment);
  }

  lemma ReleaseKeepsLocks(w: World, e: Event)
    requires LocksOk(w) && StoreOk(w.store) && Enabled(w, e) && e.ReleaseLock?
    ensures LocksOk(Apply(w, e))
  {
    var w', here := Apply(w, e), w.submitters[e.s].environment;
    assert SubmitterLocks(w, e.s, here);
    assert forall t, environment :: SubmitterLocks(w', t, environment) <==>
      SubmitterLocks(w, t, environment) && t != e.s;
    assert forall id, environment :: TaskLocks(w', id, environment) <==> TaskLocks(w, id, environment);
  }

  lemma UnlockKeepsLocks(w: World, e: Event)
    requires LocksOk(w) && StoreOk(w.store) && Enabled(w, e) && e.UnlockTask?
    ensures LocksOk(Apply(w, e))
  {
    var w', here := Apply(w, e), w.tasks[e.id].environment;
    assert TaskLocks(w, e.id, here);
    assert forall t, environment :: SubmitterLocks(w', t, environment) <==> SubmitterLocks(w, t, environment);
    assert forall id, environment :: TaskLocks(w', id, environment) <==> TaskLocks(w, id, environment) && id != e.id;
  }

  predicate QuietStep(w: World, e: Event)
    requires Enabled(w, e)
  {
    && !(e.TakeLock? && w.submitters[e.s].environment !in w.locked)
    && !Loses(e) && !(e.HandOver? && e.ok) && !e.ReleaseLock? && !e.UnlockTask? && !e.Restart?
  }

  /** The lock a request holds, if any. */
  function LockOf(submitters: map<nat, Submitter>, s: nat): Option<string> {
    if s in submitters && HoldsLock(submitters[s]) then Some(submitters[s].environment) else None
  }

  lemma QuietRequest(w: World, e: Event)
    requires StoreOk(w.store) && Enabled(w, e) && QuietStep(w, e) && SubmitterStep(e)
    ensures var w' := Apply(w, e);
      && w'.locked == w.locked && w'.leakedLocks == w.leakedLocks && w'.tasks == w.tasks
      && e.s in w'.submitters && w'.submitters == w.submitters[e.s := w'.submitters[e.s]]
      && LockOf(w'.submitters, e.s) == LockOf(w.submitters, e.s)
  {
  }

  lemma QuietTask(w: World, e: Event)
    requires StoreOk(w.store) && Enabled(w, e) && QuietStep(w, e) && !SubmitterStep(e)
    ensures var w' := Apply(w, e);
      && w'.locked == w.locked && w'.leakedLocks == w.leakedLocks && w'.submitters == w.submitters
      && forall id, environment :: TaskLocks(w', id, environment) <==> TaskLocks(w, id, environment)
  {
  }

  lemma SameLocks(w: World, w': World, s: nat)
    requires s in w'.submitters && w'.submitters == w.submitters[s := w'.submitters[s]]
    requires LockOf(w'.submitters, s) == LockOf(w.submitters, s)
    ensures forall t, environment :: SubmitterLocks(w', t, environment) <==> SubmitterLocks(w, t, environment)
  {
    forall t, environment ensures SubmitterLocks(w', t, environment) <==> SubmitterLocks(w, t, environment) {
      assert SubmitterLocks(w', t, environment) <==> LockOf(w'.submitters, t) == Some(environment);
    }
  }

  lemma QuietStepKeepsLocks(w: World, e: Event)
    requires LocksOk(w) && StoreOk(w.store) && Enabled(w, e) && QuietStep(w, e)
    ensures LocksOk(Apply(w, e))
  {
    if SubmitterStep(e) {
      QuietRequest(w, e);
      SameLocks(w, Apply(w, e), e.s);
    } else {
      QuietTask(w, e);
    }
    SameHoldersKeepLocks(w, Apply(w, e));
  }

  lemma StepKeepsLocks(w: World, e: Event)
    requires LocksOk(w) && OwnersOk(w) && Enabled(w, e)
    ensures LocksOk(Apply(w, e))
  {
    if e.Restart? {}
    else if e.TakeLock? && w.submitters[e.s].environment !in w.locked { TakeKeepsLocks(w, e); }
    else if e.Mark? && !e.ok { LeakKeepsLocks(w, e); }
    else if e.HandOver? && e.ok { PassKeepsLocks(w, e); }
    else if e.ReleaseLock? { ReleaseKeepsLocks(w, e); }
    else if e.UnlockTask? { UnlockKeepsLocks(w, e); }
    else { QuietStepKeepsLocks(w, e); }
  }

  lemma StepKeepsInv(w: World, e: Event)
    requires Inv(w) && Enabled(w, e)
    ensures Inv(Apply(w, e))
  {
    StepKeepsSlots(w, e);
    StepKeepsOwners(w, e);
    StepKeepsLocks(w, e);
  }

  lemma {:induction false} RunKeepsInv(ws: seq<World>, es: seq<Event>, i: nat)
    requires Run(ws, es) && Initial(ws[0]) && i < |ws|
    ensures Inv(ws[i])
  {
    if i == 0 {
      assert SlotHolders(ws[0].submitters) == {};
    } else {
      RunKeepsInv(ws, es, i - 1);
      StepKeepsInv(ws[i - 1], es[i - 1]);
    }
  }

  // ---------------------------------------------------------------- main results

  predicate Executes(w: World, id: nat, environment: string) {
    id in w.tasks && w.tasks[id] == Task(environment, Executing)
  }

  /** How many rows could not be marked running since the last restart. */
  function Leaks(es: seq<Event>): nat {
    if es == [] then 0
    else
      var last := es[|es| - 1];
      if last.Restart? then 0 else Leaks(es[..|es| - 1]) + (if Loses(last) then 1 else 0)
  }

  /** And in which environments. */
  function LeakedLocks(ws: seq<World>, es: seq<Event>, i: nat): set<string>
    requires i <= |es| <= |ws|
  {
    if i == 0 || es[i - 1].Restart? then {} else LeakedLocks(ws, es, i - 1) + Lost(ws[i - 1], es[i - 1])
  }

  function Lost(w: World, e: Event): set<string> {
    if Loses(e) && At(w, e.s, HasLock) then {w.submitters[e.s].environment} else {}
  }

  lemma LeakStep(w: World, e: Event)
    requires StoreOk(w.store) && Enabled(w, e)
    ensures Apply(w, e).leaked == if e.Restart? then 0 else w.leaked + (if Loses(e) then 1 else 0)
    ensures Apply(w, e).max == w.max
  {
  }

  lemma LostLockStep(w: World, e: Event)
    requires StoreOk(w.store) && Enabled(w, e)
    ensures Apply(w, e).leakedLocks == if e.Restart? then {} else w.leakedLocks + Lost(w, e)
  {
  }

  lemma {:induction false} LeaksAreHistory(ws: seq<World>, es: seq<Event>, i: nat)
    requires Run(ws, es) && Initial(ws[0]) && i < |ws|
    ensures ws[i].leaked == Leaks(es[..i]) && ws[i].leakedLocks == LeakedLocks(ws, es, i) && ws[i].max == ws[0].max
  {
    if i > 0 {
      LeaksAreHistory(ws, es, i - 1);
      LeakStep(ws[i - 1], es[i - 1]);
      LostLockStep(ws[i - 1], es[i - 1]);
      assert es[..i][..i - 1] == es[..i - 1] && ws[i] == Apply(ws[i - 1], es[i - 1]);
    }
  }

  ghost predicate Quiet(w: World) {
    SlotHolders(w.submitters) == {} && w.tasks == map[]
  }

  /** Executions never exceed the limit, no environment runs two, and whatever
      fails, each slot is free, held by a request or task, or was lost by a
      failed marking. */
  lemma SlotsAndLocksConserved(ws: seq<World>, es: seq<Event>, i: nat)
    requires Run(ws, es) && Initial(ws[0]) && i < |ws|
    ensures ws[i].free + |SlotHolders(ws[i].submitters)| + |ws[i].tasks| + Leaks(es[..i]) == ws[0].max
    ensures |ws[i].tasks| <= ws[0].max
    ensures forall a, b, environment :: Executes(ws[i], a, environment) && Executes(ws[i], b, environment) ==> a == b
  {
    RunKeepsInv(ws, es, i);
    LeaksAreHistory(ws, es, i);
    var w := ws[i];
    forall a, b, environment | Executes(w, a, environment) && Executes(w, b, environment) ensures a == b {
      assert TaskLocks(w, a, environment) && TaskLocks(w, b, environment);
    }
  }

  /** With no request or task under way, whichever of the store, audit and
      scheduling calls have failed before: the slots and locks not given back
      are those of the markings that failed since the last restart, and no
      other. */
  lemma OnlyMarkingLeaks(ws: seq<World>, es: seq<Event>, i: nat)
    requires Run(ws, es) && Initial(ws[0]) && i < |ws| && Quiet(ws[i])
    ensures ws[i].free + Leaks(es[..i]) == ws[0].max
    ensures ws[i].locked == LeakedLocks(ws, es, i)
    ensures ws[i].free == ws[0].max && ws[i].locked == {} <==> AllMadeGood(es[..i])
  {
    RunKeepsInv(ws, es, i);
    LeaksAreHistory(ws, es, i);
    QuietKeepsLeaks(ws[i]);
    NoLeaks(es[..i]);
    NoLockWithoutSlot(ws, es, i);
  }

  lemma QuietKeepsLeaks(w: World)
    requires Inv(w) && Quiet(w)
    ensures w.free + w.leaked == w.max && w.locked == w.leakedLocks
  {
    assert forall s, environment :: SubmitterLocks(w, s, environment) ==> s in SlotHolders(w.submitters);
  }

  /** Every failed marking was followed by a restart. */
  predicate AllMadeGood(es: seq<Event>) {
    forall k :: 0 <= k < |es| && Loses(es[k]) ==> Restarted(es, k)
  }

  /** A restart came after the k-th event. */
  predicate Restarted(es: seq<Event>, k: nat) {
    exists j :: k < j < |es| && es[j].Restart?
  }

  lemma {:induction false} NoLeaks(es: seq<Event>)
    ensures Leaks(es) == 0 <==> AllMadeGood(es)
  {
    if es != [] {
      var n := |es| - 1;
      NoLeaks(es[..n]);
      forall k | 0 <= k < n ensures Restarted(es, k) <==> Restarted(es[..n], k) || es[n].Restart? {
        if Restarted(es[..n], k) {
          var j :| k < j < n && es[..n][j].Restart?;
          assert es[j].Restart?;
        }
        if Restarted(es, k) && !es[n].Restart? {
          var j :| k < j < |es| && es[j].Restart?;
          assert es[..n][j].Restart?;
        }
      }
      assert forall k :: 0 <= k < n ==> es[..n][k] == es[k];
    }
  }

  lemma {:induction false} NoLockWithoutSlot(ws: seq<World>, es: seq<Event>, i: nat)
    requires Run(ws, es) && i < |ws|
    ensures Leaks(es[..i]) == 0 ==> LeakedLocks(ws, es, i) == {}
  {
    if i > 0 {
      NoLockWithoutSlot(ws, es, i - 1);
      assert es[..i][..i - 1] == es[..i - 1];
    }
  }

  /** A bounded semaphore and a lock refuse a release too many; here none is. */
  lemma ReleasesAreOwed(ws: seq<World>, es: seq<Event>, i: nat)
    requires Run(ws, es) && Initial(ws[0]) && i < |es|
    ensures es[i].ReleaseSlot? || es[i].EndTask? ==> ws[i].free < ws[i].max
    ensures es[i].ReleaseLock? ==> ws[i].submitters[es[i].s].environment in ws[i].locked
    ensures es[i].UnlockTask? ==> ws[i].tasks[es[i].id].environment in ws[i].locked
  {
    RunKeepsInv(ws, es, i);
    if es[i].ReleaseSlot? || es[i].EndTask? { SlotIsOwed(ws[i], es[i]); }
    if es[i].ReleaseLock? || es[i].UnlockTask? { LockIsOwed(ws[i], es[i]); }
  }

  lemma SlotIsOwed(w: World, e: Event)
    requires SlotsOk(w) && Enabled(w, e) && (e.ReleaseSlot? || e.EndTask?)
    ensures w.free < w.max
  {
    if e.ReleaseSlot? { assert e.s in SlotHolders(w.submitters); } else { assert e.id in w.tasks.Keys; }
  }

  lemma LockIsOwed(w: World, e: Event)
    requires LocksOk(w) && Enabled(w, e) && (e.ReleaseLock? || e.UnlockTask?)
    ensures e.ReleaseLock? ==> w.submitters[e.s].environment in w.locked
    ensures e.UnlockTask? ==> w.tasks[e.id].environment in w.locked
  {
    if e.ReleaseLock? { assert SubmitterLocks(w, e.s, w.submitters[e.s].environment); }
    else { assert TaskLocks(w, e.id, w.tasks[e.id].environment); }
  }

  /** No operation is ever handed to the executor twice, restarts included. */
  lemma HandedAtMostOnce(ws: seq<World>, es: seq<Event>, i: nat, id: nat)
    requires Run(ws, es) && Initial(ws[0]) && i < |ws|
    ensures ws[i].handed[id] <= 1
    ensures id in ws[i].tasks ==> ws[i].handed[id] == 1
  {
    RunKeepsInv(ws, es, i);
  }

  /** A row keeps its key and payload, and the key keeps its row. */
  ghost predicate Remembers(later: Store, earlier: Store) {
    && (forall key :: key in earlier.byKey ==> key in later.byKey && later.byKey[key] == earlier.byKey[key])
    && (forall id :: id in earlier.operations ==>
          && id in later.operations && later.operations[id].key == earlier.operations[id].key
          && later.operations[id].payloadHash == earlier.operations[id].payloadHash)
  }

  lemma RemembersIsTransitive(c: Store, b: Store, a: Store)
    requires Remembers(c, b) && Remembers(b, a)
    ensures Remembers(c, a)
  {
  }

  lemma ClaimRemembers(s: Store, key: string, hash: string, environment: string, id: nat)
    requires StoreOk(s)
    ensures Remembers(Claimed(s, key, hash, environment, id), s)
  {
  }

  lemma StatusRemembers(s: Store, id: nat, status: OperationStatus, code: Code)
    ensures Remembers(WithStatus(s, id, status, code), s)
  {
  }

  lemma RecoveryRemembers(s: Store)
    ensures Remembers(Recovered(s), s)
  {
  }

  lemma StepRemembers(w: World, e: Event)
    requires StoreOk(w.store) && Enabled(w, e)
    ensures Remembers(Apply(w, e).store, w.store)
  {
    match e
    case ClaimKey(s, id, _) =>
      var r := w.submitters[s];
      ClaimRemembers(w.store, r.key, r.hash, r.environment, id);
    case Mark(s, ok) => StatusRemembers(w.store, w.submitters[s].id, Running, NoCode);
    case Record(s, _, _) => StatusRemembers(w.store, w.submitters[s].id, w.submitters[s].stage.status,
      w.submitters[s].stage.code);
    case Report(id, status, code, _, _) => StatusRemembers(w.store, id, status, code);
    case Restart => RecoveryRemembers(w.store);
    case _ =>
  }

  lemma {:induction false} RemembersAlong(stores: seq<Store>, i: nat, j: nat)
    requires i <= j < |stores|
    requires forall k :: 0 <= k < |stores| - 1 ==> Remembers(stores[k + 1], stores[k])
    ensures Remembers(stores[j], stores[i])
  {
    if i < j {
      RemembersAlong(stores, i, j - 1);
      assert Remembers(stores[j - 1 + 1], stores[j - 1]);
      RemembersIsTransitive(stores[j], stores[j - 1], stores[i]);
    }
  }

  /** A key, once claimed, names the same operation and payload for ever. */
  lemma KeysOwnTheirIds(ws: seq<World>, es: seq<Event>, i: nat, j: nat)
    requires Run(ws, es) && i <= j < |ws|
    ensures Remembers(ws[j].store, ws[i].store)
  {
    var stores := seq(|ws|, k requires 0 <= k < |ws| => ws[k].store);
    forall k | 0 <= k < |stores| - 1 ensures Remembers(stores[k + 1], stores[k]) {
      StepRemembers(ws[k], es[k]);
    }
    RemembersAlong(stores, i, j);
  }

  /** Repeating a key that was ever claimed, at any later point of the run: the
      same payload is told the same operation, another is refused; nothing is
      written and nothing new is admitted. */
  lemma RepeatsAreAnswered(ws: seq<World>, es: seq<Event>, i: nat, j: nat, key: string)
    requires Run(ws, es) && Initial(ws[0]) && i <= j < |es|
    requires key in ws[i].store.byKey
    requires es[j].ClaimKey? && es[j].ok && ws[j].submitters[es[j].s].key == key
    ensures ws[j + 1].store == ws[j].store && ws[j + 1].free == ws[j].free && ws[j + 1].tasks == ws[j].tasks
    ensures var id := ws[i].store.byKey[key];
      var asked, told := ws[j].submitters[es[j].s], ws[j + 1].submitters[es[j].s];
      id in ws[i].store.operations &&
      if asked.hash == ws[i].store.operations[id].payloadHash then told.Told? && told.id == id else told == Refused
  {
    RunKeepsInv(ws, es, i);
    KeysOwnTheirIds(ws, es, i, j);
    assert ws[j + 1] == Apply(ws[j], es[j]);
    RepeatIs(ws[j], es[j], key);
  }

  lemma RepeatIs(w: World, e: Event, key: string)
    requires StoreOk(w.store) && Enabled(w, e) && e.ClaimKey? && e.ok
    requires w.submitters[e.s].key == key && key in w.store.byKey
    ensures var w', row := Apply(w, e), w.store.operations[w.store.byKey[key]];
      && w'.store == w.store && w'.free == w.free && w'.tasks == w.tasks && e.s in w'.submitters
      && w'.submitters[e.s] == if w.submitters[e.s].hash == row.payloadHash then Told(w.store.byKey[key], row)
        else Refused
  {
  }

  /** A row that is not running, and that no request or task is about. */
  ghost predicate Orphaned(w: World, id: nat) {
    && id in w.store.operations && w.store.operations[id].status != Running && id !in w.tasks
    && forall s :: !Owns(w, s, id)
  }

  /** The five kinds of step that write the store. */
  function StoreAfter(w: World, e: Event): Store
    requires StoreOk(w.store) && Enabled(w, e)
  {
    match e
    case ClaimKey(s, id, ok) =>
      var r := w.submitters[s];
      if ok then Claimed(w.store, r.key, r.hash, r.environment, id) else w.store
    case Mark(s, ok) => if ok then WithStatus(w.store, w.submitters[s].id, Running, NoCode) else w.store
    case Record(s, ok, _) =>
      var r := w.submitters[s];
      if ok then WithStatus(w.store, r.id, r.stage.status, r.stage.code) else w.store
    case Report(id, status, code, ok, _) => if ok then WithStatus(w.store, id, status, code) else w.store
    case Restart => Recovered(w.store)
    case _ => w.store
  }

  lemma StoreIs(w: World, e: Event)
    requires StoreOk(w.store) && Enabled(w, e)
    ensures Apply(w, e).store == StoreAfter(w, e)
  {
  }

  /** Only its own request or task writes a row that is not running. */
  lemma OthersLeaveRow(w: World, e: Event, id: nat)
    requires StoreOk(w.store) && Enabled(w, e) && Orphaned(w, id)
    ensures id in Apply(w, e).store.operations && Apply(w, e).store.operations[id] == w.store.operations[id]
  {
    StoreIs(w, e);
    if e.Mark? || e.Record? { assert !Owns(w, e.s, id); }
  }

  lemma OthersGainNothing(w: World, e: Event, id: nat)
    requires StoreOk(w.store) && Enabled(w, e) && Orphaned(w, id)
    ensures id !in Apply(w, e).tasks && forall s :: !Owns(Apply(w, e), s, id)
  {
    if e.ClaimKey? {
      forall s ensures !Owns(Apply(w, e), s, id) {
        assert !Owns(w, s, id);
      }
    } else if e.HandOver? && e.ok {
      assert !Owns(w, e.s, id);
      forall s ensures !Owns(Apply(w, e), s, id) {
        assert !Owns(w, s, id);
      }
    } else {
      FewerOwners(w, e);
    }
  }

  /** What a restart finds is orphaned from then on: rows found running end as
      interrupted, and all others keep the status they had. */
  lemma {:induction false} RestartSettles(ws: seq<World>, es: seq<Event>, i: nat, j: nat, id: nat)
    requires Run(ws, es) && i < j < |ws|
    requires es[i].Restart? && id in ws[i].store.operations
    ensures Orphaned(ws[j], id)
    ensures var found := ws[i].store.operations[id].status;
      ws[j].store.operations[id].status == if found == Running then Interrupted else found
  {
    if i + 1 < j {
      RestartSettles(ws, es, i, j - 1, id);
      OthersLeaveRow(ws[j - 1], es[j - 1], id);
      OthersGainNothing(ws[j - 1], es[j - 1], id);
    } else {
      RestartOrphans(ws[i], id);
    }
  }

  lemma RestartOrphans(w: World, id: nat)
    requires StoreOk(w.store) && id in w.store.operations
    ensures Orphaned(Apply(w, Restart), id)
    ensures Recovered(w.store).operations[id].status ==
      if w.store.operations[id].status == Running then Interrupted else w.store.operations[id].status
  {
  }

  /** At any time after a restart, a row that it found has a final status if and
      only if it did not find it accepted. */
  lemma FinalUnlessAccepted(ws: seq<World>, es: seq<Event>, i: nat, j: nat, id: nat)
    requires Run(ws, es) && i < j < |ws|
    requires es[i].Restart? && id in ws[i].store.operations
    ensures id in ws[j].store.operations
    ensures Terminal(ws[j].store.operations[id].status) <==> ws[i].store.operations[id].status != Accepted
  {
    RestartSettles(ws, es, i, j, id);
  }

  /** So an operation found accepted stays accepted for ever, and is never
      admitted again. */
  lemma RestartStrandsAccepted(ws: seq<World>, es: seq<Event>, i: nat, j: nat, id: nat)
    requires Run(ws, es) && i < j < |ws|
    requires es[i].Restart? && id in ws[i].store.operations && ws[i].store.operations[id].status == Accepted
    ensures id in ws[j].store.operations && ws[j].store.operations[id].status == Accepted
    ensures id !in ws[j].tasks && forall s :: !Owns(ws[j], s, id)
  {
    RestartSettles(ws, es, i, j, id);
  }

  // ---------------------------------------------------------------- the two failures, once

  lemma OneMore(ws: seq<World>, es: seq<Event>, e: Event)
    requires Run(ws, es) && StoreOk(ws[|es|].store) && Enabled(ws[|es|], e)
    ensures Run(ws + [Apply(ws[|es|], e)], es + [e])
  {
  }

  /** From any start with a slot to give, a first request whose row cannot be
      marked running leaves everything quiet with a slot and a lock gone; the row
      it leaves accepted is found by a restart, which gives the slot and the lock
      back and the row up. */
  lemma FailedMarkingExample(w: World, key: string, hash: string, environment: string, id: nat)
      returns (ws: seq<World>, es: seq<Event>)
    requires Initial(w) && w.free > 0 && !w.auditBroken && key !in w.store.byKey && id !in w.store.operations
    ensures Run(ws, es) && |es| == 6 && ws[0] == w && es[4] == Mark(0, false) && es[5] == Restart
    ensures Quiet(ws[5]) && ws[5].free == w.max - 1 && ws[5].locked == {environment}
    ensures Quiet(ws[6]) && ws[6].free == w.max && ws[6].locked == {} && !ws[6].auditBroken
    ensures id in ws[6].store.operations && ws[6].store.operations[id].status == Accepted
  {
    var es2 := [Enter(0, key, hash, environment), ClaimKey(0, id, true)];
    var w1, w2 := HeldUp(w, key, hash, environment, id);
    TwoEvents(w, w1, w2, es2[0], es2[1]);
    var w3, w4, w5 := LoseSlot(w2, environment, id);
    ws, es := Continue([w, w1, w2], es2, w2, w3, w4, w5);
    GiveUp(w5, id);
  }

  lemma TwoEvents(w: World, w1: World, w2: World, e: Event, f: Event)
    requires StoreOk(w.store) && Enabled(w, e) && w1 == Apply(w, e)
    requires StoreOk(w1.store) && Enabled(w1, f) && w2 == Apply(w1, f)
    ensures Run([w, w1, w2], [e, f])
  {
  }

  /** It takes the slot and the lock, and is raised out of with both. */
  lemma LoseSlot(w2: World, environment: string, id: nat) returns (w3: World, w4: World, w5: World)
    requires StoreOk(w2.store) && w2.submitters == map[0 := Owner(id, environment, Fresh)] && w2.tasks == map[]
    requires w2.free > 0 && w2.locked == {}
    ensures Enabled(w2, TakeSlot(0)) && w3 == Apply(w2, TakeSlot(0)) && w3.store == w2.store
    ensures Enabled(w3, TakeLock(0)) && w4 == Apply(w3, TakeLock(0)) && w4.store == w2.store
    ensures Enabled(w4, Mark(0, false)) && w5 == Apply(w4, Mark(0, false)) && w5.store == w2.store
    ensures Quiet(w5) && w5.free == w2.free - 1 && w5.locked == {environment} && w5.max == w2.max
  {
    w3 := Apply(w2, TakeSlot(0));
    w4 := Apply(w3, TakeLock(0));
    w5 := Apply(w4, Mark(0, false));
    assert SlotHolders(w5.submitters) == {};
  }

  lemma GiveUp(w: World, id: nat)
    requires StoreOk(w.store) && id in w.store.operations && w.store.operations[id].status == Accepted
    ensures var after := Apply(w, Restart);
      && Quiet(after) && after.free == w.max && after.locked == {} && !after.auditBroken
      && id in after.store.operations && after.store.operations[id].status == Accepted
  {
    assert SlotHolders(Apply(w, Restart).submitters) == {};
  }

  /** The request has created its row. */
  lemma HeldUp(w: World, key: string, hash: string, environment: string, id: nat) returns (w1: World, w2: World)
    requires Initial(w) && w.free > 0 && !w.auditBroken && key !in w.store.byKey && id !in w.store.operations
    ensures Enabled(w, Enter(0, key, hash, environment)) && w1 == Apply(w, Enter(0, key, hash, environment))
    ensures StoreOk(w1.store) && Enabled(w1, ClaimKey(0, id, true)) && w2 == Apply(w1, ClaimKey(0, id, true))
    ensures StoreOk(w2.store) && id in w2.store.operations && w2.store.operations[id].status == Accepted
    ensures w2.submitters == map[0 := Owner(id, environment, Fresh)] && w2.tasks == map[]
    ensures w2.free == w.max == w2.max && w2.locked == {}
  {
    w1 := Apply(w, Enter(0, key, hash, environment));
    ClaimedKeepsStore(w.store, key, hash, environment, id);
    w2 := Apply(w1, ClaimKey(0, id, true));
  }

  lemma Continue(ws: seq<World>, es: seq<Event>, w2: World, w3: World, w4: World, w5: World)
      returns (all: seq<World>, events: seq<Event>)
    requires Run(ws, es) && |es| == 2 && ws[2] == w2 && StoreOk(w2.store)
    requires Enabled(w2, TakeSlot(0)) && w3 == Apply(w2, TakeSlot(0)) && w3.store == w2.store
    requires Enabled(w3, TakeLock(0)) && w4 == Apply(w3, TakeLock(0)) && w4.store == w2.store
    requires Enabled(w4, Mark(0, false)) && w5 == Apply(w4, Mark(0, false)) && w5.store == w2.store
    ensures Run(all, events) && |events| == 6 && all[0] == ws[0] && all[5] == w5 && all[6] == Apply(w5, Restart)
    ensures events[4] == Mark(0, false) && events[5] == Restart
  {
    OneMore(ws, es, TakeSlot(0));
    OneMore(ws + [w3], es + [TakeSlot(0)], TakeLock(0));
    OneMore(ws + [w3] + [w4], es + [TakeSlot(0)] + [TakeLock(0)], Mark(0, false));
    OneMore(ws + [w3] + [w4] + [w5], es + [TakeSlot(0)] + [TakeLock(0)] + [Mark(0, false)], Restart);
    all := ws + [w3] + [w4] + [w5] + [Apply(w5, Restart)];
    events := es + [TakeSlot(0)] + [TakeLock(0)] + [Mark(0, false)] + [Restart];
  }

  // ---------------------------------------------------------------- one request left alone

  predicate OfRequest(e: Event, s: nat) {
    SubmitterStep(e) && e.s == s
  }

  /** A run of one request's steps with nothing in between. */
  ghost predicate Alone(ws: seq<World>, es: seq<Event>, s: nat) {
    Run(ws, es) && StoreOk(ws[|es|].store) && forall k :: 0 <= k < |es| ==> OfRequest(es[k], s)
  }

  lemma Then(ws: seq<World>, es: seq<Event>, s: nat, e: Event) returns (ws': seq<World>, es': seq<Event>)
    requires Alone(ws, es, s) && Enabled(ws[|es|], e) && OfRequest(e, s) && StoreOk(Apply(ws[|es|], e).store)
    ensures Alone(ws', es', s) && |es'| == |es| + 1 && ws'[0] == ws[0] && ws'[|es'|] == Apply(ws[|es|], e)
  {
    OneMore(ws, es, e);
    ws', es' := ws + [Apply(ws[|es|], e)], es + [e];
  }

  /** The request is done, and this is what it left. */
  ghost predicate Leaves(w: World, w': World, s: nat, store: Store, free: int, locked: set<string>,
      tasks: map<nat, Task>, broken: bool) {
    && w'.store == store && w'.free == free && w'.locked == locked && w'.tasks == tasks && w'.auditBroken == broken
    && s in w'.submitters && !w'.submitters[s].Owner? && !w'.submitters[s].Entered?
    && w'.submitters == w.submitters[s := w'.submitters[s]]
  }

  lemma FromRecording(ws: seq<World>, es: seq<Event>, s: nat, works: Works)
      returns (ws': seq<World>, es': seq<Event>)
    requires Alone(ws, es, s) && s in ws[|es|].submitters
    requires ws[|es|].submitters[s].Owner? && ws[|es|].submitters[s].stage.Recording?
    ensures Alone(ws', es', s) && ws'[0] == ws[0]
    ensures var w := ws[|es|]; var r := w.submitters[s];
      Leaves(w, ws'[|es'|], s, if works.finish then WithStatus(w.store, r.id, r.stage.status, r.stage.code)
        else w.store,
        w.free, w.locked, w.tasks,
        w.auditBroken || (works.finish && (r.stage.code == AuditUnavailable || !works.closing)))
  {
    var r := ws[|es|].submitters[s];
    StatusKeepsStore(ws[|es|].store, r.id, r.stage.status, r.stage.code);
    ws', es' := Then(ws, es, s, Record(s, works.finish, works.closing));
  }

  lemma FromUnslotting(ws: seq<World>, es: seq<Event>, s: nat, works: Works)
      returns (ws': seq<World>, es': seq<Event>)
    requires Alone(ws, es, s) && s in ws[|es|].submitters
    requires ws[|es|].submitters[s].Owner? && ws[|es|].submitters[s].stage.Unslotting?
    ensures Alone(ws', es', s) && ws'[0] == ws[0]
    ensures var w := ws[|es|]; var r := w.submitters[s];
      Leaves(w, ws'[|es'|], s, if works.finish then WithStatus(w.store, r.id, r.stage.status, r.stage.code)
        else w.store,
        w.free + 1, w.locked, w.tasks,
        w.auditBroken || (works.finish && (r.stage.code == AuditUnavailable || !works.closing)))
  {
    ws', es' := Then(ws, es, s, ReleaseSlot(s));
    ws', es' := FromRecording(ws', es', s, works);
  }

  lemma FromUnlocking(ws: seq<World>, es: seq<Event>, s: nat, works: Works)
      returns (ws': seq<World>, es': seq<Event>)
    requires Alone(ws, es, s) && s in ws[|es|].submitters
    requires ws[|es|].submitters[s].Owner? && ws[|es|].submitters[s].stage.Unlocking?
    ensures Alone(ws', es', s) && ws'[0] == ws[0]
    ensures var w := ws[|es|]; var r := w.submitters[s];
      Leaves(w, ws'[|es'|], s, if works.finish then WithStatus(w.store, r.id, r.stage.status, r.stage.code)
        else w.store,
        w.free + 1, w.locked - {r.environment}, w.tasks,
        w.auditBroken || (works.finish && (r.stage.code == AuditUnavailable || !works.closing)))
  {
    ws', es' := Then(ws, es, s, ReleaseLock(s));
    ws', es' := FromUnslotting(ws', es', s, works);
  }

  predicate IsAt(w: World, s: nat, id: nat, environment: string, stage: Stage) {
    s in w.submitters && w.submitters[s] == Owner(id, environment, stage)
  }

  lemma FromAnnounced(ws: seq<World>, es: seq<Event>, s: nat, id: nat, environment: string, works: Works)
      returns (ws': seq<World>, es': seq<Event>)
    requires Alone(ws, es, s) && IsAt(ws[|es|], s, id, environment, Announced)
    ensures Alone(ws', es', s) && ws'[0] == ws[0]
    ensures var w := ws[|es|];
      if works.schedule
      then Leaves(w, ws'[|es'|], s, w.store, w.free, w.locked, w.tasks[id := Task(environment, Queued)], w.auditBroken)
      else Leaves(w, ws'[|es'|], s, if works.finish then WithStatus(w.store, id, Failed, SchedulingFailed) else w.store,
        w.free + 1, w.locked - {environment}, w.tasks, w.auditBroken || (works.finish && !works.closing))
  {
    ws', es' := Then(ws, es, s, HandOver(s, works.schedule));
    if !works.schedule {
      ws', es' := FromUnlocking(ws', es', s, works);
    }
  }

  lemma FromMarked(ws: seq<World>, es: seq<Event>, s: nat, id: nat, environment: string, works: Works)
      returns (ws': seq<World>, es': seq<Event>)
    requires Alone(ws, es, s) && IsAt(ws[|es|], s, id, environment, Marked)
    ensures Alone(ws', es', s) && ws'[0] == ws[0]
    ensures var w := ws[|es|];
      if !works.read || !works.append
      then Leaves(w, ws'[|es'|], s, if works.finish then WithStatus(w.store, id, Rejected, AuditUnavailable)
        else w.store,
        w.free + 1, w.locked - {environment}, w.tasks, w.auditBroken || works.read || works.finish)
      else if works.schedule
      then Leaves(w, ws'[|es'|], s, w.store, w.free, w.locked, w.tasks[id := Task(environment, Queued)], w.auditBroken)
      else Leaves(w, ws'[|es'|], s, if works.finish then WithStatus(w.store, id, Failed, SchedulingFailed) else w.store,
        w.free + 1, w.locked - {environment}, w.tasks, w.auditBroken || (works.finish && !works.closing))
  {
    ws', es' := Then(ws, es, s, Announce(s, works.read, works.append));
    if !works.read || !works.append {
      ws', es' := FromUnlocking(ws', es', s, works);
    } else {
      ws', es' := FromAnnounced(ws', es', s, id, environment, works);
    }
  }

  /** From here on the store, slots, locks and tasks are those of
      `RunnerService.Start`. */
  lemma FromHasLock(ws: seq<World>, es: seq<Event>, s: nat, id: nat, environment: string, works: Works)
      returns (ws': seq<World>, es': seq<Event>)
    requires Alone(ws, es, s) && IsAt(ws[|es|], s, id, environment, HasLock)
    requires id in ws[|es|].store.operations && ws[|es|].store.operations[id].code == NoCode
    ensures Alone(ws', es', s) && ws'[0] == ws[0]
    ensures var w, a := ws[|es|], Decide(1, {}, environment, works);
      Leaves(w, ws'[|es'|], s, Settled(w.store, id, a, works.finish),
        w.free + (if Keeps(a) then 0 else 1), w.locked - (if Keeps(a) then {} else {environment}),
        if a == Admitted then w.tasks[id := Task(environment, Queued)] else w.tasks,
        w.auditBroken || Breaks(a, works))
  {
    StatusKeepsStore(ws[|es|].store, id, Running, NoCode);
    ws', es' := Then(ws, es, s, Mark(s, works.mark));
    if works.mark {
      assert ws'[|es'|].store == MarkedRunning(ws[|es|].store, id);
      ws', es' := FromMarked(ws', es', s, id, environment, works);
    }
  }

  lemma FromHasSlot(ws: seq<World>, es: seq<Event>, s: nat, id: nat, environment: string, works: Works)
      returns (ws': seq<World>, es': seq<Event>)
    requires Alone(ws, es, s) && IsAt(ws[|es|], s, id, environment, HasSlot)
    requires id in ws[|es|].store.operations && ws[|es|].store.operations[id].code == NoCode
    ensures Alone(ws', es', s) && ws'[0] == ws[0]
    ensures var w, a := ws[|es|], Decide(1, ws[|es|].locked, environment, works);
      Leaves(w, ws'[|es'|], s, Settled(w.store, id, a, works.finish),
        w.free + (if Keeps(a) then 0 else 1), w.locked + (if Keeps(a) then {environment} else {}),
        if a == Admitted then w.tasks[id := Task(environment, Queued)] else w.tasks,
        w.auditBroken || Breaks(a, works))
  {
    ws', es' := Then(ws, es, s, TakeLock(s));
    if environment in ws[|es|].locked {
      ws', es' := FromUnslotting(ws', es', s, works);
    } else {
      ws', es' := FromHasLock(ws', es', s, id, environment, works);
      assert ws[|es|].locked + {environment} - {environment} == ws[|es|].locked;
    }
  }

  lemma FromFresh(ws: seq<World>, es: seq<Event>, s: nat, id: nat, environment: string, works: Works)
      returns (ws': seq<World>, es': seq<Event>)
    requires Alone(ws, es, s) && IsAt(ws[|es|], s, id, environment, Fresh)
    requires id in ws[|es|].store.operations && ws[|es|].store.operations[id].code == NoCode
    ensures Alone(ws', es', s) && ws'[0] == ws[0]
    ensures var w, a := ws[|es|], Decide(ws[|es|].free, ws[|es|].locked, environment, works);
      Leaves(w, ws'[|es'|], s, Settled(w.store, id, a, works.finish),
        w.free - (if Keeps(a) then 1 else 0), w.locked + (if Keeps(a) then {environment} else {}),
        if a == Admitted then w.tasks[id := Task(environment, Queued)] else w.tasks,
        w.auditBroken || Breaks(a, works))
  {
    if ws[|es|].free == 0 {
      ws', es' := FromNoSlot(ws, es, s, id, environment, works);
    } else {
      ws', es' := Then(ws, es, s, TakeSlot(s));
      ws', es' := FromHasSlot(ws', es', s, id, environment, works);
      assert Decide(ws[|es|].free, ws[|es|].locked, environment, works)
        == Decide(1, ws[|es|].locked, environment, works);
    }
  }

  lemma FromNoSlot(ws: seq<World>, es: seq<Event>, s: nat, id: nat, environment: string, works: Works)
      returns (ws': seq<World>, es': seq<Event>)
    requires Alone(ws, es, s) && IsAt(ws[|es|], s, id, environment, Fresh) && ws[|es|].free == 0
    ensures Alone(ws', es', s) && ws'[0] == ws[0]
    ensures var w := ws[|es|];
      Leaves(w, ws'[|es'|], s, if works.finish then WithStatus(w.store, id, Rejected, ConcurrencyLimit) else w.store,
        w.free, w.locked, w.tasks, w.auditBroken || (works.finish && !works.closing))
  {
    ws', es' := Then(ws, es, s, TakeSlot(s));
    ws', es' := FromRecording(ws', es', s, works);
  }

  lemma Enters(w: World, s: nat, key: string, hash: string, environment: string)
      returns (ws: seq<World>, es: seq<Event>)
    requires StoreOk(w.store) && s !in w.submitters && !w.auditBroken
    ensures Alone(ws, es, s) && ws[0] == w
    ensures ws[|es|] == w.(submitters := w.submitters[s := Entered(key, hash, environment)])
  {
    ws, es := Then([w], [], s, Enter(s, key, hash, environment));
  }

  /** A request has entered and asked for its key. */
  lemma Asked(w: World, s: nat, key: string, hash: string, environment: string, id: nat, claims: bool)
      returns (ws: seq<World>, es: seq<Event>)
    requires StoreOk(w.store) && s !in w.submitters && !w.auditBroken
    ensures Alone(ws, es, s) && ws[0] == w
    ensures var w' := ws[|es|];
      && w'.free == w.free && w'.locked == w.locked && w'.tasks == w.tasks && !w'.auditBroken
      && s in w'.submitters && w'.submitters == w.submitters[s := w'.submitters[s]]
      && if claims && ClaimAnswer(w.store, key, hash, id).Created?
         then w'.store == Claimed(w.store, key, hash, environment, id) && IsAt(w', s, id, environment, Fresh)
         else w'.store == w.store && !w'.submitters[s].Owner? && !w'.submitters[s].Entered?
  {
    ws, es := Enters(w, s, key, hash, environment);
    var w1 := ws[|es|];
    if ClaimAnswer(w.store, key, hash, id).Created? {
      ClaimedKeepsStore(w.store, key, hash, environment, id);
    }
    ClaimIs(w1, ClaimKey(s, id, claims));
    ws, es := Then(ws, es, s, ClaimKey(s, id, claims));
  }

  /** The steps of one request with nothing in between leave the store, slots,
      locks, tasks and ledger that `RunnerService.Submit` leaves, and its row as
      told from what the request met. */
  lemma StepsAreSubmit(w: World, s: nat, key: string, hash: string, environment: string, id: nat, claims: bool,
      works: Works) returns (ws: seq<World>, es: seq<Event>)
    requires StoreOk(w.store) && s !in w.submitters && !w.auditBroken
    ensures Alone(ws, es, s) && ws[0] == w
    ensures var w', a := ws[|es|], Decide(w.free, w.locked, environment, works);
      if claims && ClaimAnswer(w.store, key, hash, id).Created?
      then
        && Leaves(w, w', s, Settled(Claimed(w.store, key, hash, environment, id), id, a, works.finish),
          w.free - (if Keeps(a) then 1 else 0), w.locked + (if Keeps(a) then {environment} else {}),
          if a == Admitted then w.tasks[id := Task(environment, Queued)] else w.tasks, Breaks(a, works))
        && RowIs(w'.store, id, key, hash, environment, w.free, environment in w.locked, works)
      else Leaves(w, w', s, w.store, w.free, w.locked, w.tasks, false)
  {
    ws, es := Asked(w, s, key, hash, environment, id, claims);
    if claims && ClaimAnswer(w.store, key, hash, id).Created? {
      ClaimedRow(w.store, key, hash, environment, id);
      ws, es := FromFresh(ws, es, s, id, environment, works);
      SettledRow(w.store, key, hash, environment, id, w.free, w.locked, works);
    }
  }

  lemma ClaimedRow(s: Store, key: string, hash: string, environment: string, id: nat)
    requires StoreOk(s) && ClaimAnswer(s, key, hash, id).Created?
    ensures var s' := Claimed(s, key, hash, environment, id);
      id in s'.operations && s'.operations[id] == Operation(key, environment, hash, Accepted, NoCode)
  {
  }

  lemma OneTaskStep(ws: seq<World>, es: seq<Event>, e: Event) returns (ws': seq<World>, es': seq<Event>)
    requires Run(ws, es) && StoreOk(ws[|es|].store) && Enabled(ws[|es|], e)
    ensures Run(ws', es') && |es'| == |es| + 1 && ws'[0] == ws[0] && ws'[|es'|] == Apply(ws[|es|], e)
  {
    OneMore(ws, es, e);
    ws', es' := ws + [Apply(ws[|es|], e)], es + [e];
  }

  /** A task that is left to run: its outcome is on its row if the store took it,
      and the ledger is broken if it was then not audited; in any case its slot,
      its lock and itself are gone. */
  lemma TaskRuns(ws: seq<World>, es: seq<Event>, id: nat, environment: string, status: OperationStatus, code: Code,
      ok: bool, append: bool) returns (ws': seq<World>, es': seq<Event>)
    requires Run(ws, es) && StoreOk(ws[|es|].store) && Terminal(status)
    requires id in ws[|es|].tasks && ws[|es|].tasks[id] == Task(environment, Queued)
    ensures Run(ws', es') && ws'[0] == ws[0] && StoreOk(ws'[|es'|].store)
    ensures var w, w' := ws[|es|], ws'[|es'|];
      && w'.store == (if ok then WithStatus(w.store, id, status, code) else w.store)
      && w'.auditBroken == (w.auditBroken || (ok && !append)) && w'.submitters == w.submitters
      && w'.free == w.free + 1 && w'.locked == w.locked - {environment} && w'.tasks == w.tasks - {id}
  {
    StatusKeepsStore(ws[|es|].store, id, status, code);
    ws', es' := OneTaskStep(ws, es, StartTask(id));
    ws', es' := OneTaskStep(ws', es', Report(id, status, code, ok, append));
    ws', es' := OneTaskStep(ws', es', UnlockTask(id));
    ws', es' := OneTaskStep(ws', es', EndTask(id));
  }

  /** Where every call works, a new request whose environment is free ends with
      the outcome of its task under its key, and with every slot and lock as they
      were. */
  lemma RunsToItsOutcome(w: World, s: nat, key: string, hash: string, environment: string, id: nat,
      status: OperationStatus, code: Code) returns (ws: seq<World>, es: seq<Event>)
    requires StoreOk(w.store) && s !in w.submitters && !w.auditBroken && id !in w.tasks
    requires key !in w.store.byKey && id !in w.store.operations
    requires w.free > 0 && environment !in w.locked && Terminal(status)
    ensures Run(ws, es) && ws[0] == w
    ensures var w' := ws[|es|];
      && w'.free == w.free && w'.locked == w.locked && w'.tasks == w.tasks && !w'.auditBroken
      && key in w'.store.byKey && w'.store.byKey[key] == id && id in w'.store.operations
      && w'.store.operations[id] == Operation(key, environment, hash, status, code)
  {
    var works := Works(true, true, true, true, true, true);
    ws, es := StepsAreSubmit(w, s, key, hash, environment, id, true, works);
    SettledKeepsKeys(w.store, key, hash, environment, id, works);
    ws, es := TaskRuns(ws, es, id, environment, status, code, true, true);
    assert w.locked + {environment} - {environment} == w.locked;
    assert w.tasks[id := Task(environment, Queued)] - {id} == w.tasks;
  }

  lemma SettledKeepsKeys(s: Store, key: string, hash: string, environment: string, id: nat, works: Works)
    requires StoreOk(s) && key !in s.byKey && id !in s.operations
    ensures key in Settled(Claimed(s, key, hash, environment, id), id, Admitted, works.finish).byKey
    ensures Settled(Claimed(s, key, hash, environment, id), id, Admitted, works.finish).byKey[key] == id
  {
  }
}
