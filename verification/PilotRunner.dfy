/**
 The pilot runner's admission of operations: a durable idempotency store, one
 bounded semaphore, one lock per environment, hand-over to an executor, and
 recovery after a restart.  This file holds the store and the service as the
 objects the program updates; PilotRunnerRuns has the interleavings.
 */
module PilotRunner {
  import opened Wrappers

  datatype OperationStatus = Accepted | Running | Succeeded | Failed | TimedOut | Rejected | Interrupted

  datatype Code = NoCode | ConcurrencyLimit | EnvironmentBusy | AuditUnavailable | SchedulingFailed | RunnerRestarted
      | Other(code: string)

  datatype Operation = Operation(key: string, environment: string, payloadHash: string, status: OperationStatus,
      code: Code)

  /** The operations table and its unique index on the idempotency key. */
  datatype Store = Store(operations: map<nat, Operation>, byKey: map<string, nat>)

  datatype ClaimResult = Created(id: nat) | Existing(id: nat, row: Operation) | Conflict | IdTaken | ClaimFailed
      | Unavailable

  datatype StoreError = InvalidStatus | NoSuchRow | StoreFailed

  predicate Terminal(status: OperationStatus) {
    status != Accepted && status != Running
  }

  ghost predicate StoreOk(s: Store) {
    && (forall k :: k in s.byKey ==> s.byKey[k] in s.operations && s.operations[s.byKey[k]].key == k)
    && (forall id :: id in s.operations ==> s.operations[id].key in s.byKey && s.byKey[s.operations[id].key] == id)
  }

  function ClaimAnswer(s: Store, key: string, hash: string, id: nat): ClaimResult
    requires StoreOk(s)
  {
    if key in s.byKey then
      var row := s.operations[s.byKey[key]];
      if row.payloadHash != hash then Conflict else Existing(s.byKey[key], row)
    else if id in s.operations then IdTaken
    else Created(id)
  }

  function Claimed(s: Store, key: string, hash: string, environment: string, id: nat): Store
    requires StoreOk(s)
  {
    if ClaimAnswer(s, key, hash, id).Created?
    then Store(s.operations[id := Operation(key, environment, hash, Accepted, NoCode)], s.byKey[key := id])
    else s
  }

  function WithStatus(s: Store, id: nat, status: OperationStatus, code: Code): Store {
    if id in s.operations then s.(operations := s.operations[id := s.operations[id].(status := status, code := code)])
      else s
  }

  function Recovered(s: Store): Store {
    s.(operations := map id | id in s.operations ::
        if s.operations[id].status == Running
        then s.operations[id].(status := Interrupted, code := RunnerRestarted)
        else s.operations[id])
  }

  class OperationStore {
    var operations: map<nat, Operation>
    var byKey: map<string, nat>

    function Rows(): Store
      reads this
    {
      Store(operations, byKey)
    }

    /** Opening the store marks what a dead process left running. */
    constructor Open(found: Store)
      requires StoreOk(found)
      ensures Rows() == Recovered(found) && StoreOk(Rows())
    {
      byKey := found.byKey;
      operations := map id | id in found.operations ::
        if found.operations[id].status == Running
        then found.operations[id].(status := Interrupted, code := RunnerRestarted)
        else found.operations[id];
    }

    /** `works` says whether the database does its part; a call that fails is
        rolled back. */
    method Claim(key: string, hash: string, environment: string, id: nat, works: bool) returns (r: ClaimResult)
      requires StoreOk(Rows())
      modifies this
      ensures StoreOk(Rows())
      ensures r == if works then ClaimAnswer(old(Rows()), key, hash, id) else ClaimFailed
      ensures Rows() == if works then Claimed(old(Rows()), key, hash, environment, id) else old(Rows())
    {
      if !works { return ClaimFailed; }
      if key in byKey {
        var row := operations[byKey[key]];
        if row.payloadHash != hash {
          return Conflict;
        }
        return Existing(byKey[key], row);
      }
      if id in operations {
        return IdTaken;
      }
      operations := operations[id := Operation(key, environment, hash, Accepted, NoCode)];
      byKey := byKey[key := id];
      r := Created(id);
    }

    method MarkRunning(id: nat, works: bool) returns (done: bool)
      modifies this`operations
      ensures done == works
      ensures Rows() == if works then MarkedRunning(old(Rows()), id) else old(Rows())
    {
      if works && id in operations {
        operations := operations[id := operations[id].(status := Running)];
      }
      done := works;
    }

    /** A final status is written, unless it is none, the row is missing or the
        database fails; then nothing is. */
    method Finish(id: nat, status: OperationStatus, code: Code, works: bool) returns (r: Result<Operation, StoreError>)
      modifies this`operations
      ensures r.Failure? ==> Rows() == old(Rows())
      ensures r.Failure? && r.error == InvalidStatus <==> !Terminal(status)
      ensures r.Failure? && r.error == StoreFailed <==> Terminal(status) && !works
      ensures r.Failure? && r.error == NoSuchRow <==> Terminal(status) && works && id !in old(operations)
      ensures r.Success? ==>
        Rows() == WithStatus(old(Rows()), id, status, code) && id in operations && r.value == operations[id]
    {
      if status == Accepted || status == Running { return Failure(InvalidStatus); }
      if !works { return Failure(StoreFailed); }
      if id !in operations { return Failure(NoSuchRow); }
      operations := operations[id := operations[id].(status := status, code := code)];
      r := Success(operations[id]);
    }
  }

  function MarkedRunning(s: Store, id: nat): Store {
    WithStatus(s, id, Running, if id in s.operations then s.operations[id].code else NoCode)
  }

  /** Which of the calls on the admission path work. */
  datatype Works = Works(mark: bool, read: bool, append: bool, schedule: bool, finish: bool, closing: bool)

  /** How an operation that owns its key fares at admission. */
  datatype Admission = OverLimit | Busy | Unmarked | Unaudited | Unscheduled | Admitted

  function Decide(slots: nat, locked: set<string>, environment: string, works: Works): Admission {
    if slots == 0 then OverLimit
    else if environment in locked then Busy
    else if !works.mark then Unmarked
    else if !works.read || !works.append then Unaudited
    else if !works.schedule then Unscheduled
    else Admitted
  }

  /** The final status that a refused admission writes, if it can. */
  function Verdict(a: Admission): (OperationStatus, Code)
    requires a != Unmarked && a != Admitted
  {
    match a
    case OverLimit => (Rejected, ConcurrencyLimit)
    case Busy => (Rejected, EnvironmentBusy)
    case Unaudited => (Rejected, AuditUnavailable)
    case Unscheduled => (Failed, SchedulingFailed)
  }

  function Settled(s: Store, id: nat, a: Admission, finish: bool): Store {
    var marked := if a == Unaudited || a == Unscheduled || a == Admitted then MarkedRunning(s, id) else s;
    if a == Unmarked || a == Admitted || !finish then marked else WithStatus(marked, id, Verdict(a).0, Verdict(a).1)
  }

  /** The audit ledger is found broken by a failed append, or declared so. */
  function Breaks(a: Admission, works: Works): bool {
    match a
    case OverLimit => works.finish && !works.closing
    case Busy => works.finish && !works.closing
    case Unaudited => works.finish || (works.read && !works.append)
    case Unscheduled => works.finish && !works.closing
    case _ => false
  }

  /** What an admission leaves taken: a task's slot and lock, or those that
      nobody is left to give back. */
  predicate Keeps(a: Admission) {
    a == Admitted || a == Unmarked
  }

  lemma SettledKeepsStore(s: Store, id: nat, a: Admission, finish: bool)
    requires StoreOk(s)
    ensures StoreOk(Settled(s, id, a, finish))
  {
  }

  /** The row a new request is left with, told from what it met: rejected for the
      limit, for the environment or for the audit, failed for the scheduling, each
      if the verdict could be written; else as far as it had come. */
  ghost predicate RowIs(s: Store, id: nat, key: string, hash: string, environment: string, slots: nat, taken: bool,
      works: Works) {
    && id in s.operations && s.operations[id].key == key && s.operations[id].payloadHash == hash
    && s.operations[id].environment == environment
    && var ended := (s.operations[id].status, s.operations[id].code);
      if slots == 0 then ended == if works.finish then (Rejected, ConcurrencyLimit) else (Accepted, NoCode)
      else if taken then ended == if works.finish then (Rejected, EnvironmentBusy) else (Accepted, NoCode)
      else if !works.mark then ended == (Accepted, NoCode)
      else if !works.read || !works.append then
        ended == if works.finish then (Rejected, AuditUnavailable) else (Running, NoCode)
      else if !works.schedule then
        ended == if works.finish then (Failed, SchedulingFailed) else (Running, NoCode)
      else ended == (Running, NoCode)
  }

  lemma SettledRow(s: Store, key: string, hash: string, environment: string, id: nat, slots: nat,
      locked: set<string>, works: Works)
    requires StoreOk(s) && ClaimAnswer(s, key, hash, id).Created?
    ensures RowIs(Settled(Claimed(s, key, hash, environment, id), id, Decide(slots, locked, environment, works),
      works.finish), id, key, hash, environment, slots, environment in locked, works)
  {
  }

  /** The admission path as one thread runs it. */
  class RunnerService {
    const store: OperationStore
    const maxConcurrent: nat
    var slots: nat
    var locked: set<string>
    var tasks: map<nat, string>
    var auditBroken: bool

    constructor (store: OperationStore, maxConcurrent: nat)
      ensures this.store == store && this.maxConcurrent == maxConcurrent
      ensures slots == maxConcurrent && locked == {} && tasks == map[] && !auditBroken
    {
      this.store, this.maxConcurrent := store, maxConcurrent;
      slots, locked, tasks, auditBroken := maxConcurrent, {}, map[], false;
    }

    /** On every path a slot and a lock are both given back or both kept: kept
        for the task handed over, and also where marking the row raised. */
    method Admit(id: nat, environment: string, works: Works) returns (a: Admission)
      requires id in store.operations
      modifies this, store`operations
      ensures a == Decide(old(slots), old(locked), environment, works)
      ensures store.Rows() == Settled(old(store.Rows()), id, a, works.finish)
      ensures slots == old(slots) - (if Keeps(a) then 1 else 0)
      ensures locked == old(locked) + (if Keeps(a) then {environment} else {})
      ensures tasks == if a == Admitted then old(tasks)[id := environment] else old(tasks)
      ensures auditBroken == (old(auditBroken) || Breaks(a, works))
    {
      if slots == 0 {
        Close(id, Rejected, ConcurrencyLimit, works);
        return OverLimit;
      }
      slots := slots - 1;
      if environment in locked {
        slots := slots + 1;
        Close(id, Rejected, EnvironmentBusy, works);
        return Busy;
      }
      locked := locked + {environment};
      a := Start(id, environment, works);
    }

    /** From marking the row on, the request holds a slot and a lock. */
    method Start(id: nat, environment: string, works: Works) returns (a: Admission)
      requires id in store.operations
      modifies this, store`operations
      ensures a == Decide(1, {}, environment, works)
      ensures store.Rows() == Settled(old(store.Rows()), id, a, works.finish)
      ensures slots == old(slots) + (if Keeps(a) then 0 else 1)
      ensures locked == old(locked) - (if Keeps(a) then {} else {environment})
      ensures tasks == if a == Admitted then old(tasks)[id := environment] else old(tasks)
      ensures auditBroken == (old(auditBroken) || Breaks(a, works))
    {
      var marked := store.MarkRunning(id, works.mark);
      if !marked { return Unmarked; }
      if !works.read || !works.append {
        auditBroken := auditBroken || works.read;
        locked := locked - {environment};
        slots := slots + 1;
        var r := store.Finish(id, Rejected, AuditUnavailable, works.finish);
        auditBroken := auditBroken || r.Success?;
        return Unaudited;
      }
      if !works.schedule {
        locked := locked - {environment};
        slots := slots + 1;
        Close(id, Failed, SchedulingFailed, works);
        return Unscheduled;
      }
      tasks := tasks[id := environment];
      a := Admitted;
    }

    /** The verdict is written, then audited. */
    method Close(id: nat, status: OperationStatus, code: Code, works: Works)
      requires id in store.operations && Terminal(status)
      modifies this`auditBroken, store`operations
      ensures store.Rows() == if works.finish then WithStatus(old(store.Rows()), id, status, code)
        else old(store.Rows())
      ensures auditBroken == (old(auditBroken) || (works.finish && !works.closing))
    {
      var r := store.Finish(id, status, code, works.finish);
      if r.Success? && !works.closing { auditBroken := true; }
    }

    /** Only the request that creates the row is admitted; a repeat is answered
        from the row, and a repeat with another payload changes nothing.  With a
        broken ledger no request gets that far. */
    method Submit(key: string, hash: string, environment: string, id: nat, claims: bool, works: Works)
        returns (claim: ClaimResult, admission: Option<Admission>)
      requires StoreOk(store.Rows())
      modifies this, store
      ensures StoreOk(store.Rows())
      ensures claim == if old(auditBroken) then Unavailable
        else if claims then ClaimAnswer(old(store.Rows()), key, hash, id) else ClaimFailed
      ensures admission.Some? <==> claim.Created?
      ensures admission.Some? ==>
        && admission.value == Decide(old(slots), old(locked), environment, works)
        && store.Rows()
          == Settled(Claimed(old(store.Rows()), key, hash, environment, id), id, admission.value, works.finish)
        && slots == old(slots) - (if Keeps(admission.value) then 1 else 0)
        && locked == old(locked) + (if Keeps(admission.value) then {environment} else {})
        && tasks == (if admission.value == Admitted then old(tasks)[id := environment] else old(tasks))
        && auditBroken == Breaks(admission.value, works)
      ensures admission.Some? ==>
        RowIs(store.Rows(), id, key, hash, environment, old(slots), environment in old(locked), works)
      ensures admission.None? ==> store.Rows() == old(store.Rows())
      ensures admission.None? ==>
        slots == old(slots) && locked == old(locked) && tasks == old(tasks) && auditBroken == old(auditBroken)
    {
      if auditBroken { return Unavailable, None; }
      claim := store.Claim(key, hash, environment, id, claims);
      admission := None;
      if claim.Created? {
        ghost var claimed := store.Rows();
        var a := Admit(id, environment, works);
        SettledKeepsStore(claimed, id, a, works.finish);
        SettledRow(old(store.Rows()), key, hash, environment, id, old(slots), old(locked), works);
        admission := Some(a);
      }
    }
  }
}
