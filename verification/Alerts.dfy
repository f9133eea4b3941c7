/**
 One inventory alert and everything that may happen to it: automatic
 evaluation, invalidation of its data, and the versioned actions of people.
 */
module Alerts {
  import opened Wrappers

  datatype AlertType = StockoutRisk | OverstockRisk | LowCoverage | SlowMoving

  /** `threshold` is absent when the rule's configuration lacks the type's key. */
  datatype Rule = Rule(
    pk: nat, code: string, version: nat, alertType: AlertType, severity: int,
    threshold: Option<real>, enabled: bool, effectiveAt: int)

  datatype Status = Open | Assigned | InProgress | Silenced | Closed

  datatype EvaluationState = Unverified | RiskState | NormalState | PendingState

  /** The deduplication key; real observations share one key across rule versions. */
  datatype Key = RealKey(code: string, sku: int, place: string)
      | VersionedKey(code: string, version: nat, sku: int, place: string)

  /** The stored account of the last evaluation. */
  datatype Account = Account(real_: bool, state: EvaluationState, blocked: set<string>, evaluatedAt: int)

  datatype Alert = Alert(
    rule: Rule, key: Key, sku: int, spu: int, place: string,
    status: Status, state: EvaluationState, account: Account, assignee: Option<int>, plan: string,
    silencedUntil: Option<int>, closedAt: Option<int>, resolution: string, triggeredAt: int, version: nat)

  /** What a status promises about the other fields. */
  predicate Shaped(a: Alert) {
    && (a.status == Closed <==> a.closedAt.Some?)
    && (a.status == Assigned ==> a.assignee.Some?)
    && (a.status == Silenced ==> a.silencedUntil.Some?)
  }

  function NewAlert(rule: Rule, key: Key, sku: int, spu: int, place: string, account: Account, now: int): Alert {
    Alert(rule, key, sku, spu, place, Open, if account.real_ then RiskState else Unverified,
          account, None, "", None, None, "", now, 1)
  }

  /** A rule matches again: a closed alert reopens as new, an expired silence ends. */
  function Retriggered(a: Alert, rule: Rule, account: Account, now: int): Alert {
    var state := if account.real_ then RiskState else Unverified;
    var b := a.(rule := rule, account := account, state := state, version := a.version + 1);
    if a.status == Closed then
      b.(status := Open, closedAt := None, assignee := None, resolution := "", plan := "", triggeredAt := now)
    else if a.status == Silenced && a.silencedUntil.Some? && a.silencedUntil.value <= now then
      b.(status := Open, silencedUntil := None)
    else b
  }

  function Blocked(account: Account, issues: set<string>): Account {
    account.(state := PendingState, blocked := issues)
  }

  /** The data can no longer be judged; saying so twice changes nothing. */
  function MarkedPending(a: Alert, issues: set<string>): Alert {
    if a.status == Closed || Blocked(a.account, issues) == a.account then a
    else a.(account := Blocked(a.account, issues), state := PendingState, version := a.version + 1)
  }

  function Resolved(a: Alert, now: int, reason: string): Alert {
    a.(status := Closed, closedAt := Some(now), silencedUntil := None, resolution := reason, state := NormalState,
       account := a.account.(state := NormalState, evaluatedAt := now), version := a.version + 1)
  }

  /** A source changed: open real alerts are pending until evaluated again. */
  function Invalidated(a: Alert): Alert {
    if !a.account.real_ || a.status == Closed || a.state == PendingState then a
    else a.(state := PendingState, version := a.version + 1)
  }

  /** The follow-up form: an absent field is left as it is. */
  datatype FollowUp = FollowUp(assignee: Option<Option<int>>, plan: Option<string>, status: Option<Status>)

  datatype Action =
    | Assign(assignee: int)
    | Silence(minutes: int, now: int)
    | Close(reason: string, now: int)
    | Follow(values: FollowUp)

  datatype Refusal = VersionConflict | AlertClosed | BadAssignee | BadDuration | NoReason | NoAssignee | BadStatus

  predicate VersionFits(a: Alert, expected: Option<nat>) {
    expected.None? || expected.value == a.version
  }

  function FollowedStatus(a: Alert, values: FollowUp, assignee: Option<int>): Status {
    if values.status.Some? then values.status.value
    else if values.assignee.Some? && assignee.Some? && a.status == Open then Assigned
    else if values.assignee.Some? && assignee.None? && a.status == Assigned then Open
    else a.status
  }

  const MAX_SILENCE := 43200

  /** The four actions of people, with every refusal; `users` are the active
      internal users of the tenant. */
  function Act(a: Alert, action: Action, expected: Option<nat>, users: set<int>): Result<Alert, Refusal> {
    if !VersionFits(a, expected) then Failure(VersionConflict)
    else
      match action
      case Assign(assignee) =>
        if a.status == Closed then Failure(AlertClosed)
        else if assignee !in users then Failure(BadAssignee)
        else Success(a.(assignee := Some(assignee), status := Assigned, version := a.version + 1))
      case Silence(minutes, now) =>
        if a.status == Closed then Failure(AlertClosed)
        else if minutes < 1 || minutes > MAX_SILENCE then Failure(BadDuration)
        else Success(a.(status := Silenced, silencedUntil := Some(now + minutes * 60), version := a.version + 1))
      case Close(reason, now) =>
        if reason == "" then Failure(NoReason)
        else if a.status == Closed then Failure(AlertClosed)
        else Success(a.(status := Closed, closedAt := Some(now), resolution := reason, version := a.version + 1))
      case Follow(values) =>
        if values.status.Some? && values.status.value != Open && values.status.value != Assigned
          && values.status.value != InProgress
        then Failure(BadStatus)
        else if a.status == Closed then Failure(AlertClosed)
        else
          var assignee := if values.assignee.Some? then values.assignee.value else a.assignee;
          var status := FollowedStatus(a, values, assignee);
          if assignee.Some? && assignee.value !in users then Failure(BadAssignee)
          else if status == Assigned && assignee.None? then Failure(NoAssignee)
          else Success(a.(assignee := assignee, status := status, version := a.version + 1,
                          plan := if values.plan.Some? then values.plan.value else a.plan))
  }

  /** The row of an alert as the actions update it in place. */
  class AlertRecord {
    var row: Alert

    constructor (a: Alert)
      ensures row == a
    {
      row := a;
    }

    method AssignTo(assignee: int, expected: Option<nat>, users: set<int>) returns (refusal: Option<Refusal>)
      modifies this
      ensures match Act(old(row), Assign(assignee), expected, users)
        case Success(b) => refusal.None? && row == b
        case Failure(r) => refusal == Some(r) && row == old(row)
    {
      if expected.Some? && row.version != expected.value { return Some(VersionConflict); }
      if row.status == Closed { return Some(AlertClosed); }
      if assignee !in users { return Some(BadAssignee); }
      row := row.(assignee := Some(assignee));
      row := row.(status := Assigned);
      row := row.(version := row.version + 1);
      refusal := None;
    }

    method FollowUpWith(values: FollowUp, expected: Option<nat>, users: set<int>) returns (refusal: Option<Refusal>)
      requires values.status.Some? ==> values.status.value != Closed && values.status.value != Silenced
      modifies this
      ensures match Act(old(row), Follow(values), expected, users)
        case Success(b) => refusal.None? && row == b
        case Failure(r) => refusal == Some(r) && row == old(row)
    {
      if expected.Some? && row.version != expected.value { return Some(VersionConflict); }
      if row.status == Closed { return Some(AlertClosed); }
      var assignee := if values.assignee.Some? then values.assignee.value else row.assignee;
      if assignee.Some? && assignee.value !in users { return Some(BadAssignee); }
      var status := row.status;
      if values.status.Some? { status := values.status.value; }
      if values.assignee.Some? && assignee.Some? && values.status.None? && status == Open { status := Assigned; }
      if values.assignee.Some? && assignee.None? && values.status.None? && status == Assigned { status := Open; }
      if status == Assigned && assignee.None? { return Some(NoAssignee); }
      if values.plan.Some? { row := row.(plan := values.plan.value); }
      row := row.(assignee := assignee, status := status, version := row.version + 1);
      refusal := None;
    }

    method SilenceFor(minutes: int, now: int, expected: Option<nat>, users: set<int>)
        returns (refusal: Option<Refusal>)
      modifies this
      ensures match Act(old(row), Silence(minutes, now), expected, users)
        case Success(b) => refusal.None? && row == b
        case Failure(r) => refusal == Some(r) && row == old(row)
      ensures refusal.None? ==> 1 <= minutes <= 43200 && row.silencedUntil == Some(now + minutes * 60)
    {
      if expected.Some? && row.version != expected.value { return Some(VersionConflict); }
      if row.status == Closed { return Some(AlertClosed); }
      if minutes < 1 || minutes > 43200 { return Some(BadDuration); }
      row := row.(status := Silenced);
      row := row.(silencedUntil := Some(now + minutes * 60));
      row := row.(version := row.version + 1);
      refusal := None;
    }

    method CloseWith(reason: string, now: int, expected: Option<nat>, users: set<int>)
        returns (refusal: Option<Refusal>)
      modifies this
      ensures match Act(old(row), Close(reason, now), expected, users)
        case Success(b) => refusal.None? && row == b
        case Failure(r) => refusal == Some(r) && row == old(row)
    {
      if expected.Some? && row.version != expected.value { return Some(VersionConflict); }
      if reason == "" { return Some(NoReason); }
      if row.status == Closed { return Some(AlertClosed); }
      row := row.(status := Closed);
      row := row.(closedAt := Some(now));
      row := row.(resolution := reason);
      row := row.(version := row.version + 1);
      refusal := None;
    }

    /** A rule matches an alert that exists already. */
    method Retrigger(rule: Rule, account: Account, now: int)
      modifies this
      ensures row == Retriggered(old(row), rule, account, now)
    {
      row := row.(rule := rule);
      row := row.(account := account);
      row := row.(state := if account.real_ then RiskState else Unverified);
      row := row.(version := row.version + 1);
      if row.status == Closed {
        row := row.(status := Open, closedAt := None);
        row := row.(assignee := None, resolution := "", plan := "");
        row := row.(triggeredAt := now);
      } else if row.status == Silenced && row.silencedUntil.Some? && row.silencedUntil.value <= now {
        row := row.(status := Open, silencedUntil := None);
      }
    }

    /** No rule matches any more. */
    method Resolve(now: int, reason: string)
      modifies this
      ensures row == Resolved(old(row), now, reason)
    {
      row := row.(status := Closed);
      row := row.(closedAt := Some(now), silencedUntil := None);
      row := row.(resolution := reason);
      row := row.(state := NormalState);
      row := row.(account := row.account.(state := NormalState, evaluatedAt := now));
      row := row.(version := row.version + 1);
    }

    /** The SKU cannot be judged: an open alert says why, once. */
    method MarkPending(issues: set<string>)
      modifies this
      ensures row == MarkedPending(old(row), issues)
    {
      if row.status == Closed { return; }
      var account := row.account.(state := PendingState, blocked := issues);
      if account == row.account { return; }
      row := row.(account := account);
      row := row.(state := PendingState, version := row.version + 1);
    }

    /** A source of the alert changed. */
    method InvalidateData()
      modifies this
      ensures row == Invalidated(old(row))
    {
      if row.account.real_ && row.status != Closed && row.state != PendingState {
        row := row.(state := PendingState, version := row.version + 1);
      }
    }
  }

  // ---------------------------------------------------------------- whole histories

  /** One write to an alert, by an evaluation, an invalidation or a person. */
  datatype Change =
    | Retrigger(rule: Rule, account: Account, at: int)
    | MarkPending(issues: set<string>)
    | Resolve(at: int, reason: string)
    | Invalidate
    | Person(action: Action, expected: Option<nat>, users: set<int>)

  function After(a: Alert, c: Change): Alert {
    match c
    case Retrigger(rule, account, at) => Retriggered(a, rule, account, at)
    case MarkPending(issues) => MarkedPending(a, issues)
    case Resolve(at, reason) => Resolved(a, at, reason)
    case Invalidate => Invalidated(a)
    case Person(action, expected, users) =>
      match Act(a, action, expected, users)
      case Success(b) => b
      case Failure(_) => a
  }

  ghost predicate History(alerts: seq<Alert>, changes: seq<Change>) {
    && |alerts| == |changes| + 1
    && forall i :: 0 <= i < |changes| ==> alerts[i + 1] == After(alerts[i], changes[i])
  }

  /** Nothing changes an alert without a new version. */
  lemma ChangeMovesVersion(a: Alert, c: Change)
    ensures After(a, c) == a || After(a, c).version > a.version
    ensures Shaped(a) ==> Shaped(After(a, c))
  {
  }

  lemma {:induction false} VersionsGrow(alerts: seq<Alert>, changes: seq<Change>, i: nat, j: nat)
    requires History(alerts, changes) && i <= j < |alerts|
    ensures alerts[i] == alerts[j] || alerts[i].version < alerts[j].version
  {
    if i < j {
      VersionsGrow(alerts, changes, i, j - 1);
      ChangeMovesVersion(alerts[j - 1], changes[j - 1]);
    }
  }

  /** Over any history: a version names one state of the alert. */
  lemma VersionNamesState(alerts: seq<Alert>, changes: seq<Change>, i: nat, j: nat)
    requires History(alerts, changes) && i < |alerts| && j < |alerts| && alerts[i].version == alerts[j].version
    ensures alerts[i] == alerts[j]
  {
    if i <= j { VersionsGrow(alerts, changes, i, j); } else { VersionsGrow(alerts, changes, j, i); }
  }

  /** An action accepted with the version its author read was applied to
      exactly what the author read. */
  lemma AcceptedOnWhatWasRead(alerts: seq<Alert>, changes: seq<Change>, read: nat, j: nat)
    requires History(alerts, changes) && read < |alerts| && j < |changes|
    requires changes[j].Person? && changes[j].expected == Some(alerts[read].version)
    requires Act(alerts[j], changes[j].action, changes[j].expected, changes[j].users).Success?
    ensures alerts[j] == alerts[read]
    ensures alerts[j + 1].version > alerts[read].version
  {
    VersionNamesState(alerts, changes, read, j);
    ChangeMovesVersion(alerts[j], changes[j]);
  }

  /** Over any history: closed exactly with a closing time, assigned only to
      somebody, silenced only until some time. */
  lemma {:induction false} HistoryStaysShaped(alerts: seq<Alert>, changes: seq<Change>, i: nat)
    requires History(alerts, changes) && Shaped(alerts[0]) && i < |alerts|
    ensures Shaped(alerts[i])
  {
    if i > 0 {
      HistoryStaysShaped(alerts, changes, i - 1);
      ChangeMovesVersion(alerts[i - 1], changes[i - 1]);
    }
  }

  /** Once closed, only a matching rule reopens an alert: no person's action and
      no data change touches it. */
  lemma OnlyMatchReopens(a: Alert, c: Change)
    requires a.status == Closed && !c.Retrigger? && !c.Resolve?
    ensures After(a, c) == a
  {
  }

  /** And every alert is created in shape. */
  lemma CreatedIsShaped(rule: Rule, key: Key, sku: int, spu: int, place: string, account: Account, now: int)
    ensures Shaped(NewAlert(rule, key, sku, spu, place, account, now))
    ensures NewAlert(rule, key, sku, spu, place, account, now).version == 1
    ensures NewAlert(rule, key, sku, spu, place, account, now).state
      == if account.real_ then RiskState else Unverified
  {
  }

  /** So the shape holds over the whole life of an alert. */
  lemma LifeStaysShaped(alerts: seq<Alert>, changes: seq<Change>, i: nat, rule: Rule, key: Key, sku: int, spu: int,
      place: string, account: Account, now: int)
    requires History(alerts, changes) && alerts[0] == NewAlert(rule, key, sku, spu, place, account, now)
    requires i < |alerts|
    ensures Shaped(alerts[i]) && alerts[i].version >= 1
  {
    CreatedIsShaped(rule, key, sku, spu, place, account, now);
    HistoryStaysShaped(alerts, changes, i);
    VersionsGrow(alerts, changes, 0, i);
  }
}
