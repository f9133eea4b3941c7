/**
 Stored assessments: the last evaluated state of a SKU under one measurement
 policy, a cache keyed by what it was computed from, and at the same time the
 watch list of what to evaluate again without being asked.
 */
module WatchList {
  import opened Wrappers
  import opened Alerts
  import opened AlertEvaluation

  const CLAIM_SECONDS := 600
  const RETRY_SECONDS := 300

  datatype State = PendingEvaluation | NoActiveRules | AtRisk | AllNormal | NotEvaluatedYet

  /** The row fields a source signature digests; a row without a suggestion is pending. */
  datatype Facts = Facts(suggested: Option<nat>, figures: Figures, rest: int)

  /** The rule fields a rules signature digests. */
  datatype RuleFields = RuleFields(pk: nat, version: nat, alertType: AlertType, severity: int, threshold: Option<real>)

  function FieldsOf(r: Rule): RuleFields {
    RuleFields(r.pk, r.version, r.alertType, r.severity, r.threshold)
  }

  function RulesSignature(rules: seq<Rule>): seq<RuleFields> {
    seq(|rules|, i requires 0 <= i < |rules| => FieldsOf(rules[i]))
  }

  /** What an evaluation of these rules over this row concludes. */
  function EvaluatedState(rules: seq<Rule>, facts: Facts): State {
    if facts.suggested.None? then PendingEvaluation
    else if rules == [] then NoActiveRules
    else if exists r :: r in rules && Triggered(r, facts.figures) then AtRisk
    else AllNormal
  }

  predicate FieldsTrigger(f: RuleFields, figures: Figures) {
    Triggered(Rule(f.pk, "", f.version, f.alertType, f.severity, f.threshold, true, 0), figures)
  }

  /** The same conclusion from the two signatures alone. */
  function SignedState(signature: seq<RuleFields>, facts: Facts): State {
    if facts.suggested.None? then PendingEvaluation
    else if signature == [] then NoActiveRules
    else if exists f :: f in signature && FieldsTrigger(f, facts.figures) then AtRisk
    else AllNormal
  }

  lemma FieldsDecide(r: Rule, figures: Figures)
    ensures Triggered(r, figures) <==> FieldsTrigger(FieldsOf(r), figures)
  {
  }

  /** The evaluated state is a function of what the signatures digest. */
  lemma SignaturesDetermineState(rules: seq<Rule>, facts: Facts)
    ensures EvaluatedState(rules, facts) == SignedState(RulesSignature(rules), facts)
  {
    var signature := RulesSignature(rules);
    if r :| r in rules && Triggered(r, facts.figures) {
      var i :| 0 <= i < |rules| && rules[i] == r;
      FieldsDecide(r, facts.figures);
      assert signature[i] in signature && FieldsTrigger(signature[i], facts.figures);
    }
    if f :| f in signature && FieldsTrigger(f, facts.figures) {
      var i :| 0 <= i < |signature| && signature[i] == f;
      FieldsDecide(rules[i], facts.figures);
      assert rules[i] in rules && Triggered(rules[i], facts.figures);
    }
  }

  // ---------------------------------------------------------------- the table

  datatype Key = Key(country: int, sku: int, actor: int, windowDays: nat, targetDays: nat)

  datatype Assessment = Assessment(
    membership: Option<int>, source: Facts, rules: seq<RuleFields>, state: State,
    needsRefresh: bool, autoRefresh: bool, refreshAfter: int, evaluatedAt: int)

  /** The policy and identity an evaluation runs under. */
  datatype Policy = Policy(country: int, actor: int, membership: Option<int>, windowDays: nat, targetDays: nat,
      automatic: bool)

  datatype Row = Row(sku: int, facts: Facts, allowed: bool)

  type Table = map<Key, Assessment>

  function KeyFor(p: Policy, sku: int): Key {
    Key(p.country, sku, p.actor, p.windowDays, p.targetDays)
  }

  predicate Watched(t: Table, p: Policy, sku: int) {
    var k := KeyFor(p, sku);
    k in t && t[k].autoRefresh && t[k].membership == p.membership
  }

  /** A manual evaluation takes the watch over from every other policy. */
  function OthersReleased(t: Table, country: int, sku: int): Table {
    map k | k in t ::
      if k.country == country && k.sku == sku && t[k].autoRefresh then t[k].(autoRefresh := false, needsRefresh := true)
        else t[k]
  }

  function Stored(t: Table, p: Policy, rules: seq<Rule>, row: Row, now: int): Table {
    (if p.automatic then t else OthersReleased(t, p.country, row.sku))[KeyFor(p, row.sku) :=
      Assessment(p.membership, row.facts, RulesSignature(rules), EvaluatedState(rules, row.facts),
                 false, true, now + RETRY_SECONDS, now)]
  }

  /** The rows of one evaluation, in order; an automatic one only touches
      policies that were still watched when it took the tenant lock. */
  function Evaluated(start: Table, p: Policy, rules: seq<Rule>, rows: seq<Row>, now: int): Table {
    if rows == [] then start
    else
      var t := Evaluated(start, p, rules, rows[..|rows| - 1], now);
      var row := rows[|rows| - 1];
      if !row.allowed || (p.automatic && !Watched(start, p, row.sku)) then t else Stored(t, p, rules, row, now)
  }

  function Dirtied(t: Table, country: Option<int>, now: int): Table {
    map k | k in t ::
      if t[k].autoRefresh && !t[k].needsRefresh && (country.None? || k.country == country.value)
      then t[k].(needsRefresh := true, refreshAfter := now) else t[k]
  }

  predicate Due(a: Assessment, now: int) {
    a.autoRefresh && (a.needsRefresh || a.refreshAfter <= now)
  }

  function ClaimedBy(t: Table, claimed: set<Key>, now: int): Table {
    map k | k in t ::
      if k in claimed then t[k].(needsRefresh := false, refreshAfter := now + CLAIM_SECONDS) else t[k]
  }

  /** A batch that failed, or SKUs whose alert target is not authorized. */
  function Postponed(t: Table, batch: set<Key>, failed: bool, now: int): Table {
    map k | k in t ::
      if k in batch
      then t[k].(state := PendingEvaluation, refreshAfter := now + RETRY_SECONDS,
                 needsRefresh := if failed then false else t[k].needsRefresh)
      else t[k]
  }

  /** The state that an evaluation of one row ends in. */
  method Conclude(rules: seq<Rule>, facts: Facts) returns (state: State)
    ensures state == EvaluatedState(rules, facts)
  {
    if facts.suggested.None? { return PendingEvaluation; }
    var matched := 0;
    for i := 0 to |rules|
      invariant matched > 0 <==> exists r :: r in rules[..i] && Triggered(r, facts.figures)
    {
      assert rules[..i + 1] == rules[..i] + [rules[i]];
      var hit := Matches(rules[i], facts.figures);
      if hit { matched := matched + 1; }
    }
    assert rules[..|rules|] == rules;
    state := if rules == [] then NoActiveRules else if matched > 0 then AtRisk else AllNormal;
  }

  /** `decorate_rows` for one row. */
  method DecorateRow(found: Option<Assessment>, rules: seq<Rule>, facts: Facts) returns (state: State)
    ensures state == Shown(found, rules, facts)
  {
    var current := found.Some? && !found.value.needsRefresh && found.value.source == facts
      && found.value.rules == RulesSignature(rules);
    if facts.suggested.None? { return PendingEvaluation; }
    if rules == [] { return NoActiveRules; }
    if current { return found.value.state; }
    state := NotEvaluatedYet;
  }

  class AssessmentTable {
    var table: Table

    constructor ()
      ensures table == map[]
    {
      table := map[];
    }

    /** The storing half of `evaluate_country`, under the tenant lock. */
    method Evaluate(p: Policy, rules: seq<Rule>, rows: seq<Row>, now: int)
      modifies this
      ensures table == Evaluated(old(table), p, rules, rows, now)
    {
      var watched := set row | row in rows && KeyFor(p, row.sku) in table && table[KeyFor(p, row.sku)].autoRefresh
          && table[KeyFor(p, row.sku)].membership == p.membership :: row.sku;
      for i := 0 to |rows|
        invariant table == Evaluated(old(table), p, rules, rows[..i], now)
      {
        assert rows[..i + 1][..i] == rows[..i];
        var row := rows[i];
        assert row.sku in watched <==> Watched(old(table), p, row.sku);
        if !row.allowed || (p.automatic && row.sku !in watched) {
          continue;
        }
        if !p.automatic {
          table := map k | k in table ::
            if k.country == p.country && k.sku == row.sku && table[k].autoRefresh
            then table[k].(autoRefresh := false, needsRefresh := true) else table[k];
        }
        var state := Conclude(rules, row.facts);
        table := table[Key(p.country, row.sku, p.actor, p.windowDays, p.targetDays) :=
          Assessment(p.membership, row.facts, RulesSignature(rules), state, false, true, now + 300, now)];
      }
      assert rows[..|rows|] == rows;
    }

    method Invalidate(country: Option<int>, now: int)
      modifies this
      ensures table == Dirtied(old(table), country, now)
    {
      table := map k | k in table ::
        if table[k].autoRefresh && !table[k].needsRefresh && (country.None? || k.country == country.value)
        then table[k].(needsRefresh := true, refreshAfter := now) else table[k];
    }

    /** The short claim of `refresh_due_decisions`: those due longest come first. */
    method ClaimDue(limit: int, now: int) returns (claimed: set<Key>)
      modifies this
      ensures FirstDue(old(table), claimed, Bound(limit), now) && |claimed| <= 100
      ensures table == ClaimedBy(old(table), claimed, now)
    {
      claimed := ListDue(limit, now);
      table := map k | k in table ::
        if k in claimed then table[k].(needsRefresh := false, refreshAfter := now + 600) else table[k];
    }

    /** A batch whose evaluation failed, or the SKUs of one that may not be
        evaluated: nothing is known of them, and they are tried again soon. */
    method Postpone(batch: set<Key>, failed: bool, now: int)
      modifies this
      ensures table == Postponed(old(table), batch, failed, now)
    {
      if failed {
        table := map k | k in table :: if k !in batch then table[k]
          else table[k].(state := PendingEvaluation, needsRefresh := false, refreshAfter := now + 300);
      } else {
        table := map k | k in table :: if k !in batch then table[k]
          else table[k].(state := PendingEvaluation, refreshAfter := now + 300);
      }
    }

    method ListDue(limit: int, now: int) returns (claimed: set<Key>)
      ensures FirstDue(table, claimed, Bound(limit), now)
    {
      claimed := {};
      var bound := if limit < 1 then 1 else if limit > 100 then 100 else limit;
      var rest := set k | k in table && table[k].autoRefresh && (table[k].needsRefresh || table[k].refreshAfter <= now);
      while rest != {} && |claimed| < bound
        invariant |claimed| <= Bound(limit) && claimed !! rest
        invariant forall k :: k in claimed || k in rest <==> k in table && Due(table[k], now)
        invariant forall a, b :: a in claimed && b in rest ==> table[a].refreshAfter <= table[b].refreshAfter
        decreases |rest|
      {
        var k := Earliest(rest);
        claimed, rest := claimed + {k}, rest - {k};
      }
    }

    method Earliest(due: set<Key>) returns (first: Key)
      requires due != {} && forall k :: k in due ==> k in table
      ensures first in due && forall k :: k in due ==> table[first].refreshAfter <= table[k].refreshAfter
    {
      first :| first in due;
      var rest := due - {first};
      while rest != {}
        invariant first in due && rest <= due
        invariant forall k :: k in due && k !in rest ==> table[first].refreshAfter <= table[k].refreshAfter
      {
        var k :| k in rest;
        if table[k].refreshAfter < table[first].refreshAfter { first := k; }
        rest := rest - {k};
      }
    }
  }

  /** Due watches, all of them or as many as allowed, and then no other is due
      longer. */
  ghost predicate FirstDue(t: Table, claimed: set<Key>, bound: nat, now: int) {
    && |claimed| <= bound
    && (forall k :: k in claimed ==> k in t && Due(t[k], now))
    && (|claimed| < bound ==> forall k :: k in t && Due(t[k], now) ==> k in claimed)
    && (forall a, b :: a in claimed && b in t && b !in claimed && Due(t[b], now) ==>
      t[a].refreshAfter <= t[b].refreshAfter)
  }

  const MAX_CLAIM := 100

  /** How many watches one claim takes: at least one, at most a hundred. */
  function Bound(limit: int): nat {
    Max(1, Min(limit, MAX_CLAIM))
  }

  // ---------------------------------------------------------------- every run

  datatype Event =
    | Tick(to: int)
    | Evaluate(policy: Policy, rules: seq<Rule>, rows: seq<Row>, at: int)
    | Invalidate(country: Option<int>, at: int)
    | ClaimDue(claimed: set<Key>, at: int)
    | Postpone(batch: set<Key>, failed: bool, at: int)

  datatype World = World(clock: int, table: Table)

  ghost predicate Enabled(w: World, e: Event) {
    match e
    case Tick(to) => to >= w.clock
    case Evaluate(_, _, rows, at) =>
      at <= w.clock && forall i, j :: 0 <= i < j < |rows| ==> rows[i].sku != rows[j].sku
    case Invalidate(_, at) => at <= w.clock
    case ClaimDue(claimed, at) => at <= w.clock && forall k :: k in claimed ==> k in w.table && Due(w.table[k], at)
    case Postpone(_, _, at) => at <= w.clock
  }

  ghost function Apply(w: World, e: Event): World {
    match e
    case Tick(to) => w.(clock := to)
    case Evaluate(p, rules, rows, at) => w.(table := Evaluated(w.table, p, rules, rows, at))
    case Invalidate(country, at) => w.(table := Dirtied(w.table, country, at))
    case ClaimDue(claimed, at) => w.(table := ClaimedBy(w.table, claimed, at))
    case Postpone(batch, failed, at) => w.(table := Postponed(w.table, batch, failed, at))
  }

  ghost predicate Run(ws: seq<World>, es: seq<Event>) {
    && |ws| == |es| + 1
    && forall i :: 0 <= i < |es| ==> Enabled(ws[i], es[i]) && ws[i + 1] == Apply(ws[i], es[i])
  }

  predicate SameSku(a: Key, b: Key) {
    a.country == b.country && a.sku == b.sku
  }

  /** One watch per country and SKU. */
  ghost predicate OneWatch(t: Table) {
    forall a, b :: a in t && b in t && t[a].autoRefresh && t[b].autoRefresh && SameSku(a, b) ==> a == b
  }

  ghost predicate DueSoon(t: Table, clock: int) {
    forall k :: k in t && t[k].autoRefresh ==> t[k].refreshAfter <= clock + CLAIM_SECONDS
  }

  /** A stored verdict is what its signatures say, or was withdrawn. */
  ghost predicate Honest(t: Table) {
    forall k :: k in t ==> t[k].state == PendingEvaluation || t[k].state == SignedState(t[k].rules, t[k].source)
  }

  ghost predicate Inv(w: World) {
    OneWatch(w.table) && DueSoon(w.table, w.clock) && Honest(w.table)
  }

  lemma StoreKeepsInv(t: Table, p: Policy, rules: seq<Rule>, row: Row, now: int, clock: int)
    requires OneWatch(t) && DueSoon(t, clock) && Honest(t) && now <= clock
    requires p.automatic ==> KeyFor(p, row.sku) in t && t[KeyFor(p, row.sku)].autoRefresh
    ensures var after := Stored(t, p, rules, row, now); OneWatch(after) && DueSoon(after, clock) && Honest(after)
  {
    SignaturesDetermineState(rules, row.facts);
  }

  /** Storing one SKU leaves the watches of the others as they were. */
  lemma {:induction false} EvaluationKeepsInv(start: Table, p: Policy, rules: seq<Rule>, rows: seq<Row>, now: int,
      clock: int)
    requires OneWatch(start) && DueSoon(start, clock) && Honest(start) && now <= clock
    ensures var after := Evaluated(start, p, rules, rows, now);
      && OneWatch(after) && DueSoon(after, clock) && Honest(after)
      && (p.automatic ==> forall k :: k in start ==> k in after && (start[k].autoRefresh ==> after[k].autoRefresh))
  {
    if rows != [] {
      EvaluationKeepsInv(start, p, rules, rows[..|rows| - 1], now, clock);
      var row := rows[|rows| - 1];
      if row.allowed && !(p.automatic && !Watched(start, p, row.sku)) {
        StoreKeepsInv(Evaluated(start, p, rules, rows[..|rows| - 1], now), p, rules, row, now, clock);
      }
    }
  }

  lemma StepKeepsInv(w: World, e: Event)
    requires Inv(w) && Enabled(w, e)
    ensures Inv(Apply(w, e))
  {
    if e.Evaluate? { EvaluationKeepsInv(w.table, e.policy, e.rules, e.rows, e.at, w.clock); }
  }

  /** In every run, across manual switches, automatic runs holding stale claims
      and invalidations: one watch per country and SKU, and every watch due
      again within ten minutes, so no dead worker keeps its claim longer. */
  lemma {:induction false} RunKeepsWatches(ws: seq<World>, es: seq<Event>, i: nat)
    requires Run(ws, es) && ws[0].table == map[] && i < |ws|
    ensures Inv(ws[i])
    ensures forall k :: k in ws[i].table && ws[i].table[k].autoRefresh ==>
      Due(ws[i].table[k], ws[i].clock + 600)
  {
    if i > 0 {
      RunKeepsWatches(ws, es, i - 1);
      StepKeepsInv(ws[i - 1], es[i - 1]);
    }
  }

  // ---------------------------------------------------------------- showing a stored state

  /** `decorate_rows` for one row and the assessment it found. */
  function Shown(found: Option<Assessment>, rules: seq<Rule>, facts: Facts): State {
    if facts.suggested.None? then PendingEvaluation
    else if rules == [] then NoActiveRules
    else if found.Some? && Current(found.value, rules, facts) then found.value.state
    else NotEvaluatedYet
  }

  /** In every run, for any stored assessment: a row shown as risk or normal is
      what evaluating it again, now, would conclude. */
  lemma ShownIsRecomputed(ws: seq<World>, es: seq<Event>, i: nat, k: Key, rules: seq<Rule>, facts: Facts)
    requires Run(ws, es) && ws[0].table == map[] && i < |ws| && k in ws[i].table
    ensures var shown := Shown(Some(ws[i].table[k]), rules, facts);
      shown == AtRisk || shown == AllNormal ==> shown == EvaluatedState(rules, facts)
  {
    RunKeepsWatches(ws, es, i);
    SignaturesDetermineState(rules, facts);
  }

  /** Without an assessment a row shows no verdict: it is pending by itself, or
      there are no rules, or it is not evaluated yet. */
  lemma NothingShownUnassessed(rules: seq<Rule>, facts: Facts)
    ensures var shown := Shown(None, rules, facts);
      && (shown == PendingEvaluation <==> facts.suggested.None?)
      && (shown == NoActiveRules <==> facts.suggested.Some? && rules == [])
      && (shown == NotEvaluatedYet <==> facts.suggested.Some? && rules != [])
      && (shown == EvaluatedState(rules, facts) <==> facts.suggested.None? || rules == [])
  {
  }

  /** A worker claims the watch, an evaluation stores it, or a failed batch
      gives it up for the time being. */
  predicate TakesUp(w: World, e: Event, k: Key) {
    match e
    case ClaimDue(claimed, _) => k in claimed
    case Evaluate(p, _, rows, _) => StoresAny(w.table, p, rows, k)
    case Postpone(batch, failed, _) => failed && k in batch
    case _ => false
  }

  predicate Dirty(w: World, k: Key) {
    k in w.table && w.table[k].needsRefresh
  }

  /** A source changed: every watch of its country is dirty from then on until
      it is taken up; while it is a watch it is due at any time, and whatever the
      row has become, no verdict is shown for it. */
  lemma InvalidatedUntilTakenUp(ws: seq<World>, es: seq<Event>, i: nat, j: nat, k: Key, now: int, rules: seq<Rule>,
      facts: Facts)
    requires Run(ws, es) && i < j < |ws| && es[i].Invalidate?
    requires es[i].country == None || es[i].country == Some(k.country)
    requires k in ws[i].table && ws[i].table[k].autoRefresh
    requires forall m :: i < m < j ==> !TakesUp(ws[m], es[m], k)
    ensures Dirty(ws[j], k)
    ensures ws[j].table[k].autoRefresh ==> Due(ws[j].table[k], now)
    ensures var shown := Shown(Some(ws[j].table[k]), rules, facts); shown != AtRisk && shown != AllNormal
  {
    DirtyAlong(ws, es, i, j, k);
  }

  lemma {:induction false} DirtyAlong(ws: seq<World>, es: seq<Event>, i: nat, j: nat, k: Key)
    requires Run(ws, es) && i < j < |ws| && es[i].Invalidate?
    requires es[i].country == None || es[i].country == Some(k.country)
    requires k in ws[i].table && ws[i].table[k].autoRefresh
    requires forall m :: i < m < j ==> !TakesUp(ws[m], es[m], k)
    ensures Dirty(ws[j], k)
  {
    assert ws[j] == Apply(ws[j - 1], es[j - 1]);
    if i < j - 1 {
      DirtyAlong(ws, es, i, j - 1, k);
      DirtyStep(ws[j - 1], es[j - 1], k);
    }
  }

  lemma DirtyStep(w: World, e: Event, k: Key)
    requires Enabled(w, e) && Dirty(w, k) && !TakesUp(w, e, k)
    ensures Dirty(Apply(w, e), k)
  {
    if e.Evaluate? { DirtyWhileEvaluating(w.table, e.policy, e.rules, e.rows, e.at, k); }
  }

  lemma {:induction false} DirtyWhileEvaluating(start: Table, p: Policy, rules: seq<Rule>, rows: seq<Row>, now: int,
      k: Key)
    requires k in start && start[k].needsRefresh && !StoresAny(start, p, rows, k)
    ensures k in Evaluated(start, p, rules, rows, now) && Evaluated(start, p, rules, rows, now)[k].needsRefresh
  {
    if rows != [] {
      var n := |rows| - 1;
      assert rows == rows[..n] + [rows[n]] && !Stores(start, p, rows[n], k);
      DirtyWhileEvaluating(start, p, rules, rows[..n], now, k);
    }
  }

  // ---------------------------------------------------------------- when the verdict shows

  predicate Stores(t: Table, p: Policy, row: Row, k: Key) {
    row.allowed && !(p.automatic && !Watched(t, p, row.sku)) && k == KeyFor(p, row.sku)
  }

  predicate StoresAny(t: Table, p: Policy, rows: seq<Row>, k: Key) {
    exists row :: row in rows && Stores(t, p, row, k)
  }

  /** The assessment was postponed after its last evaluation. */
  predicate Withdrawn(ws: seq<World>, es: seq<Event>, i: nat, k: Key)
    requires i <= |es| <= |ws|
  {
    i > 0 &&
    var t, e := ws[i - 1].table, es[i - 1];
    if e.Postpone? && k in t && k in e.batch then true
    else if e.Evaluate? && StoresAny(t, e.policy, e.rows, k) then false
    else Withdrawn(ws, es, i - 1, k)
  }

  /** What an evaluation leaves of one assessment: a verdict of its own, or the
      one that was there. */
  lemma {:induction false} EvaluatedAt(start: Table, p: Policy, rules: seq<Rule>, rows: seq<Row>, now: int, k: Key)
    ensures var after := Evaluated(start, p, rules, rows, now);
      && (k in after <==> k in start || StoresAny(start, p, rows, k))
      && (k in after && StoresAny(start, p, rows, k) ==> after[k].state == SignedState(after[k].rules, after[k].source))
      && (k in after && !StoresAny(start, p, rows, k) ==> SameVerdict(after[k], start[k]))
  {
    if rows != [] {
      var n := |rows| - 1;
      EvaluatedAt(start, p, rules, rows[..n], now, k);
      assert rows == rows[..n] + [rows[n]];
      assert StoresAny(start, p, rows, k) <==> StoresAny(start, p, rows[..n], k) || Stores(start, p, rows[n], k);
      StoredAt(Evaluated(start, p, rules, rows[..n], now), p, rules, rows[n], now, k);
    }
  }

  predicate SameVerdict(a: Assessment, b: Assessment) {
    a.state == b.state && a.rules == b.rules && a.source == b.source
  }

  lemma StoredAt(t: Table, p: Policy, rules: seq<Rule>, row: Row, now: int, k: Key)
    ensures var after := Stored(t, p, rules, row, now);
      && (k in after <==> k in t || k == KeyFor(p, row.sku))
      && (k == KeyFor(p, row.sku) ==> after[k].state == SignedState(after[k].rules, after[k].source))
      && (k in t && k != KeyFor(p, row.sku) ==> SameVerdict(after[k], t[k]))
  {
    SignaturesDetermineState(rules, row.facts);
  }

  /** In every run the stored state is what its signatures say, unless it was
      withdrawn; then it is pending. */
  lemma {:induction false} WithdrawnDecides(ws: seq<World>, es: seq<Event>, i: nat, k: Key)
    requires Run(ws, es) && ws[0].table == map[] && i < |ws| && k in ws[i].table
    ensures var a := ws[i].table[k];
      a.state == if Withdrawn(ws, es, i, k) then PendingEvaluation else SignedState(a.rules, a.source)
  {
    var w, e := ws[i - 1], es[i - 1];
    assert ws[i] == Apply(w, e);
    if e.Evaluate? { EvaluatedAt(w.table, e.policy, e.rules, e.rows, e.at, k); }
    if !(e.Evaluate? && StoresAny(w.table, e.policy, e.rows, k)) {
      WithdrawnDecides(ws, es, i - 1, k);
    }
  }

  /** In every run and for every row: the state shown is the one an evaluation
      would conclude now if and only if the row is pending by itself, or there
      are no rules, or its assessment is current and was not withdrawn. */
  lemma ShownExactlyUnlessWithdrawn(ws: seq<World>, es: seq<Event>, i: nat, k: Key, rules: seq<Rule>, facts: Facts)
    requires Run(ws, es) && ws[0].table == map[] && i < |ws| && k in ws[i].table
    ensures Shown(Some(ws[i].table[k]), rules, facts) == EvaluatedState(rules, facts) <==>
      facts.suggested.None? || rules == [] || (Current(ws[i].table[k], rules, facts) && !Withdrawn(ws, es, i, k))
  {
    WithdrawnDecides(ws, es, i, k);
    SignaturesDetermineState(rules, facts);
  }

  predicate Current(a: Assessment, rules: seq<Rule>, facts: Facts) {
    !a.needsRefresh && a.source == facts && a.rules == RulesSignature(rules)
  }

  /** A reader can tell a withdrawn assessment by itself: it is pending although
      its own source had a suggestion. */
  lemma WithdrawnIsVisible(ws: seq<World>, es: seq<Event>, i: nat, k: Key)
    requires Run(ws, es) && ws[0].table == map[] && i < |ws| && k in ws[i].table
    requires ws[i].table[k].source.suggested.Some?
    ensures Withdrawn(ws, es, i, k) <==> ws[i].table[k].state == PendingEvaluation
  {
    WithdrawnDecides(ws, es, i, k);
  }

  /** So a current row shows pending, against what an evaluation would say, in
      exactly the runs that withdrew it. */
  lemma PostponedShowsPending(ws: seq<World>, es: seq<Event>, i: nat, k: Key, rules: seq<Rule>, facts: Facts)
    requires Run(ws, es) && ws[0].table == map[] && i < |ws| && k in ws[i].table
    requires Current(ws[i].table[k], rules, facts) && facts.suggested.Some? && rules != []
    ensures Withdrawn(ws, es, i, k) <==> Shown(Some(ws[i].table[k]), rules, facts) == PendingEvaluation
    ensures EvaluatedState(rules, facts) != PendingEvaluation
  {
    WithdrawnDecides(ws, es, i, k);
    SignaturesDetermineState(rules, facts);
  }

  /** The shortest such run: one evaluation, one postponement. */
  lemma PostponedExample(p: Policy, rule: Rule, row: Row, clock: int) returns (ws: seq<World>, es: seq<Event>)
    requires !p.automatic && row.allowed && row.facts.suggested.Some?
    ensures var k := KeyFor(p, row.sku);
      && Run(ws, es) && |es| == 2 && ws[0].table == map[] && k in ws[2].table
      && Current(ws[2].table[k], [rule], row.facts) && Withdrawn(ws, es, 2, k)
      && Shown(Some(ws[2].table[k]), [rule], row.facts) == PendingEvaluation != EvaluatedState([rule], row.facts)
  {
    var k := KeyFor(p, row.sku);
    var start := World(clock, map[]);
    var evaluate, postpone := Evaluate(p, [rule], [row], clock), Postpone({k}, true, clock);
    assert [row][..0] == [] && Evaluated(map[], p, [rule], [], clock) == map[];
    var middle := Apply(start, evaluate);
    ws, es := [start, middle, Apply(middle, postpone)], [evaluate, postpone];
    WithdrawnDecides(ws, es, 2, k);
  }
}
