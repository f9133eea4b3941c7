/**
 Evaluating a country's observations against the alert rules in force, so that
 afterwards the open alerts of a SKU are exactly the rules it matches.
 */
module AlertEvaluation {
  import opened Wrappers
  import opened Alerts

  // ---------------------------------------------------------------- which rules are in force

  predicate Outranks(a: Rule, b: Rule) {
    a.version > b.version || (a.version == b.version && a.pk > b.pk)
  }

  /** The newest version of its code among the rules effective at an instant. */
  predicate IsNewest(rules: set<Rule>, r: Rule, now: int) {
    && r in rules && r.effectiveAt <= now
    && forall s :: s in rules && s.code == r.code && s.effectiveAt <= now && s != r ==> Outranks(r, s)
  }

  predicate InForce(rules: set<Rule>, r: Rule, now: int) {
    IsNewest(rules, r, now) && r.enabled
  }

  /** Keys identify rules, so the rules of a code are totally ordered. */
  predicate RulesOk(rules: set<Rule>) {
    forall a, b :: a in rules && b in rules && a.pk == b.pk ==> a == b
  }

  /** The order the query returns: by code, newest first. */
  predicate InQueryOrder(rows: seq<Rule>) {
    forall i, j :: 0 <= i < j < |rows| && rows[i].code == rows[j].code ==> Outranks(rows[i], rows[j])
  }

  /** `active_rules`: the first row of each code wins, if it is enabled. */
  method ActiveRules(rows: seq<Rule>, ghost rules: set<Rule>, now: int) returns (active: seq<Rule>)
    requires InQueryOrder(rows) && forall r :: r in rows <==> r in rules && r.effectiveAt <= now
    ensures forall r :: r in active <==> InForce(rules, r, now)
    ensures forall i, j :: 0 <= i < j < |active| ==> active[i].code != active[j].code
  {
    var seen: set<string> := {};
    active := [];
    for n := 0 to |rows|
      invariant forall c :: c in seen <==> exists k :: 0 <= k < n && rows[k].code == c
      invariant forall r :: r in active ==> r.code in seen && InForce(rules, r, now)
      invariant forall k :: 0 <= k < n && InForce(rules, rows[k], now) ==> rows[k] in active
      invariant forall i, j :: 0 <= i < j < |active| ==> active[i].code != active[j].code
    {
      var r := rows[n];
      FirstIsNewest(rows, rules, n, now);
      if r.code !in seen {
        seen := seen + {r.code};
        if r.enabled { active := active + [r]; }
      }
    }
  }

  lemma FirstIsNewest(rows: seq<Rule>, rules: set<Rule>, n: nat, now: int)
    requires n < |rows| && InQueryOrder(rows) && forall r :: r in rows <==> r in rules && r.effectiveAt <= now
    ensures IsNewest(rules, rows[n], now) <==> forall k :: 0 <= k < n ==> rows[k].code != rows[n].code
  {
    var r := rows[n];
    assert r in rows;
    if k :| 0 <= k < n && rows[k].code == r.code {
      assert rows[k] in rows && Outranks(rows[k], r);
    } else {
      forall s | s in rules && s.code == r.code && s.effectiveAt <= now && s != r ensures Outranks(r, s) {
        assert s in rows;
        var k :| 0 <= k < |rows| && rows[k] == s;
      }
    }
  }

  /** `evaluate_inventory_alert` insists that the rule is still the one in force
      at its own clock. */
  predicate Refuses(rules: set<Rule>, r: Rule, at: int) {
    !InForce(rules, r, at)
  }

  /** A rule chosen at one clock reading is refused at a later one exactly when
      a newer version of it became effective in between. */
  lemma RefusedOnlyIfSuperseded(rules: set<Rule>, r: Rule, chosenAt: int, at: int)
    requires InForce(rules, r, chosenAt) && chosenAt <= at && RulesOk(rules)
    ensures Refuses(rules, r, at)
      <==> exists s :: s in rules && s.code == r.code && chosenAt < s.effectiveAt <= at && Outranks(s, r)
  {
    if Refuses(rules, r, at) {
      var s :| s in rules && s.code == r.code && s.effectiveAt <= at && s != r && !Outranks(r, s);
      assert s.pk != r.pk && Outranks(s, r);
      assert s.effectiveAt > chosenAt;
    }
  }

  // ---------------------------------------------------------------- whether a rule matches

  /** Four decimal places, halves to the even digit. */
  function Quantize(x: real): real {
    Nearest(x * 10000.0) as real / 10000.0
  }

  function Nearest(y: real): int {
    var low := y.Floor;
    var rest := y - low as real;
    if rest < 0.5 || (rest == 0.5 && low % 2 == 0) then low else low + 1
  }

  /** The figures of one observation the rules look at. */
  datatype Figures = Figures(available: real, incoming: real, daily: Option<real>)

  function Daily(f: Figures): Option<real> {
    if f.daily.None? then None else Some(Quantize(f.daily.value))
  }

  function CoverageDays(f: Figures): Option<real> {
    if Daily(f).Some? && Daily(f).value > 0.0 then Some(Quantize((f.available + f.incoming) / Daily(f).value)) else None
  }

  function Triggered(r: Rule, f: Figures): bool {
    var t := if r.threshold.Some? then r.threshold.value else 0.0;
    match r.alertType
    case StockoutRisk =>
      (f.available == 0.0 && Daily(f).Some? && Daily(f).value > 0.0)
        || (CoverageDays(f).Some? && CoverageDays(f).value < t)
    case LowCoverage => CoverageDays(f).Some? && CoverageDays(f).value < t
    case OverstockRisk => CoverageDays(f).Some? && CoverageDays(f).value > t
    case SlowMoving => Daily(f).Some? && Daily(f).value <= t && f.available > 0.0
  }

  /** `q` is `x` to four decimal places: as near as a multiple of 1/10000 can be,
      and the even one of two that are equally near. */
  ghost predicate IsRounded(x: real, q: real) {
    exists n: int :: RoundsTo(x, n) && q == n as real / 10000.0
  }

  predicate RoundsTo(x: real, n: int) {
    && -0.5 <= x * 10000.0 - n as real <= 0.5
    && (x * 10000.0 - n as real == 0.5 || x * 10000.0 - n as real == -0.5 ==> n % 2 == 0)
  }

  /** `Quantize` rounds, and no other number is the rounded one. */
  lemma QuantizeRounds(x: real, q: real)
    ensures IsRounded(x, q) <==> q == Quantize(x)
  {
    var n := Nearest(x * 10000.0);
    NearestRounds(x);
    assert Quantize(x) == n as real / 10000.0;
    if IsRounded(x, q) {
      var m: int :| RoundsTo(x, m) && q == m as real / 10000.0;
      RoundsToOne(x, m, n);
    }
  }

  lemma NearestRounds(x: real)
    ensures RoundsTo(x, Nearest(x * 10000.0))
  {
  }

  lemma RoundsToOne(x: real, m: int, n: int)
    requires RoundsTo(x, m) && RoundsTo(x, n)
    ensures m == n
  {
    assert -1.0 <= m as real - n as real <= 1.0;
    assert m == n || m == n + 1 || n == m + 1;
  }

  lemma QuantizeIsMonotone(x: real, y: real)
    requires x <= y
    ensures Quantize(x) <= Quantize(y)
  {
    NearestIsMonotone(x * 10000.0, y * 10000.0);
  }

  lemma NearestIsMonotone(x: real, y: real)
    requires x <= y
    ensures Nearest(x) <= Nearest(y)
  {
    assert x.Floor <= y.Floor;
  }

  /** When each type of rule matches, in plain arithmetic: `daily` and `days` are
      the rounded daily sales and the rounded coverage. */
  lemma TriggeredExactly(r: Rule, f: Figures, t: real, daily: real, days: real)
    requires r.threshold == Some(t)
    requires f.daily.Some? ==> IsRounded(f.daily.value, daily)
    requires daily > 0.0 ==> IsRounded((f.available + f.incoming) / daily, days)
    ensures var covered := f.daily.Some? && daily > 0.0;
      match r.alertType
      case StockoutRisk => Triggered(r, f) <==> covered && (f.available == 0.0 || days < t)
      case LowCoverage => Triggered(r, f) <==> covered && days < t
      case OverstockRisk => Triggered(r, f) <==> covered && days > t
      case SlowMoving => Triggered(r, f) <==> f.daily.Some? && daily <= t && f.available > 0.0
  {
    if f.daily.Some? { QuantizeRounds(f.daily.value, daily); }
    if daily > 0.0 { QuantizeRounds((f.available + f.incoming) / daily, days); }
  }

  /** More stock or more on its way never starts a warning of shortage and never
      ends one of surplus. */
  lemma MoreStockIsNoShortage(r: Rule, f: Figures, more: Figures)
    requires 0.0 <= f.available <= more.available && f.incoming <= more.incoming && f.daily == more.daily
    ensures r.alertType == StockoutRisk || r.alertType == LowCoverage ==> (Triggered(r, more) ==> Triggered(r, f))
    ensures r.alertType == OverstockRisk || r.alertType == SlowMoving ==> (Triggered(r, f) ==> Triggered(r, more))
  {
    if Daily(f).Some? && Daily(f).value > 0.0 {
      var d := Daily(f).value;
      DivisionIsMonotone(f.available + f.incoming, more.available + more.incoming, d);
      QuantizeIsMonotone((f.available + f.incoming) / d, (more.available + more.incoming) / d);
    }
  }

  lemma DivisionIsMonotone(a: real, b: real, d: real)
    requires a <= b && d > 0.0
    ensures a / d <= b / d
  {
    assert b / d - a / d == (b - a) / d;
  }

  /** At one threshold a SKU is never both short and in surplus. */
  lemma NeverShortAndInSurplus(low: Rule, over: Rule, f: Figures)
    requires low.alertType == LowCoverage && over.alertType == OverstockRisk && low.threshold == over.threshold
    ensures !(Triggered(low, f) && Triggered(over, f))
  {
  }

  /** `_is_triggered`. */
  method IsTriggered(alertType: AlertType, days: Option<real>, daily: Option<real>, available: real, threshold: real)
      returns (hit: bool)
    ensures hit <==>
      || (alertType == StockoutRisk && available == 0.0 && daily.Some? && daily.value > 0.0)
      || (alertType in {StockoutRisk, LowCoverage} && days.Some? && days.value < threshold)
      || (alertType == OverstockRisk && days.Some? && days.value > threshold)
      || (alertType == SlowMoving && daily.Some? && daily.value <= threshold && available > 0.0)
  {
    if alertType == StockoutRisk && available == 0.0 && daily.Some? && daily.value > 0.0 { return true; }
    if alertType == StockoutRisk || alertType == LowCoverage { return days.Some? && days.value < threshold; }
    if alertType == OverstockRisk { return days.Some? && days.value > threshold; }
    return daily.Some? && daily.value <= threshold && available > 0.0;
  }

  method Matches(rule: Rule, f: Figures) returns (hit: bool)
    ensures hit == Triggered(rule, f)
  {
    var daily, days := None, None;
    if f.daily.Some? { daily := Some(Quantize(f.daily.value)); }
    if daily.Some? && daily.value > 0.0 { days := Some(Quantize((f.available + f.incoming) / daily.value)); }
    var threshold := if rule.threshold.Some? then rule.threshold.value else 0.0;
    hit := IsTriggered(rule.alertType, days, daily, f.available, threshold);
  }

  datatype EvaluationError = RuleNotActive | BadThreshold | NegativeFigure

  function CheckInputs(rules: set<Rule>, r: Rule, f: Figures, at: int): Option<EvaluationError> {
    if Refuses(rules, r, at) then Some(RuleNotActive)
    else if f.available < 0.0 || f.incoming < 0.0 || (f.daily.Some? && f.daily.value < 0.0) then Some(NegativeFigure)
    else if r.threshold.None? || r.threshold.value < 0.0 then Some(BadThreshold)
    else None
  }

  /** The checks of `evaluate_inventory_alert`, in its order. */
  method Validate(table: set<Rule>, r: Rule, f: Figures, at: int) returns (error: Option<EvaluationError>)
    ensures error == CheckInputs(table, r, f, at)
  {
    var newest := forall s :: s in table && s.code == r.code && s.effectiveAt <= at && s != r ==>
      r.version > s.version || (r.version == s.version && r.pk > s.pk);
    if r !in table || r.effectiveAt > at || !newest || !r.enabled { return Some(RuleNotActive); }
    if f.available < 0.0 || f.incoming < 0.0 { return Some(NegativeFigure); }
    if f.daily.Some? && f.daily.value < 0.0 { return Some(NegativeFigure); }
    if r.threshold.None? || r.threshold.value < 0.0 { return Some(BadThreshold); }
    error := None;
  }

  // ---------------------------------------------------------------- the alert table

  /** The alerts of one SKU at one place, as real observations see them. */
  predicate Concerns(a: Alert, sku: int, place: string) {
    a.account.real_ && a.sku == sku && a.place == place
  }

  predicate OpenFor(alerts: map<nat, Alert>, pk: nat, sku: int, place: string) {
    pk in alerts && Concerns(alerts[pk], sku, place) && alerts[pk].status != Closed
  }

  /** Unique keys, and a real key names the alert's own code, SKU and place. */
  ghost predicate TableOk(alerts: map<nat, Alert>, nextPk: nat) {
    && (forall pk :: pk in alerts ==> pk < nextPk)
    && (forall p, q :: p in alerts && q in alerts && alerts[p].key == alerts[q].key ==> p == q)
    && (forall pk :: pk in alerts && alerts[pk].key.RealKey? ==>
          && alerts[pk].account.real_
          && alerts[pk].key == RealKey(alerts[pk].rule.code, alerts[pk].sku, alerts[pk].place))
  }

  /** Alerts of other SKUs, other places and other modes are as before. */
  ghost predicate OthersKept(before: map<nat, Alert>, after: map<nat, Alert>, sku: int, place: string) {
    && (forall pk :: pk in before ==> pk in after)
    && (forall pk :: pk in before && !Concerns(before[pk], sku, place) ==> after[pk] == before[pk])
    && (forall pk :: pk in after && (pk !in before || Concerns(before[pk], sku, place)) ==>
      Concerns(after[pk], sku, place))
  }

  datatype Observation = Observation(sku: int, spu: int, pending: bool, blocking: set<string>, figures: Figures,
      allowed: bool)

  /** The open alerts among `matched` stand for the first `n` rules: each hit
      has one, carrying that very rule, and there are no others. */
  ghost predicate Stands(alerts: map<nat, Alert>, matched: set<nat>, rules: seq<Rule>, n: nat, hits: set<Rule>,
      sku: int, place: string)
    requires n <= |rules|
  {
    && (forall pk :: pk in matched ==> OpenFor(alerts, pk, sku, place))
    && (forall pk :: pk in matched ==> alerts[pk].rule in rules[..n] && alerts[pk].rule in hits)
    && (forall r :: r in rules[..n] && r in hits ==> exists pk :: pk in matched && alerts[pk].rule == r)
    && (forall p, q :: p in matched && q in matched && alerts[p].rule.code == alerts[q].rule.code ==> p == q)
  }

  ghost predicate DistinctCodes(rules: seq<Rule>) {
    forall i, j :: 0 <= i < j < |rules| ==> rules[i].code != rules[j].code
  }

  /** The open alerts of an evaluated SKU are exactly its matching rules. */
  ghost predicate Agrees(alerts: map<nat, Alert>, rules: seq<Rule>, o: Observation, place: string) {
    && (forall pk :: OpenFor(alerts, pk, o.sku, place) ==>
      alerts[pk].rule in rules && Triggered(alerts[pk].rule, o.figures))
    && (forall r :: r in rules && Triggered(r, o.figures) ==>
      exists pk :: OpenFor(alerts, pk, o.sku, place) && alerts[pk].rule == r)
    && (forall p, q :: OpenFor(alerts, p, o.sku, place) && OpenFor(alerts, q, o.sku, place) ==>
          alerts[p].rule.code == alerts[q].rule.code ==> p == q)
  }

  /** A SKU that cannot be judged keeps its alerts: none created, none closed. */
  ghost predicate KeepsAlerts(before: map<nat, Alert>, after: map<nat, Alert>, sku: int, place: string) {
    && (forall pk :: pk in after && Concerns(after[pk], sku, place) ==>
      pk in before && Concerns(before[pk], sku, place))
    && (forall pk :: pk in before && Concerns(before[pk], sku, place) ==>
          && pk in after && Concerns(after[pk], sku, place)
          && after[pk].status == before[pk].status && after[pk].rule == before[pk].rule)
  }

  /** An alert an older program may have left under another key. */
  predicate Left(a: Alert, code: string, sku: int, spu: int, place: string) {
    Concerns(a, sku, place) && a.spu == spu && a.rule.code == code
  }

  predicate Later(alerts: map<nat, Alert>, p: nat, q: nat)
    requires p in alerts && q in alerts
  {
    alerts[p].triggeredAt > alerts[q].triggeredAt || (alerts[p].triggeredAt == alerts[q].triggeredAt && p >= q)
  }

  /** No alert seen has the real key; the latest left among them, if any. */
  ghost predicate LatestLeft(alerts: map<nat, Alert>, seen: set<nat>, found: Option<nat>, code: string, sku: int,
      spu: int, place: string)
    requires seen <= alerts.Keys
  {
    && (forall pk :: pk in seen ==> alerts[pk].key != RealKey(code, sku, place))
    && (found.None? ==> forall pk :: pk in seen ==> !Left(alerts[pk], code, sku, spu, place))
    && (found.Some? ==> found.value in seen && Left(alerts[found.value], code, sku, spu, place))
    && (found.Some? ==> forall pk :: pk in seen && Left(alerts[pk], code, sku, spu, place) ==>
      Later(alerts, found.value, pk))
  }

  lemma LatestStep(alerts: map<nat, Alert>, seen: set<nat>, found: Option<nat>, pk: nat, code: string, sku: int,
      spu: int, place: string)
    requires seen <= alerts.Keys && pk in alerts && alerts[pk].key != RealKey(code, sku, place)
    requires LatestLeft(alerts, seen, found, code, sku, spu, place)
    ensures LatestLeft(alerts, seen + {pk},
      if Left(alerts[pk], code, sku, spu, place) && (found.None? || !Later(alerts, found.value, pk)) then Some(pk)
        else found,
      code, sku, spu, place)
  {
  }

  /** Exactly one alert was written: it is open, and carries this rule. */
  ghost predicate OneSet(before: map<nat, Alert>, after: map<nat, Alert>, pk: nat, rule: Rule, sku: int,
      place: string) {
    && OpenFor(after, pk, sku, place) && after[pk].rule == rule
    && (pk in before ==> before[pk].rule.code == rule.code)
    && after == before[pk := after[pk]]
  }

  lemma RetriggerSets(alerts: map<nat, Alert>, nextPk: nat, pk: nat, rule: Rule, account: Account, sku: int,
      place: string, now: int)
    requires TableOk(alerts, nextPk) && account.real_
    requires pk in alerts && Concerns(alerts[pk], sku, place) && alerts[pk].rule.code == rule.code
    ensures var after := alerts[pk := Retriggered(alerts[pk], rule, account, now)];
      TableOk(after, nextPk) && OthersKept(alerts, after, sku, place) && OneSet(alerts, after, pk, rule, sku, place)
  {
    var after := alerts[pk := Retriggered(alerts[pk], rule, account, now)];
    assert forall p :: p in after ==> after[p].key == alerts[p].key;
  }

  lemma CreationSets(alerts: map<nat, Alert>, nextPk: nat, rule: Rule, account: Account, o: Observation,
      place: string, now: int)
    requires TableOk(alerts, nextPk) && account.real_
    requires forall pk :: pk in alerts ==> alerts[pk].key != RealKey(rule.code, o.sku, place)
    ensures var after := alerts[nextPk := NewAlert(rule, RealKey(rule.code, o.sku, place), o.sku, o.spu, place, account,
      now)];
      TableOk(after, nextPk + 1) && OthersKept(alerts, after, o.sku, place)
        && OneSet(alerts, after, nextPk, rule, o.sku, place)
  {
    assert nextPk !in alerts;
  }

  function MarkedFor(alerts: map<nat, Alert>, sku: int, place: string, issues: set<string>): map<nat, Alert> {
    map pk | pk in alerts :: if Concerns(alerts[pk], sku, place) then MarkedPending(alerts[pk], issues) else alerts[pk]
  }

  lemma MarkedKeepsTable(alerts: map<nat, Alert>, nextPk: nat, sku: int, place: string, issues: set<string>)
    requires TableOk(alerts, nextPk)
    ensures TableOk(MarkedFor(alerts, sku, place, issues), nextPk)
    ensures OthersKept(alerts, MarkedFor(alerts, sku, place, issues), sku, place)
  {
    var after := MarkedFor(alerts, sku, place, issues);
    assert forall pk :: pk in after ==> after[pk].key == alerts[pk].key && after[pk].rule == alerts[pk].rule;
  }

  lemma MarkedKeepsAlerts(alerts: map<nat, Alert>, sku: int, place: string, issues: set<string>)
    ensures KeepsAlerts(alerts, MarkedFor(alerts, sku, place, issues), sku, place)
  {
  }

  /** Alerts not matched are as before, and only matched ones are new. */
  ghost predicate OnlyMatched(before: map<nat, Alert>, after: map<nat, Alert>, matched: set<nat>) {
    && (forall pk :: pk in before && pk !in matched ==> pk in after && after[pk] == before[pk])
    && (forall pk :: pk in after ==> pk in before || pk in matched)
  }

  lemma OneMoreMatched(start: map<nat, Alert>, before: map<nat, Alert>, after: map<nat, Alert>, matched: set<nat>,
      pk: nat)
    requires OnlyMatched(start, before, matched) && pk in after && after == before[pk := after[pk]]
    ensures OnlyMatched(start, after, matched + {pk})
  {
  }

  /** Alerts that no real observation is about are as before, and none is new. */
  ghost predicate MocksKept(before: map<nat, Alert>, after: map<nat, Alert>) {
    && (forall pk :: pk in before && !before[pk].account.real_ ==> pk in after && after[pk] == before[pk])
    && (forall pk :: pk in after && !after[pk].account.real_ ==> pk in before && !before[pk].account.real_)
  }

  lemma MocksStayKept(start: map<nat, Alert>, before: map<nat, Alert>, after: map<nat, Alert>, sku: int, place: string)
    requires MocksKept(start, before) && OthersKept(before, after, sku, place)
    ensures MocksKept(start, after)
  {
  }

  method MarkEach(alerts: map<nat, Alert>, sku: int, place: string, issues: set<string>)
      returns (after: map<nat, Alert>)
    ensures after == MarkedFor(alerts, sku, place, issues)
  {
    after := map pk | pk in alerts ::
      if alerts[pk].account.real_ && alerts[pk].sku == sku && alerts[pk].place == place
      then MarkedPending(alerts[pk], issues) else alerts[pk];
  }

  class AlertTable {
    var alerts: map<nat, Alert>
    var nextPk: nat

    constructor ()
      ensures alerts == map[] && TableOk(alerts, nextPk)
    {
      alerts, nextPk := map[], 1;
    }

    /** The alert a match belongs to: the one with the real key, else the latest
        one left by an older version of the program. */
    method FindExisting(code: string, sku: int, spu: int, place: string) returns (found: Option<nat>)
      requires TableOk(alerts, nextPk)
      ensures found.Some? ==>
        found.value in alerts && Concerns(alerts[found.value], sku, place) && alerts[found.value].rule.code == code
      ensures found.Some? ==>
        alerts[found.value].key == RealKey(code, sku, place)
          || LatestLeft(alerts, alerts.Keys, found, code, sku, spu, place)
      ensures found.None? ==> LatestLeft(alerts, alerts.Keys, found, code, sku, spu, place)
    {
      found := None;
      var rest := alerts.Keys;
      while rest != {}
        invariant rest <= alerts.Keys
        invariant LatestLeft(alerts, alerts.Keys - rest, found, code, sku, spu, place)
        decreases |rest|
      {
        var pk :| pk in rest;
        var a := alerts[pk];
        if a.key == RealKey(code, sku, place) { return Some(pk); }
        LatestStep(alerts, alerts.Keys - rest, found, pk, code, sku, spu, place);
        assert alerts.Keys - (rest - {pk}) == alerts.Keys - rest + {pk};
        if a.account.real_ && a.sku == sku && a.place == place && a.spu == spu && a.rule.code == code
           && (found.None? || alerts[found.value].triggeredAt < a.triggeredAt
               || (alerts[found.value].triggeredAt == a.triggeredAt && found.value < pk)) {
          found := Some(pk);
        }
        rest := rest - {pk};
      }
      assert alerts.Keys - rest == alerts.Keys;
    }

    /** `evaluate_inventory_alert` for one rule in force and one observation. */
    method EvaluateRule(rule: Rule, o: Observation, place: string, account: Account, now: int)
        returns (pk: Option<nat>, created: bool)
      requires TableOk(alerts, nextPk) && account.real_
      modifies this
      ensures TableOk(alerts, nextPk) && OthersKept(old(alerts), alerts, o.sku, place)
      ensures pk.Some? <==> Triggered(rule, o.figures)
      ensures pk.None? ==> alerts == old(alerts)
      ensures pk.Some? ==>
        && OneSet(old(alerts), alerts, pk.value, rule, o.sku, place)
        && created == (pk.value !in old(alerts))
        && alerts[pk.value]
          == (if created then NewAlert(rule, RealKey(rule.code, o.sku, place), o.sku, o.spu, place, account, now)
                                else Retriggered(old(alerts)[pk.value], rule, account, now))
    {
      var hit := Matches(rule, o.figures);
      if !hit { return None, false; }
      var existing := FindExisting(rule.code, o.sku, o.spu, place);
      if existing.Some? {
        RetriggerSets(alerts, nextPk, existing.value, rule, account, o.sku, place, now);
        alerts := alerts[existing.value := Retriggered(alerts[existing.value], rule, account, now)];
        return existing, false;
      }
      var fresh_ := nextPk;
      CreationSets(alerts, nextPk, rule, account, o, place, now);
      alerts := alerts[fresh_ := Alert(rule, RealKey(rule.code, o.sku, place), o.sku, o.spu, place, Open, RiskState,
        account, None, "", None, None, "", now, 1)];
      nextPk := nextPk + 1;
      return Some(fresh_), true;
    }

    /** All the rules against one observation; the first bad input raises. */
    method MatchRules(table: set<Rule>, rules: seq<Rule>, o: Observation, place: string, account: Account, now: int,
        ghost hits: set<Rule>)
        returns (matched: set<nat>, error: Option<EvaluationError>)
      requires TableOk(alerts, nextPk) && account.real_ && DistinctCodes(rules)
      requires forall r :: r in rules ==> (r in hits <==> Triggered(r, o.figures))
      modifies this
      ensures TableOk(alerts, nextPk) && OthersKept(old(alerts), alerts, o.sku, place)
      ensures OnlyMatched(old(alerts), alerts, matched)
      ensures error.None? ==> Stands(alerts, matched, rules, |rules|, hits, o.sku, place)
      ensures error.None? <==> Accepted(table, rules, |rules|, o.figures, now)
    {
      matched := {};
      for i := 0 to |rules|
        invariant TableOk(alerts, nextPk) && OthersKept(old(alerts), alerts, o.sku, place)
        invariant OnlyMatched(old(alerts), alerts, matched)
        invariant Stands(alerts, matched, rules, i, hits, o.sku, place)
        invariant Accepted(table, rules, i, o.figures, now)
      {
        error := Validate(table, rules[i], o.figures, now);
        if error.Some? { return; }
        ghost var before := alerts;
        assert rules[i] in rules;
        var pk, _ := EvaluateRule(rules[i], o, place, account, now);
        KeptIsTransitive(old(alerts), before, alerts, o.sku, place);
        if pk.Some? { OneMoreMatched(old(alerts), before, alerts, matched, pk.value); }
        OneMoreStands(before, alerts, matched, rules, i, hits, o.sku, place, pk);
        if pk.Some? {
          matched := matched + {pk.value};
        }
      }
      error := None;
    }

    /** `_resolve` every open alert of the SKU that no rule matched. */
    method ResolveOthers(matched: set<nat>, sku: int, place: string, reason: string, now: int)
      modifies this`alerts
      ensures alerts == Resolving(old(alerts), old(alerts).Keys, matched, sku, place, now, reason)
    {
      var rest := alerts.Keys;
      ghost var done: set<nat> := {};
      ResolvingNone(alerts, matched, sku, place, now, reason);
      while rest != {}
        invariant done + rest == old(alerts).Keys && done !! rest
        invariant alerts == Resolving(old(alerts), done, matched, sku, place, now, reason)
        decreases |rest|
      {
        var pk :| pk in rest;
        ResolvingOne(old(alerts), done, pk, matched, sku, place, now, reason);
        var a := alerts[pk];
        if a.account.real_ && a.sku == sku && a.place == place && a.status != Closed && pk !in matched {
          alerts := alerts[pk := Resolved(a, now, reason)];
        }
        rest, done := rest - {pk}, done + {pk};
      }
      assert done == old(alerts).Keys;
    }

    /** `_mark_pending`: say why the SKU cannot be judged. */
    method MarkPendingFor(sku: int, place: string, issues: set<string>)
      requires TableOk(alerts, nextPk)
      modifies this`alerts
      ensures TableOk(alerts, nextPk) && OthersKept(old(alerts), alerts, sku, place)
      ensures KeepsAlerts(old(alerts), alerts, sku, place)
      ensures alerts == MarkedFor(old(alerts), sku, place, issues)
    {
      MarkedKeepsTable(alerts, nextPk, sku, place, issues);
      MarkedKeepsAlerts(alerts, sku, place, issues);
      alerts := MarkEach(alerts, sku, place, issues);
    }

    /** One observation's turn in `evaluate_country`. */
    method EvaluateObservation(table: set<Rule>, rules: seq<Rule>, o: Observation, place: string, account: Account,
        now: int)
        returns (error: Option<EvaluationError>)
      requires TableOk(alerts, nextPk) && account.real_ && DistinctCodes(rules)
      modifies this
      ensures TableOk(alerts, nextPk) && OthersKept(old(alerts), alerts, o.sku, place)
      ensures error.None? <==> Evaluable(table, rules, o, now)
      ensures error.None? ==> Settled(old(alerts), alerts, rules, o, place)
    {
      error := None;
      if !o.allowed { return; }
      if o.pending {
        MarkPendingFor(o.sku, place, o.blocking);
        return;
      }
      ghost var hits := set r | r in rules && Triggered(r, o.figures);
      var matched;
      matched, error := MatchRules(table, rules, o, place, account, now, hits);
      if error.Some? { return; }
      ghost var standing := alerts;
      ResolveOthers(matched, o.sku, place, "no longer matched", now);
      ResolvingKeepsTable(standing, nextPk, matched, o.sku, place, now, "no longer matched");
      KeptIsTransitive(old(alerts), standing, alerts, o.sku, place);
      ResolvedAgrees(standing, matched, rules, hits, o, place, now, "no longer matched");
    }

    /** `evaluate_country`: one transaction over the observations of a country. */
    method EvaluateCountry(table: set<Rule>, rules: seq<Rule>, observations: seq<Observation>, place: string,
        account: Account, now: int)
        returns (error: Option<EvaluationError>)
      requires TableOk(alerts, nextPk) && account.real_ && DistinctCodes(rules)
      requires forall i, j :: 0 <= i < j < |observations| ==> observations[i].sku != observations[j].sku
      modifies this
      ensures TableOk(alerts, nextPk)
      ensures error.None? <==> forall i :: 0 <= i < |observations| ==> Evaluable(table, rules, observations[i], now)
      ensures error.Some? ==> alerts == old(alerts)
      ensures error.None? ==>
        forall i :: 0 <= i < |observations| ==> Settled(old(alerts), alerts, rules, observations[i], place)
      ensures Untouched(old(alerts), alerts, SkusOf(observations), place) && MocksKept(old(alerts), alerts)
    {
      var saved, savedPk := alerts, nextPk;
      for n := 0 to |observations|
        invariant TableOk(alerts, nextPk)
        invariant forall i :: 0 <= i < n ==>
          Evaluable(table, rules, observations[i], now) && Settled(saved, alerts, rules, observations[i], place)
        invariant Untouched(saved, alerts, SkusOf(observations[..n]), place) && MocksKept(saved, alerts)
      {
        assert observations[..n + 1] == observations[..n] + [observations[n]];
        assert observations[n].sku !in SkusOf(observations[..n]);
        ghost var before := alerts;
        error := EvaluateObservation(table, rules, observations[n], place, account, now);
        if error.Some? {
          alerts, nextPk := saved, savedPk;
          EverythingSame(saved, SkusOf(observations), place);
          return;
        }
        MocksStayKept(saved, before, alerts, observations[n].sku, place);
        UntouchedStep(saved, before, alerts, SkusOf(observations[..n]), observations[n].sku, place);
        assert SkusOf(observations[..n + 1]) == SkusOf(observations[..n]) + {observations[n].sku};
        SettledFromSame(saved, before, alerts, rules, observations[n], place);
        forall i | 0 <= i < n ensures Settled(saved, alerts, rules, observations[i], place) {
          KeptLeavesOthers(before, alerts, observations[n].sku, place, observations[i].sku, place);
          SettledStays(saved, before, alerts, rules, observations[i], place);
        }
      }
      error := None;
      assert observations[..|observations|] == observations;
    }
  }

  /** Every rule accepts this observation's figures, or it has none to check. */
  predicate Evaluable(table: set<Rule>, rules: seq<Rule>, o: Observation, now: int) {
    o.allowed && !o.pending ==> Accepted(table, rules, |rules|, o.figures, now)
  }

  /** The first `n` rules accept the figures. */
  predicate Accepted(table: set<Rule>, rules: seq<Rule>, n: nat, f: Figures, now: int)
    requires n <= |rules|
  {
    forall i :: 0 <= i < n ==> CheckInputs(table, rules[i], f, now).None?
  }

  /** What an evaluation leaves of one observation's alerts. */
  ghost predicate Settled(before: map<nat, Alert>, after: map<nat, Alert>, rules: seq<Rule>, o: Observation,
      place: string) {
    if !o.allowed then SameFor(before, after, o.sku, place)
    else if o.pending then KeepsAlerts(before, after, o.sku, place)
    else Agrees(after, rules, o, place)
  }

  /** Not one alert of this SKU at this place differs. */
  ghost predicate SameFor(before: map<nat, Alert>, after: map<nat, Alert>, sku: int, place: string) {
    && (forall pk :: pk in before && Concerns(before[pk], sku, place) ==> pk in after && after[pk] == before[pk])
    && (forall pk :: pk in after && Concerns(after[pk], sku, place) ==> pk in before && before[pk] == after[pk])
  }

  function SkusOf(observations: seq<Observation>): set<int> {
    set o | o in observations :: o.sku
  }

  ghost predicate Untouched(before: map<nat, Alert>, after: map<nat, Alert>, skus: set<int>, place: string) {
    forall sku, elsewhere :: elsewhere != place || sku !in skus ==> SameFor(before, after, sku, elsewhere)
  }

  lemma EverythingSame(alerts: map<nat, Alert>, skus: set<int>, place: string)
    ensures Untouched(alerts, alerts, skus, place)
  {
  }

  lemma KeptLeavesOthers(before: map<nat, Alert>, after: map<nat, Alert>, sku: int, place: string, other: int,
      elsewhere: string)
    requires OthersKept(before, after, sku, place) && (other != sku || elsewhere != place)
    ensures SameFor(before, after, other, elsewhere)
  {
  }

  lemma UntouchedStep(start: map<nat, Alert>, before: map<nat, Alert>, after: map<nat, Alert>, skus: set<int>,
      sku: int, place: string)
    requires Untouched(start, before, skus, place) && OthersKept(before, after, sku, place)
    ensures Untouched(start, after, skus + {sku}, place)
  {
    forall other, elsewhere | elsewhere != place || other !in skus + {sku}
      ensures SameFor(start, after, other, elsewhere) {
      assert SameFor(start, before, other, elsewhere);
      KeptLeavesOthers(before, after, sku, place, other, elsewhere);
    }
  }

  lemma SettledFromSame(start: map<nat, Alert>, before: map<nat, Alert>, after: map<nat, Alert>, rules: seq<Rule>,
      o: Observation, place: string)
    requires SameFor(start, before, o.sku, place) && Settled(before, after, rules, o, place)
    ensures Settled(start, after, rules, o, place)
  {
  }

  lemma SettledStays(start: map<nat, Alert>, before: map<nat, Alert>, after: map<nat, Alert>, rules: seq<Rule>,
      o: Observation, place: string)
    requires SameFor(before, after, o.sku, place) && Settled(start, before, rules, o, place)
    ensures Settled(start, after, rules, o, place)
  {
    if o.allowed && !o.pending {
      assert forall pk :: OpenFor(after, pk, o.sku, place) <==> OpenFor(before, pk, o.sku, place);
      forall r | r in rules && Triggered(r, o.figures)
        ensures exists pk :: OpenFor(after, pk, o.sku, place) && after[pk].rule == r
      {
        var pk :| OpenFor(before, pk, o.sku, place) && before[pk].rule == r;
        assert OpenFor(after, pk, o.sku, place) && after[pk].rule == r;
      }
    }
  }

  /** The table once the alerts in `done` have had their turn. */
  function Resolving(before: map<nat, Alert>, done: set<nat>, matched: set<nat>, sku: int, place: string, now: int,
      reason: string): map<nat, Alert> {
    map pk | pk in before ::
      if pk in done && pk !in matched && OpenFor(before, pk, sku, place) then Resolved(before[pk], now, reason)
        else before[pk]
  }

  lemma ResolvingNone(before: map<nat, Alert>, matched: set<nat>, sku: int, place: string, now: int, reason: string)
    ensures Resolving(before, {}, matched, sku, place, now, reason) == before
  {
  }

  lemma ResolvingOne(before: map<nat, Alert>, done: set<nat>, pk: nat, matched: set<nat>, sku: int, place: string,
      now: int, reason: string)
    requires pk in before && pk !in done
    ensures var sofar := Resolving(before, done, matched, sku, place, now, reason);
      && pk in sofar && sofar[pk] == before[pk]
      && Resolving(before, done + {pk}, matched, sku, place, now, reason)
         == if pk !in matched && OpenFor(before, pk, sku, place) then sofar[pk := Resolved(before[pk], now, reason)]
           else sofar
  {
  }

  lemma ResolvingKeepsTable(before: map<nat, Alert>, nextPk: nat, matched: set<nat>, sku: int, place: string,
      now: int, reason: string)
    requires TableOk(before, nextPk)
    ensures var after := Resolving(before, before.Keys, matched, sku, place, now, reason);
      TableOk(after, nextPk) && OthersKept(before, after, sku, place)
  {
    var after := Resolving(before, before.Keys, matched, sku, place, now, reason);
    assert forall pk :: pk in after ==> after[pk].key == before[pk].key;
  }

  lemma KeptIsTransitive(a: map<nat, Alert>, b: map<nat, Alert>, c: map<nat, Alert>, sku: int, place: string)
    requires OthersKept(a, b, sku, place) && OthersKept(b, c, sku, place)
    ensures OthersKept(a, c, sku, place)
  {
  }

  lemma OneMoreStands(before: map<nat, Alert>, after: map<nat, Alert>, matched: set<nat>, rules: seq<Rule>, i: nat,
                      hits: set<Rule>, sku: int, place: string, pk: Option<nat>)
    requires i < |rules| && DistinctCodes(rules) && Stands(before, matched, rules, i, hits, sku, place)
    requires pk.Some? <==> rules[i] in hits
    requires pk.None? ==> after == before
    requires pk.Some? ==> OneSet(before, after, pk.value, rules[i], sku, place)
    ensures Stands(after, matched + (if pk.Some? then {pk.value} else {}), rules, i + 1, hits, sku, place)
  {
    assert rules[..i + 1] == rules[..i] + [rules[i]];
    if pk.Some? {
      forall p | p in matched ensures p != pk.value && after[p] == before[p] && after[p].rule.code != rules[i].code {
        var j :| 0 <= j < i && rules[j] == before[p].rule;
        assert rules[j].code != rules[i].code;
      }
      var more := matched + {pk.value};
      forall r | r in rules[..i + 1] && r in hits ensures exists p :: p in more && after[p].rule == r {
        if r in rules[..i] {
          var p :| p in matched && before[p].rule == r;
          assert p in more && after[p].rule == r;
        } else {
          assert pk.value in more && after[pk.value].rule == r;
        }
      }
    } else {
      assert matched + {} == matched;
    }
  }

  lemma ResolvedAgrees(standing: map<nat, Alert>, matched: set<nat>, rules: seq<Rule>,
                       hits: set<Rule>, o: Observation, place: string, now: int, reason: string)
    requires Stands(standing, matched, rules, |rules|, hits, o.sku, place)
    requires hits == set r | r in rules && Triggered(r, o.figures)
    ensures Agrees(Resolving(standing, standing.Keys, matched, o.sku, place, now, reason), rules, o, place)
  {
    StandingAgrees(standing, Resolving(standing, standing.Keys, matched, o.sku, place, now, reason), matched, rules,
      hits, o, place);
  }

  lemma StandingAgrees(standing: map<nat, Alert>, after: map<nat, Alert>, matched: set<nat>, rules: seq<Rule>,
                       hits: set<Rule>, o: Observation, place: string)
    requires Stands(standing, matched, rules, |rules|, hits, o.sku, place)
    requires hits == set r | r in rules && Triggered(r, o.figures)
    requires forall pk :: pk in standing ==> pk in after
    requires forall pk :: pk in matched && pk in after ==> pk in standing && after[pk] == standing[pk]
    requires forall pk :: OpenFor(after, pk, o.sku, place) ==> pk in matched
    ensures Agrees(after, rules, o, place)
  {
    assert rules[..|rules|] == rules;
    assert forall pk :: OpenFor(after, pk, o.sku, place) <==> pk in matched;
    forall r | r in rules && Triggered(r, o.figures)
      ensures exists pk :: OpenFor(after, pk, o.sku, place) && after[pk].rule == r
    {
      assert r in hits;
      var pk :| pk in matched && standing[pk].rule == r;
      assert OpenFor(after, pk, o.sku, place) && after[pk].rule == r;
    }
  }
}
