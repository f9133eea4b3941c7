/**
 Which store history proves that a day without sales was really a day without
 sales: the sorted spans of successful collection segments, swept once.
 */
module SalesCoverage {
  import opened Wrappers

  /** The stored scope of a successful segment; a field that is not a number is `None`. */
  datatype Scope = Scope(createdBasis: bool, timeFrom: Option<int>, timeTo: Option<int>)

  /** Half-open: `lower` is covered, `upper` is not. */
  datatype Span = Span(lower: int, upper: int)

  predicate Usable(s: Scope) {
    s.createdBasis && s.timeFrom.Some? && s.timeTo.Some? && s.timeFrom.value < s.timeTo.value + 1
  }

  function SpanOf(s: Scope): Span
    requires Usable(s)
  {
    Span(s.timeFrom.value, s.timeTo.value + 1)
  }

  predicate AtMost(a: Span, b: Span) {
    a.lower < b.lower || (a.lower == b.lower && a.upper <= b.upper)
  }

  predicate Sorted(spans: seq<Span>) {
    forall i, j :: 0 <= i < j < |spans| ==> AtMost(spans[i], spans[j])
  }

  predicate Covers(spans: seq<Span>, t: int) {
    exists i :: 0 <= i < |spans| && spans[i].lower <= t < spans[i].upper
  }

  /** A second is proved by a segment by creation time whose inclusive range
      holds it. */
  predicate Collected(scopes: seq<Scope>, t: int) {
    exists i :: 0 <= i < |scopes| && Proves(scopes[i], t)
  }

  predicate Proves(s: Scope, t: int) {
    s.createdBasis && s.timeFrom.Some? && s.timeTo.Some? && s.timeFrom.value <= t <= s.timeTo.value
  }

  method Insert(spans: seq<Span>, s: Span) returns (r: seq<Span>)
    requires Sorted(spans)
    ensures Sorted(r) && multiset(r) == multiset(spans) + multiset{s}
  {
    var i := 0;
    while i < |spans| && AtMost(spans[i], s)
      invariant 0 <= i <= |spans|
      invariant forall k :: 0 <= k < i ==> AtMost(spans[k], s)
    {
      i := i + 1;
    }
    r := spans[..i] + [s] + spans[i..];
    assert spans == spans[..i] + spans[i..];
    InsertedIsSorted(spans, i, s);
  }

  /** A span put after those at most as great, before the others, is in place. */
  lemma InsertedIsSorted(spans: seq<Span>, at: nat, s: Span)
    requires Sorted(spans) && at <= |spans|
    requires (forall k :: 0 <= k < at ==> AtMost(spans[k], s)) && (at < |spans| ==> AtMost(s, spans[at]))
    ensures Sorted(spans[..at] + [s] + spans[at..])
  {
    var r := spans[..at] + [s] + spans[at..];
    forall i, j | 0 <= i < j < |r| ensures AtMost(r[i], r[j]) {
      if i > at { assert AtMost(spans[i - 1], spans[j - 1]); }
      else if i == at { assert r[j] == spans[j - 1] && (j - 1 == at || AtMost(spans[at], spans[j - 1])); }
      else if j < at { assert AtMost(spans[i], spans[j]); }
      else if j > at { assert r[j] == spans[j - 1] && AtMost(spans[i], spans[j - 1]); }
    }
  }

  /** `_history_spans`: unusable scopes are skipped, the rest sorted. */
  method HistorySpans(scopes: seq<Scope>) returns (spans: seq<Span>)
    ensures Sorted(spans)
    ensures forall s :: s in spans <==> exists i :: 0 <= i < |scopes| && Usable(scopes[i]) && SpanOf(scopes[i]) == s
  {
    spans := [];
    for n := 0 to |scopes|
      invariant Sorted(spans)
      invariant forall s ::
        s in multiset(spans) <==> exists i :: 0 <= i < n && Usable(scopes[i]) && SpanOf(scopes[i]) == s
    {
      var s := scopes[n];
      if s.createdBasis && s.timeFrom.Some? && s.timeTo.Some? {
        var lower, upper := s.timeFrom.value, s.timeTo.value + 1;
        if lower < upper { spans := Insert(spans, Span(lower, upper)); }
      }
    }
    assert forall s :: s in spans <==> s in multiset(spans);
  }

  /** `_complete_history`: one sweep decides whether every second is covered. */
  method CompleteHistory(spans: seq<Span>, start: int, stop: int) returns (complete: bool)
    requires Sorted(spans) && forall s :: s in spans ==> s.lower < s.upper
    ensures start < stop ==> (complete <==> forall t :: start <= t < stop ==> Covers(spans, t))
    ensures start >= stop ==> (complete <==> Covers(spans, start))
  {
    var cursor := start;
    for i := 0 to |spans|
      invariant start <= cursor && (cursor == start || cursor < stop)
      invariant forall t :: start <= t < cursor ==> Covers(spans, t)
      invariant forall k :: 0 <= k < i ==> spans[k].upper <= cursor
    {
      if spans[i].upper > cursor {
        if spans[i].lower > cursor {
          assert !Covers(spans, cursor);
          return false;
        }
        ghost var before := cursor;
        cursor := Max(cursor, spans[i].upper);
        forall t | before <= t < cursor ensures Covers(spans, t) {
          assert spans[i].lower <= t < spans[i].upper;
        }
        if cursor >= stop {
          assert Covers(spans, before);
          return true;
        }
      }
    }
    assert !Covers(spans, cursor);
    complete := false;
  }

  lemma SpansAreCollected(scopes: seq<Scope>, spans: seq<Span>, t: int)
    requires forall s :: s in spans <==> exists i :: 0 <= i < |scopes| && Usable(scopes[i]) && SpanOf(scopes[i]) == s
    ensures Covers(spans, t) <==> Collected(scopes, t)
  {
    if Covers(spans, t) {
      var i :| 0 <= i < |spans| && spans[i].lower <= t < spans[i].upper;
      assert spans[i] in spans;
    }
    if Collected(scopes, t) {
      var i :| 0 <= i < |scopes| && Proves(scopes[i], t);
      assert SpanOf(scopes[i]) in spans;
      var k :| 0 <= k < |spans| && spans[k] == SpanOf(scopes[i]);
    }
  }

  /** Sound and complete over any segments, overlapping, nested or adjacent. */
  method ProvesCoverage(scopes: seq<Scope>, start: int, stop: int) returns (complete: bool)
    ensures start < stop ==> (complete <==> forall t :: start <= t < stop ==> Collected(scopes, t))
  {
    var spans := HistorySpans(scopes);
    forall s | s in spans ensures s.lower < s.upper {
      var i :| 0 <= i < |scopes| && Usable(scopes[i]) && SpanOf(scopes[i]) == s;
    }
    complete := CompleteHistory(spans, start, stop);
    forall t ensures Covers(spans, t) <==> Collected(scopes, t) {
      SpansAreCollected(scopes, spans, t);
    }
  }
}
