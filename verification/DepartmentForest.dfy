/**
 The department hierarchy: a forest out of any parent map, cycles included,
 and the guard that keeps an update from closing a cycle.
 */
module DepartmentForest {
  import opened Wrappers

  /** The parent each known department names, known or not. */
  type Parents = map<int, Option<int>>

  // ---------------------------------------------------------------- chains of parents

  /** Where n steps up lead; None once the chain has ended. */
  function Up(t: Parents, id: int, n: nat): Option<int>
    decreases n
  {
    if n == 0 then Some(id)
    else if id !in t || t[id].None? then None
    else Up(t, t[id].value, n - 1)
  }

  ghost predicate Reaches(t: Parents, id: int, other: int) {
    exists n: nat :: Up(t, id, n) == Some(other)
  }

  ghost predicate OnCycle(t: Parents, id: int) {
    exists n: nat :: n > 0 && Up(t, id, n) == Some(id)
  }

  ghost predicate Acyclic(t: Parents) {
    forall id :: !OnCycle(t, id)
  }

  /** The chain leaves the known departments, or ends. */
  ghost predicate Escapes(t: Parents, id: int) {
    exists n: nat :: Left(t, id, n)
  }

  predicate Left(t: Parents, id: int, n: nat) {
    Up(t, id, n).None? || Up(t, id, n).value !in t
  }

  lemma {:induction false} UpAdds(t: Parents, id: int, m: nat, n: nat)
    ensures Up(t, id, m + n) == if Up(t, id, m).None? then None else Up(t, Up(t, id, m).value, n)
    decreases m
  {
    if m > 0 && id in t && t[id].Some? { UpAdds(t, t[id].value, m - 1, n); }
  }

  predicate Closed(t: Parents, ids: set<int>) {
    forall id :: id in ids ==> id in t && t[id].Some? && t[id].value in ids
  }

  lemma {:induction false} ClosedKeeps(t: Parents, ids: set<int>, id: int, n: nat)
    requires Closed(t, ids) && id in ids
    ensures Up(t, id, n).Some? && Up(t, id, n).value in ids && Up(t, id, n).value in t
    decreases n
  {
    if n > 0 { ClosedKeeps(t, ids, t[id].value, n - 1); }
  }

  lemma ClosedNeverEscapes(t: Parents, ids: set<int>, id: int)
    requires Closed(t, ids) && id in ids
    ensures !Escapes(t, id)
  {
    forall n: nat ensures !Left(t, id, n) { ClosedKeeps(t, ids, id, n); }
  }

  lemma EscapesFromParent(t: Parents, id: int)
    requires id in t && t[id].Some?
    ensures Escapes(t, id) <==> Escapes(t, t[id].value)
  {
    var above := t[id].value;
    if Escapes(t, id) {
      var n: nat :| Left(t, id, n);
      assert n > 0 ==> Left(t, above, n - 1);
      assert n > 0;
    }
    if Escapes(t, above) {
      var n: nat :| Left(t, above, n);
      assert Left(t, id, n + 1);
    }
  }

  lemma ReachesFromParent(t: Parents, id: int, other: int)
    requires id in t && t[id].Some? && id != other
    ensures Reaches(t, id, other) <==> Reaches(t, t[id].value, other)
  {
    if Reaches(t, id, other) {
      var n: nat :| Up(t, id, n) == Some(other);
      assert Up(t, t[id].value, n - 1) == Some(other);
    }
    if Reaches(t, t[id].value, other) {
      var n: nat :| Up(t, t[id].value, n) == Some(other);
      assert Up(t, id, n + 1) == Some(other);
    }
  }

  /** A chain escapes exactly when it runs into no cycle. */
  lemma EscapesUnlessCyclic(t: Parents, id: int)
    ensures Escapes(t, id) <==> forall other :: Reaches(t, id, other) ==> !OnCycle(t, other)
  {
    if Escapes(t, id) {
      forall other | Reaches(t, id, other) ensures !OnCycle(t, other) { EscapedIsNoCycle(t, id, other); }
    } else {
      assert Up(t, id, 0) == Some(id);
      var other := FindCycle(t, id, id, {}, 0);
    }
  }

  lemma EscapedIsNoCycle(t: Parents, id: int, other: int)
    requires Escapes(t, id) && Reaches(t, id, other)
    ensures !OnCycle(t, other)
  {
    var n: nat :| Left(t, id, n);
    var m: nat :| Up(t, id, m) == Some(other);
    forall k: nat | k > 0 ensures Up(t, other, k) != Some(other) {
      if Up(t, other, k) == Some(other) {
        RoundAndRound(t, other, k, n + 1);
        UpAdds(t, id, m, k * (n + 1));
        assert k * (n + 1) > n;
        PastLeftIsNone(t, id, n, m + k * (n + 1) - n);
        assert false;
      }
    }
  }

  lemma {:induction false} RoundAndRound(t: Parents, id: int, k: nat, times: nat)
    requires Up(t, id, k) == Some(id)
    ensures Up(t, id, k * times) == Some(id)
  {
    if times > 0 {
      RoundAndRound(t, id, k, times - 1);
      UpAdds(t, id, k, k * (times - 1));
      assert k * times == k + k * (times - 1);
    }
  }

  lemma PastLeftIsNone(t: Parents, id: int, n: nat, more: nat)
    requires Left(t, id, n) && more > 0
    ensures Up(t, id, n + more).None?
  {
    UpAdds(t, id, n, more);
  }

  /** Walking a chain that never escapes comes back somewhere. */
  lemma {:induction false} FindCycle(t: Parents, id: int, current: int, seen: set<int>, steps: nat) returns (other: int)
    requires !Escapes(t, id) && Up(t, id, steps) == Some(current)
    requires seen <= t.Keys && forall x :: x in seen ==> Reaches(t, id, x) && Circles(t, x, current)
    ensures Reaches(t, id, other) && OnCycle(t, other)
    decreases |t.Keys - seen|
  {
    assert !Left(t, id, steps) && !Left(t, id, steps + 1);
    if current in seen { return current; }
    UpAdds(t, id, steps, 1);
    var next := t[current].value;
    forall x | x in seen + {current} ensures Circles(t, x, next) {
      if x == current { assert Up(t, current, 1) == Some(next); }
      else {
        var n: nat :| n > 0 && Up(t, x, n) == Some(current);
        UpAdds(t, x, n, 1);
        assert Up(t, x, n + 1) == Some(next);
      }
    }
    assert t.Keys - (seen + {current}) < t.Keys - seen;
    SmallerSet(t.Keys - (seen + {current}), t.Keys - seen);
    other := FindCycle(t, id, next, seen + {current}, steps + 1);
  }

  /** x comes before y on a chain. */
  ghost predicate Circles(t: Parents, x: int, y: int) {
    exists n: nat :: n > 0 && Up(t, x, n) == Some(y)
  }

  lemma {:induction false} SmallerSet(a: set<int>, b: set<int>)
    requires a < b
    ensures |a| < |b|
  {
    var rest := b - a;
    assert b == a + rest && a !! rest;
    assert rest != {};
  }

  // ---------------------------------------------------------------- the safe parents

  /** A known parent is kept where the chain escapes; else the department
      becomes a root. */
  ghost function SafeParent(t: Parents, id: int): Option<int>
    requires id in t
  {
    if t[id].Some? && t[id].value in t && Escapes(t, id) then t[id] else None
  }

  ghost function SafeParents(t: Parents): (safe: Parents)
    ensures safe.Keys == t.Keys && forall id :: id in t ==> safe[id] == SafeParent(t, id)
  {
    map id | id in t :: SafeParent(t, id)
  }

  predicate Known(t: Parents, id: Option<int>) {
    id.Some? && id.value in t
  }

  method FindSafeParent(t: Parents, id: int) returns (parent: Option<int>)
    requires id in t
    ensures parent == SafeParent(t, id)
  {
    parent := t[id];
    if !Known(t, parent) { return None; }
    EscapesFromParent(t, id);
    var seen, current := {id}, parent;
    while Known(t, current)
      invariant seen <= t.Keys && id in seen
      invariant forall x :: x in seen ==> if t[x].Some? then t[x].value in seen || t[x] == current else current.None?
      invariant if current.None? then Escapes(t, id) else Escapes(t, id) <==> Escapes(t, current.value)
      decreases |t.Keys - seen|
    {
      if current.value in seen {
        ClosedNeverEscapes(t, seen, id);
        return None;
      }
      SmallerSet(t.Keys - (seen + {current.value}), t.Keys - seen);
      ghost var was := current.value;
      if t[was].Some? { EscapesFromParent(t, was); } else { assert Left(t, was, 1); }
      seen := seen + {current.value};
      current := t[current.value];
    }
    if current.Some? { assert Left(t, current.value, 0); }
  }

  // ---------------------------------------------------------------- the forest

  /** Parents known, and no chain without an end. */
  ghost predicate Grounded(safe: Parents) {
    forall id :: id in safe ==> Escapes(safe, id) && (safe[id].Some? ==> safe[id].value in safe)
  }

  predicate KeepsSome(t: Parents, safe: Parents) {
    safe.Keys == t.Keys && forall id :: id in t ==> safe[id].None? || safe[id] == t[id]
  }

  lemma {:induction false} SafeEscapes(t: Parents, safe: Parents, id: int, n: nat)
    requires KeepsSome(t, safe) && Left(t, id, n)
    ensures Escapes(safe, id)
    decreases n
  {
    if id !in t {
      assert Left(safe, id, 0);
    } else if safe[id].None? {
      assert Left(safe, id, 1);
    } else {
      SafeEscapes(t, safe, t[id].value, n - 1);
      EscapesFromParent(safe, id);
    }
  }

  /** Whatever the parent map, what is kept of it is a forest, and in it every
      department whose chain escapes keeps its known parent. */
  lemma SafeIsGrounded(t: Parents)
    ensures Grounded(SafeParents(t))
    ensures forall id :: id in t && Escapes(t, id) && t[id].Some? && t[id].value in t ==> SafeParents(t)[id] == t[id]
  {
    var safe := SafeParents(t);
    forall id | id in t ensures Escapes(safe, id) {
      if Escapes(t, id) {
        var n: nat :| Left(t, id, n);
        SafeEscapes(t, safe, id, n);
      } else {
        assert Left(safe, id, 1);
      }
    }
  }

  /** An acyclic hierarchy loses no parent but the unknown ones. */
  lemma AcyclicLosesNothing(t: Parents)
    requires Acyclic(t)
    ensures forall id :: id in t && t[id].Some? && t[id].value in t ==> SafeParents(t)[id] == t[id]
  {
    forall id | id in t ensures Escapes(t, id) { EscapesUnlessCyclic(t, id); }
  }

  /** The departments at or below one. */
  ghost function Below(safe: Parents, id: int): set<int> {
    set x | x in safe && Reaches(safe, x, id)
  }

  /** Those below a department, or all of them. */
  ghost function Under(safe: Parents, parent: Option<int>): set<int> {
    if parent.None? then safe.Keys else Below(safe, parent.value) - {parent.value}
  }

  lemma ReachesItself(safe: Parents, id: int)
    ensures Reaches(safe, id, id)
  {
    assert Up(safe, id, 0) == Some(id);
  }

  lemma ReachesOn(safe: Parents, x: int, y: int, z: int)
    requires Reaches(safe, x, y) && Reaches(safe, y, z)
    ensures Reaches(safe, x, z)
  {
    var m: nat :| Up(safe, x, m) == Some(y);
    var n: nat :| Up(safe, y, n) == Some(z);
    UpAdds(safe, x, m, n);
    assert Up(safe, x, m + n) == Some(z);
  }

  lemma NoWayBack(safe: Parents, child: int)
    requires Grounded(safe) && child in safe && safe[child].Some?
    ensures !Reaches(safe, safe[child].value, child)
  {
    if Reaches(safe, safe[child].value, child) {
      var n: nat :| Up(safe, safe[child].value, n) == Some(child);
      assert Up(safe, child, n + 1) == Some(child);
      assert OnCycle(safe, child);
      ReachesItself(safe, child);
      EscapesUnlessCyclic(safe, child);
      assert false;
    }
  }

  lemma ChildIsUnder(safe: Parents, child: int)
    requires Grounded(safe) && child in safe
    ensures child in Below(safe, child) && Below(safe, child) <= Under(safe, safe[child])
    ensures |Under(safe, Some(child))| < |Below(safe, child)| <= |Under(safe, safe[child])|
  {
    ReachesItself(safe, child);
    if safe[child].Some? {
      var parent := safe[child].value;
      NoWayBack(safe, child);
      assert Up(safe, child, 1) == Some(parent);
      forall x | x in Below(safe, child) ensures x in Under(safe, Some(parent)) { ReachesOn(safe, x, child, parent); }
    }
    SmallerSet(Under(safe, Some(child)), Below(safe, child));
    if Below(safe, child) != Under(safe, safe[child]) { SmallerSet(Below(safe, child), Under(safe, safe[child])); }
  }

  /** Who lies under a parent lies at or below one of its children. */
  lemma ByWayOfChild(safe: Parents, parent: Option<int>, x: int) returns (child: int)
    requires Grounded(safe) && x in Under(safe, parent)
    ensures child in safe && safe[child] == parent && x in Below(safe, child)
  {
    if parent.None? {
      child := RootOf(safe, x);
    } else {
      var n: nat :| Up(safe, x, n) == parent;
      child := StepBefore(safe, x, parent.value, n);
    }
  }

  lemma StepBefore(safe: Parents, x: int, parent: int, n: nat) returns (child: int)
    requires Up(safe, x, n) == Some(parent) && x != parent
    ensures child in safe && safe[child] == Some(parent) && Reaches(safe, x, child)
  {
    UpAdds(safe, x, n - 1, 1);
    child := Up(safe, x, n - 1).value;
  }

  lemma RootOf(safe: Parents, x: int) returns (root: int)
    requires Grounded(safe) && x in safe
    ensures root in safe && safe[root].None? && Reaches(safe, x, root)
  {
    var n: nat :| Left(safe, x, n);
    root := ClimbToRoot(safe, x, n);
  }

  lemma {:induction false} ClimbToRoot(safe: Parents, x: int, n: nat) returns (root: int)
    requires Grounded(safe) && x in safe && Left(safe, x, n)
    ensures root in safe && safe[root].None? && Reaches(safe, x, root)
    decreases n
  {
    ReachesItself(safe, x);
    if safe[x].None? { return x; }
    root := ClimbToRoot(safe, safe[x].value, n - 1);
    assert Up(safe, x, 1) == safe[x];
    ReachesOn(safe, x, safe[x].value, root);
  }

  /** Below one sibling is not below another. */
  lemma SiblingsShareNothing(safe: Parents, a: int, b: int, x: int)
    requires Grounded(safe) && a in safe && b in safe && safe[a] == safe[b]
    requires Reaches(safe, x, a) && Reaches(safe, x, b)
    ensures a == b
  {
    var m: nat :| Up(safe, x, m) == Some(a);
    var n: nat :| Up(safe, x, n) == Some(b);
    if m <= n { OneWayOnly(safe, a, b, x, m, n); } else { OneWayOnly(safe, b, a, x, n, m); }
  }

  lemma OneWayOnly(safe: Parents, a: int, b: int, x: int, m: nat, n: nat)
    requires Grounded(safe) && a in safe && b in safe && safe[a] == safe[b]
    requires m <= n && Up(safe, x, m) == Some(a) && Up(safe, x, n) == Some(b)
    ensures a == b
  {
    UpAdds(safe, x, m, n - m);
    if m < n {
      assert Up(safe, safe[a].value, n - m - 1) == Some(b);
      NoWayBack(safe, b);
    }
  }

  /** The rows naming a parent, in the order given: the children of Some, the
      roots for None. */
  function Named(safe: Parents, rows: seq<int>, parent: Option<int>): (kids: seq<int>)
    ensures forall id :: id in kids <==> id in rows && id in safe && safe[id] == parent
  {
    if rows == [] then [] else
      var last := |rows| - 1;
      assert rows == rows[..last] + [rows[last]];
      Named(safe, rows[..last], parent) + IfNames(safe, rows[last], parent)
  }

  function IfNames(safe: Parents, id: int, parent: Option<int>): seq<int> {
    if id in safe && safe[id] == parent then [id] else []
  }

  ghost predicate Distinct(ids: seq<int>) {
    forall i, j :: 0 <= i < j < |ids| ==> ids[i] != ids[j]
  }

  lemma {:induction false} NamedOnce(safe: Parents, rows: seq<int>, parent: Option<int>)
    requires Distinct(rows) && forall id :: id in rows ==> id in safe
    ensures Distinct(Named(safe, rows, parent))
  {
    if rows != [] {
      var last := |rows| - 1;
      NamedOnce(safe, rows[..last], parent);
      assert rows[last] !in rows[..last];
    }
  }

  /** How often x stands in the trees of some siblings, children and all. */
  ghost function Count(safe: Parents, rows: seq<int>, kids: seq<int>, parent: Option<int>, x: int): nat
    requires Grounded(safe) && (forall id :: id in rows ==> id in safe)
    requires forall k :: k in kids ==> k in safe && safe[k] == parent
    decreases |Under(safe, parent)|, |kids|
  {
    if kids == [] then 0 else
      var last := |kids| - 1;
      ChildIsUnder(safe, kids[last]);
      Count(safe, rows, kids[..last], parent, x)
        + (if kids[last] == x then 1 else 0)
        + Count(safe, rows, Named(safe, rows, Some(kids[last])), Some(kids[last]), x)
  }

  ghost predicate Among(safe: Parents, rows: seq<int>) {
    Distinct(rows) && forall id :: id in rows <==> id in safe
  }

  /** All departments in the trees of some siblings. */
  ghost function Spread(safe: Parents, kids: seq<int>): set<int> {
    set x | x in safe && InOneOf(safe, kids, x)
  }

  ghost predicate InOneOf(safe: Parents, kids: seq<int>, x: int) {
    exists k :: k in kids && x in Below(safe, k)
  }

  lemma SpreadOne(safe: Parents, kids: seq<int>, i: nat)
    requires i < |kids|
    ensures Spread(safe, kids[..i + 1]) == Spread(safe, kids[..i]) + Below(safe, kids[i])
  {
    assert kids[..i + 1] == kids[..i] + [kids[i]];
    forall x ensures InOneOf(safe, kids[..i + 1], x) <==> InOneOf(safe, kids[..i], x) || x in Below(safe, kids[i]) {
      if x in Below(safe, kids[i]) { assert kids[i] in kids[..i + 1]; }
    }
  }

  /** A tree is its root and its children's trees, and all of them lie apart. */
  lemma BelowIsSpread(safe: Parents, rows: seq<int>, k: int)
    requires Grounded(safe) && Among(safe, rows) && k in safe
    ensures Below(safe, k) == {k} + Spread(safe, Named(safe, rows, Some(k)))
    ensures k !in Spread(safe, Named(safe, rows, Some(k)))
  {
    ReachesItself(safe, k);
    var kids := Named(safe, rows, Some(k));
    forall x | x in Below(safe, k) && x != k ensures InOneOf(safe, kids, x) {
      var c := ByWayOfChild(safe, Some(k), x);
      assert c in kids;
    }
    forall x | x in safe && InOneOf(safe, kids, x) ensures x in Under(safe, Some(k)) {
      var c :| c in kids && x in Below(safe, c);
      ChildIsUnder(safe, c);
    }
  }

  lemma RootsSpreadAll(safe: Parents, rows: seq<int>)
    requires Grounded(safe) && Among(safe, rows)
    ensures Spread(safe, Named(safe, rows, None)) == safe.Keys
  {
    forall x | x in safe ensures InOneOf(safe, Named(safe, rows, None), x) {
      var root := ByWayOfChild(safe, None, x);
      assert root in Named(safe, rows, None);
    }
  }

  lemma SpreadApart(safe: Parents, kids: seq<int>, parent: Option<int>, last: nat)
    requires Grounded(safe) && Distinct(kids) && last < |kids|
    requires forall k :: k in kids ==> k in safe && safe[k] == parent
    ensures Below(safe, kids[last]) !! Spread(safe, kids[..last])
  {
    forall x | x in Below(safe, kids[last]) ensures !InOneOf(safe, kids[..last], x) {
      if InOneOf(safe, kids[..last], x) {
        var other :| other in kids[..last] && x in Below(safe, other);
        assert other in kids && kids[last] in kids;
        SiblingsShareNothing(safe, kids[last], other, x);
        assert false;
      }
    }
  }

  lemma {:induction false} CountIsOne(safe: Parents, rows: seq<int>, kids: seq<int>, parent: Option<int>, x: int)
    requires Grounded(safe) && Among(safe, rows) && Distinct(kids)
    requires forall k :: k in kids ==> k in safe && safe[k] == parent
    ensures Count(safe, rows, kids, parent, x) == if x in Spread(safe, kids) then 1 else 0
    decreases |Under(safe, parent)|, |kids|
  {
    if kids != [] {
      var last := |kids| - 1;
      var k := kids[last];
      assert k in kids && forall other :: other in kids[..last] ==> other in kids;
      CountIsOne(safe, rows, kids[..last], parent, x);
      TreeCountIsOne(safe, rows, k, x);
      SpreadLast(safe, kids, parent, x);
    }
  }

  /** A department stands in the last sibling's tree, in the others', or nowhere
      among them, and never in two. */
  lemma SpreadLast(safe: Parents, kids: seq<int>, parent: Option<int>, x: int)
    requires Grounded(safe) && Distinct(kids) && kids != []
    requires forall k :: k in kids ==> k in safe && safe[k] == parent
    ensures var last := |kids| - 1;
      && (x in Spread(safe, kids) <==> x in Spread(safe, kids[..last]) || x in Below(safe, kids[last]))
      && !(x in Spread(safe, kids[..last]) && x in Below(safe, kids[last]))
  {
    var last := |kids| - 1;
    SpreadOne(safe, kids, last);
    SpreadApart(safe, kids, parent, last);
    assert kids[..last + 1] == kids;
  }

  lemma {:induction false} TreeCountIsOne(safe: Parents, rows: seq<int>, k: int, x: int)
    requires Grounded(safe) && Among(safe, rows) && k in safe
    ensures (if k == x then 1 else 0) + Count(safe, rows, Named(safe, rows, Some(k)), Some(k), x)
      == if x in Below(safe, k) then 1 else 0
    decreases |Under(safe, safe[k])|, 0
  {
    ChildIsUnder(safe, k);
    NamedOnce(safe, rows, Some(k));
    CountIsOne(safe, rows, Named(safe, rows, Some(k)), Some(k), x);
    BelowIsSpread(safe, rows, k);
  }

  /** Every department stands in the forest exactly once. */
  lemma EachExactlyOnce(safe: Parents, rows: seq<int>, x: int)
    requires Grounded(safe) && Among(safe, rows) && x in safe
    ensures Count(safe, rows, Named(safe, rows, None), None, x) == 1
  {
    NamedOnce(safe, rows, None);
    CountIsOne(safe, rows, Named(safe, rows, None), None, x);
    RootsSpreadAll(safe, rows);
  }

  type Found = map<int, set<int>>

  ghost predicate Right(safe: Parents, found: Found) {
    forall id :: id in found ==> found[id] == Below(safe, id)
  }

  ghost predicate Attached(safe: Parents, rows: seq<int>, children: map<int, seq<int>>)
    requires Among(safe, rows)
  {
    children.Keys == safe.Keys && forall id :: id in safe ==> children[id] == Named(safe, rows, Some(id))
  }

  /** `_safe_department_tree`, siblings in the order of the rows. */
  method BuildForest(t: Parents, rows: seq<int>)
      returns (safe: Parents, roots: seq<int>, children: map<int, seq<int>>, found: Found)
    requires Among(t, rows)
    ensures safe == SafeParents(t) && Grounded(safe)
    ensures roots == Named(safe, rows, None) && Attached(safe, rows, children)
    ensures forall x :: x in t ==> Count(safe, rows, roots, None, x) == 1
    ensures found.Keys == t.Keys && Right(safe, found)
  {
    safe := FindSafeParents(t, rows);
    SafeIsGrounded(t);
    roots, children := Attach(safe, rows);
    forall x | x in t ensures Count(safe, rows, roots, None, x) == 1 { EachExactlyOnce(safe, rows, x); }
    found := CollectAll(safe, rows, roots, children);
  }

  method FindSafeParents(t: Parents, rows: seq<int>) returns (safe: Parents)
    requires Among(t, rows)
    ensures safe == SafeParents(t)
  {
    safe := map[];
    for i := 0 to |rows|
      invariant forall id :: id in safe <==> id in rows[..i]
      invariant forall id :: id in safe ==> id in t && safe[id] == SafeParent(t, id)
    {
      assert rows[i] in rows;
      var parent := FindSafeParent(t, rows[i]);
      safe := safe[rows[i] := parent];
    }
    assert rows[..|rows|] == rows;
    assert forall id :: id in safe <==> id in t;
  }

  method CollectAll(safe: Parents, rows: seq<int>, roots: seq<int>, children: map<int, seq<int>>) returns (found: Found)
    requires Grounded(safe) && Among(safe, rows) && roots == Named(safe, rows, None) && Attached(safe, rows, children)
    ensures found.Keys == safe.Keys && Right(safe, found)
  {
    found := map[];
    for i := 0 to |roots|
      invariant Right(safe, found)
      invariant found.Keys == Spread(safe, roots[..i])
    {
      assert roots[i] in roots;
      var below;
      below, found := Collect(safe, rows, children, roots[i], found);
      SpreadOne(safe, roots, i);
    }
    assert roots[..|roots|] == roots;
    RootsSpreadAll(safe, rows);
  }

  method Attach(safe: Parents, rows: seq<int>) returns (roots: seq<int>, children: map<int, seq<int>>)
    requires Grounded(safe) && Among(safe, rows)
    ensures roots == Named(safe, rows, None) && Attached(safe, rows, children)
  {
    roots, children := [], map id | id in safe :: [];
    for i := 0 to |rows|
      invariant Attaching(safe, rows, i, roots, children)
    {
      assert rows[i] in rows;
      var parent := safe[rows[i]];
      if Known(safe, parent) {
        AttachChild(safe, rows, i, roots, children, parent.value);
        children := children[parent.value := children[parent.value] + [rows[i]]];
      } else {
        AttachRoot(safe, rows, i, roots, children);
        roots := roots + [rows[i]];
      }
    }
    assert rows[..|rows|] == rows;
  }

  /** The first rows are attached. */
  ghost predicate Attaching(safe: Parents, rows: seq<int>, i: nat, roots: seq<int>, children: map<int, seq<int>>) {
    && i <= |rows| && roots == Named(safe, rows[..i], None) && children.Keys == safe.Keys
    && forall id :: id in safe ==> children[id] == Named(safe, rows[..i], Some(id))
  }

  lemma NamedNext(safe: Parents, rows: seq<int>, i: nat, parent: Option<int>)
    requires i < |rows|
    ensures Named(safe, rows[..i + 1], parent) == Named(safe, rows[..i], parent) + IfNames(safe, rows[i], parent)
  {
    assert rows[..i + 1][..i] == rows[..i];
  }

  lemma AttachRoot(safe: Parents, rows: seq<int>, i: nat, roots: seq<int>, children: map<int, seq<int>>)
    requires Attaching(safe, rows, i, roots, children) && i < |rows| && rows[i] in safe && safe[rows[i]].None?
    ensures Attaching(safe, rows, i + 1, roots + [rows[i]], children)
  {
    NamedNext(safe, rows, i, None);
    forall id | id in safe ensures children[id] == Named(safe, rows[..i + 1], Some(id)) {
      NamedNext(safe, rows, i, Some(id));
    }
  }

  lemma AttachChild(safe: Parents, rows: seq<int>, i: nat, roots: seq<int>, children: map<int, seq<int>>, p: int)
    requires Attaching(safe, rows, i, roots, children) && i < |rows| && rows[i] in safe && p in children
    requires safe[rows[i]] == Some(p)
    ensures Attaching(safe, rows, i + 1, roots, children[p := children[p] + [rows[i]]])
  {
    var after := children[p := children[p] + [rows[i]]];
    NamedNext(safe, rows, i, None);
    forall id | id in safe ensures after[id] == Named(safe, rows[..i + 1], Some(id)) {
      NamedNext(safe, rows, i, Some(id));
    }
  }

  lemma KidIsSmaller(safe: Parents, rows: seq<int>, id: int, i: nat)
    requires Grounded(safe) && Among(safe, rows) && id in safe && i < |Named(safe, rows, Some(id))|
    ensures Named(safe, rows, Some(id))[i] in safe
    ensures |Below(safe, Named(safe, rows, Some(id))[i])| < |Below(safe, id)|
  {
    var kid := Named(safe, rows, Some(id))[i];
    assert kid in Named(safe, rows, Some(id));
    ChildIsUnder(safe, id);
    ChildIsUnder(safe, kid);
  }

  lemma AddBoth(sum: set<int>, a: set<int>, b: set<int>, more: set<int>)
    requires sum == a + b
    ensures sum + more == a + (b + more) == a + (more + b)
  {
  }

  lemma PutRight(safe: Parents, found: Found, id: int)
    requires Right(safe, found)
    ensures Right(safe, found[id := Below(safe, id)]) && found[id := Below(safe, id)].Keys == found.Keys + {id}
  {
  }

  /** Each department's descendants, itself included, from its children's. */
  method Collect(safe: Parents, rows: seq<int>, children: map<int, seq<int>>, id: int, found0: Found)
      returns (values: set<int>, found: Found)
    requires Grounded(safe) && Among(safe, rows) && id in safe && Right(safe, found0) && Attached(safe, rows, children)
    ensures values == Below(safe, id)
    ensures Right(safe, found) && found.Keys == found0.Keys + Below(safe, id)
    decreases |Below(safe, id)|
  {
    var kids := children[id];
    values, found := {id}, found0;
    for i := 0 to |kids|
      invariant Gathered(safe, id, kids[..i], found0, values, found)
    {
      KidIsSmaller(safe, rows, id, i);
      var below, more := Collect(safe, rows, children, kids[i], found);
      GatherOne(safe, id, kids, i, found0, values, found, more);
      values, found := values + below, more;
    }
    assert kids[..|kids|] == kids;
    BelowIsSpread(safe, rows, id);
    GatherSelf(safe, id, kids, found0, values, found);
    found := found[id := values];
  }

  /** The trees of some children have been gone through. */
  ghost predicate Gathered(safe: Parents, id: int, kids: seq<int>, found0: Found, values: set<int>, found: Found) {
    Right(safe, found) && values == {id} + Spread(safe, kids) && found.Keys == found0.Keys + Spread(safe, kids)
  }

  lemma GatherOne(safe: Parents, id: int, kids: seq<int>, i: nat, found0: Found, values: set<int>, found: Found,
      more: Found)
    requires i < |kids| && Gathered(safe, id, kids[..i], found0, values, found)
    requires Right(safe, more) && more.Keys == found.Keys + Below(safe, kids[i])
    ensures Gathered(safe, id, kids[..i + 1], found0, values + Below(safe, kids[i]), more)
  {
    SpreadOne(safe, kids, i);
    AddBoth(values, {id}, Spread(safe, kids[..i]), Below(safe, kids[i]));
    AddBoth(found.Keys, found0.Keys, Spread(safe, kids[..i]), Below(safe, kids[i]));
  }

  lemma GatherSelf(safe: Parents, id: int, kids: seq<int>, found0: Found, values: set<int>, found: Found)
    requires Gathered(safe, id, kids, found0, values, found) && Below(safe, id) == {id} + Spread(safe, kids)
    ensures values == Below(safe, id)
    ensures Right(safe, found[id := values]) && found[id := values].Keys == found0.Keys + Below(safe, id)
  {
    AddBoth(found.Keys, found0.Keys, Spread(safe, kids), {id});
    PutRight(safe, found, id);
  }

  // ---------------------------------------------------------------- the guard of updates

  datatype Refusal = ForeignParent | Itself | BelowItself

  /** `validate_parent_id`: t holds every department, own the tenant's. */
  method ValidateParent(t: Parents, own: set<int>, instance: Option<int>, value: Option<int>)
      returns (e: Option<Refusal>)
    requires own <= t.Keys
    ensures e.None? <==>
      value.None? || (value.value in own && (instance.None? || !Reaches(t, value.value, instance.value)))
    ensures e == Some(ForeignParent) <==> value.Some? && value.value !in own
    ensures e == Some(Itself) <==> value.Some? && value.value in own && instance == value
  {
    if value.None? { return None; }
    if value.value !in own { return Some(ForeignParent); }
    if instance == value {
      assert Up(t, value.value, 0) == Some(value.value);
      return Some(Itself);
    }
    if instance.Some? {
      var i := instance.value;
      var seen: set<int>, current := {}, value;
      while current.Some? && current.value !in seen
        invariant seen <= t.Keys && i !in seen && (current == value || value.value in seen)
        invariant forall x :: x in seen ==> if t[x].Some? then t[x].value in seen || t[x] == current else current.None?
        invariant current.None? ==> !Reaches(t, value.value, i)
        invariant current.Some? ==> (Reaches(t, value.value, i) <==> Reaches(t, current.value, i))
        decreases |t.Keys - seen|, if current.Some? then 1 else 0
      {
        var c := current.value;
        if c == i {
          assert Up(t, i, 0) == Some(i);
          return Some(BelowItself);
        }
        if c !in t {
          NothingAbove(t, c, i);
          break;
        }
        if t[c].Some? { ReachesFromParent(t, c, i); } else { NothingAbove(t, c, i); }
        SmallerSet(t.Keys - (seen + {c}), t.Keys - seen);
        seen := seen + {c};
        current := t[c];
      }
      if current.Some? && current.value in seen {
        assert Closed(t, seen);
        forall n: nat ensures Up(t, value.value, n) != Some(i) { ClosedKeeps(t, seen, value.value, n); }
      }
    }
    e := None;
  }

  lemma NothingAbove(t: Parents, id: int, other: int)
    requires id != other && (id !in t || t[id].None?)
    ensures !Reaches(t, id, other)
  {
    forall n: nat ensures Up(t, id, n) != Some(other) {}
  }

  ghost predicate DiffersAt(t: Parents, u: Parents, i: int) {
    forall id :: id != i ==> (id in t <==> id in u) && (id in t ==> t[id] == u[id])
  }

  lemma {:induction false} UpUntil(t: Parents, u: Parents, i: int, id: int, n: nat)
    requires DiffersAt(t, u, i) && forall m: nat :: m < n ==> Up(t, id, m) != Some(i)
    ensures Up(u, id, n) == Up(t, id, n)
    decreases n
  {
    if n > 0 {
      assert Up(t, id, 0) == Some(id);
      assert id != i;
      if id in t && t[id].Some? {
        forall m: nat | m < n - 1
          ensures Up(t, t[id].value, m) != Some(i) { assert Up(t, id, m + 1) == Up(t, t[id].value, m); }
        UpUntil(t, u, i, t[id].value, n - 1);
      }
    }
  }

  lemma {:induction false} FirstReach(t: Parents, id: int, i: int, n: nat) returns (k: nat)
    requires Up(t, id, n) == Some(i)
    ensures k <= n && Up(t, id, k) == Some(i) && forall m: nat :: m < k ==> Up(t, id, m) != Some(i)
  {
    k := 0;
    while Up(t, id, k) != Some(i)
      invariant k <= n && forall m: nat :: m < k ==> Up(t, id, m) != Some(i)
      decreases n - k
    {
      k := k + 1;
    }
  }

  /** Only the edges of i differ, so what reaches i is the same. */
  lemma ReachesSame(t: Parents, u: Parents, i: int, id: int)
    requires DiffersAt(t, u, i) && Reaches(t, id, i)
    ensures Reaches(u, id, i)
  {
    var n: nat :| Up(t, id, n) == Some(i);
    var k := FirstReach(t, id, i, n);
    UpUntil(t, u, i, id, k);
  }

  /** Whatever the hierarchy, cyclic or not: the guard's walk finds the instance
      exactly when the update would put it on a cycle. */
  lemma GuardIsExact(t: Parents, i: int, parent: int)
    ensures Reaches(t, parent, i) <==> OnCycle(t[i := Some(parent)], i)
  {
    var u := t[i := Some(parent)];
    if Reaches(t, parent, i) {
      ReachesSame(t, u, i, parent);
      var n: nat :| Up(u, parent, n) == Some(i);
      assert Up(u, i, n + 1) == Some(i);
    }
    if OnCycle(u, i) {
      var n: nat :| n > 0 && Up(u, i, n) == Some(i);
      assert Up(u, parent, n - 1) == Some(i);
      ReachesSame(u, t, i, parent);
    }
  }

  /** No department gets onto a cycle by an update of another that does not. */
  lemma OthersStayOff(t: Parents, i: int, parent: Option<int>, id: int)
    requires !OnCycle(t[i := parent], i) && OnCycle(t[i := parent], id)
    ensures OnCycle(t, id)
  {
    var u := t[i := parent];
    var n: nat :| n > 0 && Up(u, id, n) == Some(id);
    forall m: nat | m <= n ensures Up(u, id, m) != Some(i) {
      if Up(u, id, m) == Some(i) {
        UpAdds(u, id, m, n - m);
        UpAdds(u, i, n - m, m);
        assert false;
      }
    }
    UpUntil(u, t, i, id, n);
  }

  /** An update: a new or known department and its new parent. */
  datatype Update = Update(id: int, parent: Option<int>)

  ghost predicate Accepted(t: Parents, u: Update) {
    u.parent.Some? ==> u.parent.value in t && (u.id in t ==> !Reaches(t, u.parent.value, u.id))
  }

  /** From an acyclic hierarchy, an update to a known parent is accepted if and
      only if the hierarchy stays acyclic. */
  lemma AcceptedIffAcyclic(t: Parents, u: Update)
    requires Acyclic(t) && (u.parent.Some? ==> u.parent.value in t)
    requires u.id !in t ==> forall id :: id in t ==> t[id] != Some(u.id)
    ensures Accepted(t, u) <==> Acyclic(t[u.id := u.parent])
  {
    var after := t[u.id := u.parent];
    if u.parent.Some? {
      GuardIsExact(t, u.id, u.parent.value);
      if u.id !in t { UnnamedIsUnreached(t, u.parent.value, u.id); }
    } else {
      assert forall n: nat :: n > 0 ==> Up(after, u.id, n).None?;
    }
    if !OnCycle(after, u.id) {
      forall id ensures !OnCycle(after, id) { if OnCycle(after, id) { OthersStayOff(t, u.id, u.parent, id); } }
    }
  }

  lemma UnnamedIsUnreached(t: Parents, id: int, other: int)
    requires id != other && forall x :: x in t ==> t[x] != Some(other)
    ensures !Reaches(t, id, other)
  {
    forall n: nat ensures Up(t, id, n) != Some(other) { NeverNamed(t, id, other, n); }
  }

  lemma {:induction false} NeverNamed(t: Parents, id: int, other: int, n: nat)
    requires id != other && forall x :: x in t ==> t[x] != Some(other)
    ensures Up(t, id, n) != Some(other)
    decreases n
  {
    if n > 0 && id in t && t[id].Some? { NeverNamed(t, t[id].value, other, n - 1); }
  }

  function After(t: Parents, us: seq<Update>): Parents
    decreases |us|
  {
    if us == [] then t else After(t[us[0].id := us[0].parent], us[1..])
  }

  ghost predicate AllAccepted(t: Parents, us: seq<Update>)
    decreases |us|
  {
    us == [] || (Accepted(t, us[0]) && AllAccepted(t[us[0].id := us[0].parent], us[1..]))
  }

  /** Parents are departments, as the foreign key has it. */
  predicate Complete(t: Parents) {
    forall id :: id in t && t[id].Some? ==> t[id].value in t
  }

  lemma {:induction false} UpdatesStayAcyclic(t: Parents, us: seq<Update>)
    requires Acyclic(t) && Complete(t) && AllAccepted(t, us)
    ensures Acyclic(After(t, us)) && Complete(After(t, us))
    decreases |us|
  {
    if us != [] {
      AcceptedIffAcyclic(t, us[0]);
      UpdatesStayAcyclic(t[us[0].id := us[0].parent], us[1..]);
    }
  }
}
