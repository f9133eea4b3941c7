/**
 Which SKU a warehouse's code stands for, resolved one code at a time or a
 page at a time.  Both forms follow the same order: what this warehouse was
 linked to before, then the catalogue; never a guess between two.
 */
module SkuResolution {
  import opened Wrappers

  datatype Outcome = WarehouseHistory | HistoryConflict | SellerSkuConflict | ExactCatalogueCode | CatalogueConflict
      | Unmatched

  datatype Resolution = Resolution(sku: Option<int>, outcome: Outcome)

  /** A tenant or warehouse alias; corrections hold at any time. */
  datatype Alias = Alias(code: string, sku: int, correction: bool, from: int, to: Option<int>)
  datatype HistoryRow = HistoryRow(code: string, sku: int)
  datatype Product = Product(sku: int, code: string, legacy: string)
  datatype LegacyItem = LegacyItem(code: string, sku: int)

  /** What the queries of one tenant and warehouse return. */
  datatype Catalogue = Catalogue(aliases: set<Alias>, history: set<HistoryRow>, products: set<Product>,
      generated: set<LegacyItem>)

  datatype Pair = Pair(source: string, seller: string, at: Option<int>)

  // ---------------------------------------------------------------- the sets involved

  predicate Active(a: Alias, at: Option<int>) {
    a.correction || (at.Some? && a.from <= at.value && (a.to.None? || at.value < a.to.value))
  }

  function Linked(history: set<HistoryRow>, code: string): set<int> {
    set h | h in history && h.code == code :: h.sku
  }

  function Coded(products: set<Product>, code: string): set<int> {
    set p | p in products && (p.code == code || p.legacy == code) :: p.sku
  }

  function LegacyCoded(products: set<Product>, code: string): set<int> {
    set p | p in products && p.legacy == code :: p.sku
  }

  function Produced(generated: set<LegacyItem>, code: string): set<int> {
    set g | g in generated && g.code == code :: g.sku
  }

  predicate HasAliases(c: Catalogue, code: string) {
    exists a :: a in c.aliases && a.code == code
  }

  function ActiveAliases(c: Catalogue, code: string, at: Option<int>): set<int> {
    set a | a in c.aliases && a.code == code && Active(a, at) :: a.sku
  }

  function Corrections(c: Catalogue, code: string): set<int> {
    set a | a in c.aliases && a.code == code && a.correction :: a.sku
  }

  function History(c: Catalogue, code: string): set<int> {
    Linked(c.history, code)
  }

  function ByCode(c: Catalogue, code: string): set<int> {
    Coded(c.products, code)
  }

  function ByLegacy(c: Catalogue, code: string): set<int> {
    LegacyCoded(c.products, code)
  }

  function Generated(c: Catalogue, code: string): set<int> {
    Produced(c.generated, code)
  }

  // ---------------------------------------------------------------- the two rules

  /** The catalogue candidates of the scalar form. */
  function ScalarTargets(c: Catalogue, p: Pair): set<int> {
    var found := ActiveAliases(c, p.source, p.at) + ByCode(c, p.source);
    if HasAliases(c, p.source) then found - ByLegacy(c, p.source) + Corrections(c, p.source)
    else found + Generated(c, p.source)
  }

  /** And of the page form: generated items leave with the legacy codes. */
  function PageTargets(c: Catalogue, p: Pair): set<int> {
    var found := ActiveAliases(c, p.source, p.at) + ByCode(c, p.source);
    if HasAliases(c, p.source)
    then found - (ByLegacy(c, p.source) + Generated(c, p.source)) + Corrections(c, p.source)
    else found + Generated(c, p.source)
  }

  ghost predicate IsOnly(skus: set<int>, sku: int) {
    skus == {sku}
  }

  /** One candidate resolves, several conflict, none is unmatched. */
  ghost predicate FromCatalogue(targets: set<int>, r: Resolution) {
    if |targets| == 1 then r.outcome == ExactCatalogueCode && r.sku.Some? && IsOnly(targets, r.sku.value)
    else r == Resolution(None, if targets == {} then Unmatched else CatalogueConflict)
  }

  ghost predicate FromHistory(history: set<int>, active: set<int>, r: Resolution) {
    if |history + active| == 1 then r.outcome == WarehouseHistory && r.sku.Some?
      && IsOnly(history + active, r.sku.value)
    else r == Resolution(None, HistoryConflict)
  }

  /** The decision both forms share, for some set of catalogue candidates. */
  ghost predicate Decides(c: Catalogue, p: Pair, targets: set<int>, r: Resolution) {
    if History(c, p.source) != {} then FromHistory(History(c, p.source), ActiveAliases(c, p.source, p.at), r)
    else if p.seller != "" && p.seller != p.source then r == Resolution(None, SellerSkuConflict)
    else FromCatalogue(targets, r)
  }

  lemma HasMember(skus: set<int>)
    requires skus != {}
    ensures exists sku :: sku in skus
  {
    if forall sku :: sku !in skus { assert false; }
  }

  lemma OnlyOne(skus: set<int>, sku: int)
    requires |skus| == 1 && sku in skus
    ensures IsOnly(skus, sku)
  {
    assert |skus - {sku}| == 0;
    assert skus == {sku} + (skus - {sku});
  }

  ghost function TheOnly(skus: set<int>): (sku: int)
    requires |skus| == 1
    ensures IsOnly(skus, sku)
  {
    HasMember(skus);
    var sku :| sku in skus;
    OnlyOne(skus, sku);
    sku
  }

  /** The one resolution a set of candidates leads to. */
  ghost function Decided(c: Catalogue, p: Pair, targets: set<int>): (r: Resolution)
    ensures Decides(c, p, targets, r)
  {
    var linked := History(c, p.source) + ActiveAliases(c, p.source, p.at);
    if History(c, p.source) != {} then
      if |linked| == 1 then Resolution(Some(TheOnly(linked)), WarehouseHistory) else Resolution(None, HistoryConflict)
    else if p.seller != "" && p.seller != p.source then Resolution(None, SellerSkuConflict)
    else if |targets| == 1 then Resolution(Some(TheOnly(targets)), ExactCatalogueCode)
    else Resolution(None, if targets == {} then Unmatched else CatalogueConflict)
  }

  /** What was linked, and nothing else of the history, decides. */
  lemma DecidedOnce(c: Catalogue, d: Catalogue, p: Pair, targets: set<int>, r: Resolution, s: Resolution)
    requires Decides(c, p, targets, r) && Decides(d, p, targets, s)
    requires History(c, p.source) == History(d, p.source) && c.aliases == d.aliases
    ensures r == s
  {
    var linked := History(c, p.source) + ActiveAliases(c, p.source, p.at);
    if History(c, p.source) != {} {
      if |linked| == 1 { assert r.sku.value in linked && s.sku.value in linked; }
    } else if |targets| == 1 && (p.seller == "" || p.seller == p.source) {
      assert r.sku.value in targets && s.sku.value in targets;
    }
  }

  /** `resolve_inventory_sku`. */
  method Resolve(c: Catalogue, p: Pair) returns (r: Resolution)
    ensures Decides(c, p, ScalarTargets(c, p), r)
  {
    var dated := set a | a in c.aliases && a.code == p.source;
    var active := set a | a in dated && (a.correction
        || (p.at.Some? && a.from <= p.at.value && (a.to.None? || p.at.value < a.to.value))) :: a.sku;
    assert active == ActiveAliases(c, p.source, p.at);
    var targets := set h | h in c.history && h.code == p.source :: h.sku;
    if targets != {} {
      if |targets + active| > 1 { return Resolution(None, HistoryConflict); }
      var sku :| sku in targets;
      SubsetAtMost({sku}, targets + active);
      OnlyOne(targets + active, sku);
      return Resolution(Some(sku), WarehouseHistory);
    }
    if p.seller != "" && p.seller != p.source { return Resolution(None, SellerSkuConflict); }
    targets := active + set x | x in c.products && (x.code == p.source || x.legacy == p.source) :: x.sku;
    if dated == {} {
      targets := targets + set g | g in c.generated && g.code == p.source :: g.sku;
    } else {
      targets := targets - set x | x in c.products && x.legacy == p.source :: x.sku;
      targets := targets + set a | a in dated && a.correction :: a.sku;
    }
    TargetsAre(c, p, dated, targets);
    r := Conclude(targets);
  }

  lemma TargetsAre(c: Catalogue, p: Pair, dated: set<Alias>, targets: set<int>)
    requires dated == set a | a in c.aliases && a.code == p.source
    requires var found := ActiveAliases(c, p.source, p.at) + ByCode(c, p.source);
      targets == if dated == {} then found + Generated(c, p.source)
        else found - ByLegacy(c, p.source) + set a | a in dated && a.correction :: a.sku
    ensures targets == ScalarTargets(c, p)
  {
    if HasAliases(c, p.source) {
      var a :| a in c.aliases && a.code == p.source;
      assert a in dated;
    }
    assert Corrections(c, p.source) == set a | a in dated && a.correction :: a.sku;
  }

  /** Where one alias is all that is known of a code, either form resolves the
      code to its SKU if the alias is a correction, or was in force at that time:
      from its first moment on and until before its last.  Otherwise to none. */
  lemma OneAliasDecides(c: Catalogue, a: Alias, p: Pair, scalar: Resolution, page: Resolution)
    requires Decides(c, p, ScalarTargets(c, p), scalar) && Decides(c, p, PageTargets(c, p), page)
    requires a in c.aliases && a.code == p.source && forall b :: b in c.aliases && b.code == p.source ==> b == a
    requires History(c, p.source) == {} && ByCode(c, p.source) == {} && Generated(c, p.source) == {}
    requires p.seller == "" || p.seller == p.source
    ensures var holds := a.correction || match (p.at, a.to)
        case (None, _) => false
        case (Some(at), None) => a.from <= at
        case (Some(at), Some(end)) => a.from <= at < end;
      scalar == page == if holds then Resolution(Some(a.sku), ExactCatalogueCode) else Resolution(None, Unmatched)
  {
    var holds := a.correction
      || (p.at.Some? && a.from <= p.at.value && (a.to.None? || p.at.value < a.to.value));
    assert HasAliases(c, p.source);
    LegacyIsCoded(c, p.source);
    assert ActiveAliases(c, p.source, p.at) == if holds then {a.sku} else {};
    assert Corrections(c, p.source) == if a.correction then {a.sku} else {};
    var targets := if holds then {a.sku} else {};
    assert ScalarTargets(c, p) == targets && PageTargets(c, p) == targets;
    if holds { assert a.sku in {a.sku}; }
  }

  lemma LegacyIsCoded(c: Catalogue, code: string)
    ensures ByLegacy(c, code) <= ByCode(c, code)
  {
  }

  method Conclude(targets: set<int>) returns (r: Resolution)
    ensures FromCatalogue(targets, r)
  {
    if |targets| == 1 {
      HasMember(targets);
      var sku :| sku in targets;
      OnlyOne(targets, sku);
      return Resolution(Some(sku), ExactCatalogueCode);
    }
    r := Resolution(None, if targets == {} then Unmatched else CatalogueConflict);
  }

  // ---------------------------------------------------------------- the page form

  type Targets = map<string, set<int>>

  function Add(t: Targets, code: string, sku: int): Targets {
    if code in t then t[code := t[code] + {sku}] else t
  }

  // What each dictionary holds once some rows of its query have been read.
  predicate HoldsLinked(t: Targets, codes: set<string>, history: set<HistoryRow>) {
    t.Keys == codes && forall code :: code in codes ==> t[code] == Linked(history, code)
  }

  predicate HoldsCoded(t: Targets, codes: set<string>, products: set<Product>) {
    t.Keys == codes && forall code :: code in codes ==> t[code] == Coded(products, code)
  }

  predicate HoldsLegacy(t: Targets, codes: set<string>, products: set<Product>) {
    t.Keys == codes && forall code :: code in codes ==> t[code] == LegacyCoded(products, code)
  }

  predicate HoldsAlso(t: Targets, t0: Targets, except: set<string>, generated: set<LegacyItem>) {
    t.Keys == t0.Keys && forall code :: code in t0 ==>
      t[code] == t0[code] + Unless(code in except, Produced(generated, code))
  }

  function Unless(left: bool, skus: set<int>): set<int> {
    if left then {} else skus
  }

  method PageHistory(history: set<HistoryRow>, codes: set<string>) returns (t: Targets)
    ensures HoldsLinked(t, codes, history)
  {
    t := map code | code in codes :: {};
    var rest := history;
    while rest != {}
      invariant rest <= history && HoldsLinked(t, codes, history - rest)
    {
      var h :| h in rest;
      assert history - (rest - {h}) == history - rest + {h};
      AddLinked(t, codes, history - rest, h);
      t := Add(t, h.code, h.sku);
      rest := rest - {h};
    }
    assert history - rest == history;
  }

  lemma AddLinked(t: Targets, codes: set<string>, history: set<HistoryRow>, h: HistoryRow)
    requires HoldsLinked(t, codes, history)
    ensures HoldsLinked(Add(t, h.code, h.sku), codes, history + {h})
  {
    forall code | code in codes
      ensures Linked(history + {h}, code) == Linked(history, code) + if h.code == code then {h.sku} else {} {}
  }

  method PageProducts(products: set<Product>, codes: set<string>) returns (catalogue: Targets, legacy: Targets)
    ensures HoldsCoded(catalogue, codes, products) && HoldsLegacy(legacy, codes, products)
  {
    catalogue, legacy := map code | code in codes :: {}, map code | code in codes :: {};
    var rest := products;
    while rest != {}
      invariant rest <= products && HoldsCoded(catalogue, codes, products - rest)
      invariant HoldsLegacy(legacy, codes, products - rest)
    {
      var p :| p in rest;
      assert products - (rest - {p}) == products - rest + {p};
      AddCoded(catalogue, codes, products - rest, p);
      AddLegacy(legacy, codes, products - rest, p);
      catalogue := Add(Add(catalogue, p.code, p.sku), p.legacy, p.sku);
      legacy := Add(legacy, p.legacy, p.sku);
      rest := rest - {p};
    }
    assert products - rest == products;
  }

  lemma AddCoded(t: Targets, codes: set<string>, products: set<Product>, p: Product)
    requires HoldsCoded(t, codes, products)
    ensures HoldsCoded(Add(Add(t, p.code, p.sku), p.legacy, p.sku), codes, products + {p})
  {
    forall code | code in codes
      ensures Coded(products + {p}, code) == Coded(products, code) + if p.code == code || p.legacy == code then {p.sku}
        else {} {}
  }

  lemma AddLegacy(t: Targets, codes: set<string>, products: set<Product>, p: Product)
    requires HoldsLegacy(t, codes, products)
    ensures HoldsLegacy(Add(t, p.legacy, p.sku), codes, products + {p})
  {
    forall code | code in codes
      ensures LegacyCoded(products + {p}, code) == LegacyCoded(products, code) + if p.legacy == code then {p.sku}
        else {} {}
  }

  /** Generated items join the catalogue of codes without aliases, and the
      legacy codes of all. */
  method PageGenerated(generated: set<LegacyItem>, dated: set<string>, catalogue0: Targets, legacy0: Targets)
      returns (catalogue: Targets, legacy: Targets)
    ensures HoldsAlso(catalogue, catalogue0, dated, generated) && HoldsAlso(legacy, legacy0, {}, generated)
  {
    catalogue, legacy := catalogue0, legacy0;
    var rest := generated;
    while rest != {}
      invariant rest <= generated
      invariant HoldsAlso(catalogue, catalogue0, dated, generated - rest)
      invariant HoldsAlso(legacy, legacy0, {}, generated - rest)
    {
      var g :| g in rest;
      assert generated - (rest - {g}) == generated - rest + {g};
      AddGenerated(catalogue, catalogue0, dated, generated - rest, g);
      AddGenerated(legacy, legacy0, {}, generated - rest, g);
      if g.code !in dated { catalogue := Add(catalogue, g.code, g.sku); }
      legacy := Add(legacy, g.code, g.sku);
      rest := rest - {g};
    }
    assert generated - rest == generated;
  }

  lemma AddGenerated(t: Targets, t0: Targets, except: set<string>, generated: set<LegacyItem>, g: LegacyItem)
    requires HoldsAlso(t, t0, except, generated)
    ensures HoldsAlso(if g.code in except then t else Add(t, g.code, g.sku), t0, except, generated + {g})
  {
    ProducedGrows(generated, g);
    if g.code !in except { AddKeeps(t, t0, except, generated, g); }
  }

  lemma ProducedGrows(generated: set<LegacyItem>, g: LegacyItem)
    ensures Produced(generated + {g}, g.code) == Produced(generated, g.code) + {g.sku}
    ensures forall code :: code != g.code ==> Produced(generated + {g}, code) == Produced(generated, code)
  {
  }

  lemma AddKeeps(t: Targets, t0: Targets, except: set<string>, generated: set<LegacyItem>, g: LegacyItem)
    requires HoldsAlso(t, t0, except, generated) && g.code !in except
    ensures HoldsAlso(Add(t, g.code, g.sku), t0, except, generated + {g})
  {
    ProducedGrows(generated, g);
    var after := Add(t, g.code, g.sku);
    forall code | code in t0 ensures after[code] == t0[code] + Unless(code in except, Produced(generated + {g}, code)) {
      if code == g.code {
        var produced := Produced(generated, code);
        assert t0[code] + produced + {g.sku} == t0[code] + (produced + {g.sku});
      }
    }
  }

  datatype Prepared = Prepared(history: Targets, catalogue: Targets, legacy: Targets, dated: set<string>)

  /** The dictionaries hold what the page rule needs of this code. */
  predicate Ready(c: Catalogue, t: Prepared, code: string) {
    && code in t.history && t.history[code] == History(c, code)
    && (code in t.dated <==> HasAliases(c, code))
    && code in t.catalogue && t.catalogue[code] == ByCode(c, code) + Unless(code in t.dated, Generated(c, code))
    && code in t.legacy && t.legacy[code] == ByLegacy(c, code) + Generated(c, code)
  }

  method Prepare(c: Catalogue, codes: set<string>) returns (t: Prepared)
    ensures forall code :: code in codes ==> Ready(c, t, code)
  {
    var history := PageHistory(c.history, codes);
    var catalogue0, legacy0 := PageProducts(c.products, codes);
    var dated := set a | a in c.aliases && a.code in codes :: a.code;
    var catalogue, legacy := PageGenerated(c.generated, dated, catalogue0, legacy0);
    t := Prepared(history, catalogue, legacy, dated);
    forall code | code in codes ensures Ready(c, t, code) {
      assert code in dated <==> HasAliases(c, code);
    }
  }

  /** One pair of the page, from the dictionaries filled for all of them. */
  method ResolveOne(c: Catalogue, t: Prepared, p: Pair) returns (r: Resolution)
    requires Ready(c, t, p.source)
    ensures Decides(c, p, PageTargets(c, p), r)
  {
    var history, dated := t.history[p.source], p.source in t.dated;
    var active := set a | a in c.aliases && a.code == p.source && (a.correction
        || (p.at.Some? && a.from <= p.at.value && (a.to.None? || p.at.value < a.to.value))) :: a.sku;
    assert active == ActiveAliases(c, p.source, p.at);
    if history != {} {
      var union := history + active;
      if |union| == 1 {
        HasMember(union);
        var sku :| sku in union;
        OnlyOne(union, sku);
        return Resolution(Some(sku), WarehouseHistory);
      }
      return Resolution(None, HistoryConflict);
    }
    if p.seller != "" && p.seller != p.source { return Resolution(None, SellerSkuConflict); }
    var catalogue := t.catalogue[p.source] + active;
    if dated {
      catalogue := catalogue - t.legacy[p.source];
      catalogue := catalogue + set a | a in c.aliases && a.code == p.source && a.correction :: a.sku;
    }
    assert catalogue == PageTargets(c, p);
    r := Conclude(catalogue);
  }

  ghost predicate AllDecided(c: Catalogue, resolved: map<Pair, Resolution>) {
    forall p :: p in resolved ==> Decides(c, p, PageTargets(c, p), resolved[p])
  }

  /** `resolve_inventory_skus`: every pair of the page, by the page rule. */
  method ResolvePage(c: Catalogue, pairs: seq<Pair>) returns (resolved: map<Pair, Resolution>)
    ensures forall p :: p in resolved <==> p in pairs
    ensures AllDecided(c, resolved)
  {
    var codes := set p | p in pairs :: p.source;
    var t := Prepare(c, codes);
    resolved := map[];
    for i := 0 to |pairs|
      invariant forall p :: p in resolved <==> p in pairs[..i]
      invariant AllDecided(c, resolved)
    {
      assert pairs[i] in pairs && pairs[i].source in codes;
      var r := ResolveOne(c, t, pairs[i]);
      resolved := resolved[pairs[i] := r];
    }
  }

  // ---------------------------------------------------------------- when they agree

  /** The generated items the page form drops and the scalar form keeps. */
  function Dropped(c: Catalogue, p: Pair): set<int> {
    ScalarTargets(c, p) - PageTargets(c, p)
  }

  lemma DroppedAre(c: Catalogue, p: Pair)
    ensures PageTargets(c, p) <= ScalarTargets(c, p)
    ensures Dropped(c, p) ==
      if HasAliases(c, p.source)
      then ((ActiveAliases(c, p.source, p.at) + ByCode(c, p.source)) * Generated(c, p.source))
           - ByLegacy(c, p.source) - Corrections(c, p.source)
      else {}
  {
  }

  /** The guard a caller can check: the catalogue is consulted, and then a
      dropped item would have made the difference. */
  predicate Diverges(c: Catalogue, p: Pair) {
    && History(c, p.source) == {} && (p.seller == "" || p.seller == p.source)
    && Dropped(c, p) != {} && |PageTargets(c, p)| <= 1
  }

  lemma ConclusionsDiffer(page: set<int>, scalar: set<int>, r: Resolution, s: Resolution)
    requires page <= scalar && FromCatalogue(page, r) && FromCatalogue(scalar, s)
    ensures r == s <==> page == scalar || |page| >= 2
  {
    if page != scalar {
      var missing := scalar - page;
      assert page != scalar && scalar == page + missing;
      HasMember(missing);
      var extra :| extra in missing;
      SubsetSmaller(page, scalar, extra);
    } else if |page| == 1 {
      assert r.sku.value in page && s.sku.value in page;
    }
  }

  lemma SubsetSmaller(small: set<int>, big: set<int>, extra: int)
    requires small <= big && extra in big && extra !in small
    ensures |small| < |big|
  {
    assert small <= big - {extra};
    SubsetAtMost(small, big - {extra});
  }

  lemma {:induction false} SubsetAtMost(small: set<int>, big: set<int>)
    requires small <= big
    ensures |small| <= |big|
    decreases |small|
  {
    if small != {} {
      HasMember(small);
      var x :| x in small;
      SubsetAtMost(small - {x}, big - {x});
    }
  }

  /** The page form refines the scalar one on every pair, exactly but for the
      divergence: for all catalogues and pairs, the two agree if and only if no
      dropped generated item decides. */
  lemma PageRefinesScalar(c: Catalogue, p: Pair, scalar: Resolution, page: Resolution)
    requires Decides(c, p, ScalarTargets(c, p), scalar) && Decides(c, p, PageTargets(c, p), page)
    ensures scalar == page <==> !Diverges(c, p)
  {
    DroppedAre(c, p);
    if History(c, p.source) != {} {
      if |History(c, p.source) + ActiveAliases(c, p.source, p.at)| == 1 {
        assert scalar.sku.value in {page.sku.value};
      }
    } else if p.seller == "" || p.seller == p.source {
      ConclusionsDiffer(PageTargets(c, p), ScalarTargets(c, p), page, scalar);
      assert Dropped(c, p) == {} <==> PageTargets(c, p) == ScalarTargets(c, p);
    }
  }

  /** A divergence that also changes which SKU is linked. */
  predicate LinkDiverges(c: Catalogue, p: Pair) {
    Diverges(c, p) && (|PageTargets(c, p)| == 1 || |ScalarTargets(c, p)| == 1)
  }

  lemma LinksDiffer(c: Catalogue, p: Pair, scalar: Resolution, page: Resolution)
    requires Decides(c, p, ScalarTargets(c, p), scalar) && Decides(c, p, PageTargets(c, p), page)
    ensures scalar.sku == page.sku <==> !LinkDiverges(c, p)
    ensures scalar.sku == page.sku && scalar.sku.Some? ==> scalar == page
  {
    DroppedAre(c, p);
    PageRefinesScalar(c, p, scalar, page);
    if Diverges(c, p) {
      HasMember(Dropped(c, p));
      var extra :| extra in Dropped(c, p);
      SubsetSmaller(PageTargets(c, p), ScalarTargets(c, p), extra);
    }
  }

  /** No generated item of another legacy code is also reached by its own code or
      a mere alias: enough for the two forms to agree at any time. */
  predicate NoBorrowedCode(c: Catalogue, code: string) {
    forall g :: g in Generated(c, code) - ByLegacy(c, code) - Corrections(c, code) ==> NotBorrowed(c, code, g)
  }

  predicate NotBorrowed(c: Catalogue, code: string, sku: int) {
    sku !in ByCode(c, code) && forall a :: a in c.aliases && a.code == code ==> a.sku != sku
  }

  lemma UnborrowedCodesAgree(c: Catalogue, p: Pair, scalar: Resolution, page: Resolution)
    requires Decides(c, p, ScalarTargets(c, p), scalar) && Decides(c, p, PageTargets(c, p), page)
    requires HasAliases(c, p.source) ==> NoBorrowedCode(c, p.source)
    ensures scalar == page
  {
    DroppedAre(c, p);
    assert forall g :: g in Dropped(c, p) ==> !HasAliases(c, p.source) || NotBorrowed(c, p.source, g);
    PageRefinesScalar(c, p, scalar, page);
  }

  /** And a catalogue where they part: a generated item, whose own code is the
      source code, is found by the scalar form and lost by the page form. */
  lemma DivergenceExample(code: string, at: int, c: Catalogue)
    requires code != []
    requires c == Catalogue({Alias(code, 9, false, at + 1, None)}, {}, {Product(7, code, [])}, {LegacyItem(code, 7)})
    ensures Diverges(c, Pair(code, "", Some(at)))
    ensures ScalarTargets(c, Pair(code, "", Some(at))) == {7} && PageTargets(c, Pair(code, "", Some(at))) == {}
  {
    var p := Pair(code, "", Some(at));
    assert HasAliases(c, code) by { assert Alias(code, 9, false, at + 1, None) in c.aliases; }
    assert ActiveAliases(c, code, p.at) == {} && Corrections(c, code) == {};
    assert Product(7, code, []) in c.products && LegacyItem(code, 7) in c.generated;
    assert ByCode(c, code) == {7} && ByLegacy(c, code) == {};
    assert Generated(c, code) == {7};
    assert ScalarTargets(c, p) == {7} && PageTargets(c, p) == {};
    assert 7 in Dropped(c, p);
  }
}
