/** The statistics page (src/pages/StatisticsPage.js): one pass over the
    products that reconciles each one against the scans, adds up the
    scanned units and groups current quantities by raw brand and by raw
    category, and the descending sort the page applies before listing a
    grouping. */
module Statistics {
  import opened Wrappers
  import opened Text
  import opened Records
  import opened Reconciliation

  /** The two groupings the page builds. */
  datatype Facet = ByBrand | ByCategory

  /** The raw column a grouping reads (not normalised). */
  function FacetOf(p: Product, f: Facet): Option<string> {
    match f
    case ByBrand => p.brand
    case ByCategory => p.category
  }

  /** `p.initial_quantity + totalScannedForProduct`. */
  function CurrentQuantity(p: Product, scans: seq<ScanEvent>): int {
    p.initialQuantity + ScannedFor(scans, p.id)
  }

  /** One property of a plain JavaScript object used as a map: a key and
      its running total. The object is a list of entries in insertion
      order. */
  datatype Entry = Entry(key: string, total: int)

  function Keys(m: seq<Entry>): seq<string> {
    if m == [] then [] else [m[0].key] + Keys(m[1..])
  }

  /** `m[k]`, `None` when `m` has no property `k`. */
  function Get(m: seq<Entry>, k: string): Option<int> {
    if m == [] then None else if m[0].key == k then Some(m[0].total) else Get(m[1..], k)
  }

  /** `m[k] = (m[k] || 0) + v`: a new key is appended, an existing one
      keeps its place. */
  function Add(m: seq<Entry>, k: string, v: int): seq<Entry> {
    if m == [] then [Entry(k, v)]
    else if m[0].key == k then [Entry(k, m[0].total + v)] + m[1..]
    else [m[0]] + Add(m[1..], k, v)
  }

  lemma {:induction false} KeysEach(m: seq<Entry>)
    ensures |Keys(m)| == |m|
    ensures forall i :: 0 <= i < |m| ==> Keys(m)[i] == m[i].key
  {
    if m != [] {
      KeysEach(m[1..]);
    }
  }

  /** A property is missing exactly when its key is not among the keys. */
  lemma {:induction false} GetNone(m: seq<Entry>, k: string)
    ensures Get(m, k).None? <==> k !in Keys(m)
  {
    if m != [] {
      GetNone(m[1..], k);
    }
  }

  /** Adding to `k` puts `k` among the keys (at the end when it is new),
      adds `v` to its value (0 when it was missing) and leaves every other
      key's value alone. */
  lemma {:induction false} AddFacts(m: seq<Entry>, k: string, v: int)
    ensures Keys(Add(m, k, v)) == if k in Keys(m) then Keys(m) else Keys(m) + [k]
    ensures Get(Add(m, k, v), k) == Some(Get(m, k).GetOr(0) + v)
    ensures forall x :: x != k ==> Get(Add(m, k, v), x) == Get(m, x)
  {
    if m != [] && m[0].key != k {
      AddFacts(m[1..], k, v);
      assert Add(m, k, v)[1..] == Add(m[1..], k, v);
    }
  }

  /** The grouping `if (product.brand) byBrand[product.brand] = ...` after
      the products `ps`: each truthy raw key with the sum of the current
      quantities of its products. */
  function GroupSums(ps: seq<Product>, scans: seq<ScanEvent>, f: Facet): seq<Entry> {
    if ps == [] then []
    else
      var m := GroupSums(ps[..|ps| - 1], scans, f);
      var p := ps[|ps| - 1];
      GroupStep(m, p, scans, f)
  }

  /** The grouping after one more product. */
  function GroupStep(m: seq<Entry>, p: Product, scans: seq<ScanEvent>, f: Facet): seq<Entry> {
    var key := FacetOf(p, f);
    if key.Some? && key.value != "" then Add(m, key.value, CurrentQuantity(p, scans)) else m
  }

  /** The raw key of each product, "" standing for a falsy one. */
  function FacetValues(ps: seq<Product>, f: Facet): (r: seq<string>)
    ensures |r| == |ps|
    ensures forall i :: 0 <= i < |ps| ==> r[i] == FacetOf(ps[i], f).GetOr("")
  {
    if ps == [] then []
    else
      var init := ps[..|ps| - 1];
      assert forall j :: 0 <= j < |init| ==> init[j] == ps[j];
      FacetValues(init, f) + [FacetOf(ps[|ps| - 1], f).GetOr("")]
  }

  /** The sum of the current quantities of the products whose raw key is
      `k`: the value the page shows for `k`. */
  function KeyTotal(ps: seq<Product>, scans: seq<ScanEvent>, f: Facet, k: string): int {
    if ps == [] then 0
    else
      var p := ps[|ps| - 1];
      KeyTotal(ps[..|ps| - 1], scans, f, k) + (if FacetOf(p, f) == Some(k) then CurrentQuantity(p, scans) else 0)
  }

  lemma {:induction false} KeyTotalAbsent(ps: seq<Product>, scans: seq<ScanEvent>, f: Facet, k: string)
    requires k !in FacetValues(ps, f)
    ensures KeyTotal(ps, scans, f, k) == 0
  {
    if ps != [] {
      var init := ps[..|ps| - 1];
      assert FacetValues(ps, f) == FacetValues(init, f) + [FacetOf(ps[|ps| - 1], f).GetOr("")];
      KeyTotalAbsent(init, scans, f, k);
    }
  }

  /** The keys of a grouping are the distinct truthy raw keys, in the
      order they first occur. */
  lemma {:induction false} GroupSumsKeys(ps: seq<Product>, scans: seq<ScanEvent>, f: Facet)
    ensures Keys(GroupSums(ps, scans, f)) == DistinctNonEmpty(FacetValues(ps, f))
  {
    if ps != [] {
      var init := ps[..|ps| - 1];
      var p := ps[|ps| - 1];
      GroupSumsKeys(init, scans, f);
      var vs := FacetValues(ps, f);
      assert vs[..|vs| - 1] == FacetValues(init, f);
      var key := FacetOf(p, f);
      if key.Some? && key.value != "" {
        AddFacts(GroupSums(init, scans, f), key.value, CurrentQuantity(p, scans));
      }
    }
  }

  /** One product's step changes only the entry of its own key. */
  lemma {:induction false} GroupStepGet(m: seq<Entry>, p: Product, scans: seq<ScanEvent>, f: Facet, k: string)
    requires k != ""
    ensures Get(GroupStep(m, p, scans, f), k)
         == if FacetOf(p, f) == Some(k) then Some(Get(m, k).GetOr(0) + CurrentQuantity(p, scans)) else Get(m, k)
  {
    var key := FacetOf(p, f);
    if key.Some? && key.value != "" {
      AddFacts(m, key.value, CurrentQuantity(p, scans));
    }
  }

  lemma {:induction false} FacetValuesSnoc(ps: seq<Product>, f: Facet, k: string)
    requires ps != [] && k != ""
    ensures k in FacetValues(ps, f) <==> k in FacetValues(ps[..|ps| - 1], f) || FacetOf(ps[|ps| - 1], f) == Some(k)
  {
    assert FacetValues(ps, f) == FacetValues(ps[..|ps| - 1], f) + [FacetOf(ps[|ps| - 1], f).GetOr("")];
  }

  /** Every truthy key maps to the sum over exactly its products; any
      other key is absent. */
  lemma {:induction false} GroupSumsTotals(ps: seq<Product>, scans: seq<ScanEvent>, f: Facet, k: string)
    requires k != ""
    ensures k in FacetValues(ps, f) ==> Get(GroupSums(ps, scans, f), k) == Some(KeyTotal(ps, scans, f, k))
    ensures k !in FacetValues(ps, f) ==> Get(GroupSums(ps, scans, f), k) == None
  {
    if ps != [] {
      var init := ps[..|ps| - 1];
      var p := ps[|ps| - 1];
      var m := GroupSums(init, scans, f);
      GroupSumsTotals(init, scans, f, k);
      GroupStepGet(m, p, scans, f, k);
      FacetValuesSnoc(ps, f, k);
      if FacetOf(p, f) == Some(k) && k !in FacetValues(init, f) {
        KeyTotalAbsent(init, scans, f, k);
      }
    }
  }

  /** A list without repeats has as many elements as its set. */
  lemma {:induction false} NoDupCard(s: seq<string>)
    requires NoDup(s)
    ensures |set x | x in s| == |s|
  {
    if s != [] {
      var rest := s[1..];
      assert forall i :: 0 <= i < |rest| ==> rest[i] == s[i + 1] != s[0];
      assert NoDup(rest);
      NoDupCard(rest);
      assert (set x | x in s) == {s[0]} + (set x | x in rest);
    }
  }

  /** `brandsCount` / `categoriesCount`: the number of distinct truthy raw
      keys. */
  lemma {:induction false} GroupCount(ps: seq<Product>, scans: seq<ScanEvent>, f: Facet)
    ensures |GroupSums(ps, scans, f)|
         == |set i | 0 <= i < |ps| && FacetOf(ps[i], f).Some? && FacetOf(ps[i], f).value != "" :: FacetOf(ps[i], f).value|
  {
    var m := GroupSums(ps, scans, f);
    var vs := FacetValues(ps, f);
    var d := DistinctNonEmpty(vs);
    GroupSumsKeys(ps, scans, f);
    NoDupCard(d);
    var truthy := set i | 0 <= i < |ps| && FacetOf(ps[i], f).Some? && FacetOf(ps[i], f).value != "" :: FacetOf(ps[i], f).value;
    forall x ensures x in truthy <==> x in d {
      if x in d {
        var i :| 0 <= i < |vs| && vs[i] == x;
        assert FacetOf(ps[i], f).value == x;
      }
    }
    assert truthy == set x | x in d;
    KeysEach(m);
  }

  /** What the page shows: the number of products, the scanned units of
      all products, and the two groupings with their sizes. Cost and
      price totals are left out. */
  datatype Stats = Stats(
    totalProducts: nat,
    totalScannedItems: int,
    brandsCount: nat,
    categoriesCount: nat,
    productsByBrand: seq<Entry>,
    productsByCategory: seq<Entry>)

  /** The statistics of the products `ps` and the scans `scans`. */
  function StatsOf(ps: seq<Product>, scans: seq<ScanEvent>): Stats {
    var byBrand := GroupSums(ps, scans, ByBrand);
    var byCategory := GroupSums(ps, scans, ByCategory);
    Stats(|ps|, SumScannedFor(ps, scans), |byBrand|, |byCategory|, byBrand, byCategory)
  }

  lemma {:induction false} SumScannedForSnoc(ps: seq<Product>, p: Product, scans: seq<ScanEvent>)
    ensures SumScannedFor(ps + [p], scans) == SumScannedFor(ps, scans) + ScannedFor(scans, p.id)
  {
    if ps == [] {
      assert [p][1..] == [];
    } else {
      assert (ps + [p])[1..] == ps[1..] + [p];
      SumScannedForSnoc(ps[1..], p, scans);
    }
  }

  /** One more product read by the statistics pass. */
  lemma {:induction false} StatsStep(ps: seq<Product>, scans: seq<ScanEvent>, i: nat)
    requires i < |ps|
    ensures SumScannedFor(ps[..i + 1], scans) == SumScannedFor(ps[..i], scans) + ScannedFor(scans, ps[i].id)
    ensures GroupSums(ps[..i + 1], scans, ByBrand) == GroupStep(GroupSums(ps[..i], scans, ByBrand), ps[i], scans, ByBrand)
    ensures GroupSums(ps[..i + 1], scans, ByCategory) == GroupStep(GroupSums(ps[..i], scans, ByCategory), ps[i], scans, ByCategory)
  {
    assert ps[..i + 1] == ps[..i] + [ps[i]];
    SumScannedForSnoc(ps[..i], ps[i], scans);
    assert ps[..i + 1][..i] == ps[..i];
  }

  /** `if (key) m[key] = (m[key] || 0) + v`. */
  method Accumulate(m: seq<Entry>, key: Option<string>, v: int) returns (r: seq<Entry>)
    ensures r == if key.Some? && key.value != "" then Add(m, key.value, v) else m
  {
    r := m;
    if key.Some? && key.value != "" {
      r := Add(m, key.value, v);
    }
  }

  /** `fetchStatistics`: either query failing shows the error message (no
      statistics); otherwise one pass over the products computes
      `StatsOf`. */
  method ComputeStatistics(productsReply: Option<seq<Product>>, scansReply: Option<seq<ScanEvent>>)
    returns (r: Option<Stats>)
    ensures r.None? <==> productsReply.None? || scansReply.None?
    ensures r.Some? ==> r.value == StatsOf(productsReply.value, scansReply.value)
  {
    if productsReply.None? || scansReply.None? {
      return None;
    }
    var ps := productsReply.value;
    var scans := scansReply.value;
    var totalScannedItems := 0;
    var byBrand: seq<Entry> := [];
    var byCategory: seq<Entry> := [];
    var i := 0;
    while i < |ps|
      invariant 0 <= i <= |ps|
      invariant totalScannedItems == SumScannedFor(ps[..i], scans)
      invariant byBrand == GroupSums(ps[..i], scans, ByBrand)
      invariant byCategory == GroupSums(ps[..i], scans, ByCategory)
    {
      var p := ps[i];
      StatsStep(ps, scans, i);
      var scanned := ScannedFor(scans, p.id);
      var current := p.initialQuantity + scanned;
      totalScannedItems := totalScannedItems + scanned;
      byBrand := Accumulate(byBrand, p.brand, current);
      byCategory := Accumulate(byCategory, p.category, current);
      i := i + 1;
    }
    assert ps[..|ps|] == ps;
    r := Some(Stats(|ps|, totalScannedItems, |byBrand|, |byCategory|, byBrand, byCategory));
  }

  /** With product ids unique, the scanned total is the sum of the scans
      that belong to a listed product; scans of unknown products are not
      counted. */
  lemma {:induction false} StatsScannedItems(ps: seq<Product>, scans: seq<ScanEvent>)
    requires UniqueIds(ps)
    ensures StatsOf(ps, scans).totalScannedItems == TotalQuantity(ScansIn(scans, IdSet(ps)))
  {
    SumScannedForMatched(ps, scans);
  }

  /** Entries in non-increasing order of their totals. */
  predicate Descending(m: seq<Entry>) {
    forall i, j :: 0 <= i < j < |m| ==> m[i].total >= m[j].total
  }

  /** The entries whose total is `v`, in order. */
  function WithTotal(m: seq<Entry>, v: int): seq<Entry> {
    if m == [] then [] else (if m[0].total == v then [m[0]] else []) + WithTotal(m[1..], v)
  }

  /** Insert `e` into a descending list before the first entry whose
      total is not larger. */
  function Insert(e: Entry, m: seq<Entry>): seq<Entry> {
    if m == [] || m[0].total <= e.total then [e] + m else [m[0]] + Insert(e, m[1..])
  }

  lemma {:induction false} InsertPermutes(e: Entry, m: seq<Entry>)
    ensures multiset(Insert(e, m)) == multiset(m) + multiset{e}
  {
    if m != [] && m[0].total > e.total {
      InsertPermutes(e, m[1..]);
      assert m == [m[0]] + m[1..];
    }
  }

  lemma {:induction false} InsertDescending(e: Entry, m: seq<Entry>)
    requires Descending(m)
    ensures Descending(Insert(e, m))
  {
    if m != [] && m[0].total > e.total {
      var rest := m[1..];
      assert Descending(rest) by {
        assert forall i :: 0 <= i < |rest| ==> rest[i] == m[i + 1];
      }
      InsertDescending(e, rest);
      var r := Insert(e, m);
      var t := Insert(e, rest);
      assert r == [m[0]] + t;
      InsertPermutes(e, rest);
      forall j | 0 < j < |r| ensures r[0].total >= r[j].total {
        assert r[j] in multiset(t);
        assert r[j] == e || r[j] in multiset(rest);
      }
    }
  }

  lemma {:induction false} InsertStable(e: Entry, m: seq<Entry>, v: int)
    requires Descending(m)
    ensures WithTotal(Insert(e, m), v) == (if e.total == v then [e] else []) + WithTotal(m, v)
  {
    if m == [] || m[0].total <= e.total {
      if m != [] && m[0].total < e.total && e.total == v {
        WithTotalNone(m, v);
      }
    } else {
      var rest := m[1..];
      assert Descending(rest) by {
        assert forall i :: 0 <= i < |rest| ==> rest[i] == m[i + 1];
      }
      InsertStable(e, rest, v);
      var t := Insert(e, rest);
      var head := if m[0].total == v then [m[0]] else [];
      assert Insert(e, m) == [m[0]] + t;
      assert ([m[0]] + t)[1..] == t;
      assert WithTotal(Insert(e, m), v) == head + WithTotal(t, v);
      assert WithTotal(m, v) == head + WithTotal(rest, v);
    }
  }

  /** A descending list whose first total is below `v` holds no entry
      with total `v`. */
  lemma {:induction false} WithTotalNone(m: seq<Entry>, v: int)
    requires Descending(m) && m != [] && m[0].total < v
    ensures WithTotal(m, v) == []
  {
    var rest := m[1..];
    if rest != [] {
      assert Descending(rest) by {
        assert forall i :: 0 <= i < |rest| ==> rest[i] == m[i + 1];
      }
      assert rest[0].total <= m[0].total;
      WithTotalNone(rest, v);
    }
  }

  /** `Object.entries(data).sort(([, a], [, b]) => b - a)`: a stable
      sort by decreasing total. */
  function SortByTotalDesc(m: seq<Entry>): seq<Entry> {
    if m == [] then [] else Insert(m[0], SortByTotalDesc(m[1..]))
  }

  /** The sorted list is a permutation of the entries, it is descending,
      and entries with equal totals keep their order (the sort is
      stable). */
  lemma {:induction false} SortByTotalDescCorrect(m: seq<Entry>)
    ensures multiset(SortByTotalDesc(m)) == multiset(m)
    ensures Descending(SortByTotalDesc(m))
    ensures forall v :: WithTotal(SortByTotalDesc(m), v) == WithTotal(m, v)
  {
    if m != [] {
      SortByTotalDescCorrect(m[1..]);
      var s := SortByTotalDesc(m[1..]);
      InsertPermutes(m[0], s);
      assert m == [m[0]] + m[1..];
      InsertDescending(m[0], s);
      forall v ensures WithTotal(SortByTotalDesc(m), v) == WithTotal(m, v) {
        InsertStable(m[0], s, v);
      }
    }
  }
}
