/** The scanning half of the inventory page (src/pages/InventoryPage.js):
    the scan handler with its cache lookup, remote fallback and optimistic
    update, the removal and clearing of scans, the brand and category
    filter toggles and the search filter. The page's component state is
    the class `InventoryPage`; every backend call is an input of the
    method that makes it. */
module Inventory {
  import opened Wrappers
  import opened Text
  import opened Records
  import opened Reconciliation

  /** `products.find(p => p.normalizedCode === code)`, as the position of
      the first match. */
  function FindByCode(ps: seq<LiveProduct>, code: string): (r: Option<nat>)
    ensures r.Some? ==> r.value < |ps| && ps[r.value].normalizedCode == code
    ensures r.Some? ==> forall j :: 0 <= j < r.value ==> ps[j].normalizedCode != code
    ensures r.None? ==> forall j :: 0 <= j < |ps| ==> ps[j].normalizedCode != code
  {
    if ps == [] then None
    else if ps[0].normalizedCode == code then Some(0)
    else
      match FindByCode(ps[1..], code)
      case None => None
      case Some(k) => Some(k + 1)
  }

  /** How a scan ended: the code resolved to no product (nothing was
      written), the scan insert failed, or the scan of `productId` was
      recorded. */
  datatype ScanOutcome = NotFound | RecordingFailed | Recorded(productId: nat)

  /** A product found by the remote lookup, as the page appends it:
      `{ ...dbProduct, normalizedCode, current_quantity: initial_quantity }`,
      without normalised brand and category. */
  function Appended(p: Product, code: string): LiveProduct {
    LiveProduct(p, p.initialQuantity, None, None, code)
  }

  /** What `handleScanProduct(code)` does to the product list, given the
      answer of the remote lookup (made only on a cache miss) and whether
      the scan insert succeeded. */
  function ScanStep(ps: seq<LiveProduct>, code: string, lookup: Option<Product>, inserted: bool)
    : (r: (seq<LiveProduct>, ScanOutcome))
    ensures var hit := FindByCode(ps, NormalizeCode(Some(code))).Some?;
      && (r.1.NotFound? <==> !hit && lookup.None?)
      && (r.1.RecordingFailed? <==> (hit || lookup.Some?) && !inserted)
      && (r.1.Recorded? <==> (hit || lookup.Some?) && inserted)
    ensures r.1.NotFound? ==> r.0 == ps
    ensures !r.1.Recorded? ==> |ps| <= |r.0| <= |ps| + 1 && r.0[..|ps|] == ps
    ensures r.1.Recorded? ==> |ps| <= |r.0| <= |ps| + 1 && r.0[..|ps|] == Bump(ps, r.1.productId)
    ensures !r.1.NotFound? ==> FindByCode(r.0, NormalizeCode(Some(code))).Some?
    ensures var f := FindByCode(ps, NormalizeCode(Some(code)));
      f.Some? ==>
        && |r.0| == |ps|
        && (r.1.Recorded? ==> r.1.productId == ps[f.value].product.id
                              && r.0[f.value].currentQuantity == ps[f.value].currentQuantity + 1)
    ensures var c := NormalizeCode(Some(code));
      FindByCode(ps, c).None? && lookup.Some? ==>
        && |r.0| == |ps| + 1
        && r.0[|ps|] == Appended(lookup.value, c).(currentQuantity := lookup.value.initialQuantity + (if inserted then 1 else 0))
        && (r.1.Recorded? ==> r.1.productId == lookup.value.id)
  {
    var code' := NormalizeCode(Some(code));
    match FindByCode(ps, code')
    case Some(k) =>
      BumpFrame(ps, ps[k].product.id);
      if inserted then (Bump(ps, ps[k].product.id), Recorded(ps[k].product.id)) else (ps, RecordingFailed)
    case None =>
      match lookup
      case None => (ps, NotFound)
      case Some(p) =>
        var ps' := ps + [Appended(p, code')];
        assert ps'[..|ps|] == ps && ps'[|ps|].normalizedCode == code';
        BumpAppend(ps, Appended(p, code'), p.id);
        BumpFrame(ps', p.id);
        if inserted then (Bump(ps', p.id), Recorded(p.id)) else (ps', RecordingFailed)
  }

  /** The list a scan of `code` works on: the product list, with the
      remote lookup's product appended on a cache miss. */
  function ScanBase(ps: seq<LiveProduct>, code: string, lookup: Option<Product>): seq<LiveProduct> {
    var c := NormalizeCode(Some(code));
    if FindByCode(ps, c).Some? || lookup.None? then ps else ps + [Appended(lookup.value, c)]
  }

  /** The page applies the corrected update `Bump`. A recorded scan gives
      the list that `(p.current_quantity || p.initial_quantity) + 1`
      gives exactly when no row of the scanned product shows 0 while its
      initial quantity is not 0. */
  lemma {:induction false} ScanStepAsWritten(ps: seq<LiveProduct>, code: string, lookup: Option<Product>, inserted: bool)
    ensures var r := ScanStep(ps, code, lookup, inserted);
      var base := ScanBase(ps, code, lookup);
      r.1.Recorded? ==>
        (r.0 == BumpAsWritten(base, r.1.productId) <==>
         forall i :: 0 <= i < |base| && base[i].product.id == r.1.productId ==>
           base[i].currentQuantity != 0 || base[i].product.initialQuantity == 0)
  {
    var r := ScanStep(ps, code, lookup, inserted);
    var base := ScanBase(ps, code, lookup);
    if r.1.Recorded? {
      assert r.0 == Bump(base, r.1.productId);
      BumpAsWrittenAgrees(base, r.1.productId);
    }
  }

  /** `prev.filter(b => b !== v)`. */
  function RemoveAll(s: seq<string>, v: string): (r: seq<string>)
    ensures v !in r
    ensures forall x :: x != v ==> (x in r <==> x in s)
    ensures NoDup(s) ==> NoDup(r)
    ensures IsSubseq(r, s)
  {
    if s == [] then []
    else
      var rest := RemoveAll(s[1..], v);
      if s[0] == v then rest
      else
        var r := [s[0]] + rest;
        assert r[1..] == rest;
        assert NoDup(s) ==> s[0] !in s[1..] by {
          if NoDup(s) {
            assert forall k :: 0 <= k < |s| - 1 ==> s[1..][k] == s[k + 1] != s[0];
          }
        }
        assert NoDup(s) ==> NoDup(r) by {
          if NoDup(s) {
            assert forall k :: 0 <= k < |rest| ==> r[k + 1] == rest[k] && rest[k] in s[1..];
          }
        }
        r
  }

  lemma {:induction false} RemoveAllAbsent(s: seq<string>, v: string)
    requires v !in s
    ensures RemoveAll(s, v) == s
  {
    if s != [] {
      RemoveAllAbsent(s[1..], v);
    }
  }

  lemma {:induction false} RemoveAllAppend(s: seq<string>, v: string)
    ensures RemoveAll(s + [v], v) == RemoveAll(s, v)
  {
    if s == [] {
      assert [v][1..] == [];
    } else {
      assert (s + [v])[1..] == s[1..] + [v];
      RemoveAllAppend(s[1..], v);
    }
  }

  /** `handleToggleBrandFilter` / `handleToggleCategoryFilter`: remove the
      value if it is selected, append it otherwise. */
  function Toggle(sel: seq<string>, v: string): (r: seq<string>)
    ensures v in r <==> v !in sel
    ensures forall x :: x != v ==> (x in r <==> x in sel)
    ensures NoDup(sel) ==> NoDup(r)
  {
    if v in sel then RemoveAll(sel, v) else sel + [v]
  }

  /** Toggling a value twice restores its membership and everyone
      else's; when the value was not selected, the list comes back as it
      was. */
  lemma {:induction false} ToggleTwice(sel: seq<string>, v: string)
    ensures forall x :: x in Toggle(Toggle(sel, v), v) <==> x in sel
    ensures v !in sel ==> Toggle(Toggle(sel, v), v) == sel
  {
    if v !in sel {
      RemoveAllAppend(sel, v);
      RemoveAllAbsent(sel, v);
    }
  }

  /** The callback of `filteredProducts`: the search term (normalised)
      occurs in the code, the name, the brand or the category, and the
      product passes the brand and category selections (an empty selection
      passes everything). */
  predicate Matches(p: LiveProduct, search: string, brands: seq<string>, categories: seq<string>) {
    var q := NormalizeString(Some(search));
    && (|| Contains(NormalizeString(Some(p.product.code)), q)
        || Contains(NormalizeString(p.product.name), q)
        || (p.normalizedBrand.Some? && Contains(p.normalizedBrand.value, q))
        || (p.normalizedCategory.Some? && Contains(p.normalizedCategory.value, q)))
    && (|brands| == 0 || (p.normalizedBrand.Some? && p.normalizedBrand.value in brands))
    && (|categories| == 0 || (p.normalizedCategory.Some? && p.normalizedCategory.value in categories))
  }

  /** `products.filter(...)`: the matching products, in their order. */
  function Filter(ps: seq<LiveProduct>, search: string, brands: seq<string>, categories: seq<string>)
    : (r: seq<LiveProduct>)
    ensures IsSubseq(r, ps)
    ensures forall i :: 0 <= i < |r| ==> Matches(r[i], search, brands, categories)
    ensures forall i :: 0 <= i < |ps| && Matches(ps[i], search, brands, categories) ==> ps[i] in r
  {
    if ps == [] then []
    else
      var rest := Filter(ps[1..], search, brands, categories);
      if Matches(ps[0], search, brands, categories) then [ps[0]] + rest else rest
  }

  /** The filter keeps every matching product as often as it occurs, and
      no other product. */
  lemma {:induction false} FilterCount(ps: seq<LiveProduct>, search: string, brands: seq<string>,
                                       categories: seq<string>, x: LiveProduct)
    ensures multiset(Filter(ps, search, brands, categories))[x]
         == if Matches(x, search, brands, categories) then multiset(ps)[x] else 0
  {
    if ps != [] {
      FilterCount(ps[1..], search, brands, categories, x);
      assert ps == [ps[0]] + ps[1..];
    }
  }

  /** With a blank search term and nothing selected, every product is
      shown, in order. */
  lemma {:induction false} FilterShowsAll(ps: seq<LiveProduct>, search: string)
    requires AllSpace(search)
    ensures Filter(ps, search, [], []) == ps
  {
    TrimEmptyIffAllSpace(search);
    if ps != [] {
      FilterShowsAll(ps[1..], search);
      assert Matches(ps[0], search, [], []);
    }
  }

  /** `if (v) set.add(v)` on an insertion-ordered set. */
  method AddToSet(keys: seq<string>, v: string) returns (r: seq<string>)
    ensures r == AddKey(keys, v)
  {
    r := keys;
    if v != "" && v !in keys {
      r := keys + [v];
    }
  }

  /** The loop of `fetchProducts` over the product rows: each row is
      reconciled against all scans, and its normalised brand and category
      join the insertion-ordered sets when non-empty and new. */
  method LoadProducts(ps: seq<Product>, scans: seq<ScanEvent>)
    returns (reconciled: seq<LiveProduct>, brandSet: seq<string>, categorySet: seq<string>)
    ensures reconciled == ReconcileAll(ps, scans)
    ensures brandSet == DistinctNonEmpty(BrandKeys(ps))
    ensures categorySet == DistinctNonEmpty(CategoryKeys(ps))
  {
    brandSet := [];
    categorySet := [];
    reconciled := [];
    var i := 0;
    while i < |ps|
      invariant 0 <= i <= |ps|
      invariant reconciled == ReconcileAll(ps[..i], scans)
      invariant brandSet == DistinctNonEmpty(BrandKeys(ps[..i]))
      invariant categorySet == DistinctNonEmpty(CategoryKeys(ps[..i]))
    {
      var p := ps[i];
      LoadStep(ps, scans, i);
      var normalizedBrand := NormalizeString(p.brand);
      var normalizedCategory := NormalizeString(p.category);
      brandSet := AddToSet(brandSet, normalizedBrand);
      categorySet := AddToSet(categorySet, normalizedCategory);
      var current := p.initialQuantity + ScannedFor(scans, p.id);
      var live := LiveProduct(p, current, Some(normalizedBrand), Some(normalizedCategory), NormalizeCode(Some(p.code)));
      assert live == Reconciled(p, scans);
      reconciled := reconciled + [live];
      i := i + 1;
    }
    assert ps[..|ps|] == ps;
  }

  function Max(a: int, b: int): int {
    if a >= b then a else b
  }

  /** A product is keyed by its normalised code (the key `find` uses). */
  predicate Keyed(p: LiveProduct) {
    p.normalizedCode == NormalizeCode(Some(p.product.code))
  }

  predicate AllKeyed(ps: seq<LiveProduct>) {
    forall i {:trigger Keyed(ps[i])} :: 0 <= i < |ps| ==> Keyed(ps[i])
  }

  lemma {:induction false} ReconcileAllKeyed(ps: seq<Product>, scans: seq<ScanEvent>)
    ensures AllKeyed(ReconcileAll(ps, scans))
  {
  }

  lemma {:induction false} BumpKeyed(ps: seq<LiveProduct>, id: nat)
    requires AllKeyed(ps)
    ensures AllKeyed(Bump(ps, id))
  {
    forall i | 0 <= i < |ps| ensures Keyed(Bump(ps, id)[i]) {
      assert Keyed(ps[i]);
    }
  }

  /** A product fetched by its normalised code and appended under that
      code is keyed. */
  lemma {:induction false} AppendKeyed(ps: seq<LiveProduct>, p: Product, code: string)
    requires AllKeyed(ps)
    requires p.code == NormalizeCode(Some(code))
    ensures AllKeyed(ps + [Appended(p, NormalizeCode(Some(code)))])
  {
    var ps' := ps + [Appended(p, NormalizeCode(Some(code)))];
    NormalizeCodeIdempotent(Some(code));
    assert Keyed(ps'[|ps|]);
    assert forall i :: 0 <= i < |ps| ==> ps'[i] == ps[i];
  }

  /** A scan keeps every product keyed by its normalised code. */
  lemma {:induction false} ScanStepKeyed(ps: seq<LiveProduct>, code: string, lookup: Option<Product>, inserted: bool)
    requires AllKeyed(ps)
    requires lookup.Some? ==> lookup.value.code == NormalizeCode(Some(code))
    ensures AllKeyed(ScanStep(ps, code, lookup, inserted).0)
  {
    var c := NormalizeCode(Some(code));
    var r := ScanStep(ps, code, lookup, inserted).0;
    match FindByCode(ps, c)
    case Some(k) =>
      var id := ps[k].product.id;
      assert r == if inserted then Bump(ps, id) else ps;
      BumpKeyed(ps, id);
    case None =>
      if lookup.Some? {
        var ps' := ps + [Appended(lookup.value, c)];
        assert r == if inserted then Bump(ps', lookup.value.id) else ps';
        AppendKeyed(ps, lookup.value, code);
        BumpKeyed(ps', lookup.value.id);
      } else {
        assert r == ps;
      }
  }

  /** The component state of the inventory page. */
  class InventoryPage {
    var products: seq<LiveProduct>
    var totalScannedCount: int
    var searchTerm: string
    var selectedBrands: seq<string>
    var selectedCategories: seq<string>
    var allBrands: seq<string>
    var allCategories: seq<string>

    /** Selections and filter sets hold each value once, the filter sets
        never "", and every product's lookup key is its normalised code. */
    ghost predicate Valid()
      reads this
    {
      && NoDup(selectedBrands) && NoDup(selectedCategories)
      && NoDup(allBrands) && NoDup(allCategories)
      && "" !in allBrands && "" !in allCategories
      && AllKeyed(products)
    }

    /** The state after a `fetchProducts` whose product query answered `ps`
        and whose scan query answered `scans` (an error counts as none). */
    ghost predicate Loaded(ps: seq<Product>, scans: seq<ScanEvent>)
      reads this
    {
      && products == ReconcileAll(ps, scans)
      && totalScannedCount == TotalQuantity(scans)
      && allBrands == DistinctNonEmpty(BrandKeys(ps))
      && allCategories == DistinctNonEmpty(CategoryKeys(ps))
    }

    constructor ()
      ensures Valid()
      ensures products == [] && totalScannedCount == 0 && searchTerm == ""
      ensures selectedBrands == [] && selectedCategories == [] && allBrands == [] && allCategories == []
    {
      products := [];
      totalScannedCount := 0;
      searchTerm := "";
      selectedBrands := [];
      selectedCategories := [];
      allBrands := [];
      allCategories := [];
    }

    /** `fetchProducts`: a failed product query changes nothing; otherwise
        every product is reconciled against all scans, the running total
        is the sum of all scans, and the brand and category sets are
        rebuilt. */
    method FetchProducts(productsReply: Option<seq<Product>>, scansReply: Option<seq<ScanEvent>>)
      requires Valid()
      modifies this
      ensures Valid()
      ensures productsReply.None? ==> unchanged(this)
      ensures productsReply.Some? ==> Loaded(productsReply.value, scansReply.GetOr([]))
      ensures searchTerm == old(searchTerm)
      ensures selectedBrands == old(selectedBrands) && selectedCategories == old(selectedCategories)
    {
      if productsReply.None? {
        return;
      }
      var ps := productsReply.value;
      var scans := scansReply.GetOr([]);
      totalScannedCount := TotalQuantity(scans);
      var reconciled, brandSet, categorySet := LoadProducts(ps, scans);
      ReconcileAllKeyed(ps, scans);
      products := reconciled;
      allBrands := brandSet;
      allCategories := categorySet;
    }

    /** `handleScanProduct(code)`: look the normalised code up in the
        product list; on a miss use the remote lookup's answer (`None` when
        it failed or found nothing) and append the product found; then
        record a scan (`inserted` is the insert's success) and, when it is
        recorded, add one to the running total and to that product. */
    method ScanProduct(code: string, lookup: Option<Product>, inserted: bool) returns (outcome: ScanOutcome)
      requires Valid()
      requires lookup.Some? ==> lookup.value.code == NormalizeCode(Some(code))
      modifies this
      ensures Valid()
      ensures (products, outcome) == ScanStep(old(products), code, lookup, inserted)
      ensures totalScannedCount == old(totalScannedCount) + (if outcome.Recorded? then 1 else 0)
      ensures searchTerm == old(searchTerm) && allBrands == old(allBrands) && allCategories == old(allCategories)
      ensures selectedBrands == old(selectedBrands) && selectedCategories == old(selectedCategories)
    {
      ScanStepKeyed(products, code, lookup, inserted);
      var normalizedCode := NormalizeCode(Some(code));
      var found := FindByCode(products, normalizedCode);
      var ps := products;
      var id: nat;
      if found.None? {
        if lookup.None? {
          outcome := NotFound;
          return;
        }
        id := lookup.value.id;
        ps := ps + [Appended(lookup.value, normalizedCode)];
      } else {
        id := ps[found.value].product.id;
      }
      if !inserted {
        outcome := RecordingFailed;
        products := ps;
        return;
      }
      totalScannedCount := totalScannedCount + 1;
      products := Bump(ps, id);
      outcome := Recorded(id);
    }

    /** `handleRemoveScan`: after confirmation and a successful delete the
        running total drops by one, never below 0, and the page then
        reloads (`fetchProducts`), which replaces it when the product query
        answers. */
    method RemoveScan(confirmed: bool, deleted: bool,
                      productsReply: Option<seq<Product>>, scansReply: Option<seq<ScanEvent>>)
      requires Valid()
      modifies this
      ensures Valid()
      ensures !(confirmed && deleted) ==> unchanged(this)
      ensures confirmed && deleted && productsReply.None? ==>
        && products == old(products)
        && totalScannedCount == Max(0, old(totalScannedCount) - 1)
        && allBrands == old(allBrands) && allCategories == old(allCategories)
      ensures confirmed && deleted && productsReply.Some? ==>
        Loaded(productsReply.value, scansReply.GetOr([]))
      ensures searchTerm == old(searchTerm)
      ensures selectedBrands == old(selectedBrands) && selectedCategories == old(selectedCategories)
    {
      if !confirmed || !deleted {
        return;
      }
      totalScannedCount := Max(0, totalScannedCount - 1);
      FetchProducts(productsReply, scansReply);
    }

    /** `handleClearScans`: after confirmation and a successful bulk delete
        the running total is 0 and the page reloads. */
    method ClearScans(confirmed: bool, deleted: bool,
                      productsReply: Option<seq<Product>>, scansReply: Option<seq<ScanEvent>>)
      requires Valid()
      modifies this
      ensures Valid()
      ensures !(confirmed && deleted) ==> unchanged(this)
      ensures confirmed && deleted && productsReply.None? ==>
        && products == old(products) && totalScannedCount == 0
        && allBrands == old(allBrands) && allCategories == old(allCategories)
      ensures confirmed && deleted && productsReply.Some? ==>
        Loaded(productsReply.value, scansReply.GetOr([]))
      ensures searchTerm == old(searchTerm)
      ensures selectedBrands == old(selectedBrands) && selectedCategories == old(selectedCategories)
    {
      if !confirmed || !deleted {
        return;
      }
      totalScannedCount := 0;
      FetchProducts(productsReply, scansReply);
    }

    method ToggleBrandFilter(brand: string)
      requires Valid()
      modifies this`selectedBrands
      ensures Valid()
      ensures selectedBrands == Toggle(old(selectedBrands), brand)
    {
      selectedBrands := Toggle(selectedBrands, brand);
    }

    method ToggleCategoryFilter(category: string)
      requires Valid()
      modifies this`selectedCategories
      ensures Valid()
      ensures selectedCategories == Toggle(old(selectedCategories), category)
    {
      selectedCategories := Toggle(selectedCategories, category);
    }

    /** The search box's `onChange`. */
    method SetSearchTerm(term: string)
      requires Valid()
      modifies this`searchTerm
      ensures Valid() && searchTerm == term
    {
      searchTerm := term;
    }

    /** `clearFilters`: after it every product is shown again. */
    method ClearFilters()
      requires Valid()
      modifies this`selectedBrands, this`selectedCategories, this`searchTerm
      ensures Valid()
      ensures selectedBrands == [] && selectedCategories == [] && searchTerm == ""
      ensures FilteredProducts() == products
    {
      selectedBrands := [];
      selectedCategories := [];
      searchTerm := "";
      FilterShowsAll(products, searchTerm);
    }

    /** `filteredProducts`. */
    function FilteredProducts(): (r: seq<LiveProduct>)
      reads this
      ensures IsSubseq(r, products)
    {
      Filter(products, searchTerm, selectedBrands, selectedCategories)
    }
  }
}
