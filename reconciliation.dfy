/** The pure part of the inventory page (src/pages/InventoryPage.js): the
    two normalisers, the reconciliation of every product's current
    quantity from all scans, the brand and category sets offered as
    filters, and the optimistic one-product update applied after a scan. */
module Reconciliation {
  import opened Wrappers
  import opened Text
  import opened Records

  /** `normalizeCode`: `(code || '').toString().trim().toUpperCase()`. */
  function NormalizeCode(code: Option<string>): string {
    ToUpper(Trim(code.GetOr("")))
  }

  /** `normalizeString`: `(str || '').toString().trim().toLowerCase()`. */
  function NormalizeString(str: Option<string>): string {
    ToLower(Trim(str.GetOr("")))
  }

  /** A normalised code has no surrounding spaces, no lower-case letter,
      and is no longer than the input. */
  lemma {:induction false} NormalizeCodeFacts(code: Option<string>)
    ensures var r := NormalizeCode(code);
      IsTrimmed(r) && HasNoLower(r) && |r| <= |code.GetOr("")|
  {
    var t := Trim(code.GetOr(""));
    TrimFacts(code.GetOr(""));
    ToUpperFacts(t);
  }

  /** A normalised string has no surrounding spaces, no upper-case letter,
      and is no longer than the input. */
  lemma {:induction false} NormalizeStringFacts(str: Option<string>)
    ensures var r := NormalizeString(str);
      IsTrimmed(r) && HasNoUpper(r) && |r| <= |str.GetOr("")|
  {
    var t := Trim(str.GetOr(""));
    TrimFacts(str.GetOr(""));
    ToLowerFacts(t);
  }

  /** A `null` or `undefined` code or string normalises to "". */
  lemma {:induction false} NormalizeAbsent()
    ensures NormalizeCode(None) == "" && NormalizeString(None) == ""
  {
  }

  /** Normalising a normalised code changes nothing. */
  lemma {:induction false} NormalizeCodeIdempotent(code: Option<string>)
    ensures NormalizeCode(Some(NormalizeCode(code))) == NormalizeCode(code)
  {
    var t := Trim(code.GetOr(""));
    TrimFacts(code.GetOr(""));
    ToUpperFacts(t);
    TrimTrimmed(ToUpper(t));
  }

  lemma {:induction false} NormalizeStringIdempotent(str: Option<string>)
    ensures NormalizeString(Some(NormalizeString(str))) == NormalizeString(str)
  {
    var t := Trim(str.GetOr(""));
    TrimFacts(str.GetOr(""));
    ToLowerFacts(t);
    TrimTrimmed(ToLower(t));
  }

  /** A scanned " abc " looks up "ABC". */
  lemma {:induction false} NormalizeCodeExample()
    ensures NormalizeCode(Some(" abc ")) == "ABC"
  {
    assert TrimStart(" abc ") == "abc " by {
      assert IsSpace(' ') && !IsSpace('a');
      assert " abc "[1..] == "abc ";
    }
    assert TrimEnd("abc ") == "abc" by {
      assert IsSpace(' ') && !IsSpace('c');
      assert "abc "[..3] == "abc";
    }
    assert Trim(" abc ") == "abc";
    assert ToUpper("abc") == "ABC";
  }

  /** A product as the page holds it: the row, its reconciled
      `current_quantity` and the normalised keys. `None` stands for a key
      the page never set (a product appended after a cache miss). */
  datatype LiveProduct = LiveProduct(
    product: Product,
    currentQuantity: int,
    normalizedBrand: Option<string>,
    normalizedCategory: Option<string>,
    normalizedCode: string)

  /** The `productsData.map` callback of `fetchProducts`. */
  function Reconciled(p: Product, scans: seq<ScanEvent>): LiveProduct {
    LiveProduct(p, p.initialQuantity + ScannedFor(scans, p.id),
                Some(NormalizeString(p.brand)), Some(NormalizeString(p.category)),
                NormalizeCode(Some(p.code)))
  }

  /** `productsData.map(...)`, one reconciled product per row, in order. */
  function ReconcileAll(ps: seq<Product>, scans: seq<ScanEvent>): (r: seq<LiveProduct>)
    ensures |r| == |ps|
    ensures forall j :: 0 <= j < |ps| ==> r[j] == Reconciled(ps[j], scans)
  {
    if ps == [] then []
    else
      var init := ps[..|ps| - 1];
      assert forall j :: 0 <= j < |init| ==> init[j] == ps[j];
      ReconcileAll(init, scans) + [Reconciled(ps[|ps| - 1], scans)]
  }

  /** With no scans left (after "clear scans"), reconciliation gives every
      product back its initial quantity. */
  lemma {:induction false} ReconcileWithoutScans(ps: seq<Product>)
    ensures forall i :: 0 <= i < |ps| ==> ReconcileAll(ps, [])[i].currentQuantity == ps[i].initialQuantity
  {
  }

  /** Reconciling after one scan is deleted gives what reconciling with the
      scan gave, less that scan's quantity on its own product only. */
  lemma {:induction false} ReconcileAfterDelete(ps: seq<Product>, scans: seq<ScanEvent>, k: nat)
    requires k < |scans|
    ensures var after := ReconcileAll(ps, scans[..k] + scans[k + 1..]);
      forall i :: 0 <= i < |ps| ==>
        after[i].currentQuantity == ReconcileAll(ps, scans)[i].currentQuantity
                                    - (if scans[k].productId == ps[i].id then scans[k].quantity else 0)
  {
    forall i | 0 <= i < |ps| {
      ScannedForRemove(scans, k, ps[i].id);
    }
  }

  /** The optimistic update applied after a recorded scan: the product
      with id `id` gains one unit, every other product is kept. */
  function Bump(ps: seq<LiveProduct>, id: nat): (r: seq<LiveProduct>)
    ensures |r| == |ps|
  {
    seq(|ps|, i requires 0 <= i < |ps| =>
      if ps[i].product.id == id then ps[i].(currentQuantity := ps[i].currentQuantity + 1) else ps[i])
  }

  /** A bump changes only current quantities: one unit more for the
      products with that id, nothing for the others. */
  lemma {:induction false} BumpFrame(ps: seq<LiveProduct>, id: nat)
    ensures forall i :: 0 <= i < |ps| ==>
      && Bump(ps, id)[i] == ps[i].(currentQuantity := Bump(ps, id)[i].currentQuantity)
      && Bump(ps, id)[i].currentQuantity == ps[i].currentQuantity + (if ps[i].product.id == id then 1 else 0)
  {
  }

  /** Bumping a list with one more product bumps the old ones alike. */
  lemma {:induction false} BumpAppend(ps: seq<LiveProduct>, x: LiveProduct, id: nat)
    ensures Bump(ps + [x], id)[..|ps|] == Bump(ps, id)
  {
  }

  /** The optimistic update as the page writes it:
      `(p.current_quantity || p.initial_quantity) + 1`, where a current
      quantity of 0 counts as absent. */
  function BumpAsWritten(ps: seq<LiveProduct>, id: nat): (r: seq<LiveProduct>)
    ensures |r| == |ps|
  {
    seq(|ps|, i requires 0 <= i < |ps| =>
      if ps[i].product.id == id then
        ps[i].(currentQuantity := (if ps[i].currentQuantity != 0 then ps[i].currentQuantity
                                   else ps[i].product.initialQuantity) + 1)
      else ps[i])
  }

  /** The optimistic update agrees with a full reconciliation that
      includes the new one-unit scan: the local view stays exact. */
  lemma {:induction false} BumpMatchesReconcile(ps: seq<Product>, scans: seq<ScanEvent>, e: ScanEvent)
    requires e.quantity == 1
    ensures ReconcileAll(ps, scans + [e]) == Bump(ReconcileAll(ps, scans), e.productId)
  {
    forall i | 0 <= i < |ps|
      ensures ReconcileAll(ps, scans + [e])[i] == Bump(ReconcileAll(ps, scans), e.productId)[i]
    {
      ScannedForAppend(scans, e, ps[i].id);
    }
  }

  /** The update as written differs from the intended one only for a
      product whose current quantity is 0 while its initial quantity is
      not. */
  lemma {:induction false} BumpAsWrittenAgrees(ps: seq<LiveProduct>, id: nat)
    ensures (forall i :: 0 <= i < |ps| && ps[i].product.id == id ==>
               ps[i].currentQuantity != 0 || ps[i].product.initialQuantity == 0)
            <==> BumpAsWritten(ps, id) == Bump(ps, id)
  {
    if BumpAsWritten(ps, id) == Bump(ps, id) {
      forall i | 0 <= i < |ps| && ps[i].product.id == id
        ensures ps[i].currentQuantity != 0 || ps[i].product.initialQuantity == 0
      {
        assert BumpAsWritten(ps, id)[i] == Bump(ps, id)[i];
      }
    }
  }

  /** A product with initial quantity 2 and one correcting scan of -2
      shows 0; the next scan, as written, shows 3 where reconciliation
      gives 1. */
  lemma {:induction false} BumpAsWrittenDiverges()
    ensures var ps := [Product(1, "A", None, None, None, 2)];
            var scans := [ScanEvent(1, 1, -2, 0)];
            var e := ScanEvent(2, 1, 1, 1);
            && ReconcileAll(ps, scans)[0].currentQuantity == 0
            && BumpAsWritten(ReconcileAll(ps, scans), 1)[0].currentQuantity == 3
            && ReconcileAll(ps, scans + [e])[0].currentQuantity == 1
  {
    var ps := [Product(1, "A", None, None, None, 2)];
    var scans := [ScanEvent(1, 1, -2, 0)];
    var e := ScanEvent(2, 1, 1, 1);
    assert ScansOf(scans, 1) == scans by {
      assert scans[1..] == [];
    }
    assert ScansOf([e], 1) == [e] by {
      assert [e][1..] == [];
    }
    ScansOfAppend(scans, [e], 1);
    assert TotalQuantity(scans) == -2 by {
      assert scans[1..] == [];
    }
    assert TotalQuantity(scans + [e]) == -1 by {
      assert (scans + [e])[1..] == [e];
      assert [e][1..] == [];
    }
    assert ReconcileAll(ps, scans)[0].currentQuantity == 0;
  }

  /** `brandSet.add(v)` guarded by `if (v)`: a non-empty key joins the
      insertion-ordered set unless it is already there. */
  function AddKey(keys: seq<string>, v: string): seq<string> {
    if v == "" || v in keys then keys else keys + [v]
  }

  /** `[...set]` after adding each of `vs` in turn: each non-empty value
      once, never "". */
  function DistinctNonEmpty(vs: seq<string>): (r: seq<string>)
    ensures NoDup(r)
    ensures "" !in r
    ensures forall x :: x in r <==> x != "" && x in vs
  {
    if vs == [] then []
    else
      var r := DistinctNonEmpty(vs[..|vs| - 1]);
      assert vs == vs[..|vs| - 1] + [vs[|vs| - 1]];
      AddKey(r, vs[|vs| - 1])
  }

  /** The first position of `x` in `vs`. */
  function IndexOf(vs: seq<string>, x: string): (k: nat)
    requires x in vs
    ensures k < |vs| && vs[k] == x
    ensures forall j :: 0 <= j < k ==> vs[j] != x
  {
    if vs[0] == x then 0 else 1 + IndexOf(vs[1..], x)
  }

  /** Appending leaves the first position of an element already present. */
  lemma {:induction false} IndexOfSnoc(init: seq<string>, v: string, x: string)
    requires x in init
    ensures IndexOf(init + [v], x) == IndexOf(init, x)
  {
    var vs := init + [v];
    var b := IndexOf(init, x);
    assert vs[b] == x;
    assert forall k :: 0 <= k < b ==> vs[k] == init[k] != x;
  }

  /** The distinct keys come in the order of their first occurrence. */
  lemma {:induction false} DistinctNonEmptyOrder(vs: seq<string>)
    ensures forall i, j :: 0 <= i < j < |DistinctNonEmpty(vs)| ==>
      IndexOf(vs, DistinctNonEmpty(vs)[i]) < IndexOf(vs, DistinctNonEmpty(vs)[j])
  {
    if vs != [] {
      var init := vs[..|vs| - 1];
      var v := vs[|vs| - 1];
      assert vs == init + [v];
      DistinctNonEmptyOrder(init);
      var r0 := DistinctNonEmpty(init);
      var r := DistinctNonEmpty(vs);
      assert r == r0 || (r == r0 + [v] && v !in init);
      forall i, j | 0 <= i < j < |r| ensures IndexOf(vs, r[i]) < IndexOf(vs, r[j]) {
        assert r[i] == r0[i] && r0[i] in init;
        IndexOfSnoc(init, v, r0[i]);
        if j < |r0| {
          assert r[j] == r0[j] && r0[j] in init;
          IndexOfSnoc(init, v, r0[j]);
        } else {
          assert r == r0 + [v] && v !in init && r[j] == v;
          assert IndexOf(vs, v) == |init|;
        }
      }
    }
  }

  /** The normalised brand of each product: the values `allBrands` is
      built from. */
  function BrandKeys(ps: seq<Product>): (r: seq<string>)
    ensures |r| == |ps|
    ensures forall j :: 0 <= j < |ps| ==> r[j] == NormalizeString(ps[j].brand)
  {
    if ps == [] then [] else BrandKeys(ps[..|ps| - 1]) + [NormalizeString(ps[|ps| - 1].brand)]
  }

  function CategoryKeys(ps: seq<Product>): (r: seq<string>)
    ensures |r| == |ps|
    ensures forall j :: 0 <= j < |ps| ==> r[j] == NormalizeString(ps[j].category)
  {
    if ps == [] then [] else CategoryKeys(ps[..|ps| - 1]) + [NormalizeString(ps[|ps| - 1].category)]
  }

  /** One more product read: the reconciled list and both key sets grow
      by that product alone (the step of `fetchProducts`' loop). */
  lemma {:induction false} LoadStep(ps: seq<Product>, scans: seq<ScanEvent>, i: nat)
    requires i < |ps|
    ensures ReconcileAll(ps[..i + 1], scans) == ReconcileAll(ps[..i], scans) + [Reconciled(ps[i], scans)]
    ensures DistinctNonEmpty(BrandKeys(ps[..i + 1]))
         == AddKey(DistinctNonEmpty(BrandKeys(ps[..i])), NormalizeString(ps[i].brand))
    ensures DistinctNonEmpty(CategoryKeys(ps[..i + 1]))
         == AddKey(DistinctNonEmpty(CategoryKeys(ps[..i])), NormalizeString(ps[i].category))
  {
    var pre := ps[..i + 1];
    assert pre[..i] == ps[..i] && pre[i] == ps[i];
    var b := BrandKeys(pre);
    assert b == BrandKeys(ps[..i]) + [NormalizeString(ps[i].brand)];
    assert b[..|b| - 1] == BrandKeys(ps[..i]);
    var c := CategoryKeys(pre);
    assert c == CategoryKeys(ps[..i]) + [NormalizeString(ps[i].category)];
    assert c[..|c| - 1] == CategoryKeys(ps[..i]);
  }
}
