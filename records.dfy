/** The two backend rows the pages work on, a product and an inventory
    scan, and the sums of `scanned_quantity` that every page computes
    with `filter(scan => scan.product_id === id)` and
    `reduce((sum, scan) => sum + scan.scanned_quantity, 0)`. */
module Records {
  import opened Wrappers
  import opened Text

  /** A row of the `products` table. Cost and price are left out (they are
      floating point); a `null` text column is `None`. */
  datatype Product = Product(
    id: nat,
    code: string,
    name: Option<string>,
    brand: Option<string>,
    category: Option<string>,
    initialQuantity: int)

  /** A row of the `inventory_scans` table. */
  datatype ScanEvent = ScanEvent(id: nat, productId: nat, quantity: int, scanTime: int)

  /** `scans.reduce((sum, scan) => sum + scan.scanned_quantity, 0)`. */
  function TotalQuantity(scans: seq<ScanEvent>): int {
    if scans == [] then 0 else scans[0].quantity + TotalQuantity(scans[1..])
  }

  lemma {:induction false} TotalQuantityAppend(a: seq<ScanEvent>, b: seq<ScanEvent>)
    ensures TotalQuantity(a + b) == TotalQuantity(a) + TotalQuantity(b)
  {
    if a != [] {
      assert (a + b)[1..] == a[1..] + b;
      TotalQuantityAppend(a[1..], b);
    } else {
      assert a + b == b;
    }
  }

  /** `scans.filter(scan => scan.product_id === pid)`: exactly the scans of
      product `pid`, in their original order. */
  function ScansOf(scans: seq<ScanEvent>, pid: nat): (r: seq<ScanEvent>)
    ensures forall i :: 0 <= i < |r| ==> r[i].productId == pid
    ensures forall i :: 0 <= i < |scans| && scans[i].productId == pid ==> scans[i] in r
    ensures IsSubseq(r, scans)
  {
    if scans == [] then []
    else
      var rest := ScansOf(scans[1..], pid);
      if scans[0].productId == pid then [scans[0]] + rest else rest
  }

  lemma {:induction false} ScansOfAppend(a: seq<ScanEvent>, b: seq<ScanEvent>, pid: nat)
    ensures ScansOf(a + b, pid) == ScansOf(a, pid) + ScansOf(b, pid)
  {
    if a != [] {
      assert (a + b)[1..] == a[1..] + b;
      ScansOfAppend(a[1..], b, pid);
    } else {
      assert a + b == b;
    }
  }

  /** The filter keeps every scan of the product as often as it occurs,
      and no other scan. */
  lemma {:induction false} ScansOfCount(scans: seq<ScanEvent>, pid: nat, x: ScanEvent)
    ensures multiset(ScansOf(scans, pid))[x] == if x.productId == pid then multiset(scans)[x] else 0
  {
    if scans != [] {
      ScansOfCount(scans[1..], pid, x);
      assert scans == [scans[0]] + scans[1..];
    }
  }

  /** The scanned total of product `pid`. */
  function ScannedFor(scans: seq<ScanEvent>, pid: nat): int {
    TotalQuantity(ScansOf(scans, pid))
  }

  /** One more scan changes the scanned total of its own product by its
      quantity and of every other product not at all. */
  lemma {:induction false} ScannedForAppend(scans: seq<ScanEvent>, e: ScanEvent, pid: nat)
    ensures ScannedFor(scans + [e], pid) == ScannedFor(scans, pid) + (if e.productId == pid then e.quantity else 0)
  {
    ScansOfAppend(scans, [e], pid);
    TotalQuantityAppend(ScansOf(scans, pid), ScansOf([e], pid));
  }

  /** Deleting scan `k` takes its quantity off its own product's scanned
      total and leaves every other product's total as it was. */
  lemma {:induction false} ScannedForRemove(scans: seq<ScanEvent>, k: nat, pid: nat)
    requires k < |scans|
    ensures ScannedFor(scans[..k] + scans[k + 1..], pid)
         == ScannedFor(scans, pid) - (if scans[k].productId == pid then scans[k].quantity else 0)
  {
    assert scans == scans[..k] + [scans[k]] + scans[k + 1..];
    ScansOfAppend(scans[..k] + [scans[k]], scans[k + 1..], pid);
    ScansOfAppend(scans[..k], [scans[k]], pid);
    ScansOfAppend(scans[..k], scans[k + 1..], pid);
    TotalQuantityAppend(ScansOf(scans[..k], pid) + ScansOf([scans[k]], pid), ScansOf(scans[k + 1..], pid));
    TotalQuantityAppend(ScansOf(scans[..k], pid), ScansOf([scans[k]], pid));
    TotalQuantityAppend(ScansOf(scans[..k], pid), ScansOf(scans[k + 1..], pid));
  }

  /** Every product has its own id. */
  predicate UniqueIds(ps: seq<Product>) {
    forall i, j :: 0 <= i < j < |ps| ==> ps[i].id != ps[j].id
  }

  function IdSet(ps: seq<Product>): set<nat> {
    set i | 0 <= i < |ps| :: ps[i].id
  }

  /** The scans that reference one of `ids`, in order. */
  function ScansIn(scans: seq<ScanEvent>, ids: set<nat>): (r: seq<ScanEvent>)
    ensures forall i :: 0 <= i < |r| ==> r[i].productId in ids
  {
    if scans == [] then []
    else
      var rest := ScansIn(scans[1..], ids);
      if scans[0].productId in ids then [scans[0]] + rest else rest
  }

  lemma {:induction false} ScansInAll(scans: seq<ScanEvent>, ids: set<nat>)
    requires forall i :: 0 <= i < |scans| ==> scans[i].productId in ids
    ensures ScansIn(scans, ids) == scans
  {
    if scans != [] {
      ScansInAll(scans[1..], ids);
    }
  }

  lemma {:induction false} ScansInSplit(scans: seq<ScanEvent>, pid: nat, ids: set<nat>)
    requires pid !in ids
    ensures TotalQuantity(ScansIn(scans, {pid} + ids))
         == ScannedFor(scans, pid) + TotalQuantity(ScansIn(scans, ids))
  {
    if scans != [] {
      ScansInSplit(scans[1..], pid, ids);
    }
  }

  /** The scanned totals of the products in `ps`, added up. */
  function SumScannedFor(ps: seq<Product>, scans: seq<ScanEvent>): int {
    if ps == [] then 0 else ScannedFor(scans, ps[0].id) + SumScannedFor(ps[1..], scans)
  }

  /** Adding up the products' scanned totals counts every scan whose
      product is in `ps` once, and no other scan. */
  lemma {:induction false} SumScannedForMatched(ps: seq<Product>, scans: seq<ScanEvent>)
    requires UniqueIds(ps)
    ensures SumScannedFor(ps, scans) == TotalQuantity(ScansIn(scans, IdSet(ps)))
  {
    if ps == [] {
      assert IdSet(ps) == {};
      ScansInEmpty(scans);
    } else {
      var rest := ps[1..];
      assert IdSet(ps) == {ps[0].id} + IdSet(rest) by {
        forall x | x in IdSet(ps) ensures x in {ps[0].id} + IdSet(rest) {
          var i :| 0 <= i < |ps| && ps[i].id == x;
          if i > 0 { assert rest[i - 1].id == x; }
        }
        forall x | x in IdSet(rest) ensures x in IdSet(ps) {
          var i :| 0 <= i < |rest| && rest[i].id == x;
          assert ps[i + 1].id == x;
        }
      }
      assert ps[0].id !in IdSet(rest) by {
        forall i | 0 <= i < |rest| ensures rest[i].id != ps[0].id {
          assert rest[i] == ps[i + 1];
        }
      }
      SumScannedForMatched(rest, scans);
      ScansInSplit(scans, ps[0].id, IdSet(rest));
    }
  }

  lemma {:induction false} ScansInEmpty(scans: seq<ScanEvent>)
    ensures ScansIn(scans, {}) == []
  {
    if scans != [] {
      ScansInEmpty(scans[1..]);
    }
  }

  /** When every scan references a product of `ps`, the products' scanned
      totals add up to the total of all scans. */
  lemma {:induction false} SumScannedForAll(ps: seq<Product>, scans: seq<ScanEvent>)
    requires UniqueIds(ps)
    requires forall i :: 0 <= i < |scans| ==> scans[i].productId in IdSet(ps)
    ensures SumScannedFor(ps, scans) == TotalQuantity(scans)
  {
    SumScannedForMatched(ps, scans);
    ScansInAll(scans, IdSet(ps));
  }
}
