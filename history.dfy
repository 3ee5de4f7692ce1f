/** The history page (src/pages/HistoryPage.js): the scans, newest first,
    grouped by the hour key of their scan time, the page totals, the
    per-group totals, and the expand/collapse flags of the groups. The
    hour key (a locale-formatted hour and minute) is a parameter. */
module History {
  import opened Wrappers
  import opened Text
  import opened Records

  /** One bucket of `grouped`: an hour key and its scans in the order they
      were pushed. */
  datatype Group = Group(key: string, scans: seq<ScanEvent>)

  function GroupKeys(gs: seq<Group>): (r: seq<string>)
    ensures |r| == |gs|
    ensures forall j :: 0 <= j < |gs| ==> r[j] == gs[j].key
  {
    if gs == [] then []
    else
      var init := gs[..|gs| - 1];
      assert forall j :: 0 <= j < |init| ==> init[j] == gs[j];
      GroupKeys(init) + [gs[|gs| - 1].key]
  }

  /** The bucket `acc[k]`, as a position. */
  function FindGroup(gs: seq<Group>, k: string): (r: Option<nat>)
    ensures r.Some? ==> r.value < |gs| && gs[r.value].key == k
    ensures r.None? ==> forall j :: 0 <= j < |gs| ==> gs[j].key != k
  {
    if gs == [] then None
    else if gs[|gs| - 1].key == k then Some(|gs| - 1)
    else FindGroup(gs[..|gs| - 1], k)
  }

  /** `if (!acc[k]) acc[k] = []; acc[k].push(s)`. */
  function Push(gs: seq<Group>, k: string, s: ScanEvent): seq<Group> {
    match FindGroup(gs, k)
    case Some(j) => gs[j := Group(k, gs[j].scans + [s])]
    case None => gs + [Group(k, [s])]
  }

  /** `scans.reduce(...)`: the grouping of `scans` by hour key. */
  function Grouped(scans: seq<ScanEvent>, hourKey: int -> string): seq<Group> {
    if scans == [] then []
    else
      var s := scans[|scans| - 1];
      Push(Grouped(scans[..|scans| - 1], hourKey), hourKey(s.scanTime), s)
  }

  /** The scans whose hour key is `k`, in their order. */
  function ScansAt(scans: seq<ScanEvent>, hourKey: int -> string, k: string): seq<ScanEvent> {
    if scans == [] then []
    else
      var s := scans[|scans| - 1];
      ScansAt(scans[..|scans| - 1], hourKey, k) + (if hourKey(s.scanTime) == k then [s] else [])
  }

  /** One more scan grouped. */
  lemma {:induction false} GroupedStep(scans: seq<ScanEvent>, hourKey: int -> string, i: nat)
    requires i < |scans|
    ensures Grouped(scans[..i + 1], hourKey) == Push(Grouped(scans[..i], hourKey), hourKey(scans[i].scanTime), scans[i])
  {
    assert scans[..i + 1][..i] == scans[..i];
  }

  /** Some scan has hour key `k`. */
  predicate HasKey(scans: seq<ScanEvent>, hourKey: int -> string, k: string) {
    exists i :: 0 <= i < |scans| && hourKey(scans[i].scanTime) == k
  }

  /** Pushing into an existing bucket keeps the key list; pushing a new key
      appends it. */
  lemma {:induction false} PushKeys(gs: seq<Group>, k: string, s: ScanEvent)
    ensures k in GroupKeys(gs) ==> GroupKeys(Push(gs, k, s)) == GroupKeys(gs)
    ensures k !in GroupKeys(gs) ==> GroupKeys(Push(gs, k, s)) == GroupKeys(gs) + [k]
  {
    match FindGroup(gs, k)
    case Some(j) =>
      assert GroupKeys(Push(gs, k, s)) == GroupKeys(gs);
    case None =>
      assert k !in GroupKeys(gs);
      assert GroupKeys(Push(gs, k, s)) == GroupKeys(gs) + [k];
  }

  lemma {:induction false} HasKeySnoc(scans: seq<ScanEvent>, hourKey: int -> string, x: string)
    requires scans != []
    ensures HasKey(scans, hourKey, x)
        <==> HasKey(scans[..|scans| - 1], hourKey, x) || hourKey(scans[|scans| - 1].scanTime) == x
  {
    var init := scans[..|scans| - 1];
    if HasKey(init, hourKey, x) {
      var i :| 0 <= i < |init| && hourKey(init[i].scanTime) == x;
      assert scans[i] == init[i];
    }
    if HasKey(scans, hourKey, x) {
      var i :| 0 <= i < |scans| && hourKey(scans[i].scanTime) == x;
      if i < |init| {
        assert init[i] == scans[i];
      }
    }
  }

  lemma {:induction false} NoDupSnoc(xs: seq<string>, x: string)
    requires NoDup(xs) && x !in xs
    ensures NoDup(xs + [x])
  {
  }

  /** The group keys are distinct and are exactly the hour keys of the
      scans. */
  lemma {:induction false} GroupedKeys(scans: seq<ScanEvent>, hourKey: int -> string)
    ensures NoDup(GroupKeys(Grouped(scans, hourKey)))
    ensures forall k :: k in GroupKeys(Grouped(scans, hourKey)) <==> HasKey(scans, hourKey, k)
  {
    if scans != [] {
      var init := scans[..|scans| - 1];
      var s := scans[|scans| - 1];
      var k := hourKey(s.scanTime);
      var gs := Grouped(init, hourKey);
      GroupedKeys(init, hourKey);
      PushKeys(gs, k, s);
      if k !in GroupKeys(gs) {
        NoDupSnoc(GroupKeys(gs), k);
      }
      forall x ensures x in GroupKeys(Grouped(scans, hourKey)) <==> HasKey(scans, hourKey, x) {
        HasKeySnoc(scans, hourKey, x);
      }
    }
  }

  /** Every group holds exactly the scans of its key, in their fetched
      (newest-first) order: no scan is lost, duplicated or moved to
      another group. */
  lemma {:induction false} GroupedContents(scans: seq<ScanEvent>, hourKey: int -> string)
    ensures forall j :: 0 <= j < |Grouped(scans, hourKey)| ==>
      Grouped(scans, hourKey)[j].scans == ScansAt(scans, hourKey, Grouped(scans, hourKey)[j].key)
  {
    if scans != [] {
      var init := scans[..|scans| - 1];
      var s := scans[|scans| - 1];
      var k := hourKey(s.scanTime);
      var gs := Grouped(init, hourKey);
      GroupedContents(init, hourKey);
      GroupedKeys(init, hourKey);
      var r := Grouped(scans, hourKey);
      assert r == Push(gs, k, s);
      forall j | 0 <= j < |r| ensures r[j].scans == ScansAt(scans, hourKey, r[j].key) {
        if j < |gs| && gs[j].key != k {
          assert r[j] == gs[j];
        } else if j < |gs| {
          assert r[j] == Group(k, gs[j].scans + [s]);
        } else {
          assert r[j] == Group(k, [s]);
          assert k !in GroupKeys(gs);
          assert !HasKey(init, hourKey, k);
          ScansAtAbsent(init, hourKey, k);
        }
      }
    }
  }

  /** A key no scan has collects nothing. */
  lemma {:induction false} ScansAtAbsent(scans: seq<ScanEvent>, hourKey: int -> string, k: string)
    requires !HasKey(scans, hourKey, k)
    ensures ScansAt(scans, hourKey, k) == []
  {
    if scans != [] {
      HasKeySnoc(scans, hourKey, k);
      ScansAtAbsent(scans[..|scans| - 1], hourKey, k);
    }
  }

  /** `groupScans.length` added up over the groups. */
  function CountSum(gs: seq<Group>): int {
    if gs == [] then 0 else |gs[0].scans| + CountSum(gs[1..])
  }

  /** `groupScans.reduce((sum, s) => sum + s.scanned_quantity, 0)` added up
      over the groups. */
  function ItemSum(gs: seq<Group>): int {
    if gs == [] then 0 else TotalQuantity(gs[0].scans) + ItemSum(gs[1..])
  }

  lemma {:induction false} SumsUpdate(gs: seq<Group>, j: nat, g: Group)
    requires j < |gs|
    ensures CountSum(gs[j := g]) == CountSum(gs) - |gs[j].scans| + |g.scans|
    ensures ItemSum(gs[j := g]) == ItemSum(gs) - TotalQuantity(gs[j].scans) + TotalQuantity(g.scans)
  {
    if j > 0 {
      assert gs[j := g][1..] == gs[1..][j - 1 := g];
      SumsUpdate(gs[1..], j - 1, g);
    } else {
      assert gs[j := g][1..] == gs[1..];
    }
  }

  lemma {:induction false} SumsAppend(gs: seq<Group>, g: Group)
    ensures CountSum(gs + [g]) == CountSum(gs) + |g.scans|
    ensures ItemSum(gs + [g]) == ItemSum(gs) + TotalQuantity(g.scans)
  {
    if gs == [] {
      assert [g][1..] == [];
    } else {
      assert (gs + [g])[1..] == gs[1..] + [g];
      SumsAppend(gs[1..], g);
    }
  }

  /** The group counts add up to `totalScans` and the group item totals
      to `totalItems`. */
  lemma {:induction false} GroupedSums(scans: seq<ScanEvent>, hourKey: int -> string)
    ensures CountSum(Grouped(scans, hourKey)) == |scans|
    ensures ItemSum(Grouped(scans, hourKey)) == TotalQuantity(scans)
  {
    if scans != [] {
      var init := scans[..|scans| - 1];
      var s := scans[|scans| - 1];
      var k := hourKey(s.scanTime);
      var gs := Grouped(init, hourKey);
      GroupedSums(init, hourKey);
      assert scans == init + [s];
      TotalQuantityAppend(init, [s]);
      assert TotalQuantity([s]) == s.quantity;
      match FindGroup(gs, k)
      case Some(j) =>
        SumsUpdate(gs, j, Group(k, gs[j].scans + [s]));
        TotalQuantityAppend(gs[j].scans, [s]);
      case None =>
        SumsAppend(gs, Group(k, [s]));
    }
  }

  /** One step of the reduce: `if (!acc[key]) acc[key] = []`, then
      `acc[key].push(scan)`. */
  method PushScan(groups: seq<Group>, key: string, scan: ScanEvent) returns (r: seq<Group>)
    ensures r == Push(groups, key, scan)
  {
    var found := FindGroup(groups, key);
    if found.None? {
      r := groups + [Group(key, [])];
      var j := |r| - 1;
      r := r[j := Group(key, r[j].scans + [scan])];
      assert [] + [scan] == [scan];
      assert r == groups + [Group(key, [scan])];
    } else {
      var j := found.value;
      r := groups[j := Group(key, groups[j].scans + [scan])];
    }
  }

  /** The grouping reduce: each scan is pushed into the bucket of its hour
      key, creating the bucket on first use. */
  method GroupByHour(scans: seq<ScanEvent>, hourKey: int -> string) returns (groups: seq<Group>)
    ensures groups == Grouped(scans, hourKey)
  {
    groups := [];
    var i := 0;
    while i < |scans|
      invariant 0 <= i <= |scans|
      invariant groups == Grouped(scans[..i], hourKey)
    {
      GroupedStep(scans, hourKey, i);
      groups := PushScan(groups, hourKey(scans[i].scanTime), scans[i]);
      i := i + 1;
    }
    assert scans[..|scans|] == scans;
  }

  /** `expandedGroups[hourKey] !== false`: a group without a flag counts
      as expanded. */
  predicate IsExpanded(flags: map<string, bool>, k: string) {
    !(k in flags && !flags[k])
  }

  /** `toggleGroup(hourKey)` as written: the flag becomes the negation of
      `prev[hourKey]`, where a missing flag reads as falsy. */
  function ToggleGroup(flags: map<string, bool>, k: string): (r: map<string, bool>)
    ensures k in r && r[k] == !(k in flags && flags[k])
  {
    flags[k := !(k in flags && flags[k])]
  }

  /** Only the toggled key's flag changes. */
  lemma {:induction false} ToggleGroupFrame(flags: map<string, bool>, k: string)
    ensures forall x :: x != k ==> (x in ToggleGroup(flags, k) <==> x in flags)
    ensures forall x :: x != k && x in flags ==> ToggleGroup(flags, k)[x] == flags[x]
    ensures forall x :: x != k ==> IsExpanded(ToggleGroup(flags, k), x) == IsExpanded(flags, x)
  {
  }

  /** The toggle flips visibility once a group has a flag; the first
      toggle of a group without one leaves it expanded, and the second
      collapses it. */
  lemma {:induction false} ToggleGroupVisibility(flags: map<string, bool>, k: string)
    ensures k in flags ==> IsExpanded(ToggleGroup(flags, k), k) != IsExpanded(flags, k)
    ensures k !in flags ==> IsExpanded(flags, k) && IsExpanded(ToggleGroup(flags, k), k)
    ensures k !in flags ==> !IsExpanded(ToggleGroup(ToggleGroup(flags, k), k), k)
  {
    var once := ToggleGroup(flags, k);
    if k !in flags {
      assert once[k];
      assert !ToggleGroup(once, k)[k];
    }
  }

  /** The evident intent of the toggle: negate the visibility the page
      shows, so that a click on an expanded group always collapses it. */
  function ToggleGroupIntended(flags: map<string, bool>, k: string): (r: map<string, bool>)
    ensures IsExpanded(r, k) == !IsExpanded(flags, k)
    ensures forall x :: x != k ==> (x in r <==> x in flags) && (x in flags ==> r[x] == flags[x])
  {
    flags[k := !IsExpanded(flags, k)]
  }

  /** The two agree on every group that already has a flag. */
  lemma {:induction false} ToggleGroupIntendedAgrees(flags: map<string, bool>, k: string)
    ensures k in flags <==> ToggleGroupIntended(flags, k) == ToggleGroup(flags, k)
  {
    if k !in flags {
      assert ToggleGroupIntended(flags, k)[k] != ToggleGroup(flags, k)[k];
    }
  }
}
