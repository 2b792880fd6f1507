/** Context compression: deduplicate a retrieval bundle by cite, rank it by trust, and keep greedily
    what the token budget allows. */
module ContextPacker {
  import opened Wrappers
  import opened StableSort

  /** An authority; a missing cite is "", a text that is present but empty or null is Some(""). */
  datatype Item = Item(cite: string, text: Option<string>, trust: real)

  function Chars(a: Item): nat {
    match a.text
    case Some(t) => |t|
    case None => |a.cite|
  }

  /** Four characters to a token, rounded down item by item: what the budget is spent in. */
  function Size(a: Item): nat {
    Chars(a) / 4
  }

  function Budgeted(s: seq<Item>): nat {
    if s == [] then 0 else Size(s[0]) + Budgeted(s[1..])
  }

  function TotalChars(s: seq<Item>): nat {
    if s == [] then 0 else Chars(s[0]) + TotalChars(s[1..])
  }

  /** est_tokens: rounded down once for the whole list, which is what the report shows. */
  function Tokens(s: seq<Item>): nat {
    TotalChars(s) / 4
  }

  function Cites(s: seq<Item>): set<string> {
    set a | a in s :: a.cite
  }

  predicate Distinct(s: seq<Item>) {
    s == [] || (s[0].cite !in Cites(s[1..]) && Distinct(s[1..]))
  }

  // ---- Deduplication ----

  /** The first item of every cite that is neither empty nor seen. */
  function Deduped(s: seq<Item>, seen: set<string>): seq<Item> {
    if s == [] then []
    else if s[0].cite != "" && s[0].cite !in seen then [s[0]] + Deduped(s[1..], seen + {s[0].cite})
    else Deduped(s[1..], seen)
  }

  lemma {:induction false} DedupedCites(s: seq<Item>, seen: set<string>)
    ensures Distinct(Deduped(s, seen))
    ensures Cites(Deduped(s, seen)) == Cites(s) - seen - {""}
  {
    if s != [] {
      var isNew := s[0].cite != "" && s[0].cite !in seen;
      var rest := Deduped(s[1..], if isNew then seen + {s[0].cite} else seen);
      DedupedCites(s[1..], if isNew then seen + {s[0].cite} else seen);
      assert s == [s[0]] + s[1..];
      CitesOfCons(s[0], s[1..]);
      CitesOfCons(s[0], rest);
      if isNew {
        DistinctCons(s[0], rest);
      }
    }
  }

  lemma CitesOfCons(a: Item, s: seq<Item>)
    ensures Cites([a] + s) == {a.cite} + Cites(s)
  {
  }

  lemma DistinctCons(a: Item, s: seq<Item>)
    ensures Distinct([a] + s) <==> a.cite !in Cites(s) && Distinct(s)
  {
    assert ([a] + s)[1..] == s;
  }

  lemma {:induction false} DistinctPairs(s: seq<Item>, i: nat, j: nat)
    requires Distinct(s) && i < j < |s|
    ensures s[i].cite != s[j].cite
  {
    if i == 0 {
      assert s[j] == s[1..][j - 1] && s[j] in s[1..];
      assert s[j].cite in Cites(s[1..]);
    } else {
      DistinctPairs(s[1..], i - 1, j - 1);
    }
  }

  lemma AddedSize(c: string, t: set<string>)
    ensures |{c} + t| == if c in t then |t| else |t| + 1
  {
    if c in t {
      assert {c} + t == t;
    }
  }

  lemma {:induction false} DistinctIsCardinality(s: seq<Item>)
    ensures |Cites(s)| <= |s|
    ensures Distinct(s) <==> |Cites(s)| == |s|
  {
    if s == [] {
      assert Cites(s) == {};
    } else {
      var rest := s[1..];
      DistinctIsCardinality(rest);
      assert Cites(s) == {s[0].cite} + Cites(rest) by {
        assert s == [s[0]] + rest;
        CitesOfCons(s[0], rest);
      }
      hide Cites;
      AddedSize(s[0].cite, Cites(rest));
    }
  }

  // ---- Ranking and packing ----

  predicate MoreTrusted(x: Item, y: Item) {
    x.trust > y.trust
  }

  function Ranked(s: seq<Item>): seq<Item> {
    Sort(MoreTrusted, Deduped(s, {}))
  }

  function Packed(s: seq<Item>, max: int, running: nat): seq<Item> {
    if s == [] then []
    else if running + Size(s[0]) <= max then [s[0]] + Packed(s[1..], max, running + Size(s[0]))
    else Packed(s[1..], max, running)
  }

  function Kept(items: seq<Item>, max: int): seq<Item> {
    Packed(Ranked(items), max, 0)
  }

  predicate Preserved(items: seq<Item>, kept: seq<Item>) {
    forall a | a in items :: a.cite != "" ==> exists k | k in kept :: k.cite == a.cite
  }

  datatype Report = Report(before: nat, after: nat, itemsBefore: nat, itemsAfter: nat, preserved: bool,
                           kept: seq<Item>)

  lemma {:induction false} DedupedSnoc(s: seq<Item>, a: Item, seen: set<string>)
    ensures Deduped(s + [a], seen)
            == Deduped(s, seen) + if a.cite != "" && a.cite !in seen + Cites(s) then [a] else []
  {
    if s == [] {
      assert s + [a] == [a];
    } else {
      assert s == [s[0]] + s[1..] && (s + [a])[1..] == s[1..] + [a];
      CitesOfCons(s[0], s[1..]);
      var seen' := if s[0].cite != "" && s[0].cite !in seen then seen + {s[0].cite} else seen;
      DedupedSnoc(s[1..], a, seen');
      assert a.cite != "" ==> (a.cite in seen + Cites(s) <==> a.cite in seen' + Cites(s[1..]));
    }
  }

  method Deduplicate(items: seq<Item>) returns (deduped: seq<Item>)
    ensures deduped == Deduped(items, {})
  {
    var seen: set<string> := {};
    deduped := [];
    for i := 0 to |items|
      invariant seen == Cites(items[..i]) - {""}
      invariant deduped == Deduped(items[..i], {})
    {
      var a := items[i];
      assert items[..i + 1] == items[..i] + [a];
      DedupedSnoc(items[..i], a, {});
      if a.cite != "" && a.cite !in seen {
        seen := seen + {a.cite};
        deduped := deduped + [a];
      }
    }
    assert items[..|items|] == items;
  }

  method Compress(items: seq<Item>, max: int) returns (r: Report)
    ensures r.kept == Kept(items, max)
    ensures r.before == Tokens(items) && r.after == Tokens(r.kept)
    ensures r.itemsBefore == |items| && r.itemsAfter == |r.kept|
    ensures r.preserved <==> Preserved(items, r.kept)
  {
    var deduped := Deduplicate(items);
    deduped := Sort(MoreTrusted, deduped);
    var kept: seq<Item> := [];
    var running: nat := 0;
    for i := 0 to |deduped|
      invariant Kept(items, max) == kept + Packed(deduped[i..], max, running)
    {
      var size := Size(deduped[i]);
      assert deduped[i..][1..] == deduped[i + 1..];
      if running + size <= max {
        kept := kept + [deduped[i]];
        running := running + size;
      }
    }
    var preserved := if items != [] then Preserved(items, kept) else true;
    r := Report(Tokens(items), Tokens(kept), |items|, |kept|, preserved, kept);
  }

  // ---- What is kept ----

  lemma TrustIsWeakOrder()
    ensures StrictWeak(MoreTrusted)
  {
  }

  lemma {:induction false} PackedWithin(s: seq<Item>, max: int, running: nat)
    ensures |Packed(s, max, running)| <= |s|
    ensures forall a | a in Packed(s, max, running) :: a in s
    ensures Distinct(s) ==> Distinct(Packed(s, max, running))
  {
    if s != [] {
      var more := if running + Size(s[0]) <= max then running + Size(s[0]) else running;
      var rest := Packed(s[1..], max, more);
      PackedWithin(s[1..], max, more);
      assert s == [s[0]] + s[1..];
      assert Cites(rest) <= Cites(s[1..]);
      DistinctCons(s[0], rest);
    }
  }

  lemma SameItemsSameCites(s: seq<Item>, t: seq<Item>)
    requires multiset(s) == multiset(t)
    ensures Cites(s) == Cites(t) && |s| == |t|
  {
    assert forall a :: a in s <==> a in multiset(s);
    assert forall a :: a in t <==> a in multiset(t);
    assert |multiset(s)| == |s| && |multiset(t)| == |t|;
  }

  lemma RankedCites(items: seq<Item>)
    ensures Distinct(Ranked(items)) && Cites(Ranked(items)) == Cites(items) - {""}
    ensures |Ranked(items)| == |Deduped(items, {})|
  {
    var deduped := Deduped(items, {});
    DedupedCites(items, {});
    SortMultiset(MoreTrusted, deduped);
    hide Cites, Distinct;
    SameItemsSameCites(Ranked(items), deduped);
    DistinctIsCardinality(deduped);
    DistinctIsCardinality(Ranked(items));
  }

  /** No cite is kept twice, none is empty, and every kept item was in the bundle. */
  lemma KeptCitesAreDistinct(items: seq<Item>, max: int)
    ensures Distinct(Kept(items, max)) && Cites(Kept(items, max)) <= Cites(items) - {""}
    ensures forall a | a in Kept(items, max) :: a in Ranked(items)
    ensures var kept := Kept(items, max); forall i, j | 0 <= i < j < |kept| :: kept[i].cite != kept[j].cite
  {
    RankedCites(items);
    PackedWithin(Ranked(items), max, 0);
    var kept := Kept(items, max);
    assert Cites(kept) <= Cites(Ranked(items));
    forall i, j | 0 <= i < j < |kept| ensures kept[i].cite != kept[j].cite {
      DistinctPairs(kept, i, j);
    }
  }

  lemma {:induction false} PackedSorted(s: seq<Item>, max: int, running: nat)
    requires Sorted(MoreTrusted, s)
    ensures Sorted(MoreTrusted, Packed(s, max, running))
  {
    if s != [] {
      var more := if running + Size(s[0]) <= max then running + Size(s[0]) else running;
      var rest := Packed(s[1..], max, more);
      PackedSorted(s[1..], max, more);
      PackedWithin(s[1..], max, more);
      TrustIsWeakOrder();
      if rest != [] {
        assert rest[0] in rest && s == [s[0]] + s[1..];
        assert !MoreTrusted(rest[0], s[0]);
      }
      SortedCons(MoreTrusted, s[0], rest);
    }
  }

  /** What is kept comes in falling trust. */
  lemma KeptFallInTrust(items: seq<Item>, max: int, i: nat, j: nat)
    requires i < j < |Kept(items, max)|
    ensures Kept(items, max)[i].trust >= Kept(items, max)[j].trust
  {
    TrustIsWeakOrder();
    SortIsStable(MoreTrusted, Deduped(items, {}));
    PackedSorted(Ranked(items), max, 0);
    assert !MoreTrusted(Kept(items, max)[j], Kept(items, max)[i]);
  }

  lemma {:induction false} PackedFits(s: seq<Item>, max: int, running: nat)
    requires running <= max
    ensures running + Budgeted(Packed(s, max, running)) <= max
  {
    if s != [] {
      PackedFits(s[1..], max, if running + Size(s[0]) <= max then running + Size(s[0]) else running);
    }
  }

  lemma {:induction false} NothingFits(s: seq<Item>, max: int, running: nat)
    requires max < running
    ensures Packed(s, max, running) == []
  {
    if s != [] {
      NothingFits(s[1..], max, running);
    }
  }

  /** The budget is kept, and a negative budget keeps nothing. */
  lemma BudgetIsKept(items: seq<Item>, max: int)
    ensures max >= 0 ==> Budgeted(Kept(items, max)) <= max
    ensures max < 0 ==> Kept(items, max) == []
  {
    if max >= 0 {
      PackedFits(Ranked(items), max, 0);
    } else {
      NothingFits(Ranked(items), max, 0);
    }
  }

  lemma {:induction false} PackedIsMaximal(s: seq<Item>, max: int, running: nat, a: Item)
    requires a in s && a !in Packed(s, max, running)
    ensures running + Budgeted(Packed(s, max, running)) + Size(a) > max
  {
    var more := if running + Size(s[0]) <= max then running + Size(s[0]) else running;
    if a in s[1..] {
      PackedIsMaximal(s[1..], max, more, a);
    } else {
      assert a == s[0];
    }
  }

  /** No dropped item would still fit. */
  lemma NoDroppedItemFits(items: seq<Item>, max: int, a: Item)
    requires a in Ranked(items) && a !in Kept(items, max)
    ensures Budgeted(Kept(items, max)) + Size(a) > max
  {
    PackedIsMaximal(Ranked(items), max, 0, a);
  }

  // ---- The reported total ----

  lemma {:induction false} CharsOfBudget(s: seq<Item>)
    ensures 4 * Budgeted(s) <= TotalChars(s) <= 4 * Budgeted(s) + 3 * |s|
  {
    if s != [] {
      CharsOfBudget(s[1..]);
    }
  }

  /** The report rounds once where the budget rounds per item, so it can pass the budget by up to
      three quarters of a token for each kept item. */
  lemma ReportedTokens(items: seq<Item>, max: nat)
    ensures Tokens(Kept(items, max)) <= max + 3 * |Kept(items, max)| / 4
  {
    BudgetIsKept(items, max);
    CharsOfBudget(Kept(items, max));
  }

  /** One item of 4 * max + 3 characters, which takes the whole budget, and n - 1 of three characters,
      under pairwise different cites. */
  function Wasteful(max: nat, n: nat): seq<Item> {
    if n == 0 then []
    else
      Wasteful(max, n - 1)
      + [Item(seq(n, _ => 'x'), Some(seq(if n == 1 then 4 * max + 3 else 3, _ => 'y')), 0.0)]
  }

  lemma {:induction false} WastefulItems(max: nat, n: nat)
    ensures var s := Wasteful(max, n);
            && |s| == n && Deduped(s, {}) == s
            && (forall a | a in s :: a.trust == 0.0 && 1 <= |a.cite| <= n)
            && (forall i | 0 <= i < |s| :: Chars(s[i]) == if i == 0 then 4 * max + 3 else 3)
  {
    if n > 0 {
      var front := Wasteful(max, n - 1);
      WastefulItems(max, n - 1);
      var a := Wasteful(max, n)[n - 1];
      LongerIsNew(front, a);
      hide Cites, Deduped;
      DedupedSnoc(front, a, {});
    }
  }

  lemma LongerIsNew(s: seq<Item>, a: Item)
    requires forall b | b in s :: |b.cite| < |a.cite|
    ensures a.cite !in {} + Cites(s)
  {
  }

  /** Items of three characters cost nothing and still fit in a spent budget. */
  lemma {:induction false} SmallTotals(s: seq<Item>, max: nat, running: nat)
    requires (forall i | 0 <= i < |s| :: Chars(s[i]) == 3) && running <= max
    ensures Packed(s, max, running) == s && TotalChars(s) == 3 * |s|
  {
    if s != [] {
      SmallTotals(s[1..], max, running);
      assert s == [s[0]] + s[1..];
    }
  }

  /** For every budget and every positive number of kept items the bound on the report is reached. */
  lemma ReportedBoundIsReached(max: nat, n: nat)
    requires n >= 1
    ensures var kept := Kept(Wasteful(max, n), max); |kept| == n && Tokens(kept) == max + 3 * n / 4
  {
    var s := Wasteful(max, n);
    WastefulItems(max, n);
    AlreadySorted(s);
    hide Wasteful, Deduped, Ranked;
    assert Ranked(s) == s by { RankedIsSorted(s); }
    SmallTotals(s[1..], max, max);
    assert Size(s[0]) == max;
    assert s == [s[0]] + s[1..];
  }

  lemma RankedIsSorted(s: seq<Item>)
    requires Deduped(s, {}) == s
    ensures Ranked(s) == Sort(MoreTrusted, s)
  {
  }

  lemma AlreadySorted(s: seq<Item>)
    requires forall a | a in s :: a.trust == 0.0
    ensures Sort(MoreTrusted, s) == s
  {
    TrustIsWeakOrder();
    SortIsTheStableSort(MoreTrusted, s, s);
  }

  // ---- Citations ----

  lemma SubsetOfSameSize<T>(s: set<T>, t: set<T>)
    requires s <= t
    ensures |s| == |t| <==> s == t
  {
    assert t == s + (t - s);
    assert |t| == |s| + |t - s|;
  }

  /** The flag is set exactly when nothing was dropped after deduplication. */
  lemma CitationsPreservedExactlyWhenNothingDropped(items: seq<Item>, max: int)
    ensures Preserved(items, Kept(items, max)) <==> |Kept(items, max)| == |Deduped(items, {})|
  {
    var kept, ranked := Kept(items, max), Ranked(items);
    RankedCites(items);
    KeptCitesAreDistinct(items, max);
    DistinctIsCardinality(kept);
    DistinctIsCardinality(ranked);
    assert Cites(kept) <= Cites(ranked);
    SubsetOfSameSize(Cites(kept), Cites(ranked));
    PreservedIsCites(items, kept);
  }

  lemma PreservedIsCites(items: seq<Item>, kept: seq<Item>)
    requires Cites(kept) <= Cites(items) - {""}
    ensures Preserved(items, kept) <==> Cites(kept) == Cites(items) - {""}
  {
    if Preserved(items, kept) {
      forall c | c in Cites(items) - {""} ensures c in Cites(kept) {
        var a :| a in items && a.cite == c;
      }
    } else {
      var a :| a in items && a.cite != "" && !exists k | k in kept :: k.cite == a.cite;
      assert a.cite in Cites(items) && a.cite !in Cites(kept);
    }
  }
}
