/** Python's list.sort: the one stable rearrangement that puts the keys in order. */
module StableSort {

  ghost predicate StrictWeak<T(!new)>(less: (T, T) -> bool) {
    && (forall x :: !less(x, x))
    && (forall x, y, z :: less(x, y) && less(y, z) ==> less(x, z))
    && (forall x, y, z :: less(x, z) ==> less(x, y) || less(y, z))
  }

  predicate Same<T>(less: (T, T) -> bool, x: T, y: T) {
    !less(x, y) && !less(y, x)
  }

  /** x goes before the elements it ties with. */
  function Insert<T>(less: (T, T) -> bool, x: T, s: seq<T>): seq<T> {
    if s == [] || !less(s[0], x) then [x] + s else [s[0]] + Insert(less, x, s[1..])
  }

  function Sort<T>(less: (T, T) -> bool, s: seq<T>): seq<T> {
    if s == [] then [] else Insert(less, s[0], Sort(less, s[1..]))
  }

  predicate Sorted<T>(less: (T, T) -> bool, s: seq<T>) {
    forall i, j | 0 <= i < j < |s| :: !less(s[j], s[i])
  }

  /** The elements that tie with x, in their order. */
  function Ties<T>(less: (T, T) -> bool, s: seq<T>, x: T): seq<T> {
    if s == [] then [] else (if Same(less, s[0], x) then [s[0]] else []) + Ties(less, s[1..], x)
  }

  ghost predicate StablySorts<T(!new)>(less: (T, T) -> bool, s: seq<T>, r: seq<T>) {
    && Sorted(less, r) && |r| == |s|
    && forall x :: Ties(less, r, x) == Ties(less, s, x)
  }

  lemma {:induction false} InsertMultiset<T>(less: (T, T) -> bool, x: T, s: seq<T>)
    ensures multiset(Insert(less, x, s)) == multiset(s) + multiset{x}
  {
    if s != [] && less(s[0], x) {
      InsertMultiset(less, x, s[1..]);
      assert s == [s[0]] + s[1..];
    }
  }

  lemma {:induction false} SortMultiset<T>(less: (T, T) -> bool, s: seq<T>)
    ensures multiset(Sort(less, s)) == multiset(s) && |Sort(less, s)| == |s|
  {
    if s != [] {
      SortMultiset(less, s[1..]);
      InsertMultiset(less, s[0], Sort(less, s[1..]));
      assert s == [s[0]] + s[1..];
      assert |Sort(less, s)| == |multiset(Sort(less, s))| == |multiset(s)|;
    }
  }

  lemma SortedCons<T(!new)>(less: (T, T) -> bool, x: T, s: seq<T>)
    requires StrictWeak(less) && Sorted(less, s) && (s == [] || !less(s[0], x))
    ensures Sorted(less, [x] + s)
  {
    forall i, j | 0 <= i < j < |s| + 1 ensures !less(([x] + s)[j], ([x] + s)[i]) {
      assert ([x] + s)[j] == s[j - 1];
      if i == 0 && j > 1 {
        assert !less(s[j - 1], s[0]);
      }
    }
  }

  lemma {:induction false} InsertSorted<T(!new)>(less: (T, T) -> bool, x: T, s: seq<T>)
    requires StrictWeak(less) && Sorted(less, s)
    ensures Sorted(less, Insert(less, x, s))
  {
    if s == [] || !less(s[0], x) {
      SortedCons(less, x, s);
    } else {
      var rest := Insert(less, x, s[1..]);
      InsertSorted(less, x, s[1..]);
      assert rest[0] == x || (|s| > 1 && rest[0] == s[1]);
      SortedCons(less, s[0], rest);
    }
  }

  lemma {:induction false} InsertTies<T(!new)>(less: (T, T) -> bool, x: T, s: seq<T>, y: T)
    requires StrictWeak(less)
    ensures Ties(less, Insert(less, x, s), y) == Ties(less, [x] + s, y)
  {
    if s != [] && less(s[0], x) {
      InsertTies(less, x, s[1..], y);
      assert ([x] + s)[1..] == s && ([x] + s[1..])[1..] == s[1..];
      assert ([s[0]] + Insert(less, x, s[1..]))[1..] == Insert(less, x, s[1..]);
      assert !(Same(less, s[0], y) && Same(less, x, y));
    }
  }

  /** Sort orders the keys and keeps the order of ties. */
  lemma {:induction false} SortIsStable<T(!new)>(less: (T, T) -> bool, s: seq<T>)
    requires StrictWeak(less)
    ensures StablySorts(less, s, Sort(less, s))
  {
    SortMultiset(less, s);
    if s != [] {
      var rest := Sort(less, s[1..]);
      SortIsStable(less, s[1..]);
      InsertSorted(less, s[0], rest);
      forall y ensures Ties(less, Sort(less, s), y) == Ties(less, s, y) {
        InsertTies(less, s[0], rest, y);
        assert ([s[0]] + rest)[1..] == rest;
      }
    }
  }

  lemma {:induction false} TieOccurs<T(!new)>(less: (T, T) -> bool, s: seq<T>, x: T)
    ensures Ties(less, s, x) != [] ==> exists i | 0 <= i < |s| :: Same(less, s[i], x)
  {
    if Ties(less, s, x) != [] && !Same(less, s[0], x) {
      TieOccurs(less, s[1..], x);
      var i :| 0 <= i < |s[1..]| && Same(less, s[1..][i], x);
      assert Same(less, s[i + 1], x);
    }
  }

  lemma HeadNotLess<T(!new)>(less: (T, T) -> bool, s: seq<T>, r: seq<T>, q: seq<T>)
    requires StrictWeak(less) && StablySorts(less, s, r) && StablySorts(less, s, q) && r != [] && q != []
    ensures !less(r[0], q[0])
  {
    assert Ties(less, r, r[0]) != [];
    TieOccurs(less, q, r[0]);
    var i :| 0 <= i < |q| && Same(less, q[i], r[0]);
    assert i == 0 || !less(q[i], q[0]);
  }

  lemma TailIsStable<T(!new)>(less: (T, T) -> bool, r: seq<T>, q: seq<T>)
    requires r != [] && q != [] && r[0] == q[0] && StablySorts(less, r, r) && StablySorts(less, r, q)
    ensures StablySorts(less, r[1..], r[1..]) && StablySorts(less, r[1..], q[1..])
  {
    forall x ensures Ties(less, q[1..], x) == Ties(less, r[1..], x) {
      assert Ties(less, q, x) == Ties(less, r, x);
      var first := if Same(less, r[0], x) then [r[0]] else [];
      assert Ties(less, q[1..], x) == Ties(less, q, x)[|first|..];
      assert Ties(less, r[1..], x) == Ties(less, r, x)[|first|..];
    }
  }

  lemma {:induction false} StableSortIsUnique<T(!new)>(less: (T, T) -> bool, r: seq<T>, q: seq<T>)
    requires StrictWeak(less) && StablySorts(less, r, r) && StablySorts(less, r, q)
    ensures q == r
  {
    if r != [] {
      HeadNotLess(less, r, r, q);
      HeadNotLess(less, r, q, r);
      assert Ties(less, r, r[0])[0] == r[0] && Ties(less, q, r[0])[0] == q[0];
      TailIsStable(less, r, q);
      StableSortIsUnique(less, r[1..], q[1..]);
      assert r == [r[0]] + r[1..] && q == [q[0]] + q[1..];
    }
  }

  /** There is only one stable sort, so any library that promises one computes Sort. */
  lemma SortIsTheStableSort<T(!new)>(less: (T, T) -> bool, s: seq<T>, q: seq<T>)
    requires StrictWeak(less)
    ensures StablySorts(less, s, q) <==> q == Sort(less, s)
  {
    SortIsStable(less, s);
    if StablySorts(less, s, q) {
      StableSortIsUnique(less, Sort(less, s), q);
    }
  }
}
