/** Total orders, sorting, minima and bounded selection.

    These are the facts about Python's `sorted`, `min` and `str.__lt__` that the rest of the model
    relies on; nothing here is particular to the program. */
module Ordering {

  datatype Option<+T> = None | Some(value: T)

  datatype Result<+T, +E> = Success(value: T) | Failure(error: E)

  /** The elements of a sequence, as a set. */
  function Elements<T>(s: seq<T>): (r: set<T>)
    ensures forall i :: 0 <= i < |s| ==> s[i] in r
    ensures forall x :: x in r ==> x in s
  {
    set x | x in s
  }

  ghost predicate Distinct<T(!new)>(s: seq<T>) {
    forall i, j :: 0 <= i < j < |s| ==> s[i] != s[j]
  }

  // ---------------------------------------------------------------- strings

  /** Python's `<` on strings: lexicographic by code point. */
  predicate StrLess(a: string, b: string) {
    b != "" && (a == "" || a[0] < b[0] || (a[0] == b[0] && StrLess(a[1..], b[1..])))
  }

  lemma {:induction false} StrLessIrreflexive(a: string)
    ensures !StrLess(a, a)
  {
    if a != "" { StrLessIrreflexive(a[1..]); }
  }

  lemma {:induction false} StrLessTransitive(a: string, b: string, c: string)
    requires StrLess(a, b) && StrLess(b, c)
    ensures StrLess(a, c)
  {
    if a != "" && a[0] == b[0] && b[0] == c[0] {
      StrLessTransitive(a[1..], b[1..], c[1..]);
    }
  }

  lemma {:induction false} StrLessTotal(a: string, b: string)
    requires a != b
    ensures StrLess(a, b) || StrLess(b, a)
  {
    if a != "" && b != "" && a[0] == b[0] {
      assert a == [a[0]] + a[1..] && b == [b[0]] + b[1..];
      StrLessTotal(a[1..], b[1..]);
    }
  }

  lemma {:induction false} StrLessIsStrictOrder()
    ensures StrictOrder(StrLess)
    ensures forall a, b :: a != b ==> StrLess(a, b) || StrLess(b, a)
  {
    forall a ensures !StrLess(a, a) { StrLessIrreflexive(a); }
    forall a, b, c | StrLess(a, b) && StrLess(b, c) ensures StrLess(a, c) { StrLessTransitive(a, b, c); }
    forall a, b | a != b ensures StrLess(a, b) || StrLess(b, a) { StrLessTotal(a, b); }
  }

  // ---------------------------------------------------------------- generic orders

  ghost predicate StrictOrder<T(!new)>(less: (T, T) -> bool) {
    && (forall a :: !less(a, a))
    && (forall a, b, c :: less(a, b) && less(b, c) ==> less(a, c))
  }

  ghost predicate TotalOn<T(!new)>(less: (T, T) -> bool, s: set<T>) {
    forall a, b :: a in s && b in s && a != b ==> less(a, b) || less(b, a)
  }

  ghost predicate Ascending<T(!new)>(s: seq<T>, less: (T, T) -> bool) {
    forall i, j :: 0 <= i < j < |s| ==> less(s[i], s[j])
  }

  /** Two strictly ascending sequences over the same elements are the same sequence. */
  lemma {:induction false} AscendingUnique<T(!new)>(a: seq<T>, b: seq<T>, less: (T, T) -> bool)
    requires StrictOrder(less) && Ascending(a, less) && Ascending(b, less)
    requires Elements(a) == Elements(b)
    ensures a == b
  {
    assert a != [] ==> a[0] in Elements(b);
    assert b != [] ==> b[0] in Elements(a);
    if a != [] && b != [] {
      assert a[0] in Elements(b) && b[0] in Elements(a);
      assert a[0] == b[0];
      assert Elements(a[1..]) == Elements(b[1..]) by {
        forall x ensures x in Elements(a[1..]) <==> x in Elements(b[1..]) {
          TailElements(a, x, less);
          TailElements(b, x, less);
        }
      }
      AscendingUnique(a[1..], b[1..], less);
      assert a == [a[0]] + a[1..] && b == [b[0]] + b[1..];
    }
  }

  lemma {:induction false} TailElements<T(!new)>(a: seq<T>, x: T, less: (T, T) -> bool)
    requires StrictOrder(less) && Ascending(a, less) && a != []
    ensures x in Elements(a[1..]) <==> x in Elements(a) && x != a[0]
  {
    if x in a[1..] {
      var i :| 0 <= i < |a[1..]| && a[1..][i] == x;
      assert a[i + 1] == x && less(a[0], a[i + 1]);
    }
    if x in a && x != a[0] {
      var i :| 0 <= i < |a| && a[i] == x;
      assert a[1..][i - 1] == x;
    }
  }

  // ---------------------------------------------------------------- sorting

  function Insert<T>(x: T, s: seq<T>, less: (T, T) -> bool): (r: seq<T>)
    ensures multiset(r) == multiset(s) + multiset{x}
  {
    if s == [] then [x]
    else if less(s[0], x) then
      assert s == [s[0]] + s[1..];
      [s[0]] + Insert(x, s[1..], less)
    else [x] + s
  }

  /** Python's `sorted(s, key)`, with the key comparison as `less`; stable, like the original. */
  function SortBy<T>(s: seq<T>, less: (T, T) -> bool): (r: seq<T>)
    ensures multiset(r) == multiset(s)
    ensures |r| == |s|
  {
    if s == [] then []
    else
      assert s == [s[0]] + s[1..];
      var r := Insert(s[0], SortBy(s[1..], less), less);
      assert |r| == |multiset(r)|;
      r
  }

  lemma {:induction false} InsertAscending<T(!new)>(x: T, s: seq<T>, less: (T, T) -> bool)
    requires StrictOrder(less) && Ascending(s, less) && x !in s
    requires TotalOn(less, Elements(s) + {x})
    ensures Ascending(Insert(x, s, less), less)
  {
    if s != [] {
      assert s[0] in Elements(s);
      if less(s[0], x) {
        assert Elements(s[1..]) <= Elements(s);
        InsertAscending(x, s[1..], less);
        PrependAscending(s[0], Insert(x, s[1..], less), less, multiset(s[1..]) + multiset{x});
      } else {
        PrependAscending(x, s, less, multiset(s));
      }
    }
  }

  lemma {:induction false} PrependAscending<T(!new)>(x: T, s: seq<T>, less: (T, T) -> bool, all: multiset<T>)
    requires Ascending(s, less) && multiset(s) == all && forall y :: y in all ==> less(x, y)
    ensures Ascending([x] + s, less)
  {
    forall j | 0 <= j < |s| ensures less(x, s[j]) { assert s[j] in multiset(s); }
  }

  lemma {:induction false} SortByAscending<T(!new)>(s: seq<T>, less: (T, T) -> bool)
    requires StrictOrder(less) && Distinct(s) && TotalOn(less, Elements(s))
    ensures Ascending(SortBy(s, less), less)
    ensures Elements(SortBy(s, less)) == Elements(s)
  {
    SameMultisetSameElements(SortBy(s, less), s);
    if s != [] {
      var t := SortBy(s[1..], less);
      SortByAscending(s[1..], less);
      assert Elements(t) + {s[0]} <= Elements(s);
      assert s[0] !in t;
      InsertAscending(s[0], t, less);
    }
  }

  lemma {:induction false} SameMultisetSameElements<T(!new)>(a: seq<T>, b: seq<T>)
    requires multiset(a) == multiset(b)
    ensures Elements(a) == Elements(b) && |a| == |b|
  {
    forall x ensures x in Elements(a) <==> x in Elements(b) {
      assert x in a <==> x in multiset(a);
      assert x in b <==> x in multiset(b);
    }
    assert |a| == |multiset(a)| && |b| == |multiset(b)|;
  }

  /** Sorting forgets the order of its input. */
  lemma {:induction false} SortByPermutation<T(!new)>(a: seq<T>, b: seq<T>, less: (T, T) -> bool)
    requires StrictOrder(less) && multiset(a) == multiset(b)
    requires Distinct(a) && Distinct(b) && TotalOn(less, Elements(a))
    ensures SortBy(a, less) == SortBy(b, less)
  {
    SameMultisetSameElements(a, b);
    SortByAscending(a, less);
    SortByAscending(b, less);
    AscendingUnique(SortBy(a, less), SortBy(b, less), less);
  }

  lemma {:induction false} AscendingDistinct<T(!new)>(s: seq<T>, less: (T, T) -> bool)
    requires StrictOrder(less) && Ascending(s, less)
    ensures Distinct(s)
  {
    forall i, j | 0 <= i < j < |s| ensures s[i] != s[j] { assert less(s[i], s[j]); }
  }

  /** Sorted up to ties: nothing comes after something it is less than. */
  ghost predicate Sorted<T(!new)>(s: seq<T>, less: (T, T) -> bool) {
    forall i, j :: 0 <= i < j < |s| ==> !less(s[j], s[i])
  }

  ghost predicate WeakOrder<T(!new)>(less: (T, T) -> bool) {
    StrictOrder(less) && forall a, b, c :: less(a, c) ==> less(a, b) || less(b, c)
  }

  lemma {:induction false} InsertSorted<T(!new)>(x: T, s: seq<T>, less: (T, T) -> bool)
    requires WeakOrder(less) && Sorted(s, less)
    ensures Sorted(Insert(x, s, less), less)
  {
    if s != [] && less(s[0], x) {
      InsertSorted(x, s[1..], less);
      var r := Insert(x, s[1..], less);
      forall j | 0 <= j < |r| ensures !less(r[j], s[0]) {
        assert r[j] in multiset(r);
        assert r[j] == x || r[j] in s[1..];
      }
    } else if s != [] {
      forall j | 0 <= j < |s| ensures !less(s[j], x) { assert j > 0 ==> !less(s[j], s[0]); }
    }
  }

  lemma {:induction false} SortBySorted<T(!new)>(s: seq<T>, less: (T, T) -> bool)
    requires WeakOrder(less)
    ensures Sorted(SortBy(s, less), less)
  {
    if s != [] {
      SortBySorted(s[1..], less);
      InsertSorted(s[0], SortBy(s[1..], less), less);
    }
  }

  lemma {:induction false} DistinctMultiset<T(!new)>(s: seq<T>)
    requires Distinct(s)
    ensures forall x :: multiset(s)[x] == if x in Elements(s) then 1 else 0
  {
    if s != [] {
      DistinctMultiset(s[1..]);
      assert s == [s[0]] + s[1..];
      assert s[0] !in s[1..];
      forall x ensures multiset(s)[x] == if x in Elements(s) then 1 else 0 {
        assert multiset(s) == multiset{s[0]} + multiset(s[1..]);
        assert x in s <==> x == s[0] || x in s[1..];
      }
    }
  }

  lemma {:induction false} DistinctSize<T(!new)>(s: seq<T>)
    requires Distinct(s)
    ensures |Elements(s)| == |s|
  {
    if s != [] {
      DistinctSize(s[1..]);
      assert s == [s[0]] + s[1..];
      assert Elements(s) == {s[0]} + Elements(s[1..]);
      assert s[0] !in s[1..];
    }
  }

  // ---------------------------------------------------------------- minimum

  /** Python's `min(s, key)`. */
  function MinBy<T>(s: seq<T>, less: (T, T) -> bool): (m: T)
    requires s != []
    ensures m in s
  {
    if |s| == 1 then s[0]
    else
      var rest := MinBy(s[1..], less);
      if less(rest, s[0]) then rest else s[0]
  }

  lemma {:induction false} MinByLeast<T(!new)>(s: seq<T>, less: (T, T) -> bool)
    requires s != [] && StrictOrder(less) && TotalOn(less, Elements(s))
    ensures forall x :: x in s && x != MinBy(s, less) ==> less(MinBy(s, less), x)
  {
    if |s| > 1 {
      var rest := MinBy(s[1..], less);
      assert Elements(s[1..]) <= Elements(s);
      MinByLeast(s[1..], less);
      assert rest in Elements(s) && s[0] in Elements(s);
      forall x | x in s && x != MinBy(s, less) ensures less(MinBy(s, less), x) {
        if x != s[0] { assert x in s[1..]; }
      }
    }
  }

  // ---------------------------------------------------------------- bounded selection of identifiers

  /** `r` is what `sorted(ids)[:n]` keeps. */
  ghost predicate IsLeast(r: set<string>, ids: set<string>, n: nat) {
    && r <= ids
    && |r| == (if n <= |ids| then n else |ids|)
    && forall x, y :: x in r && y in ids - r ==> StrLess(x, y)
  }

  /** `sorted(ids)[:n]`, as a set. */
  ghost function Least(ids: set<string>, n: nat): (r: set<string>)
    ensures IsLeast(r, ids, n)
  {
    LeastExists(ids, n);
    var r :| IsLeast(r, ids, n);
    r
  }

  lemma {:induction false} LeastElement(s: set<string>) returns (m: string)
    requires s != {}
    ensures m in s && forall x :: x in s && x != m ==> StrLess(m, x)
    decreases s
  {
    m :| m in s;
    var t := s - {m};
    assert s == t + {m};
    if t != {} {
      var n := LeastElement(t);
      StrLessTotal(n, m);
      if StrLess(n, m) {
        m := n;
      } else {
        forall x | x in t && x != n ensures StrLess(m, x) { StrLessTransitive(m, n, x); }
      }
    }
  }

  predicate IsLeastName(m: string, names: set<string>) {
    m in names && forall x :: x in names && x != m ==> StrLess(m, x)
  }

  /** `sorted(names)[0]`. */
  function LeastName(names: set<string>): (m: string)
    requires names != {}
    ensures IsLeastName(m, names)
  {
    LeastNameUnique(names);
    var m :| IsLeastName(m, names);
    m
  }

  lemma {:induction false} LeastNameUnique(names: set<string>)
    requires names != {}
    ensures exists m :: IsLeastName(m, names)
    ensures forall m, n :: IsLeastName(m, names) && IsLeastName(n, names) ==> m == n
  {
    var m := LeastElement(names);
    assert IsLeastName(m, names);
    StrLessIsStrictOrder();
  }

  /** `sorted(names)`. */
  function SortedIds(names: set<string>): (r: seq<string>)
    ensures Elements(r) == names
  {
    if names == {} then []
    else
      var m := LeastName(names);
      var rest := SortedIds(names - {m});
      assert Elements([m] + rest) == {m} + Elements(rest);
      [m] + rest
  }

  lemma {:induction false} SortedIdsAscending(names: set<string>)
    ensures Ascending(SortedIds(names), StrLess)
  {
    if names != {} {
      var m := LeastName(names);
      var rest := SortedIds(names - {m});
      SortedIdsAscending(names - {m});
      forall j | 0 <= j < |rest| ensures StrLess(m, rest[j]) { assert rest[j] in Elements(rest); }
    }
  }

  lemma {:induction false} LeastExists(ids: set<string>, n: nat)
    ensures exists r :: IsLeast(r, ids, n)
    decreases n
  {
    if n == 0 || ids == {} {
      assert IsLeast({}, ids, n);
    } else {
      var m := LeastElement(ids);
      LeastExists(ids - {m}, n - 1);
      var rest :| IsLeast(rest, ids - {m}, n - 1);
      assert IsLeast({m} + rest, ids, n);
    }
  }

  lemma {:induction false} LeastUnique(a: set<string>, b: set<string>, ids: set<string>, n: nat)
    requires IsLeast(a, ids, n) && IsLeast(b, ids, n)
    ensures a == b
  {
    if !(a <= b) {
      var x :| x in a && x !in b;
      if b <= a { SubsetOfSameSize(b, a); }
      var y :| y in b && y !in a;
      StrLessTransitive(x, y, x);
      StrLessIrreflexive(x);
    } else {
      SubsetOfSameSize(a, b);
    }
  }

  /** Dropping identifiers the bound would have rejected anyway does not change the selection. */
  lemma {:induction false} LeastAbsorbs(all: set<string>, some: set<string>, n: nat)
    requires Least(all, n) <= some <= all
    ensures Least(some, n) == Least(all, n)
  {
    var r := Least(all, n);
    SubsetSize(r, some);
    SubsetSize(some, all);
    LeastUnique(r, Least(some, n), some, n);
  }

  function Lower(ids: set<string>, x: string): set<string> { set y | y in ids && StrLess(y, x) }

  /** An identifier is selected exactly when fewer than `n` others come before it. */
  lemma {:induction false} LeastByRank(ids: set<string>, n: nat, x: string)
    requires x in ids
    ensures x in Least(ids, n) <==> |Lower(ids, x)| < n
  {
    var r := Least(ids, n);
    StrLessIsStrictOrder();
    if x in r {
      forall y | y in Lower(ids, x) ensures y in r - {x} {
        assert y !in r ==> StrLess(x, y);
      }
      SubsetSize(Lower(ids, x), r - {x});
      assert r == (r - {x}) + {x};
    } else {
      assert r <= Lower(ids, x);
      SubsetSize(r, Lower(ids, x));
      if n > |ids| { SubsetOfSameSize(r, ids); }
    }
  }

  /** Nothing is rejected while the bound is not reached. */
  lemma {:induction false} LeastKeepsAll(ids: set<string>, n: nat)
    requires |ids| <= n
    ensures Least(ids, n) == ids
  {
    SubsetOfSameSize(Least(ids, n), ids);
  }

  lemma {:induction false} SubsetOfSameSize<T(!new)>(a: set<T>, b: set<T>)
    requires a <= b && |a| == |b|
    ensures a == b
  {
    assert b == a + (b - a);
    assert |a + (b - a)| == |a| + |b - a|;
  }

  lemma {:induction false} SubsetSize<T(!new)>(a: set<T>, b: set<T>)
    requires a <= b
    ensures |a| <= |b|
  {
    assert a + (b - a) == b;
    assert |a + (b - a)| == |a| + |b - a|;
  }

  /** `sorted(ids)[:n]`. */
  method TakeLeast(ids: set<string>, n: nat) returns (r: set<string>)
    ensures r == Least(ids, n)
  {
    r := {};
    var rest := ids;
    while |r| < n && rest != {}
      invariant r + rest == ids && r !! rest && |r| <= n
      invariant forall x, y :: x in r && y in rest ==> StrLess(x, y)
      decreases rest
    {
      var m := LeastName(rest);
      r, rest := r + {m}, rest - {m};
    }
    assert ids - r == rest;
    if rest != {} { SubsetSize(r, ids); } else { assert r == ids; }
    assert |ids| == |r| + |rest|;
    LeastUnique(r, Least(ids, n), ids, n);
  }
}
