/** Anchor-based clustering in order of precedence, and the one clustering it can return. */
module Clustering {
  import opened Ordering

  type Cluster<T> = seq<T>

  /** `precedes`: the order of processing; `correlates(anchor, x)`: x may join anchor;
      `ratio(anchor, x)`: how much they overlap. */
  datatype Rules<!T> = Rules(precedes: (T, T) -> bool, correlates: (T, T) -> bool, ratio: (T, T) -> real)

  /** `a` comes before `x` and `x` may join it. */
  predicate Eligible<T>(a: T, x: T, r: Rules<T>) {
    r.precedes(a, x) && r.correlates(a, x)
  }

  /** `x` would rather join `a` than `b`: more overlap, then higher precedence. */
  predicate Prefers<T>(x: T, a: T, b: T, r: Rules<T>) {
    r.ratio(a, x) > r.ratio(b, x) || (r.ratio(a, x) == r.ratio(b, x) && r.precedes(a, b))
  }

  ghost predicate NonEmpty<T>(c: seq<Cluster<T>>) {
    forall i :: 0 <= i < |c| ==> c[i] != []
  }

  ghost predicate InSome<T>(x: T, c: seq<Cluster<T>>) {
    exists i :: 0 <= i < |c| && x in c[i]
  }

  ghost predicate Partition<T(!new)>(s: set<T>, c: seq<Cluster<T>>) {
    && (forall x :: x in s ==> InSome(x, c))
    && (forall i, x :: 0 <= i < |c| && x in c[i] ==> x in s)
    && (forall i, j, x :: 0 <= i < |c| && 0 <= j < |c| && x in c[i] && x in c[j] ==> i == j)
  }

  /** Anchors come in order of precedence, and so do the members of each cluster. */
  ghost predicate Ordered<T(!new)>(c: seq<Cluster<T>>, r: Rules<T>)
    requires NonEmpty(c)
  {
    && (forall i :: 0 <= i < |c| ==> Ascending(c[i], r.precedes))
    && (forall i, j :: 0 <= i < j < |c| ==> r.precedes(c[i][0], c[j][0]))
  }

  ghost predicate AnchorsIndependent<T>(c: seq<Cluster<T>>, r: Rules<T>)
    requires NonEmpty(c)
  {
    forall i, j :: 0 <= i < j < |c| ==> !r.correlates(c[i][0], c[j][0])
  }

  /** `x` joins the anchor of cluster `i` directly, and prefers it to every other anchor it could join. */
  ghost predicate Joins<T>(x: T, i: nat, c: seq<Cluster<T>>, r: Rules<T>)
    requires NonEmpty(c) && i < |c|
  {
    && Eligible(c[i][0], x, r)
    && forall j :: 0 <= j < |c| && j != i && Eligible(c[j][0], x, r) ==> Prefers(x, c[i][0], c[j][0], r)
  }

  ghost predicate MembersPlaced<T(!new)>(c: seq<Cluster<T>>, r: Rules<T>)
    requires NonEmpty(c)
  {
    forall i, x :: 0 <= i < |c| && x in c[i] && x != c[i][0] ==> Joins(x, i, c, r)
  }

  /** The clustering of a set, said without any order of processing: anchors never correlate with
      each other, and every other item joins, directly, the anchor it prefers. */
  ghost predicate Canonical<T(!new)>(s: set<T>, c: seq<Cluster<T>>, r: Rules<T>) {
    && NonEmpty(c)
    && Partition(s, c)
    && Ordered(c, r)
    && AnchorsIndependent(c, r)
    && MembersPlaced(c, r)
  }

  /** An anchor precedes every member of its cluster. */
  lemma {:induction false} AnchorFirst<T(!new)>(s: set<T>, c: seq<Cluster<T>>, r: Rules<T>, i: nat, j: nat)
    requires Canonical(s, c, r) && i < |c| && 0 < j < |c[i]|
    ensures r.precedes(c[i][0], c[i][j])
  {}

  ghost predicate IsAnchor<T>(x: T, c: seq<Cluster<T>>)
    requires NonEmpty(c)
  {
    exists i :: 0 <= i < |c| && c[i][0] == x
  }

  // ---------------------------------------------------------------- uniqueness

  ghost function Before<T(!new)>(s: set<T>, x: T, r: Rules<T>): set<T> {
    set t | t in s && r.precedes(t, x)
  }

  /** Whether an item is an anchor depends only on the items before it. */
  lemma {:induction false} AnchorsAgree<T(!new)>(s: set<T>, c: seq<Cluster<T>>, d: seq<Cluster<T>>, r: Rules<T>, x: T)
    requires StrictOrder(r.precedes)
    requires Canonical(s, c, r) && Canonical(s, d, r) && IsAnchor(x, c)
    ensures IsAnchor(x, d)
    decreases |Before(s, x, r)|
  {
    var i :| 0 <= i < |c| && c[i][0] == x;
    assert x in c[i] && InSome(x, d);
    AnchorBlocks(c, r, x);
    var j :| 0 <= j < |d| && x in d[j];
    var a := d[j][0];
    if a != x {
      assert Joins(x, j, d, r);
      assert a in d[j] && a in s;
      assert a in Before(s, x, r) && a !in Before(s, a, r);
      assert Before(s, a, r) < Before(s, x, r);
      ProperSubsetSize(Before(s, a, r), Before(s, x, r));
      AnchorsAgree(s, d, c, r, a);
      assert false;
    }
  }

  lemma {:induction false} AnchorBlocks<T(!new)>(c: seq<Cluster<T>>, r: Rules<T>, x: T)
    requires StrictOrder(r.precedes) && NonEmpty(c) && Ordered(c, r) && AnchorsIndependent(c, r) && IsAnchor(x, c)
    ensures forall a :: IsAnchor(a, c) ==> !Eligible(a, x, r)
  {
    var i :| 0 <= i < |c| && c[i][0] == x;
    forall a | IsAnchor(a, c) ensures !Eligible(a, x, r) {
      var k :| 0 <= k < |c| && c[k][0] == a;
      assert k > i ==> r.precedes(c[i][0], c[k][0]);
    }
  }

  lemma {:induction false} ProperSubsetSize<T(!new)>(a: set<T>, b: set<T>)
    requires a < b
    ensures |a| < |b|
  {
    SubsetSize(a, b);
    if |a| == |b| { SubsetOfSameSize(a, b); }
  }

  function Anchors<T>(c: seq<Cluster<T>>): (r: seq<T>)
    requires forall i :: 0 <= i < |c| ==> c[i] != []
    ensures |r| == |c| && forall i :: 0 <= i < |c| ==> r[i] == c[i][0]
  {
    seq(|c|, i requires 0 <= i < |c| => c[i][0])
  }

  lemma {:induction false} AnchorsIncluded<T(!new)>(s: set<T>, c: seq<Cluster<T>>, d: seq<Cluster<T>>, r: Rules<T>)
    requires StrictOrder(r.precedes)
    requires Canonical(s, c, r) && Canonical(s, d, r)
    ensures Elements(Anchors(c)) <= Elements(Anchors(d))
  {
    forall x | x in Elements(Anchors(c)) ensures x in Elements(Anchors(d)) {
      var i :| 0 <= i < |Anchors(c)| && Anchors(c)[i] == x;
      AnchorsAgree(s, c, d, r, x);
      var j :| 0 <= j < |d| && d[j][0] == x;
      assert Anchors(d)[j] == x;
    }
  }

  lemma {:induction false} MembersIncluded<T(!new)>(s: set<T>, c: seq<Cluster<T>>, d: seq<Cluster<T>>, r: Rules<T>,
    i: nat, x: T)
    requires StrictOrder(r.precedes)
    requires Canonical(s, c, r) && Canonical(s, d, r) && Anchors(c) == Anchors(d)
    requires i < |c| && x in c[i]
    ensures i < |d| && x in d[i]
  {
    assert |d| == |Anchors(c)|;
    assert Anchors(c)[i] == c[i][0] == d[i][0];
    if x != c[i][0] {
      assert Joins(x, i, c, r);
      assert InSome(x, d);
      var j :| 0 <= j < |d| && x in d[j];
      assert Anchors(c)[j] == c[j][0] == d[j][0];
      assert c[j][0] in c[j];
      if j != i {
        assert false;
      }
    }
  }

  /** A set has at most one canonical clustering. */
  lemma {:induction false} CanonicalUnique<T(!new)>(s: set<T>, c: seq<Cluster<T>>, d: seq<Cluster<T>>, r: Rules<T>)
    requires StrictOrder(r.precedes)
    requires Canonical(s, c, r) && Canonical(s, d, r)
    ensures c == d
  {
    AnchorsIncluded(s, c, d, r);
    AnchorsIncluded(s, d, c, r);
    AscendingUnique(Anchors(c), Anchors(d), r.precedes);
    assert |c| == |Anchors(c)| == |d|;
    forall i | 0 <= i < |c| ensures c[i] == d[i] {
      forall x ensures x in Elements(c[i]) <==> x in Elements(d[i]) {
        if x in c[i] { MembersIncluded(s, c, d, r, i, x); }
        if x in d[i] { MembersIncluded(s, d, c, r, i, x); }
      }
      AscendingUnique(c[i], d[i], r.precedes);
    }
  }

  // ---------------------------------------------------------------- the algorithm

  /** The anchors `x` may join, in the order they were found. */
  function EligibleAnchors<T(!new)>(anchors: seq<T>, x: T, r: Rules<T>): (e: seq<T>)
    ensures forall a :: a in e <==> a in anchors && r.correlates(a, x)
  {
    if anchors == [] then []
    else
      var rest := EligibleAnchors(anchors[1..], x, r);
      assert forall a :: a in anchors <==> a == anchors[0] || a in anchors[1..];
      if r.correlates(anchors[0], x) then [anchors[0]] + rest else rest
  }

  /** The eligible anchor that `x` prefers to every other one. */
  function BestAnchor<T>(x: T, eligible: seq<T>, r: Rules<T>): (a: T)
    requires eligible != []
    ensures a in eligible
  {
    MinBy(eligible, (a, b) => Prefers(x, a, b, r))
  }

  lemma {:induction false} BestAnchorIsPreferred<T(!new)>(x: T, eligible: seq<T>, r: Rules<T>)
    requires eligible != [] && StrictOrder(r.precedes) && TotalOn(r.precedes, Elements(eligible))
    ensures forall b :: b in eligible && b != BestAnchor(x, eligible, r) ==>
      Prefers(x, BestAnchor(x, eligible, r), b, r)
  {
    var less := (a, b) => Prefers(x, a, b, r);
    assert StrictOrder(less);
    assert TotalOn(less, Elements(eligible));
    MinByLeast(eligible, less);
  }

  lemma {:induction false} ExtendPartition<T(!new)>(s: set<T>, c: seq<Cluster<T>>, d: seq<Cluster<T>>, x: T, k: nat)
    requires Partition(s, c) && x !in s && |c| <= |d| && k < |d|
    requires forall i, t :: 0 <= i < |d| ==> (t in d[i] <==> (i < |c| && t in c[i]) || (i == k && t == x))
    ensures Partition(s + {x}, d)
  {
    forall t | t in s + {x} ensures InSome(t, d) {
      if t == x {
        assert x in d[k];
      } else {
        assert InSome(t, c);
        var i :| 0 <= i < |c| && t in c[i];
        assert t in d[i];
      }
    }
  }

  lemma {:induction false} StartOrdered<T(!new)>(s: set<T>, c: seq<Cluster<T>>, r: Rules<T>, x: T)
    requires StrictOrder(r.precedes) && Canonical(s, c, r)
    requires forall t :: t in s ==> r.precedes(t, x)
    ensures Ordered(c + [[x]], r)
    ensures forall i :: 0 <= i < |c| ==> r.precedes(c[i][0], x)
  {
    forall i | 0 <= i < |c| ensures r.precedes(c[i][0], x) { assert c[i][0] in c[i]; }
  }

  /** An item that comes after all the others and may join no anchor starts a cluster. */
  lemma {:induction false} StartCluster<T(!new)>(s: set<T>, c: seq<Cluster<T>>, r: Rules<T>, x: T)
    requires StrictOrder(r.precedes) && Canonical(s, c, r)
    requires forall t :: t in s ==> r.precedes(t, x)
    requires forall i :: 0 <= i < |c| ==> !r.correlates(c[i][0], x)
    ensures Canonical(s + {x}, c + [[x]], r)
  {
    var d := c + [[x]];
    assert x !in s;
    assert d[|c|] == [x];
    ExtendPartition(s, c, d, x, |c|);
    StartOrdered(s, c, r, x);
    forall i, t | 0 <= i < |d| && t in d[i] && t != d[i][0] ensures Joins(t, i, d, r) {
      assert i < |c| && Joins(t, i, c, r);
      assert r.precedes(t, x);
    }
  }

  /** An item that comes after all the others joins the anchor it prefers. */
  lemma {:induction false} JoinCluster<T(!new)>(s: set<T>, c: seq<Cluster<T>>, r: Rules<T>, x: T, k: nat)
    requires StrictOrder(r.precedes) && Canonical(s, c, r)
    requires forall t :: t in s ==> r.precedes(t, x)
    requires k < |c| && Joins(x, k, c, r)
    ensures Canonical(s + {x}, c[k := c[k] + [x]], r)
  {
    var d := c[k := c[k] + [x]];
    assert x !in s;
    assert forall i :: 0 <= i < |d| ==> d[i][0] == c[i][0];
    assert forall i, t :: 0 <= i < |d| ==> (t in d[i] <==> t in c[i] || (i == k && t == x));
    forall i | 0 <= i < |d| ensures Ascending(d[i], r.precedes) {
      assert forall t :: t in c[i] ==> r.precedes(t, x);
    }
    ExtendPartition(s, c, d, x, k);
    forall i, t | 0 <= i < |d| && t in d[i] && t != d[i][0] ensures Joins(t, i, d, r) {
      assert Joins(t, i, c, r);
    }
  }

  lemma {:induction false} AnchorsInside<T(!new)>(s: set<T>, c: seq<Cluster<T>>, r: Rules<T>)
    requires Canonical(s, c, r)
    ensures forall j :: 0 <= j < |c| ==> c[j][0] in s
  {
    forall j | 0 <= j < |c| ensures c[j][0] in s { assert c[j][0] in c[j]; }
  }

  lemma {:induction false} ChosenIsJoined<T(!new)>(s: set<T>, c: seq<Cluster<T>>, r: Rules<T>, x: T, eligible: seq<T>,
    i: nat)
    requires StrictOrder(r.precedes) && NonEmpty(c)
    requires forall i, j :: 0 <= i < j < |c| ==> r.precedes(c[i][0], c[j][0])
    requires TotalOn(r.precedes, s) && forall j :: 0 <= j < |c| ==> c[j][0] in s
    requires forall t :: t in s ==> r.precedes(t, x)
    requires eligible == EligibleAnchors(Anchors(c), x, r) && eligible != []
    requires i < |c| && c[i][0] == BestAnchor(x, eligible, r)
    ensures Joins(x, i, c, r)
  {
    forall a | a in eligible ensures a in s {
      var j :| 0 <= j < |c| && Anchors(c)[j] == a;
    }
    BestAnchorIsPreferred(x, eligible, r);
    forall j | 0 <= j < |c| && j != i && Eligible(c[j][0], x, r) ensures Prefers(x, c[i][0], c[j][0], r) {
      assert Anchors(c)[j] in Anchors(c);
      assert c[j][0] in eligible;
      assert i < j || j < i;
    }
  }

  ghost predicate Injective<T(!new)>(id: T -> string, s: set<T>) {
    forall a, b :: a in s && b in s && id(a) == id(b) ==> a == b
  }

  /** The anchors and the dictionary hold the clusters of the first `k` items. */
  ghost predicate Built<T(!new)>(ordered: seq<T>, k: nat, r: Rules<T>, id: T -> string,
                                 anchors: seq<T>, members: map<string, Cluster<T>>, c: seq<Cluster<T>>)
    requires k <= |ordered|
  {
    && Canonical(Elements(ordered[..k]), c, r)
    && Stored(anchors, id, members, c)
  }

  ghost predicate Stored<T>(anchors: seq<T>, id: T -> string, members: map<string, Cluster<T>>, c: seq<Cluster<T>>) {
    && |c| == |anchors|
    && forall i :: 0 <= i < |anchors| ==>
         id(anchors[i]) in members && members[id(anchors[i])] == c[i] && c[i] != [] && c[i][0] == anchors[i]
  }

  function Collect<T>(anchors: seq<T>, id: T -> string, members: map<string, Cluster<T>>): (r: seq<Cluster<T>>)
    requires forall i :: 0 <= i < |anchors| ==> id(anchors[i]) in members
    ensures |r| == |anchors|
    ensures forall i :: 0 <= i < |anchors| ==> r[i] == members[id(anchors[i])]
  {
    seq(|anchors|, i requires 0 <= i < |anchors| => members[id(anchors[i])])
  }

  ghost predicate Sorted<T(!new)>(ordered: seq<T>, r: Rules<T>, id: T -> string) {
    && StrictOrder(r.precedes) && TotalOn(r.precedes, Elements(ordered)) && Ascending(ordered, r.precedes)
    && Injective(id, Elements(ordered))
  }

  lemma {:induction false} StoredStart<T(!new)>(anchors: seq<T>, id: T -> string, members: map<string, Cluster<T>>,
    c: seq<Cluster<T>>, x: T)
    requires Stored(anchors, id, members, c) && forall i :: 0 <= i < |c| ==> id(c[i][0]) != id(x)
    ensures Stored(anchors + [x], id, members[id(x) := [x]], c + [[x]])
  {}

  lemma {:induction false} StoredJoin<T(!new)>(anchors: seq<T>, id: T -> string, members: map<string, Cluster<T>>,
    c: seq<Cluster<T>>, x: T, i: nat)
    requires Stored(anchors, id, members, c) && i < |c|
    requires forall j, k :: 0 <= j < k < |c| ==> id(c[j][0]) != id(c[k][0])
    ensures Stored(anchors, id, members[id(anchors[i]) := c[i] + [x]], c[i := c[i] + [x]])
  {
    forall j | 0 <= j < |c| && j != i ensures id(anchors[j]) != id(anchors[i]) {
      assert c[j][0] == anchors[j] && c[i][0] == anchors[i];
    }
  }

  lemma {:induction false} StartStep<T(!new)>(ordered: seq<T>, k: nat, r: Rules<T>, id: T -> string,
                           anchors: seq<T>, members: map<string, Cluster<T>>, c: seq<Cluster<T>>)
    requires Sorted(ordered, r, id) && k < |ordered| && Built(ordered, k, r, id, anchors, members, c)
    requires EligibleAnchors(anchors, ordered[k], r) == []
    ensures Built(ordered, k + 1, r, id, anchors + [ordered[k]], members[id(ordered[k]) := [ordered[k]]], c
      + [[ordered[k]]])
  {
    var x := ordered[k];
    PrefixPrecedes(ordered, k, r);
    AnchorsDiffer(Elements(ordered[..k]), c, r, id, x);
    NoneEligible(anchors, x, r);
    var done, after := Elements(ordered[..k]), Elements(ordered[..k + 1]);
    StartCluster(done, c, r, x);
    assert after == done + {x};
    StoredStart(anchors, id, members, c, x);
  }

  lemma {:induction false} JoinStep<T(!new)>(ordered: seq<T>, k: nat, r: Rules<T>, id: T -> string,
                          anchors: seq<T>, members: map<string, Cluster<T>>, c: seq<Cluster<T>>, i: nat)
    requires Sorted(ordered, r, id) && k < |ordered| && Built(ordered, k, r, id, anchors, members, c)
    requires EligibleAnchors(anchors, ordered[k], r) != []
    requires i < |c| && anchors[i] == BestAnchor(ordered[k], EligibleAnchors(anchors, ordered[k], r), r)
    ensures Built(ordered, k + 1, r, id, anchors, members[id(anchors[i]) := c[i] + [ordered[k]]],
      c[i := c[i] + [ordered[k]]])
  {
    var x := ordered[k];
    PrefixPrecedes(ordered, k, r);
    AnchorsDiffer(Elements(ordered[..k]), c, r, id, x);
    assert anchors == Anchors(c);
    assert TotalOn(r.precedes, Elements(ordered[..k]));
    AnchorsInside(Elements(ordered[..k]), c, r);
    ChosenIsJoined(Elements(ordered[..k]), c, r, x, EligibleAnchors(anchors, x, r), i);
    var done, after := Elements(ordered[..k]), Elements(ordered[..k + 1]);
    JoinCluster(done, c, r, x, i);
    assert after == done + {x};
    StoredJoin(anchors, id, members, c, x, i);
  }

  /** `cluster_signals`: each item, in order of precedence, joins the best anchor it correlates
      with or becomes an anchor. Clusters are kept in a dictionary by the anchor's identifier. */
  method ClusterInOrder<T(!new, ==)>(ordered: seq<T>, r: Rules<T>, id: T -> string) returns (clusters: seq<Cluster<T>>)
    requires Sorted(ordered, r, id)
    ensures Canonical(Elements(ordered), clusters, r)
  {
    var anchors: seq<T> := [];
    var members: map<string, Cluster<T>> := map[];
    ghost var c: seq<Cluster<T>> := [];
    for k := 0 to |ordered|
      invariant Built(ordered, k, r, id, anchors, members, c)
    {
      var candidate := ordered[k];
      var eligible := EligibleAnchors(anchors, candidate, r);
      if eligible == [] {
        StartStep(ordered, k, r, id, anchors, members, c);
        anchors := anchors + [candidate];
        members := members[id(candidate) := [candidate]];
        c := c + [[candidate]];
      } else {
        var chosen := BestAnchor(candidate, eligible, r);
        ghost var i :| 0 <= i < |anchors| && anchors[i] == chosen;
        JoinStep(ordered, k, r, id, anchors, members, c, i);
        members := members[id(chosen) := members[id(chosen)] + [candidate]];
        c := c[i := c[i] + [candidate]];
      }
    }
    assert ordered[..|ordered|] == ordered;
    clusters := Collect(anchors, id, members);
    assert clusters == c;
  }

  lemma {:induction false} NoneEligible<T(!new)>(anchors: seq<T>, x: T, r: Rules<T>)
    requires EligibleAnchors(anchors, x, r) == []
    ensures forall i :: 0 <= i < |anchors| ==> !r.correlates(anchors[i], x)
  {
    forall i | 0 <= i < |anchors| ensures !r.correlates(anchors[i], x) {
      assert anchors[i] !in EligibleAnchors(anchors, x, r);
    }
  }

  lemma {:induction false} PrefixPrecedes<T(!new)>(ordered: seq<T>, k: nat, r: Rules<T>)
    requires StrictOrder(r.precedes) && Ascending(ordered, r.precedes) && k < |ordered|
    ensures Elements(ordered[..k + 1]) == Elements(ordered[..k]) + {ordered[k]}
    ensures forall t :: t in Elements(ordered[..k]) ==> r.precedes(t, ordered[k])
    ensures Elements(ordered[..k]) + {ordered[k]} <= Elements(ordered)
  {
    assert ordered[..k + 1] == ordered[..k] + [ordered[k]];
    forall t | t in ordered[..k] ensures r.precedes(t, ordered[k]) && t in ordered {
      var i :| 0 <= i < k && ordered[i] == t;
    }
  }

  lemma {:induction false} AnchorsDiffer<T(!new)>(s: set<T>, c: seq<Cluster<T>>, r: Rules<T>, id: T -> string, x: T)
    requires StrictOrder(r.precedes) && Canonical(s, c, r) && Injective(id, s + {x})
    requires forall t :: t in s ==> r.precedes(t, x)
    ensures forall i :: 0 <= i < |c| ==> c[i][0] in s && id(c[i][0]) != id(x)
    ensures forall i, j :: 0 <= i < j < |c| ==> id(c[i][0]) != id(c[j][0])
  {
    forall i | 0 <= i < |c| ensures c[i][0] in s && id(c[i][0]) != id(x) {
      assert c[i][0] in c[i];
    }
    forall i, j | 0 <= i < j < |c| ensures id(c[i][0]) != id(c[j][0]) {
      assert r.precedes(c[i][0], c[j][0]);
    }
  }

  // ---------------------------------------------------------------- main results

  function Removed<T(==, !new)>(c: Cluster<T>, x: T): (r: Cluster<T>)
    ensures forall t :: t in r <==> t in c && t != x
    ensures c != [] && c[0] != x ==> r != [] && r[0] == c[0]
  {
    if c == [] then []
    else
      var rest := Removed(c[1..], x);
      assert forall t :: t in c <==> t == c[0] || t in c[1..];
      if c[0] == x then rest else [c[0]] + rest
  }

  lemma {:induction false} RemovedAscending<T(!new)>(c: Cluster<T>, x: T, less: (T, T) -> bool)
    requires Ascending(c, less)
    ensures Ascending(Removed(c, x), less)
  {
    if c != [] {
      RemovedAscending(c[1..], x, less);
      var rest := Removed(c[1..], x);
      forall j | 0 <= j < |rest| ensures less(c[0], rest[j]) {
        assert rest[j] in c[1..];
        var k :| 1 <= k < |c| && c[k] == rest[j];
      }
    }
  }

  lemma {:induction false} RemovedCanonical<T(!new)>(s: set<T>, c: seq<Cluster<T>>, r: Rules<T>, x: T, i: nat)
    requires Canonical(s, c, r) && i < |c| && x in c[i] && x != c[i][0]
    ensures Canonical(s - {x}, c[i := Removed(c[i], x)], r)
  {
    var e := c[i := Removed(c[i], x)];
    assert forall k :: 0 <= k < |c| ==> e[k] != [] && e[k][0] == c[k][0];
    assert forall k, t :: 0 <= k < |c| && t in e[k] ==> t in c[k] && (k == i ==> t != x);
    RemovedAscending(c[i], x, r.precedes);
    forall t | t in s - {x} ensures InSome(t, e) {
      assert InSome(t, c);
      var k :| 0 <= k < |c| && t in c[k];
      assert t in e[k];
    }
    forall k, t | 0 <= k < |e| && t in e[k] && t != e[k][0] ensures Joins(t, k, e, r) {
      assert Joins(t, k, c, r);
    }
  }

  /** Taking away an item that was absorbed removes it from its cluster and changes nothing else:
      every anchor and every other placement stay as they were. */
  lemma {:induction false} AbsorbedIsIrrelevant<T(!new)>(s: set<T>, c: seq<Cluster<T>>, d: seq<Cluster<T>>,
    r: Rules<T>, x: T, i: nat)
    requires StrictOrder(r.precedes)
    requires Canonical(s, c, r) && Canonical(s - {x}, d, r)
    requires i < |c| && x in c[i] && x != c[i][0]
    ensures d == c[i := Removed(c[i], x)]
    ensures Anchors(d) == Anchors(c)
  {
    RemovedCanonical(s, c, r, x, i);
    CanonicalUnique(s - {x}, d, c[i := Removed(c[i], x)], r);
  }

  function TotalSize<T>(c: seq<Cluster<T>>): nat {
    if c == [] then 0 else TotalSize(c[..|c| - 1]) + |c[|c| - 1]|
  }

  /** Every item is counted in exactly one cluster. */
  lemma {:induction false} ClustersConserve<T(!new)>(s: set<T>, c: seq<Cluster<T>>, less: (T, T) -> bool)
    requires StrictOrder(less) && Partition(s, c)
    requires forall i :: 0 <= i < |c| ==> Ascending(c[i], less)
    ensures TotalSize(c) == |s|
    decreases |c|
  {
    if c == [] {
      assert forall x :: x in s ==> InSome(x, c);
      assert s == {};
    } else {
      var last, init := c[|c| - 1], c[..|c| - 1];
      var rest := s - Elements(last);
      forall t | t in rest ensures InSome(t, init) {
        assert InSome(t, c);
        var k :| 0 <= k < |c| && t in c[k];
        assert t in init[k];
      }
      forall k, t | 0 <= k < |init| && t in init[k] ensures t in rest {
        assert t in c[k];
      }
      ClustersConserve(rest, init, less);
      AscendingDistinct(last, less);
      DistinctSize(last);
      assert s == rest + Elements(last);
      assert |rest + Elements(last)| == |rest| + |Elements(last)|;
    }
  }
}
