/** The two run splitters.

    Bursts on a fixed source port are split so that no run spans more than a window; exposure groups are
    split where the gap between two incidents exceeds a tolerance. */
module IntervalRuns {
  import opened Ordering
  import Signals

  /** A finding or an incident, as far as the splitters look at it. Times are microseconds. */
  datatype Item = Item(first: int, last: int, name: string)

  predicate ItemBefore(a: Item, b: Item) { a.first < b.first || (a.first == b.first && StrLess(a.name, b.name)) }

  predicate NotLater(a: Item, b: Item) { a.first <= b.first }

  ghost predicate InTimeOrder(s: seq<Item>) { forall i, j :: 0 <= i < j < |s| ==> NotLater(s[i], s[j]) }

  lemma {:induction false} SortedInTime(s: seq<Item>)
    ensures InTimeOrder(SortBy(s, ItemBefore))
  {
    StrLessIsStrictOrder();
    assert WeakOrder(ItemBefore) by {
      forall a: Item, b: Item, c: Item | ItemBefore(a, c) ensures ItemBefore(a, b) || ItemBefore(b, c) {
        if a.name != b.name && !StrLess(a.name, b.name) { assert StrLess(b.name, a.name); }
      }
    }
    SortBySorted(s, ItemBefore);
  }

  function Start(run: seq<Item>): (t: int)
    requires run != []
    ensures (forall x :: x in run ==> t <= x.first) && exists x :: x in run && x.first == t
  {
    if |run| == 1 then run[0].first
    else
      var t := Start(run[..|run| - 1]);
      var x := run[|run| - 1];
      assert run == run[..|run| - 1] + [x];
      if x.first < t then x.first else t
  }

  function End(run: seq<Item>): (t: int)
    requires run != []
    ensures (forall x :: x in run ==> x.last <= t) && exists x :: x in run && x.last == t
  {
    if |run| == 1 then run[0].last
    else
      var t := End(run[..|run| - 1]);
      var x := run[|run| - 1];
      assert run == run[..|run| - 1] + [x];
      if x.last > t then x.last else t
  }

  function Joined<T>(runs: seq<seq<T>>): seq<T> {
    if runs == [] then [] else Joined(runs[..|runs| - 1]) + runs[|runs| - 1]
  }

  // ---------------------------------------------------------------- the shared loop

  type Test = (seq<Item>, Item) -> bool

  /** Run `k` begins with an item the run before could not take. */
  ghost predicate CutAt(runs: seq<seq<Item>>, k: nat, fits: Test) {
    0 < k < |runs| ==> runs[k - 1] != [] && runs[k] != [] && !fits(runs[k - 1], runs[k][0])
  }

  /** Every run is non-empty and `ok`, and every cut was forced by the test. */
  ghost predicate Split(runs: seq<seq<Item>>, ok: seq<Item> -> bool, fits: Test) {
    && (forall k :: 0 <= k < |runs| ==> runs[k] != [] && ok(runs[k]))
    && (forall k :: CutAt(runs, k, fits))
  }

  ghost predicate ExtendsAt(ok: seq<Item> -> bool, fits: Test, s: seq<Item>, i: nat, j: nat) {
    i < j < |s| && ok(s[i..j]) && fits(s[i..j], s[j]) ==> ok(s[i..j + 1])
  }

  /** An item alone is `ok`, and so is a run extended by an item that passes the test. */
  ghost predicate Extends(ok: seq<Item> -> bool, fits: Test, s: seq<Item>) {
    (forall i :: 0 <= i < |s| ==> ok([s[i]])) && (forall i, j :: ExtendsAt(ok, fits, s, i, j))
  }

  /** The closed runs hold the items before `from`, the current run those from there to `k`. */
  ghost predicate Progress(runs: seq<seq<Item>>, current: seq<Item>, s: seq<Item>, from: nat, k: nat,
      ok: seq<Item> -> bool, fits: Test) {
    && from < k <= |s| && current == s[from..k] && ok(current)
    && Joined(runs) == s[..from] && Split(runs, ok, fits)
    && (runs != [] ==> !fits(runs[|runs| - 1], current[0]))
  }

  lemma {:induction false} Close(runs: seq<seq<Item>>, current: seq<Item>, s: seq<Item>, from: nat, k: nat,
      ok: seq<Item> -> bool, fits: Test)
    requires Progress(runs, current, s, from, k, ok, fits)
    ensures Joined(runs + [current]) == s[..k] && Split(runs + [current], ok, fits)
  {
    var more := runs + [current];
    assert more[..|more| - 1] == runs;
    assert s[..k] == s[..from] + s[from..k];
    forall i ensures CutAt(more, i, fits) { assert CutAt(runs, i, fits); }
  }

  lemma {:induction false} Grow(runs: seq<seq<Item>>, current: seq<Item>, s: seq<Item>, from: nat, k: nat,
      ok: seq<Item> -> bool, fits: Test)
    requires Progress(runs, current, s, from, k, ok, fits) && Extends(ok, fits, s) && k < |s| && fits(current, s[k])
    ensures Progress(runs, current + [s[k]], s, from, k + 1, ok, fits)
  {
    assert ExtendsAt(ok, fits, s, from, k);
    assert s[from..k + 1] == s[from..k] + [s[k]];
  }

  /** The loop of both splitters: extend the current run or close it. */
  method SplitRuns(ordered: seq<Item>, ghost ok: seq<Item> -> bool, fits: Test) returns (runs: seq<seq<Item>>)
    requires Extends(ok, fits, ordered)
    ensures Joined(runs) == ordered && Split(runs, ok, fits)
  {
    runs := [];
    if ordered == [] {
      return;
    }
    var current := [ordered[0]];
    ghost var from := 0;
    Begin(ordered, ok, fits);
    for k := 1 to |ordered|
      invariant Progress(runs, current, ordered, from, k, ok, fits)
    {
      if fits(current, ordered[k]) {
        Grow(runs, current, ordered, from, k, ok, fits);
        current := current + [ordered[k]];
      } else {
        Restart(runs, current, ordered, from, k, ok, fits);
        runs := runs + [current];
        from := k;
        current := [ordered[k]];
      }
    }
    Close(runs, current, ordered, from, |ordered|, ok, fits);
    assert ordered[..|ordered|] == ordered;
    runs := runs + [current];
  }

  lemma {:induction false} Begin(s: seq<Item>, ok: seq<Item> -> bool, fits: Test)
    requires s != [] && Extends(ok, fits, s)
    ensures Progress([], [s[0]], s, 0, 1, ok, fits)
  {
    assert s[0..1] == [s[0]];
  }

  lemma {:induction false} Restart(runs: seq<seq<Item>>, current: seq<Item>, s: seq<Item>, from: nat, k: nat,
      ok: seq<Item> -> bool, fits: Test)
    requires Progress(runs, current, s, from, k, ok, fits) && Extends(ok, fits, s) && k < |s| && !fits(current, s[k])
    ensures Progress(runs + [current], [s[k]], s, k, k + 1, ok, fits)
  {
    Close(runs, current, s, from, k, ok, fits);
    assert s[k..k + 1] == [s[k]];
  }

  // ---------------------------------------------------------------- bounded spans

  /** A run of the fixed-source-port splitter: one finding, or a span within the window. */
  predicate Fits(run: seq<Item>, window: int) {
    |run| == 1 || (run != [] && End(run) - Start(run) <= window)
  }

  /** A run fits when it is one finding, or no two of its moments are further apart than the window. */
  lemma {:induction false} FitsExactly(run: seq<Item>, window: int)
    requires run != []
    ensures Fits(run, window) <==> |run| == 1 || forall x, y :: x in run && y in run ==> x.last - y.first <= window
  {
    var first, last := Start(run), End(run);
    var x :| x in run && x.last == last;
    var y :| y in run && y.first == first;
  }

  function FitsWithin(window: int): seq<Item> -> bool { run => Fits(run, window) }

  /** The test of the loop: the span from the run's start to the later of the two ends. */
  function SpanTest(window: int): Test {
    (current: seq<Item>, x: Item) =>
      current != [] && (if x.last > End(current) then x.last else End(current)) - Start(current) <= window
  }

  /** In time order, the test says exactly whether the longer run fits. */
  lemma {:induction false} SpanTestExact(current: seq<Item>, x: Item, window: int)
    requires current != [] && forall y :: y in current ==> y.first <= x.first
    ensures SpanTest(window)(current, x) <==> Fits(current + [x], window)
  {
    var longer := current + [x];
    assert longer[..|longer| - 1] == current;
    assert Start(longer) == Start(current);
  }

  lemma {:induction false} SpansExtend(ordered: seq<Item>, window: int)
    requires InTimeOrder(ordered)
    ensures Extends(FitsWithin(window), SpanTest(window), ordered)
  {
    forall i: nat, j: nat ensures ExtendsAt(FitsWithin(window), SpanTest(window), ordered, i, j) {
      if i < j < |ordered| { SpanExtendsAt(ordered, i, j, window); }
    }
  }

  lemma {:induction false} ExtendsByTest(ok: seq<Item> -> bool, fits: Test, ordered: seq<Item>, i: nat, j: nat,
      current: seq<Item>, x: Item)
    requires i < j < |ordered| && current == ordered[i..j] && x == ordered[j]
    requires fits(current, x) ==> ok(current + [x])
    ensures ExtendsAt(ok, fits, ordered, i, j)
  {
    assert ordered[i..j + 1] == current + [x];
  }

  lemma {:induction false} SpanExtendsAt(ordered: seq<Item>, i: nat, j: nat, window: int)
    requires InTimeOrder(ordered) && i < j < |ordered|
    ensures ExtendsAt(FitsWithin(window), SpanTest(window), ordered, i, j)
  {
    EarlierInSlice(ordered, i, j);
    SpanTestExact(ordered[i..j], ordered[j], window);
    ExtendsByTest(FitsWithin(window), SpanTest(window), ordered, i, j, ordered[i..j], ordered[j]);
  }

  lemma {:induction false} EarlierInSlice(ordered: seq<Item>, i: nat, j: nat)
    requires InTimeOrder(ordered) && i <= j < |ordered|
    ensures forall y :: y in ordered[i..j] ==> y.first <= ordered[j].first
  {
    forall y | y in ordered[i..j] ensures y.first <= ordered[j].first {
      var k :| i <= k < j && ordered[k] == y;
      assert NotLater(ordered[k], ordered[j]);
    }
  }

  /** `_time_compatible_runs` of the fixed-source-port clusters. */
  method BoundedRuns(groups: seq<Item>, window: int) returns (runs: seq<seq<Item>>)
    ensures Joined(runs) == SortBy(groups, ItemBefore)
    ensures forall k :: 0 <= k < |runs| ==> runs[k] != [] && Fits(runs[k], window)
    ensures forall other :: Splits(other, SortBy(groups, ItemBefore), FitsWithin(window)) ==> |runs| <= |other|
  {
    var ordered := SortBy(groups, ItemBefore);
    SortedInTime(groups);
    SpansExtend(ordered, window);
    runs := SplitRuns(ordered, FitsWithin(window), SpanTest(window));
    forall k | 0 <= k < |runs| ensures Fits(runs[k], window) { assert FitsWithin(window)(runs[k]); }
    FitsIsHereditary(window);
    CutsForced(runs, ordered, window);
    forall other | Splits(other, ordered, FitsWithin(window)) ensures |runs| <= |other| {
      ForcedIsFewest(runs, other, ordered, FitsWithin(window));
    }
  }

  // ---------------------------------------------------------------- fewest runs

  ghost predicate Splits(runs: seq<seq<Item>>, s: seq<Item>, ok: seq<Item> -> bool) {
    Joined(runs) == s && forall k :: 0 <= k < |runs| ==> runs[k] != [] && ok(runs[k])
  }

  /** Parts of a good run are good. */
  ghost predicate Hereditary(ok: seq<Item> -> bool) {
    forall s, i, j :: PartsGood(ok, s, i, j)
  }

  ghost predicate PartsGood(ok: seq<Item> -> bool, s: seq<Item>, i: int, j: int) {
    ok(s) && 0 <= i < j <= |s| ==> ok(s[i..j])
  }

  lemma {:induction false} FitsIsHereditary(window: int)
    ensures Hereditary(FitsWithin(window))
  {
    forall s: seq<Item>, i: int, j: int ensures PartsGood(FitsWithin(window), s, i, j) {
      if Fits(s, window) && 0 <= i < j <= |s| && j - i > 1 { PartFits(s, i, j, window); }
    }
  }

  lemma {:induction false} PartFits(s: seq<Item>, i: nat, j: nat, window: int)
    requires Fits(s, window) && i + 1 < j <= |s|
    ensures Fits(s[i..j], window)
  {
    FitsExactly(s, window);
    FitsExactly(s[i..j], window);
    assert forall x :: x in s[i..j] ==> x in s;
  }

  /** No run could have taken the first item of the next one. */
  ghost predicate Forced(runs: seq<seq<Item>>, ok: seq<Item> -> bool) {
    forall k :: 0 < k < |runs| ==> runs[k] != [] && !ok(runs[k - 1] + [runs[k][0]])
  }

  lemma {:induction false} JoinedFront(runs: seq<seq<Item>>)
    requires runs != []
    ensures Joined(runs) == runs[0] + Joined(runs[1..])
  {
    if |runs| > 1 {
      var n := |runs| - 1;
      JoinedFront(runs[..n]);
      assert runs[..n][1..] == runs[1..][..n - 1] && runs[1..][n - 1] == runs[n];
    }
  }

  lemma {:induction false} RunEarlier(runs: seq<seq<Item>>, s: seq<Item>, k: nat)
    requires InTimeOrder(s) && Joined(runs) == s && 0 < k < |runs| && runs[k] != []
    ensures forall y :: y in runs[k - 1] ==> y.first <= runs[k][0].first
    decreases |runs|
  {
    var n := |runs| - 1;
    assert s == Joined(runs[..n]) + runs[n];
    if k == n {
      var m := |Joined(runs[..n])|;
      assert runs[..n][..n - 1] == runs[..n - 1];
      assert Joined(runs[..n]) == Joined(runs[..n - 1]) + runs[n - 1];
      forall y | y in runs[n - 1] ensures y.first <= runs[n][0].first {
        var i :| 0 <= i < |runs[n - 1]| && runs[n - 1][i] == y;
        assert s[m - |runs[n - 1]| + i] == y && s[m] == runs[n][0];
        assert NotLater(s[m - |runs[n - 1]| + i], s[m]);
      }
    } else {
      var init := Joined(runs[..n]);
      forall i, j | 0 <= i < j < |init| ensures NotLater(init[i], init[j]) { assert NotLater(s[i], s[j]); }
      RunEarlier(runs[..n], init, k);
    }
  }

  lemma {:induction false} CutsForced(runs: seq<seq<Item>>, s: seq<Item>, window: int)
    requires InTimeOrder(s) && Joined(runs) == s && Split(runs, FitsWithin(window), SpanTest(window))
    ensures Forced(runs, FitsWithin(window))
  {
    forall k | 0 < k < |runs| ensures runs[k] != [] && !FitsWithin(window)(runs[k - 1] + [runs[k][0]]) {
      assert CutAt(runs, k, SpanTest(window));
      RunEarlier(runs, s, k);
      SpanTestExact(runs[k - 1], runs[k][0], window);
    }
  }

  /** What is left of a split after its first `d` items is split by no more runs. */
  lemma {:induction false} DropFront(runs: seq<seq<Item>>, s: seq<Item>, d: nat, ok: seq<Item> -> bool)
    returns (rest: seq<seq<Item>>)
    requires Splits(runs, s, ok) && d <= |s| && Hereditary(ok)
    ensures Splits(rest, s[d..], ok) && |rest| <= |runs|
    decreases |runs|
  {
    if runs == [] {
      return runs;
    }
    JoinedFront(runs);
    var first := runs[0];
    if d >= |first| {
      assert s[|first|..] == Joined(runs[1..]);
      rest := DropFront(runs[1..], s[|first|..], d - |first|, ok);
      assert s[|first|..][d - |first|..] == s[d..];
    } else {
      rest := [first[d..]] + runs[1..];
      assert PartsGood(ok, first, d, |first|);
      assert first[d..|first|] == first[d..];
      JoinedFront(rest);
      assert rest[1..] == runs[1..];
      assert s[d..] == first[d..] + Joined(runs[1..]);
    }
  }

  /** A split whose cuts are all forced has the fewest runs of any split. */
  lemma {:induction false} ForcedIsFewest(runs: seq<seq<Item>>, other: seq<seq<Item>>, s: seq<Item>,
      ok: seq<Item> -> bool)
    requires Splits(runs, s, ok) && Forced(runs, ok) && Splits(other, s, ok) && Hereditary(ok)
    ensures |runs| <= |other|
    decreases |runs|
  {
    if runs != [] {
      JoinedFront(runs);
      assert s != [];
      assert other == [] ==> Joined(other) == [];
      JoinedFront(other);
      var n := |runs[0]|;
      if |other[0]| > n { FirstCutForced(runs, other, s, ok); }
      assert s[|other[0]|..] == Joined(other[1..]);
      var rest := DropFront(other[1..], s[|other[0]|..], n - |other[0]|, ok);
      assert s[|other[0]|..][n - |other[0]|..] == s[n..];
      assert Joined(runs[1..]) == s[n..];
      forall k | 0 < k < |runs[1..]| ensures runs[1..][k] != [] && !ok(runs[1..][k - 1] + [runs[1..][k][0]]) {
        assert runs[1..][k] == runs[k + 1] && runs[1..][k - 1] == runs[k];
      }
      ForcedIsFewest(runs[1..], rest, s[n..], ok);
    }
  }

  lemma {:induction false} PrefixSlices(x: seq<Item>, tail: seq<Item>, m: nat)
    ensures m <= |x| ==> x[0..m] == (x + tail)[..m]
  {}

  lemma {:induction false} FirstCutForced(runs: seq<seq<Item>>, other: seq<seq<Item>>, s: seq<Item>,
      ok: seq<Item> -> bool)
    requires runs != [] && other != [] && Splits(runs, s, ok) && Forced(runs, ok) && Splits(other, s, ok)
      && Hereditary(ok)
    ensures |other[0]| <= |runs[0]|
  {
    JoinedFront(runs);
    JoinedFront(other);
    var n := |runs[0]|;
    if |runs| == 1 {
      assert runs[1..] == [] && |s| == n;
    } else {
      JoinedFront(runs[1..]);
      assert s[..n + 1] == runs[0] + [runs[1][0]];
      PrefixSlices(other[0], Joined(other[1..]), n + 1);
      assert PartsGood(ok, other[0], 0, n + 1);
    }
  }

  // ---------------------------------------------------------------- gaps within tolerance

  /** The windows touch or lie no further apart than the tolerance. */
  predicate Near(a: Item, b: Item, tolerance: int) {
    a.first <= b.last + tolerance && b.first <= a.last + tolerance
  }

  /** Two incidents are near when a moment of one and a moment of the other are within the tolerance. */
  lemma {:induction false} NearExactly(a: Item, b: Item, tolerance: nat)
    requires a.first <= a.last && b.first <= b.last
    ensures Near(a, b, tolerance) <==> Signals.WithinReach(a.first, a.last, b.first, b.last, tolerance)
  {
    var t := if a.last < b.first then a.last else if a.first < b.first then b.first else a.first;
    var u := if b.last < t then b.last else if t < b.first then b.first else t;
    assert Near(a, b, tolerance) ==> Signals.Apart(t, u, tolerance);
  }

  /** `_windows_compatible` with the hull of the current run. */
  function GapTest(tolerance: int): Test {
    (current: seq<Item>, x: Item) =>
      current != [] && !(x.first > End(current) + tolerance || x.last < Start(current) - tolerance)
  }

  ghost predicate LinkedAt(run: seq<Item>, k: nat, tolerance: int) {
    0 < k < |run| ==> exists j :: 0 <= j < k && Near(run[j], run[k], tolerance)
  }

  /** Every item but the first is near an earlier one. */
  ghost predicate Linked(run: seq<Item>, tolerance: int) {
    run != [] && forall k :: LinkedAt(run, k, tolerance)
  }

  ghost function LinkedWithin(tolerance: int): seq<Item> -> bool { run => Linked(run, tolerance) }

  ghost predicate WindowsOrdered(s: seq<Item>) { forall x :: x in s ==> x.first <= x.last }

  lemma {:induction false} GapLinks(current: seq<Item>, x: Item, tolerance: int)
    requires Linked(current, tolerance) && tolerance >= 0 && x.first <= x.last
    requires forall y :: y in current ==> y.first <= x.first
    requires GapTest(tolerance)(current, x)
    ensures Linked(current + [x], tolerance)
  {
    var longer := current + [x];
    var y :| y in current && y.last == End(current);
    var j :| 0 <= j < |current| && current[j] == y;
    assert Near(longer[j], longer[|current|], tolerance);
    forall k: nat ensures LinkedAt(longer, k, tolerance) {
      if 0 < k < |current| {
        assert LinkedAt(current, k, tolerance);
        var i :| 0 <= i < k && Near(current[i], current[k], tolerance);
        assert Near(longer[i], longer[k], tolerance);
      }
    }
  }

  lemma {:induction false} GapsExtend(ordered: seq<Item>, tolerance: int)
    requires InTimeOrder(ordered) && WindowsOrdered(ordered) && tolerance >= 0
    ensures Extends(LinkedWithin(tolerance), GapTest(tolerance), ordered)
  {
    forall i: nat, j: nat ensures ExtendsAt(LinkedWithin(tolerance), GapTest(tolerance), ordered, i, j) {
      if i < j < |ordered| && LinkedWithin(tolerance)(ordered[i..j]) { GapExtendsAt(ordered, i, j, tolerance); }
    }
  }

  lemma {:induction false} GapExtendsAt(ordered: seq<Item>, i: nat, j: nat, tolerance: int)
    requires InTimeOrder(ordered) && WindowsOrdered(ordered) && tolerance >= 0
    requires i < j < |ordered| && LinkedWithin(tolerance)(ordered[i..j])
    ensures ExtendsAt(LinkedWithin(tolerance), GapTest(tolerance), ordered, i, j)
  {
    EarlierInSlice(ordered, i, j);
    if GapTest(tolerance)(ordered[i..j], ordered[j]) { GapLinks(ordered[i..j], ordered[j], tolerance); }
    ExtendsByTest(LinkedWithin(tolerance), GapTest(tolerance), ordered, i, j, ordered[i..j], ordered[j]);
  }

  /** No item of one run is near an item of another. */
  ghost predicate Separated(runs: seq<seq<Item>>, tolerance: int) {
    forall p, q, x, y :: 0 <= p < q < |runs| && x in runs[p] && y in runs[q] ==> !Near(x, y, tolerance)
  }

  function Offset(runs: seq<seq<Item>>, k: nat): nat
    requires k <= |runs|
  {
    if k == 0 then 0 else Offset(runs, k - 1) + |runs[k - 1]|
  }

  lemma {:induction false} OffsetsGrow(runs: seq<seq<Item>>, k: nat, l: nat)
    requires k <= l <= |runs|
    ensures Offset(runs, k) <= Offset(runs, l)
    ensures k < l ==> Offset(runs, k) + |runs[k]| <= Offset(runs, l)
    decreases l - k
  {
    if k < l { OffsetsGrow(runs, k + 1, l); }
  }

  lemma {:induction false} OffsetIsLength(runs: seq<seq<Item>>, n: nat)
    requires n <= |runs|
    ensures |Joined(runs[..n])| == Offset(runs, n)
  {
    if n > 0 {
      OffsetIsLength(runs, n - 1);
      assert runs[..n][..n - 1] == runs[..n - 1];
    }
  }

  /** Where an item of a run is in the joined sequence. */
  lemma {:induction false} InPlace(runs: seq<seq<Item>>, n: nat, k: nat, i: nat)
    requires k < n <= |runs| && i < |runs[k]|
    ensures Offset(runs, k) + i < |Joined(runs[..n])| && Joined(runs[..n])[Offset(runs, k) + i] == runs[k][i]
  {
    assert runs[..n][..n - 1] == runs[..n - 1];
    OffsetIsLength(runs, n - 1);
    if k < n - 1 { InPlace(runs, n - 1, k, i); }
  }

  /** Items of a later run start no earlier than those of the run after an earlier one. */
  lemma {:induction false} LaterStarts(runs: seq<seq<Item>>, s: seq<Item>, p: nat, q: nat, y: Item)
    requires InTimeOrder(s) && Joined(runs) == s && p < q < |runs| && runs[p + 1] != [] && y in runs[q]
    ensures runs[p + 1][0].first <= y.first
  {
    assert runs[..|runs|] == runs;
    OffsetsGrow(runs, p + 1, q);
    var i :| 0 <= i < |runs[q]| && runs[q][i] == y;
    InPlace(runs, |runs|, p + 1, 0);
    InPlace(runs, |runs|, q, i);
    var from, to := Offset(runs, p + 1), Offset(runs, q) + i;
    assert s[from] == runs[p + 1][0] && s[to] == y;
    if from < to { assert NotLater(s[from], s[to]); }
  }

  lemma {:induction false} InOrdered(runs: seq<seq<Item>>, k: nat, x: Item)
    requires k < |runs| && x in runs[k]
    ensures x in Joined(runs)
  {
    assert runs[..|runs|] == runs;
    var i :| 0 <= i < |runs[k]| && runs[k][i] == x;
    InPlace(runs, |runs|, k, i);
    assert Joined(runs)[Offset(runs, k) + i] == x;
  }

  lemma {:induction false} CutsSeparate(runs: seq<seq<Item>>, s: seq<Item>, tolerance: int)
    requires InTimeOrder(s) && WindowsOrdered(s) && Joined(runs) == s && tolerance >= 0
    requires Split(runs, LinkedWithin(tolerance), GapTest(tolerance))
    ensures Separated(runs, tolerance)
  {
    forall p, q, x, y | 0 <= p < q < |runs| && x in runs[p] && y in runs[q] ensures !Near(x, y, tolerance) {
      assert CutAt(runs, p + 1, GapTest(tolerance));
      RunEarlier(runs, s, p + 1);
      LaterStarts(runs, s, p, q, y);
      var next := runs[p + 1][0];
      InOrdered(runs, p + 1, next);
      assert next.first <= next.last;
      GapForced(runs[p], next, tolerance);
    }
  }

  /** In time order, an item that fails the test starts beyond the tolerance. */
  lemma {:induction false} GapForced(current: seq<Item>, x: Item, tolerance: int)
    requires current != [] && tolerance >= 0 && x.first <= x.last && forall y :: y in current ==> y.first <= x.first
    requires !GapTest(tolerance)(current, x)
    ensures forall y :: y in current ==> y.last + tolerance < x.first
  {
    var first, last := Start(current), End(current);
    var y :| y in current && y.first == first;
    assert x.last >= first - tolerance;
  }

  /** `_time_compatible_runs` of the exposure groups. */
  method ComponentRuns(incidents: seq<Item>, tolerance: int) returns (runs: seq<seq<Item>>)
    requires WindowsOrdered(incidents) && tolerance >= 0
    ensures Joined(runs) == SortBy(incidents, ItemBefore)
    ensures forall k :: 0 <= k < |runs| ==> Linked(runs[k], tolerance)
    ensures Separated(runs, tolerance)
  {
    var ordered := SortBy(incidents, ItemBefore);
    SortedInTime(incidents);
    SameMultisetSameElements(ordered, incidents);
    assert forall x :: x in ordered ==> x in Elements(incidents);
    GapsExtend(ordered, tolerance);
    runs := SplitRuns(ordered, LinkedWithin(tolerance), GapTest(tolerance));
    forall k | 0 <= k < |runs| ensures Linked(runs[k], tolerance) { assert LinkedWithin(tolerance)(runs[k]); }
    CutsSeparate(runs, ordered, tolerance);
  }

  // ---------------------------------------------------------------- connected components

  /** A chain of near items, all of them in `s`. */
  ghost predicate Path(p: seq<Item>, s: set<Item>, tolerance: int) {
    && p != [] && (forall i :: 0 <= i < |p| ==> p[i] in s)
    && (forall i :: 0 < i < |p| ==> Near(p[i - 1], p[i], tolerance))
  }

  ghost predicate Leads(p: seq<Item>, a: Item, b: Item, s: set<Item>, tolerance: int) {
    Path(p, s, tolerance) && p[0] == a && p[|p| - 1] == b
  }

  ghost predicate Connected(a: Item, b: Item, s: set<Item>, tolerance: int) { exists p :: Leads(p, a, b, s, tolerance) }

  ghost predicate SameRun(a: Item, b: Item, runs: seq<seq<Item>>) {
    exists k :: 0 <= k < |runs| && a in runs[k] && b in runs[k]
  }

  lemma {:induction false} ConnectedStep(a: Item, b: Item, c: Item, s: set<Item>, tolerance: int)
    requires a in s && Near(a, b, tolerance) && Connected(b, c, s, tolerance)
    ensures Connected(a, c, s, tolerance)
  {
    var p :| Leads(p, b, c, s, tolerance);
    assert Leads([a] + p, a, c, s, tolerance);
  }

  lemma {:induction false} ConnectedSymmetric(a: Item, b: Item, s: set<Item>, tolerance: int)
    requires Connected(a, b, s, tolerance)
    ensures Connected(b, a, s, tolerance)
  {
    var p :| Leads(p, a, b, s, tolerance);
    var q := seq(|p|, i requires 0 <= i < |p| => p[|p| - 1 - i]);
    forall i | 0 < i < |q| ensures Near(q[i - 1], q[i], tolerance) {
      assert Near(p[|p| - 1 - i], p[|p| - i], tolerance);
    }
    assert Leads(q, b, a, s, tolerance);
  }

  lemma {:induction false} ConnectedTransitive(a: Item, b: Item, c: Item, s: set<Item>, tolerance: int)
    requires Connected(a, b, s, tolerance) && Connected(b, c, s, tolerance)
    ensures Connected(a, c, s, tolerance)
  {
    var p :| Leads(p, a, b, s, tolerance);
    var q :| Leads(q, b, c, s, tolerance);
    assert Leads(p + q[1..], a, c, s, tolerance);
  }

  lemma {:induction false} LinkedToFirst(run: seq<Item>, k: nat, s: set<Item>, tolerance: int)
    requires Linked(run, tolerance) && k < |run| && forall x :: x in run ==> x in s
    ensures Connected(run[k], run[0], s, tolerance)
    decreases k
  {
    if k == 0 {
      assert Leads([run[0]], run[0], run[0], s, tolerance);
    } else {
      assert LinkedAt(run, k, tolerance);
      var j :| 0 <= j < k && Near(run[j], run[k], tolerance);
      LinkedToFirst(run, j, s, tolerance);
      ConnectedStep(run[k], run[j], run[0], s, tolerance);
    }
  }

  ghost predicate Covers(runs: seq<seq<Item>>, s: set<Item>) {
    && (forall k, x :: 0 <= k < |runs| && x in runs[k] ==> x in s)
    && (forall x :: x in s ==> exists k :: 0 <= k < |runs| && x in runs[k])
  }

  /** A chain of near items stays in the run it starts in. */
  lemma {:induction false} PathStays(p: seq<Item>, n: nat, k: nat, runs: seq<seq<Item>>, s: set<Item>, tolerance: int)
    requires Path(p, s, tolerance) && Separated(runs, tolerance) && Covers(runs, s)
    requires k < |runs| && p[0] in runs[k] && n < |p|
    ensures p[n] in runs[k]
  {
    if n > 0 {
      PathStays(p, n - 1, k, runs, s, tolerance);
      var q :| 0 <= q < |runs| && p[n] in runs[q];
      assert Near(p[n - 1], p[n], tolerance) && Near(p[n], p[n - 1], tolerance);
      assert q == k;
    }
  }

  lemma {:induction false} CoversElements(runs: seq<seq<Item>>, s: seq<Item>)
    requires Elements(Joined(runs)) == Elements(s)
    ensures Covers(runs, Elements(s))
  {
    forall k, x | 0 <= k < |runs| && x in runs[k] ensures x in Elements(s) {
      InOrdered(runs, k, x);
      assert x in Elements(Joined(runs));
    }
    forall x | x in Elements(s) ensures exists k :: 0 <= k < |runs| && x in runs[k] {
      assert x in Joined(runs);
      Somewhere(runs, x);
    }
  }

  lemma {:induction false} Somewhere(runs: seq<seq<Item>>, x: Item)
    requires x in Joined(runs)
    ensures exists k :: 0 <= k < |runs| && x in runs[k]
  {
    var n := |runs| - 1;
    if x !in runs[n] {
      Somewhere(runs[..n], x);
      var k :| 0 <= k < n && x in runs[..n][k];
      assert x in runs[k];
    }
  }

  /** The runs are exactly the connected components of nearness: two incidents share a run if and only
      if a chain of near incidents leads from one to the other. */
  lemma {:induction false} RunsAreComponents(incidents: seq<Item>, runs: seq<seq<Item>>, tolerance: int, a: Item,
      b: Item)
    requires Joined(runs) == SortBy(incidents, ItemBefore) && Separated(runs, tolerance)
    requires forall k :: 0 <= k < |runs| ==> Linked(runs[k], tolerance)
    requires a in incidents && b in incidents
    ensures SameRun(a, b, runs) <==> Connected(a, b, Elements(incidents), tolerance)
  {
    var s := Elements(incidents);
    SameMultisetSameElements(SortBy(incidents, ItemBefore), incidents);
    CoversElements(runs, incidents);
    if SameRun(a, b, runs) {
      var k :| 0 <= k < |runs| && a in runs[k] && b in runs[k];
      var i, j :| 0 <= i < |runs[k]| && 0 <= j < |runs[k]| && runs[k][i] == a && runs[k][j] == b;
      LinkedToFirst(runs[k], i, s, tolerance);
      LinkedToFirst(runs[k], j, s, tolerance);
      ConnectedSymmetric(b, runs[k][0], s, tolerance);
      ConnectedTransitive(a, runs[k][0], b, s, tolerance);
    }
    if Connected(a, b, s, tolerance) {
      var p :| Leads(p, a, b, s, tolerance);
      var k :| 0 <= k < |runs| && a in runs[k];
      PathStays(p, |p| - 1, k, runs, s, tolerance);
    }
  }

  /** So the order of the incidents does not matter. */
  lemma {:induction false} RunsOrderIndependent(incidents: seq<Item>, permuted: seq<Item>, runs: seq<seq<Item>>,
      other: seq<seq<Item>>, tolerance: int, a: Item, b: Item)
    requires multiset(incidents) == multiset(permuted) && a in incidents && b in incidents
    requires Joined(runs) == SortBy(incidents, ItemBefore) && Separated(runs, tolerance)
    requires forall k :: 0 <= k < |runs| ==> Linked(runs[k], tolerance)
    requires Joined(other) == SortBy(permuted, ItemBefore) && Separated(other, tolerance)
    requires forall k :: 0 <= k < |other| ==> Linked(other[k], tolerance)
    ensures SameRun(a, b, runs) <==> SameRun(a, b, other)
  {
    SameMultisetSameElements(incidents, permuted);
    assert a in Elements(permuted) && b in Elements(permuted);
    RunsAreComponents(incidents, runs, tolerance, a, b);
    RunsAreComponents(permuted, other, tolerance, a, b);
  }
}
