/** Which signals deduplication joins: chains of repeats of one rule from one source. */
module RepeatChains {
  import opened Ordering
  import opened Signals
  import opened Scoring
  import opened Incidents
  import opened Engine

  /** A run of signals of one rule from one source in time order, each sharing an event with those before it
      and beginning no later than the window after the last of them ended. */
  ghost predicate Chain(run: seq<Signal>, p: Params) {
    && run != []
    && (forall k :: 0 <= k < |run| ==> OneOrigin(run[k], run[0]))
    && (forall k :: 0 < k < |run| ==> run[k - 1].firstSeen <= run[k].firstSeen && Continues(run, k, p))
  }

  predicate OneOrigin(a: Signal, b: Signal) { a.ruleId == b.ruleId && a.primaryEntity == b.primaryEntity }

  ghost predicate Continues(run: seq<Signal>, k: nat, p: Params)
    requires k < |run|
  {
    && (exists e :: e in run[k].eventIds && InEarlier(e, run, k))
    && exists j :: 0 <= j < k && run[k].firstSeen - run[j].lastSeen <= p.windowSeconds * 1_000_000
  }

  ghost predicate InEarlier(e: string, run: seq<Signal>, k: nat)
    requires k <= |run|
  {
    exists j :: 0 <= j < k && e in run[j].eventIds
  }

  /** The signal a chain becomes: the first, with the events, targets and evidence of all and the latest end. */
  ghost predicate Becomes(run: seq<Signal>, x: Signal, rename: Signal -> string)
    requires run != []
  {
    && (forall e :: e in x.eventIds <==> InEarlier(e, run, |run|))
    && (forall t :: t in x.targets <==> exists j :: 0 <= j < |run| && t in run[j].targets)
    && (forall j :: 0 <= j < |run| ==> run[j].lastSeen <= x.lastSeen)
    && (exists j :: 0 <= j < |run| && run[j].lastSeen == x.lastSeen)
    && EvidenceOfAll(run, x.evidence)
    && x == run[0].(eventIds := x.eventIds, targets := x.targets, lastSeen := x.lastSeen, evidence := x.evidence,
                    signalId := x.signalId)
    && if |run| == 1 then x == run[0] else exists id :: Renamed(x, id, rename)
  }

  predicate Renamed(x: Signal, id: string, rename: Signal -> string) { x.signalId == rename(x.(signalId := id)) }

  /** The evidence of the first, then one item for each further event. */
  ghost predicate EvidenceOfAll(run: seq<Signal>, evidence: seq<Evidence>)
    requires run != []
  {
    && run[0].evidence <= evidence
    && (forall e :: e in evidence ==> exists j :: 0 <= j < |run| && e in run[j].evidence)
    && (forall j, e :: 0 <= j < |run| && e in run[j].evidence ==> Shown(e.eventId, evidence))
    && (forall i, k :: 0 <= i < k < |evidence| && |run[0].evidence| <= k ==> evidence[i].eventId != evidence[k].eventId)
  }

  ghost predicate Shown(id: string, evidence: seq<Evidence>) {
    exists i :: 0 <= i < |evidence| && evidence[i].eventId == id
  }

  function Flat(runs: seq<seq<Signal>>): seq<Signal> {
    if runs == [] then [] else Flat(runs[..|runs| - 1]) + runs[|runs| - 1]
  }

  /** A chain ends where the next signal of the same origin does not repeat it. */
  ghost predicate EndsBefore(x: Signal, run: seq<Signal>, next: seq<Signal>, p: Params) {
    run != [] && next != [] && OneOrigin(run[0], next[0]) ==>
      && run[|run| - 1].firstSeen <= next[0].firstSeen
      && ((forall e :: e in next[0].eventIds ==> e !in x.eventIds)
          || next[0].firstSeen - x.lastSeen > p.windowSeconds * 1_000_000)
  }

  type Reported = (seq<Signal>, Signal) -> bool
  type Ending = (Signal, seq<Signal>, seq<Signal>) -> bool

  ghost function ChainOf(p: Params, rename: Signal -> string): Reported {
    (run, x) => Chain(run, p) && Becomes(run, x, rename)
  }

  ghost function EndWithin(p: Params): Ending { (x, run, next) => EndsBefore(x, run, next, p) }

  ghost predicate Right(runs: seq<seq<Signal>>, r: seq<Signal>, reported: Reported, ends: Ending) {
    && |runs| == |r|
    && (forall i :: 0 <= i < |runs| ==> reported(runs[i], r[i]))
    && (forall i :: 0 < i < |runs| ==> ends(r[i - 1], runs[i - 1], runs[i]))
  }

  /** `r` are what the chains become. */
  ghost predicate AreChains(runs: seq<seq<Signal>>, r: seq<Signal>, p: Params, rename: Signal -> string) {
    Right(runs, r, ChainOf(p, rename), EndWithin(p))
  }

  // ---------------------------------------------------------------- one rule of one source

  lemma {:induction false} Alone(x: Signal, p: Params, rename: Signal -> string)
    ensures Chain([x], p) && Becomes([x], x, rename)
  {
    assert forall e :: InEarlier(e, [x], 1) <==> e in [x][0].eventIds;
    assert [x][0].lastSeen == x.lastSeen;
  }

  lemma {:induction false} EarlierAppend(run: seq<Signal>, s: Signal)
    ensures forall e :: InEarlier(e, run + [s], |run| + 1) <==> InEarlier(e, run, |run|) || e in s.eventIds
    ensures forall e, k :: 0 <= k <= |run| ==> (InEarlier(e, run + [s], k) <==> InEarlier(e, run, k))
  {
    var all := run + [s];
    assert all[|run|] == s;
    forall e, k | 0 <= k <= |run| ensures InEarlier(e, all, k) <==> InEarlier(e, run, k) {
      if InEarlier(e, run, k) { var j :| 0 <= j < k && e in run[j].eventIds; assert e in all[j].eventIds; }
    }
    forall e ensures InEarlier(e, all, |run| + 1) <==> InEarlier(e, run, |run|) || e in s.eventIds {
      if InEarlier(e, run, |run|) {
        var j :| 0 <= j < |run| && e in run[j].eventIds;
        assert e in all[j].eventIds;
      }
    }
  }

  lemma {:induction false} ChainExtends(run: seq<Signal>, x: Signal, s: Signal, p: Params, rename: Signal -> string)
    requires Chain(run, p) && Becomes(run, x, rename) && OneOrigin(s, run[0])
    requires run[|run| - 1].firstSeen <= s.firstSeen && Repeats(x, s, p)
    ensures Chain(run + [s], p)
  {
    var all := run + [s];
    EarlierAppend(run, s);
    forall k | 0 < k < |all| ensures all[k - 1].firstSeen <= all[k].firstSeen && Continues(all, k, p) {
      if k < |run| {
        assert Continues(run, k, p);
        var e :| e in run[k].eventIds && InEarlier(e, run, k);
        assert e in all[k].eventIds && InEarlier(e, all, k);
        var j :| 0 <= j < k && run[k].firstSeen - run[j].lastSeen <= p.windowSeconds * 1_000_000;
        assert all[j] == run[j];
      } else {
        var e :| e in x.eventIds * s.eventIds;
        assert InEarlier(e, all, k) && e in all[k].eventIds;
        var j :| 0 <= j < |run| && run[j].lastSeen == x.lastSeen;
        assert all[j] == run[j];
      }
    }
  }

  lemma {:induction false} EvidenceGrows(run: seq<Signal>, evidence: seq<Evidence>, s: Signal)
    requires run != [] && EvidenceOfAll(run, evidence)
    ensures EvidenceOfAll(run + [s], evidence + NewEvidence(Elements(Map(EventOf, evidence)), s.evidence))
  {
    var seen := Elements(Map(EventOf, evidence));
    var added := NewEvidence(seen, s.evidence);
    var all, r := run + [s], evidence + added;
    assert all[|run|] == s;
    forall e | e in r ensures exists j :: 0 <= j < |all| && e in all[j].evidence {
      if e in evidence {
        var j :| 0 <= j < |run| && e in run[j].evidence;
        assert e in all[j].evidence;
      } else {
        assert e in all[|run|].evidence;
      }
    }
    forall j, e | 0 <= j < |all| && e in all[j].evidence ensures Shown(e.eventId, r) {
      if j < |run| {
        assert Shown(e.eventId, evidence);
        var i :| 0 <= i < |evidence| && evidence[i].eventId == e.eventId;
        assert r[i] == evidence[i];
      } else {
        ShownFresh(evidence, s.evidence, e);
      }
    }
    forall i, k | 0 <= i < k < |r| && |run[0].evidence| <= k ensures r[i].eventId != r[k].eventId {
      if k >= |evidence| {
        assert r[k] == added[k - |evidence|] && EventOf(r[k]) !in seen;
        if i < |evidence| { assert Map(EventOf, evidence)[i] == r[i].eventId; }
        else { assert EventOf(added[i - |evidence|]) != EventOf(added[k - |evidence|]); }
      }
    }
  }

  lemma {:induction false} ShownFresh(evidence: seq<Evidence>, more: seq<Evidence>, e: Evidence)
    requires e in more
    ensures Shown(e.eventId, evidence + NewEvidence(Elements(Map(EventOf, evidence)), more))
  {
    var names := Map(EventOf, evidence);
    var added := NewEvidence(Elements(names), more);
    var r := evidence + added;
    if e.eventId in Elements(names) {
      var i :| 0 <= i < |names| && names[i] == e.eventId;
      assert r[i].eventId == e.eventId;
    } else {
      KeepFirstComplete(more, (x: Evidence) => true, EventOf, Elements(names), e);
      var i :| 0 <= i < |added| && EventOf(added[i]) == EventOf(e);
      assert r[|evidence| + i].eventId == e.eventId;
    }
  }

  lemma {:induction false} BecomesJoined(run: seq<Signal>, x: Signal, s: Signal, rename: Signal -> string)
    requires run != [] && Becomes(run, x, rename)
    ensures Becomes(run + [s], Engine.Joined(x, s, rename), rename)
  {
    var all, y := run + [s], Engine.Joined(x, s, rename);
    EarlierAppend(run, s);
    EvidenceGrows(run, x.evidence, s);
    assert all[|run|] == s;
    assert Renamed(y, x.signalId, rename) by { assert y.(signalId := x.signalId) == y.(signalId := x.signalId); }
    forall t ensures t in y.targets <==> exists j :: 0 <= j < |all| && t in all[j].targets {
      if t in x.targets { var j :| 0 <= j < |run| && t in run[j].targets; assert t in all[j].targets; }
      if t in s.targets { assert t in all[|run|].targets; }
    }
    var j :| 0 <= j < |run| && run[j].lastSeen == x.lastSeen;
    assert all[j].lastSeen == x.lastSeen && all[|run|].lastSeen == s.lastSeen;
  }

  /** The signals of one origin, in time order, as chains. */
  lemma {:induction false} RuleChains(s: seq<Signal>, p: Params, rename: Signal -> string)
    returns (runs: seq<seq<Signal>>)
    requires forall i :: 0 <= i < |s| ==> OneOrigin(s[i], s[0])
    requires forall i, j :: 0 <= i < j < |s| ==> s[i].firstSeen <= s[j].firstSeen
    ensures AreChains(runs, FoldAll(s, RepeatsWithin(p), JoinWith(rename)), p, rename) && Flat(runs) == s
  {
    if s == [] {
      runs := [];
    } else {
      var n := |s| - 1;
      var before := RuleChains(s[..n], p, rename);
      var merged := FoldAll(s[..n], RepeatsWithin(p), JoinWith(rename));
      assert s == s[..n] + [s[n]];
      runs := OneMore(before, merged, s[..n], s[n], p, rename);
    }
  }

  lemma {:induction false} OneMore(before: seq<seq<Signal>>, merged: seq<Signal>, s: seq<Signal>, x: Signal,
      p: Params, rename: Signal -> string)
    returns (runs: seq<seq<Signal>>)
    requires AreChains(before, merged, p, rename) && Flat(before) == s
    requires forall i :: 0 <= i < |s| ==> OneOrigin(s[i], x) && s[i].firstSeen <= x.firstSeen
    ensures AreChains(runs, Fold(merged, x, RepeatsWithin(p), JoinWith(rename)), p, rename) && Flat(runs) == s + [x]
  {
    var n := |merged| - 1;
    if merged != [] { EndsOfLast(before, s); }
    if merged != [] && Repeats(merged[n], x, p) {
      runs := JoinLast(before, merged, x, p, rename);
    } else {
      runs := before + [[x]];
      assert runs[..|before|] == before;
      StartNew(before, merged, x, p, rename);
    }
  }

  lemma {:induction false} EndsOfLast(runs: seq<seq<Signal>>, s: seq<Signal>)
    requires runs != [] && Flat(runs) == s && runs[|runs| - 1] != []
    ensures var last := runs[|runs| - 1]; last[0] in s && last[|last| - 1] in s
  {
    var last := runs[|runs| - 1];
    var m := |Flat(runs[..|runs| - 1])|;
    assert s[m] == last[0] && s[m + |last| - 1] == last[|last| - 1];
  }

  lemma {:induction false} JoinLast(before: seq<seq<Signal>>, merged: seq<Signal>, x: Signal, p: Params,
      rename: Signal -> string)
    returns (runs: seq<seq<Signal>>)
    requires AreChains(before, merged, p, rename) && merged != [] && Repeats(merged[|merged| - 1], x, p)
    requires var last := before[|before| - 1];
      last != [] && OneOrigin(x, last[0]) && last[|last| - 1].firstSeen <= x.firstSeen
    ensures AreChains(runs, merged[|merged| - 1 := Engine.Joined(merged[|merged| - 1], x, rename)], p, rename)
    ensures Flat(runs) == Flat(before) + [x]
  {
    var n := |merged| - 1;
    var last := before[n];
    ChainExtends(last, merged[n], x, p, rename);
    BecomesJoined(last, merged[n], x, rename);
    runs := before[n := last + [x]];
    assert runs[..n] == before[..n];
    assert Flat(runs) == Flat(before[..n]) + (last + [x]);
    if n > 0 { SameHead(merged[n - 1], before[n - 1], last, last + [x], p); }
    ReplaceLast(before, merged, last + [x], Engine.Joined(merged[n], x, rename), ChainOf(p, rename), EndWithin(p));
  }

  lemma {:induction false} SameHead(x: Signal, run: seq<Signal>, next: seq<Signal>, longer: seq<Signal>, p: Params)
    requires EndWithin(p)(x, run, next) && next != [] && longer != [] && longer[0] == next[0]
    ensures EndWithin(p)(x, run, longer)
  {}

  lemma {:induction false} ReplaceLast(before: seq<seq<Signal>>, merged: seq<Signal>, run: seq<Signal>, y: Signal,
      reported: Reported, ends: Ending)
    requires Right(before, merged, reported, ends) && merged != [] && reported(run, y)
    requires |merged| > 1 ==> ends(merged[|merged| - 2], before[|merged| - 2], run)
    ensures Right(before[|before| - 1 := run], merged[|merged| - 1 := y], reported, ends)
  {}

  lemma {:induction false} StartNew(before: seq<seq<Signal>>, merged: seq<Signal>, x: Signal, p: Params,
      rename: Signal -> string)
    requires AreChains(before, merged, p, rename)
    requires merged != [] ==> !Repeats(merged[|merged| - 1], x, p)
    requires merged != [] ==> var last := before[|before| - 1]; last != [] && last[|last| - 1].firstSeen <= x.firstSeen
    ensures AreChains(before + [[x]], merged + [x], p, rename)
  {
    Alone(x, p, rename);
    var runs, r, n := before + [[x]], merged + [x], |before|;
    forall i | 0 < i < |runs| ensures EndWithin(p)(r[i - 1], runs[i - 1], runs[i]) {
      if i == n {
        assert forall e :: e in x.eventIds && e in merged[n - 1].eventIds ==> e in merged[n - 1].eventIds * x.eventIds;
      } else {
        assert EndsBefore(merged[i - 1], before[i - 1], before[i], p);
      }
    }
  }

  // ---------------------------------------------------------------- all rules of all sources

  lemma {:induction false} FlatConcat(a: seq<seq<Signal>>, b: seq<seq<Signal>>)
    ensures Flat(a + b) == Flat(a) + Flat(b)
  {
    if b == [] {
      assert a + b == a;
    } else {
      var n := |b| - 1;
      assert (a + b)[..|a| + n] == a + b[..n];
      FlatConcat(a, b[..n]);
    }
  }

  lemma {:induction false} HeadInFlat(runs: seq<seq<Signal>>, i: nat)
    requires i < |runs| && runs[i] != []
    ensures runs[i][0] in Flat(runs)
  {
    assert runs == runs[..i + 1] + runs[i + 1..];
    FlatConcat(runs[..i + 1], runs[i + 1..]);
    assert runs[..i + 1][..i] == runs[..i];
  }

  lemma {:induction false} RightConcat(a: seq<seq<Signal>>, x: seq<Signal>, b: seq<seq<Signal>>, y: seq<Signal>,
      reported: Reported, ends: Ending)
    requires Right(a, x, reported, ends) && Right(b, y, reported, ends)
    requires a != [] && b != [] ==> ends(x[|a| - 1], a[|a| - 1], b[0])
    ensures Right(a + b, x + y, reported, ends)
  {}

  /** Signals of one origin have one key. */
  ghost predicate Separates(key: Signal -> string) {
    forall a, b :: OneOrigin(a, b) ==> key(a) == key(b)
  }

  /** A nesting of groups that leaves only signals of one origin to be joined. */
  ghost predicate Proper(stage: Stage, s: seq<Signal>, p: Params, rename: Signal -> string)
    decreases stage
  {
    match stage
    case ByTime(repeats, join) =>
      repeats == RepeatsWithin(p) && join == JoinWith(rename) && forall x, y :: x in s && y in s ==> OneOrigin(x, y)
    case ByKey(key, inner) => Separates(key) && forall k :: Proper(inner, Group(s, key, k), p, rename)
  }

  ghost predicate Placed(runs: seq<seq<Signal>>, s: seq<Signal>, key: Signal -> string, keys: seq<string>) {
    forall x :: multiset(Flat(runs))[x] == if key(x) in keys then multiset(s)[x] else 0
  }

  lemma {:induction false} PassingCounts(s: seq<Signal>, ok: Signal -> bool)
    ensures forall x :: multiset(Passing(s, ok))[x] == if ok(x) then multiset(s)[x] else 0
  {
    if s != [] {
      var n := |s| - 1;
      PassingCounts(s[..n], ok);
      assert s == s[..n] + [s[n]];
    }
  }

  lemma {:induction false} NextGroup(before: seq<seq<Signal>>, last: seq<seq<Signal>>, s: seq<Signal>,
      key: Signal -> string, keys: seq<string>, k: string)
    requires Placed(before, s, key, keys) && k !in keys && multiset(Flat(last)) == multiset(Group(s, key, k))
    ensures Placed(before + last, s, key, keys + [k])
    ensures forall x, y :: x in Flat(before) && y in Flat(last) ==> key(x) != key(y)
  {
    FlatConcat(before, last);
    PassingCounts(s, (x: Signal) => key(x) == k);
    forall x, y | x in Flat(before) && y in Flat(last) ensures key(x) != key(y) {
      assert x in multiset(Flat(before)) && y in multiset(Flat(last));
    }
  }

  lemma {:induction false} KeysApart(before: seq<seq<Signal>>, last: seq<seq<Signal>>, key: Signal -> string,
      x: Signal, p: Params)
    requires Separates(key) && forall x, y :: x in Flat(before) && y in Flat(last) ==> key(x) != key(y)
    requires before != [] && last != []
    ensures EndWithin(p)(x, before[|before| - 1], last[0])
  {
    if before[|before| - 1] != [] && last[0] != [] {
      HeadInFlat(before, |before| - 1);
      HeadInFlat(last, 0);
    }
  }

  lemma {:induction false} AddGroup(before: seq<seq<Signal>>, r: seq<Signal>, last: seq<seq<Signal>>,
      more: seq<Signal>, s: seq<Signal>, key: Signal -> string, keys: seq<string>, k: string, p: Params,
      rename: Signal -> string)
    requires AreChains(before, r, p, rename) && AreChains(last, more, p, rename) && Separates(key) && k !in keys
    requires Placed(before, s, key, keys) && multiset(Flat(last)) == multiset(Group(s, key, k))
    ensures AreChains(before + last, r + more, p, rename) && Placed(before + last, s, key, keys + [k])
  {
    NextGroup(before, last, s, key, keys, k);
    if before != [] && last != [] { KeysApart(before, last, key, r[|r| - 1], p); }
    RightConcat(before, r, last, more, ChainOf(p, rename), EndWithin(p));
  }

  lemma {:induction false} GroupChains(s: seq<Signal>, key: Signal -> string, keys: seq<string>, n: nat, inner: Stage,
      p: Params, rename: Signal -> string)
    returns (runs: seq<seq<Signal>>)
    requires n <= |keys| && Distinct(keys) && Proper(ByKey(key, inner), s, p, rename)
    ensures AreChains(runs, ByGroup(s, key, keys, n, inner), p, rename) && Placed(runs, s, key, keys[..n])
    decreases inner, n
  {
    if n == 0 {
      runs := [];
    } else {
      var before := GroupChains(s, key, keys, n - 1, inner, p, rename);
      var last := StageChains(inner, Group(s, key, keys[n - 1]), p, rename);
      assert keys[..n] == keys[..n - 1] + [keys[n - 1]];
      AddGroup(before, ByGroup(s, key, keys, n - 1, inner), last, Run(inner, Group(s, key, keys[n - 1])), s, key,
               keys[..n - 1], keys[n - 1], p, rename);
      runs := before + last;
    }
  }

  lemma {:induction false} StageChains(stage: Stage, s: seq<Signal>, p: Params, rename: Signal -> string)
    returns (runs: seq<seq<Signal>>)
    requires Proper(stage, s, p, rename)
    ensures AreChains(runs, Run(stage, s), p, rename) && multiset(Flat(runs)) == multiset(s)
    decreases stage, 0
  {
    match stage
    case ByTime(repeats, join) =>
      InTimeOrder(s);
      runs := RuleChains(SortBy(s, Earlier), p, rename);
    case ByKey(key, inner) =>
      var keys := KeysInOrder(s, key);
      KeysInOrderRight(s, key);
      runs := GroupChains(s, key, keys, |keys|, inner, p, rename);
      assert keys[..|keys|] == keys;
      AllPlaced(runs, s, key, keys);
  }

  lemma {:induction false} AllPlaced(runs: seq<seq<Signal>>, s: seq<Signal>, key: Signal -> string, keys: seq<string>)
    requires Placed(runs, s, key, keys) && forall x :: x in s ==> key(x) in Elements(keys)
    ensures multiset(Flat(runs)) == multiset(s)
  {
    forall x ensures multiset(Flat(runs))[x] == multiset(s)[x] {
      if x in s { assert key(x) in Elements(keys); }
    }
  }

  lemma {:induction false} InTimeOrder(s: seq<Signal>)
    ensures var t := SortBy(s, Earlier);
      && multiset(t) == multiset(s) && (forall x :: x in t <==> x in s)
      && forall i, j :: 0 <= i < j < |t| ==> t[i].firstSeen <= t[j].firstSeen
  {
    var t := SortBy(s, Earlier);
    SortBySorted(s, Earlier);
    forall x ensures x in t <==> x in s { assert x in multiset(t) <==> x in multiset(s); }
    forall i, j | 0 <= i < j < |t| ensures t[i].firstSeen <= t[j].firstSeen { assert !Earlier(t[j], t[i]); }
  }

  /** Deduplication turns chains of repeats into one signal each: every signal is in exactly one chain, every
      chain is as long as it can be, and each reported signal is what its chain becomes. */
  lemma {:induction false} DeduplicationChains(s: seq<Signal>, p: Params, rename: Signal -> string)
    returns (runs: seq<seq<Signal>>)
    ensures AreChains(runs, Run(Deduplication(p, rename), s), p, rename) && multiset(Flat(runs)) == multiset(s)
  {
    forall k ensures Proper(SourceStage(p, rename), Group(s, PrimaryOf, k), p, rename) {
      SourceIsProper(Group(s, PrimaryOf, k), k, p, rename);
    }
    runs := StageChains(Deduplication(p, rename), s, p, rename);
  }

  lemma {:induction false} SourceIsProper(s: seq<Signal>, source: string, p: Params, rename: Signal -> string)
    requires forall x :: x in s ==> PrimaryOf(x) == source
    ensures Proper(SourceStage(p, rename), s, p, rename)
  {
    forall k ensures Proper(RuleStage(p, rename), Group(s, RuleIdOf, k), p, rename) {}
  }
}
