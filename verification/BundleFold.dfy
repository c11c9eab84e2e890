/** What a series of cross-job merges leads to: the order of the jobs does not matter. */
module BundleFold {
  import opened Ordering
  import opened Signals
  import opened Scoring
  import opened Incidents
  import opened Overlaps
  import opened BundleMerge

  /** What one merge finds in the database besides the two incidents. */
  datatype Step = Step(available: seq<Signal>, events: EventMap, evidence: seq<Evidence>)

  type Merge = (Incident, Incident, Step) -> Incident

  ghost function MergeBy(maxContext: nat, r: Rater): Merge {
    (c: Incident, i: Incident, s: Step) => MergedBundle(c, i, s.available, s.events, maxContext, s.evidence, r)
  }

  /** The stored incident after `bundles[0]` was created and the others were merged in turn. */
  ghost function Fold(bundles: seq<Incident>, steps: seq<Step>, merge: Merge): Incident
    requires bundles != [] && |steps| == |bundles|
  {
    var n := |bundles| - 1;
    if n == 0 then bundles[0] else merge(Fold(bundles[..n], steps[..n], merge), bundles[n], steps[n])
  }

  /** The merge joins contents and windows, whatever the step finds. */
  ghost predicate Joining(merge: Merge) {
    forall c, i, s :: JoinedBy(merge(c, i, s), c, i)
  }

  ghost predicate JoinedBy(m: Incident, c: Incident, i: Incident) {
    && m.eventIds == c.eventIds + i.eventIds && m.signalIds == c.signalIds + i.signalIds
    && m.targets == c.targets + i.targets && m.techniques == c.techniques + i.techniques
    && m.firstSeen == Earlier(c.firstSeen, i.firstSeen) && m.lastSeen == Later(c.lastSeen, i.lastSeen)
  }

  lemma {:induction false} MergeByJoins(maxContext: nat, r: Rater)
    ensures Joining(MergeBy(maxContext, r))
  {}

  /** All the signals and events there are. */
  datatype World = World(signals: SignalMap, events: EventMap)

  /** The step finds every signal of the merged incident. */
  ghost predicate FindsSignals(s: Step, ids: set<string>, w: World) {
    && Distinct(s.available)
    && (forall x :: x in s.available ==> x.signalId in w.signals && w.signals[x.signalId] == x)
    && (forall k :: k in ids ==> k in w.signals && w.signals[k] in s.available)
    && (forall k :: k in w.signals ==> w.signals[k].signalId == k)
  }

  /** The step finds every signal and every event of the merged incident. */
  ghost predicate Complete(s: Step, ids: set<string>, eventIds: set<string>, w: World) {
    FindsSignals(s, ids, w) && eventIds <= w.events.Keys && s.events == RestrictTo(w.events, eventIds)
  }

  ghost predicate IsHull(first: int, last: int, bundles: seq<Incident>) {
    && (forall b :: b in bundles ==> first <= b.firstSeen && b.lastSeen <= last)
    && (exists b :: b in bundles && b.firstSeen == first)
    && (exists b :: b in bundles && b.lastSeen == last)
  }

  lemma {:induction false} HullExtends(first: int, last: int, init: seq<Incident>, c: Incident)
    requires IsHull(first, last, init)
    ensures IsHull(Earlier(first, c.firstSeen), Later(last, c.lastSeen), init + [c])
  {
    assert forall b :: b in init + [c] <==> b in init || b == c;
  }

  /** Contents and window need no signal or event rows at all. */
  lemma {:induction false} FoldContents(bundles: seq<Incident>, steps: seq<Step>, merge: Merge)
    requires bundles != [] && |steps| == |bundles| && Joining(merge)
    ensures var m := Fold(bundles, steps, merge);
      && m.eventIds == EventUnion(bundles) && m.signalIds == SignalUnion(bundles)
      && m.targets == TargetUnion(bundles) && m.techniques == TechniqueUnion(bundles)
      && IsHull(m.firstSeen, m.lastSeen, bundles)
  {
    var n := |bundles| - 1;
    assert bundles == bundles[..n] + [bundles[n]];
    UnionAppend(bundles[..n], bundles[n]);
    if n == 0 {
      assert bundles[0] in bundles;
      UnionsOfNone();
    } else {
      FoldContents(bundles[..n], steps[..n], merge);
      var m := Fold(bundles[..n], steps[..n], merge);
      HullExtends(m.firstSeen, m.lastSeen, bundles[..n], bundles[n]);
      assert JoinedBy(merge(m, bundles[n], steps[n]), m, bundles[n]);
    }
  }

  lemma {:induction false} UnionsOfNone()
    ensures EventUnion([]) == {} && SignalUnion([]) == {} && TargetUnion([]) == {} && TechniqueUnion([]) == {}
  {}

  // ---------------------------------------------------------------- the anchor

  lemma {:induction false} BySignalIdAgrees(available: seq<Signal>, w: World)
    requires forall x :: x in available ==> x.signalId in w.signals && w.signals[x.signalId] == x
    ensures forall k :: k in BySignalId(available) <==> exists x :: x in available && x.signalId == k
    ensures forall k :: k in BySignalId(available) ==> k in w.signals && BySignalId(available)[k] == w.signals[k]
  {
    if available != [] {
      var n := |available| - 1;
      assert available == available[..n] + [available[n]];
      BySignalIdAgrees(available[..n], w);
      assert forall x :: x in available <==> x in available[..n] || x == available[n];
    }
  }

  ghost function Best(ids: set<string>, signals: SignalMap): Signal
    requires Members(ids, signals) != []
  {
    MinBy(Members(ids, signals), Precedes)
  }

  /** With every signal at hand, the anchor is the best signal of the merged incident. */
  lemma {:induction false} AnchorIsBest(c: Incident, i: Incident, s: Step, ids: set<string>, w: World)
    requires ids == c.signalIds + i.signalIds != {} && FindsSignals(s, ids, w)
    ensures Members(ids, w.signals) != []
    ensures SelectAnchor(c, i, s.available) == Some(Best(ids, w.signals))
  {
    var byId := BySignalId(s.available);
    BySignalIdAgrees(s.available, w);
    assert ids <= byId.Keys by {
      forall k | k in ids ensures k in byId { assert w.signals[k] in s.available; }
    }
    assert ids * byId.Keys == ids && ids * w.signals.Keys == ids;
    assert Members(ids, byId) == Members(ids, w.signals);
    MembersAre(ids, w.signals);
    var k :| k in ids;
    assert w.signals[k] in s.available;
  }

  lemma {:induction false} BestIsLeast(ids: set<string>, w: World)
    requires Members(ids, w.signals) != [] && forall k :: k in w.signals ==> w.signals[k].signalId == k
    ensures forall k :: k in ids && k in w.signals && w.signals[k] != Best(ids, w.signals) ==>
              Precedes(Best(ids, w.signals), w.signals[k])
    ensures exists k :: k in ids && k in w.signals && w.signals[k] == Best(ids, w.signals)
  {
    var m := Members(ids, w.signals);
    MembersAre(ids, w.signals);
    assert DistinctIds(Elements(m));
    PrecedesIsTotal(Elements(m));
    MinByLeast(m, Precedes);
  }

  /** The primary signal `p` is `q` or comes before it. */
  ghost predicate NoWorse(p: string, q: string, w: World) {
    p in w.signals && q in w.signals && (w.signals[p] == w.signals[q] || Precedes(w.signals[p], w.signals[q]))
  }

  ghost predicate CompleteAt(bundles: seq<Incident>, s: Step, w: World) {
    Complete(s, SignalUnion(bundles), EventUnion(bundles), w)
  }

  ghost predicate SignalsFoundAt(bundles: seq<Incident>, s: Step, w: World) {
    FindsSignals(s, SignalUnion(bundles), w)
  }

  lemma {:induction false} UnionOfPrefix(bundles: seq<Incident>, m: nat)
    requires m <= |bundles|
    ensures SignalUnion(bundles[..m]) <= SignalUnion(bundles)
  {
    assert forall b :: b in bundles[..m] ==> b in bundles;
  }

  lemma {:induction false} LastMergeParts(bundles: seq<Incident>, steps: seq<Step>, merge: Merge)
    requires |bundles| >= 2 && |steps| == |bundles| && Joining(merge)
    ensures var n := |bundles| - 1;
      var c := Fold(bundles[..n], steps[..n], merge);
      && c.signalIds + bundles[n].signalIds == SignalUnion(bundles)
      && c.eventIds + bundles[n].eventIds == EventUnion(bundles)
  {
    var n := |bundles| - 1;
    FoldContents(bundles[..n], steps[..n], merge);
    assert bundles == bundles[..n] + [bundles[n]];
    UnionAppend(bundles[..n], bundles[n]);
  }

  type Choice = set<string> -> string

  ghost function BestOf(w: World): Choice {
    ids => if Members(ids, w.signals) != [] then Best(ids, w.signals).signalId else ""
  }

  type Preference = (string, string) -> bool

  ghost function NoWorseIn(w: World): Preference {
    (p, q) => NoWorse(p, q, w)
  }

  /** A merge that finds every signal makes the chosen one of them the primary one. */
  ghost predicate Chooses(merge: Merge, w: World, best: Choice) {
    forall c, i, s :: ChosenAt(merge, w, best, c, i, s)
  }

  ghost predicate ChosenAt(merge: Merge, w: World, best: Choice, c: Incident, i: Incident, s: Step) {
    var ids := c.signalIds + i.signalIds;
    FindsSignals(s, ids, w) && ids != {} ==> merge(c, i, s).metrics.primarySignalId == best(ids)
  }

  lemma {:induction false} MergeByChoosesBest(maxContext: nat, r: Rater, w: World)
    ensures Chooses(MergeBy(maxContext, r), w, BestOf(w))
  {
    forall c, i, s ensures ChosenAt(MergeBy(maxContext, r), w, BestOf(w), c, i, s) {
      ChoosesBestOf(maxContext, r, w, c, i, s);
    }
  }

  lemma {:induction false} ChoosesBestOf(maxContext: nat, r: Rater, w: World, c: Incident, i: Incident, s: Step)
    ensures ChosenAt(MergeBy(maxContext, r), w, BestOf(w), c, i, s)
  {
    var ids := c.signalIds + i.signalIds;
    if FindsSignals(s, ids, w) && ids != {} {
      AnchorIsBest(c, i, s, ids, w);
      FromAnchor(c, i, s, maxContext, r, Best(ids, w.signals));
    }
  }

  /** The choice is one of the candidates and no worse than any of them. */
  ghost predicate Optimal(best: Choice, noWorse: Preference, names: set<string>) {
    forall ids, p :: OptimalAt(best, noWorse, names, ids, p)
  }

  ghost predicate OptimalAt(best: Choice, noWorse: Preference, names: set<string>, ids: set<string>, p: string) {
    ids <= names && p in ids ==> best(ids) in ids && noWorse(best(ids), p)
  }

  lemma {:induction false} BestIsOptimal(w: World)
    requires forall k :: k in w.signals ==> w.signals[k].signalId == k
    ensures Optimal(BestOf(w), NoWorseIn(w), w.signals.Keys)
  {
    forall ids, p ensures OptimalAt(BestOf(w), NoWorseIn(w), w.signals.Keys, ids, p) {
      if ids <= w.signals.Keys && p in ids {
        MembersAre(ids, w.signals);
        assert p in ids * w.signals.Keys;
        BestIsLeast(ids, w);
      }
    }
  }

  /** After a merge that finds every signal, the primary signal is the best of all those merged so far. */
  lemma {:induction false} PrimaryIsBest(bundles: seq<Incident>, steps: seq<Step>, merge: Merge, w: World, best: Choice)
    requires Joining(merge) && Chooses(merge, w, best)
    requires |steps| == |bundles| >= 2 && SignalsFoundAt(bundles, steps[|bundles| - 1], w) && SignalUnion(bundles) != {}
    ensures Fold(bundles, steps, merge).metrics.primarySignalId == best(SignalUnion(bundles))
  {
    var n := |bundles| - 1;
    LastMergeParts(bundles, steps, merge);
    assert ChosenAt(merge, w, best, Fold(bundles[..n], steps[..n], merge), bundles[n], steps[n]);
  }

  lemma {:induction false} PrimaryBelongs(bundles: seq<Incident>, steps: seq<Step>, merge: Merge, w: World,
      best: Choice, noWorse: Preference)
    requires Joining(merge) && Chooses(merge, w, best) && Optimal(best, noWorse, w.signals.Keys)
    requires |steps| == |bundles| >= 1 && (|bundles| > 1 ==> SignalsFoundAt(bundles, steps[|bundles| - 1], w))
    requires bundles[0].metrics.primarySignalId in bundles[0].signalIds
    ensures Fold(bundles, steps, merge).metrics.primarySignalId in SignalUnion(bundles)
  {
    assert bundles[0] in bundles;
    if |bundles| > 1 {
      assert OptimalAt(best, noWorse, w.signals.Keys, SignalUnion(bundles), bundles[0].metrics.primarySignalId);
      PrimaryIsBest(bundles, steps, merge, w, best);
    }
  }

  lemma {:induction false} PrimaryBetween(bundles: seq<Incident>, steps: seq<Step>, m: nat, merge: Merge, w: World,
      best: Choice, noWorse: Preference)
    requires Joining(merge) && Chooses(merge, w, best) && Optimal(best, noWorse, w.signals.Keys)
    requires |steps| == |bundles| && 0 < m < |bundles| && SignalsFoundAt(bundles, steps[|bundles| - 1], w)
    requires m > 1 ==> SignalsFoundAt(bundles[..m], steps[m - 1], w)
    requires bundles[0].metrics.primarySignalId in bundles[0].signalIds
    ensures noWorse(Fold(bundles, steps, merge).metrics.primarySignalId,
                    Fold(bundles[..m], steps[..m], merge).metrics.primarySignalId)
  {
    UnionOfPrefix(bundles, m);
    PrimaryBelongs(bundles[..m], steps[..m], merge, w, best, noWorse);
    assert OptimalAt(best, noWorse, w.signals.Keys, SignalUnion(bundles),
                     Fold(bundles[..m], steps[..m], merge).metrics.primarySignalId);
    PrimaryIsBest(bundles, steps, merge, w, best);
  }

  /** Between any two points of a series of merges that find every signal, the primary signal does
      not get worse. */
  lemma {:induction false} PrimaryAlongFold(bundles: seq<Incident>, steps: seq<Step>, m: nat, w: World,
      maxContext: nat, r: Rater)
    requires |steps| == |bundles| && 0 < m < |bundles| && SignalsFoundAt(bundles, steps[|bundles| - 1], w)
    requires m > 1 ==> SignalsFoundAt(bundles[..m], steps[m - 1], w)
    requires bundles[0].metrics.primarySignalId in bundles[0].signalIds
    ensures NoWorse(Fold(bundles, steps, MergeBy(maxContext, r)).metrics.primarySignalId,
                    Fold(bundles[..m], steps[..m], MergeBy(maxContext, r)).metrics.primarySignalId, w)
  {
    MergeByJoins(maxContext, r);
    MergeByChoosesBest(maxContext, r, w);
    BestIsOptimal(w);
    PrimaryBetween(bundles, steps, m, MergeBy(maxContext, r), w, BestOf(w), NoWorseIn(w));
    assert NoWorseIn(w)(Fold(bundles, steps, MergeBy(maxContext, r)).metrics.primarySignalId,
                        Fold(bundles[..m], steps[..m], MergeBy(maxContext, r)).metrics.primarySignalId);
  }

  // ---------------------------------------------------------------- scores

  lemma {:induction false} WithinDistinct(available: seq<Signal>, ids: set<string>)
    requires Distinct(available)
    ensures Distinct(Within(available, ids))
  {
    if available != [] {
      WithinDistinct(available[1..], ids);
      var rest := Within(available[1..], ids);
      forall j | 0 <= j < |rest| ensures rest[j] != available[0] {
        assert rest[j] in available[1..];
      }
    }
  }

  /** Two complete steps score the same signals, in whatever order they were loaded. */
  lemma {:induction false} SameCluster(s: Step, t: Step, ids: set<string>, eventIds: set<string>, w: World)
    requires Complete(s, ids, eventIds, w) && Complete(t, ids, eventIds, w)
    ensures multiset(Within(s.available, ids)) == multiset(Within(t.available, ids))
  {
    var a, b := Within(s.available, ids), Within(t.available, ids);
    WithinDistinct(s.available, ids);
    WithinDistinct(t.available, ids);
    DistinctMultiset(a);
    DistinctMultiset(b);
    forall x ensures x in Elements(a) <==> x in Elements(b) {
      if x in a { assert w.signals[x.signalId] in t.available; }
      if x in b { assert w.signals[x.signalId] in s.available; }
    }
  }

  // ---------------------------------------------------------------- main result

  /** What does not depend on the order of the merges. The primary entity of exposure and policy
      incidents is not among it: it comes from whichever incident brought the anchor. */
  ghost predicate SameIncident(a: Incident, b: Incident) {
    SameContents(a, b) && SameIdentity(a, b)
  }

  ghost predicate SameContents(a: Incident, b: Incident) {
    && a.eventIds == b.eventIds && a.signalIds == b.signalIds
    && a.targets == b.targets && a.techniques == b.techniques
    && a.firstSeen == b.firstSeen && a.lastSeen == b.lastSeen
  }

  ghost predicate SameIdentity(a: Incident, b: Incident) {
    && a.metrics.primarySignalId == b.metrics.primarySignalId && a.absorbedIds == b.absorbedIds
    && a.incidentType == b.incidentType && a.family == b.family && a.title == b.title
    && a.severity == b.severity && a.confidence == b.confidence && a.metrics.facts == b.metrics.facts
    && (a.family !in ASSET_PRIMARY_FAMILIES ==> a.primaryEntity == b.primaryEntity)
  }

  /** What a merge takes from the anchor, whichever incident holds it. */
  lemma {:induction false} FromAnchor(c: Incident, i: Incident, s: Step, maxContext: nat, r: Rater, a: Signal)
    requires SelectAnchor(c, i, s.available) == Some(a)
    ensures var m := MergedBundle(c, i, s.available, s.events, maxContext, s.evidence, r);
      && m.metrics.primarySignalId == a.signalId && m.absorbedIds == (c.signalIds + i.signalIds) - {a.signalId}
      && m.incidentType == a.signalType && m.family == a.family && m.title == Title(a, map[])
      && (a.family !in ASSET_PRIMARY_FAMILIES ==> m.primaryEntity == a.primaryEntity)
  {}

  /** What a merge computes from the events and signals it finds. */
  lemma {:induction false} FromMembers(c: Incident, i: Incident, s: Step, maxContext: nat, r: Rater, a: Signal)
    requires SelectAnchor(c, i, s.available) == Some(a) && s.events.Keys == c.eventIds + i.eventIds
    ensures var m := MergedBundle(c, i, s.available, s.events, maxContext, s.evidence, r);
      && m.confidence == r.confidence(Within(s.available, c.signalIds + i.signalIds))
      && m.metrics.facts == Some(r.facts(s.events, a.family))
      && m.severity == r.severity(Within(s.available, c.signalIds + i.signalIds), r.facts(s.events, a.family))
  {}

  lemma {:induction false} Determined(c: Incident, i: Incident, d: Incident, j: Incident, s: Step, t: Step,
      ids: set<string>, eventIds: set<string>, maxContext: nat, r: Rater, best: Signal)
    requires Insensitive(r)
    requires ids == c.signalIds + i.signalIds && ids == d.signalIds + j.signalIds
    requires eventIds == c.eventIds + i.eventIds && eventIds == d.eventIds + j.eventIds
    requires SelectAnchor(c, i, s.available) == Some(best)
    requires SelectAnchor(d, j, t.available) == Some(best)
    requires s.events == t.events && s.events.Keys == eventIds
    requires multiset(Within(s.available, ids)) == multiset(Within(t.available, ids))
    ensures SameIdentity(MergedBundle(c, i, s.available, s.events, maxContext, s.evidence, r),
                         MergedBundle(d, j, t.available, t.events, maxContext, t.evidence, r))
  {
    FromAnchor(c, i, s, maxContext, r, best);
    FromAnchor(d, j, t, maxContext, r, best);
    FromMembers(c, i, s, maxContext, r, best);
    FromMembers(d, j, t, maxContext, r, best);
    var facts := r.facts(s.events, best.family);
    assert r.confidence(Within(s.available, ids)) == r.confidence(Within(t.available, ids));
    assert r.severity(Within(s.available, ids), facts) == r.severity(Within(t.available, ids), facts);
  }

  /** Two merges that find all the same signals and events agree, however these are divided. */
  ghost predicate Determining(merge: Merge, w: World) {
    forall c, i, s, d, j, t :: DeterminedAt(merge, w, c, i, s, d, j, t)
  }

  ghost predicate DeterminedAt(merge: Merge, w: World, c: Incident, i: Incident, s: Step, d: Incident, j: Incident,
      t: Step) {
    var ids, eventIds := c.signalIds + i.signalIds, c.eventIds + i.eventIds;
    && ids == d.signalIds + j.signalIds && eventIds == d.eventIds + j.eventIds && ids != {}
    && Complete(s, ids, eventIds, w) && Complete(t, ids, eventIds, w)
    ==> SameIdentity(merge(c, i, s), merge(d, j, t))
  }

  lemma {:induction false} SameEvents(s: Step, t: Step, ids: set<string>, eventIds: set<string>, w: World)
    requires Complete(s, ids, eventIds, w) && Complete(t, ids, eventIds, w)
    ensures s.events == t.events && s.events.Keys == eventIds
  {}

  lemma {:induction false} MergeByDetermined(maxContext: nat, r: Rater, w: World, c: Incident, i: Incident, s: Step,
      d: Incident, j: Incident, t: Step, ids: set<string>, eventIds: set<string>)
    requires Insensitive(r)
    requires ids == c.signalIds + i.signalIds && ids == d.signalIds + j.signalIds && ids != {}
    requires eventIds == c.eventIds + i.eventIds && eventIds == d.eventIds + j.eventIds
    requires Complete(s, ids, eventIds, w) && Complete(t, ids, eventIds, w)
    ensures SameIdentity(MergedBundle(c, i, s.available, s.events, maxContext, s.evidence, r),
                         MergedBundle(d, j, t.available, t.events, maxContext, t.evidence, r))
  {
    AnchorIsBest(c, i, s, ids, w);
    AnchorIsBest(d, j, t, ids, w);
    SameCluster(s, t, ids, eventIds, w);
    SameEvents(s, t, ids, eventIds, w);
    Determined(c, i, d, j, s, t, ids, eventIds, maxContext, r, Best(ids, w.signals));
  }

  lemma {:induction false} MergeByDetermines(maxContext: nat, r: Rater, w: World)
    requires Insensitive(r)
    ensures Determining(MergeBy(maxContext, r), w)
  {
    forall c, i, s, d, j, t ensures DeterminedAt(MergeBy(maxContext, r), w, c, i, s, d, j, t) {
      var ids, eventIds := c.signalIds + i.signalIds, c.eventIds + i.eventIds;
      if ids == d.signalIds + j.signalIds && eventIds == d.eventIds + j.eventIds && ids != {}
         && Complete(s, ids, eventIds, w) && Complete(t, ids, eventIds, w) {
        MergeByDetermined(maxContext, r, w, c, i, s, d, j, t, ids, eventIds);
      }
    }
  }

  lemma {:induction false} ApplyDetermining(merge: Merge, w: World, c: Incident, i: Incident, s: Step, d: Incident,
      j: Incident, t: Step, ids: set<string>, eventIds: set<string>)
    requires Determining(merge, w) && ids != {}
    requires ids == c.signalIds + i.signalIds && ids == d.signalIds + j.signalIds
    requires eventIds == c.eventIds + i.eventIds && eventIds == d.eventIds + j.eventIds
    requires Complete(s, ids, eventIds, w) && Complete(t, ids, eventIds, w)
    ensures SameIdentity(merge(c, i, s), merge(d, j, t))
  {
    assert DeterminedAt(merge, w, c, i, s, d, j, t);
  }

  lemma {:induction false} HullUnique(first: int, last: int, first': int, last': int, a: seq<Incident>,
      b: seq<Incident>)
    requires IsHull(first, last, a) && IsHull(first', last', b) && Elements(a) == Elements(b)
    ensures first == first' && last == last'
  {
    assert forall x :: x in a <==> x in Elements(a);
    assert forall x :: x in b <==> x in Elements(b);
  }

  lemma {:induction false} UnionsOfSame(a: seq<Incident>, b: seq<Incident>)
    requires Elements(a) == Elements(b)
    ensures EventUnion(a) == EventUnion(b) && SignalUnion(a) == SignalUnion(b)
    ensures TargetUnion(a) == TargetUnion(b) && TechniqueUnion(a) == TechniqueUnion(b)
  {
    assert forall x :: x in a <==> x in Elements(a);
    assert forall x :: x in b <==> x in Elements(b);
  }

  lemma {:induction false} FoldSameContents(a: seq<Incident>, sa: seq<Step>, b: seq<Incident>, sb: seq<Step>,
      merge: Merge)
    requires Joining(merge)
    requires |a| >= 1 && multiset(a) == multiset(b) && |sa| == |a| == |b| == |sb|
    ensures SameContents(Fold(a, sa, merge), Fold(b, sb, merge))
    ensures SignalUnion(a) == SignalUnion(b) && EventUnion(a) == EventUnion(b)
  {
    SameMultisetSameElements(a, b);
    UnionsOfSame(a, b);
    FoldContents(a, sa, merge);
    FoldContents(b, sb, merge);
    var x, y := Fold(a, sa, merge), Fold(b, sb, merge);
    HullUnique(x.firstSeen, x.lastSeen, y.firstSeen, y.lastSeen, a, b);
  }

  lemma {:induction false} FoldSameIdentity(a: seq<Incident>, sa: seq<Step>, b: seq<Incident>, sb: seq<Step>,
      merge: Merge, w: World)
    requires Joining(merge) && Determining(merge, w)
    requires |a| >= 2 && |sa| == |a| == |b| == |sb|
    requires SignalUnion(a) == SignalUnion(b) != {} && EventUnion(a) == EventUnion(b)
    requires CompleteAt(a, sa[|a| - 1], w) && CompleteAt(b, sb[|b| - 1], w)
    ensures SameIdentity(Fold(a, sa, merge), Fold(b, sb, merge))
  {
    var n := |a| - 1;
    LastMergeParts(a, sa, merge);
    LastMergeParts(b, sb, merge);
    ApplyDetermining(merge, w, Fold(a[..n], sa[..n], merge), a[n], sa[n], Fold(b[..n], sb[..n], merge), b[n], sb[n],
                     SignalUnion(a), EventUnion(a));
  }

  /** Any order of merging the same incidents gives the same incident, when the last merge finds all
      the signals and events: the same contents and window, and the same anchor, type, family, title
      and scores. */
  lemma {:induction false} MergeOrderIndependent(a: seq<Incident>, sa: seq<Step>, b: seq<Incident>, sb: seq<Step>,
      w: World, maxContext: nat)
    requires |a| >= 2 && multiset(a) == multiset(b) && |sa| == |a| == |b| == |sb|
    requires SignalUnion(a) != {}
    requires CompleteAt(a, sa[|a| - 1], w) && CompleteAt(b, sb[|b| - 1], w)
    ensures SameIncident(Fold(a, sa, MergeBy(maxContext, StandardRater())),
      Fold(b, sb, MergeBy(maxContext, StandardRater())))
  {
    StandardRaterInsensitive();
    MergeByJoins(maxContext, StandardRater());
    MergeByDetermines(maxContext, StandardRater(), w);
    FoldSameContents(a, sa, b, sb, MergeBy(maxContext, StandardRater()));
    FoldSameIdentity(a, sa, b, sb, MergeBy(maxContext, StandardRater()), w);
  }

  // ---------------------------------------------------------------- well-formedness

  /** A cross-job merge keeps an incident well formed. */
  lemma {:induction false} MergedBundleKeeps(c: Incident, i: Incident, available: seq<Signal>, events: EventMap,
      maxContext: nat, evidence: seq<Evidence>, r: Rater)
    requires WellFormed(c, maxContext) && WellFormed(i, maxContext)
    requires EvidenceKept(evidence, c.evidence, i.evidence, c.eventIds + i.eventIds)
    ensures WellFormed(MergedBundle(c, i, available, events, maxContext, evidence, r), maxContext)
  {
    var ids := c.signalIds + i.signalIds;
    if SelectAnchor(c, i, available).Some? { AnchorBelongs(c, i, available); }
    AscendingEvidenceDistinct(evidence);
    var anchor := SelectAnchor(c, i, available);
    var primary := if anchor.Some? then anchor.value.signalId else StoredPrimary(c);
    assert primary in ids;
    forall k | 0 <= k < |evidence| ensures evidence[k].eventId in c.eventIds + i.eventIds {
      assert evidence[k] in evidence;
    }
  }

  lemma {:induction false} AscendingEvidenceDistinct(evidence: seq<Evidence>)
    requires Ascending(evidence, EvidenceBefore)
    ensures Distinct(evidence)
  {
    StrLessIsStrictOrder();
    AscendingDistinct(evidence, EvidenceBefore);
  }

  lemma {:induction false} AnchorBelongs(c: Incident, i: Incident, available: seq<Signal>)
    requires SelectAnchor(c, i, available).Some?
    ensures SelectAnchor(c, i, available).value.signalId in c.signalIds + i.signalIds
  {
    var ids := c.signalIds + i.signalIds;
    var byId := BySignalId(available);
    BySignalIdKeyed(available);
    MembersAre(ids, byId);
  }

  /** How an incident can come about: built from a cluster, grown by the overlap pass, or merged with
      one of another job. */
  datatype Making =
    | Built(incident: Incident, cluster: seq<Signal>, lookup: EventMap, context: seq<Event>, settings: Settings)
    | Grown(keeper: Making, absorbed: Making, score: Scorer)
    | CrossJob(canonical: Making, incoming: Making, step: Step, rater: Rater)

  ghost function Made(m: Making, maxContext: nat): Incident {
    match m
    case Built(b, _, _, _, _) => b
    case Grown(k, a, score) => MergedPair(Made(k, maxContext), Made(a, maxContext), score, maxContext)
    case CrossJob(c, i, s, r) =>
      MergedBundle(Made(c, maxContext), Made(i, maxContext), s.available, s.events, maxContext, s.evidence, r)
  }

  /** What is built is what building returns for some cluster, and cross-job merges use the evidence their
      evidence merge selects. */
  ghost predicate Properly(m: Making, maxContext: nat) {
    match m
    case Built(b, c, lookup, context, settings) =>
      IsBuilt(b, c, lookup, context, settings) && settings.maxContext == maxContext
    case Grown(k, a, score) => Properly(k, maxContext) && Properly(a, maxContext)
    case CrossJob(c, i, s, r) =>
      && Properly(c, maxContext) && Properly(i, maxContext)
      && EvidenceKept(s.evidence, Made(c, maxContext).evidence, Made(i, maxContext).evidence,
                      Made(c, maxContext).eventIds + Made(i, maxContext).eventIds)
  }

  /** Every incident the program can make is well formed, although none of its copies is validated. */
  lemma {:induction false} EverythingMadeIsWellFormed(m: Making, maxContext: nat)
    requires Properly(m, maxContext)
    ensures WellFormed(Made(m, maxContext), maxContext)
  {
    match m
    case Built(b, c, lookup, context, settings) => BuiltIsWellFormed(b, c, lookup, context, settings);
    case Grown(k, a, score) =>
      EverythingMadeIsWellFormed(k, maxContext);
      EverythingMadeIsWellFormed(a, maxContext);
      MergedPairKeeps(Made(k, maxContext), Made(a, maxContext), score, maxContext);
    case CrossJob(c, i, s, r) =>
      EverythingMadeIsWellFormed(c, maxContext);
      EverythingMadeIsWellFormed(i, maxContext);
      MergedBundleKeeps(Made(c, maxContext), Made(i, maxContext), s.available, s.events, maxContext, s.evidence, r);
  }
}
