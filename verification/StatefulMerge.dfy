/** Merging an incident of another job into a stored one, and doing it again. */
module StatefulMerge {
  import opened Ordering
  import opened Signals
  import opened Scoring
  import opened Incidents
  import Overlaps
  import BundleFold
  import BundleMerge
  import opened IncidentStore

  datatype Material = Projected(change: BundleMerge.Change) | ContextChanged | JobAssociationAdded

  // ---------------------------------------------------------------- between rows and incidents

  function NumberIn(metrics: map<string, Value>, key: string): int {
    if key in metrics && metrics[key].Number? then metrics[key].n else 0
  }

  function TextIn(metrics: map<string, Value>, key: string): string {
    if key in metrics && metrics[key].Text? then metrics[key].s else ""
  }

  /** `orm_to_domain_incident`, with the evidence reconstructed from stored events. */
  function Loaded(v: View, id: string, evidence: seq<Evidence>): Incident {
    Incident(id, v.scalars.incidentType, v.scalars.family, v.scalars.title, v.scalars.severity, v.scalars.confidence,
             v.scalars.firstSeen, v.scalars.lastSeen, v.scalars.primaryEntity, v.targets, v.signals, v.eventIds,
             v.contextIds, evidence,
             Metrics(|v.eventIds|, 0, |v.signals|, 0, TextIn(v.metrics, "primary_signal_id"), 0, None),
             v.techniques, (v.scalars.mergeKey, "", 0), {})
  }

  function MergedScalars(old_: Scalars, m: Incident): Scalars {
    Scalars(m.title, m.incidentType, m.family, m.severity, m.confidence, m.firstSeen, m.lastSeen, m.primaryEntity,
      old_.mergeKey)
  }

  /** The correlation the row takes part in. */
  datatype Stamp = Stamp(key: string, strategy: string, correlationVersion: string, generation: nat)

  /** The counts that go into the metrics. */
  datatype Tally = Tally(merges: int, jobs: nat, events: nat, signals: nat, absorbed: nat, primary: string)

  /** `_apply_stateful_metrics`. */
  function Applied(metrics: map<string, Value>, s: Stamp, n: Tally): map<string, Value> {
    metrics[
      "stateful_correlation_version" := Text(s.correlationVersion)][
      "stateful_correlation_key" := Text(s.key)][
      "stateful_correlation_strategy" := Text(s.strategy)][
      "stateful_generation" := Number(s.generation)][
      "stateful_merge_count" := Number(n.merges)][
      "correlated_job_count" := Number(n.jobs)][
      "total_events" := Number(n.events)][
      "correlated_signal_count" := Number(n.signals)][
      "absorbed_signal_count" := Number(n.absorbed)][
      "primary_signal_id" := Text(n.primary)]
  }

  /** The metrics of a row after a merge into `m`. */
  function Stamped(metrics: map<string, Value>, s: Stamp, jobs: nat, m: Incident): map<string, Value> {
    Applied(metrics, s, Tally(NumberIn(metrics, "stateful_merge_count") + 1, jobs, m.metrics.totalEvents,
                              m.metrics.correlatedSignals, m.metrics.absorbedSignals, m.metrics.primarySignalId))
  }

  type Stamper = (map<string, Value>, nat, Incident) -> map<string, Value>

  function StampWith(s: Stamp): Stamper {
    (metrics: map<string, Value>, jobs: nat, m: Incident) => Stamped(metrics, s, jobs, m)
  }

  function MaterialsOf(changes: set<BundleMerge.Change>, contextChanged: bool, joined: bool): set<Material> {
    (set x | x in changes :: Projected(x))
    + (if contextChanged then {ContextChanged} else {}) + (if joined then {JobAssociationAdded} else {})
  }

  /** What is material about a merge of the stored incident `c`, seen as the row `v`, into `m`. */
  ghost function Materials(c: Incident, m: Incident, promoted: bool, v: View, job: string): set<Material> {
    MaterialsOf(BundleMerge.Changes(c, m, promoted), m.contextIds != v.contextIds, job !in v.jobs)
  }

  lemma {:induction false} NothingMaterial(changes: set<BundleMerge.Change>, contextChanged: bool, joined: bool)
    ensures MaterialsOf(changes, contextChanged, joined) == {} <==> changes == {} && !contextChanged && !joined
  {
    forall x | x in changes ensures Projected(x) in MaterialsOf(changes, contextChanged, joined) {}
    if contextChanged { assert ContextChanged in MaterialsOf(changes, contextChanged, joined); }
    if joined { assert JobAssociationAdded in MaterialsOf(changes, contextChanged, joined); }
  }

  /** What the row must say after a material merge. */
  ghost function AfterMerge(v: View, m: Incident, job: string, stamp: Stamper): View {
    View(m.eventIds, m.contextIds, m.signalIds, v.jobs + {job}, MergedScalars(v.scalars, m), m.targets, m.techniques,
         stamp(v.metrics, |v.jobs + {job}|, m))
  }

  /** The row's own content stays in the merged incident. */
  lemma {:induction false} MergeCovers(v: View, id: string, evidence: seq<Evidence>, i: Incident,
      available: seq<Signal>, events: EventMap, maxContext: nat, kept: seq<Evidence>, r: BundleMerge.Rater)
    ensures var m := BundleMerge.MergedBundle(Loaded(v, id, evidence), i, available, events, maxContext, kept, r);
      && m.eventIds == v.eventIds + i.eventIds && m.signalIds == v.signals + i.signalIds
      && m.contextIds == Least((v.contextIds + i.contextIds) - m.eventIds, maxContext) && m.eventIds !! m.contextIds
  {}

  /** Unless a merge reports new events or signals, it has none. */
  lemma {:induction false} NoChangeNoContent(c: Incident, m: Incident, promoted: bool)
    requires c.eventIds <= m.eventIds && c.signalIds <= m.signalIds && BundleMerge.Changes(c, m, promoted) == {}
    ensures m.eventIds == c.eventIds && m.signalIds == c.signalIds
  {
    assert BundleMerge.EventsAdded !in BundleMerge.Changes(c, m, promoted);
    assert BundleMerge.SignalsAdded !in BundleMerge.Changes(c, m, promoted);
    SubsetSize(c.eventIds, m.eventIds);
    SubsetSize(c.signalIds, m.signalIds);
    SubsetOfSameSize(c.eventIds, m.eventIds);
    SubsetOfSameSize(c.signalIds, m.signalIds);
  }

  /** The associations and the job of a merge. */
  method Synchronize(row: IncidentRow, m: Incident, job: string) returns (contextChanged: bool, joined: bool)
    requires row.Valid() && m.eventIds !! m.contextIds
    requires RealIds(row.events) <= m.eventIds && Elements(row.signals) <= m.signalIds
    modifies row`events, row`signals, row`jobs
    ensures row.Valid()
    ensures RealIds(row.events) == m.eventIds && ContextIds(row.events) == m.contextIds
    ensures Elements(row.signals) == m.signalIds && Elements(row.jobs) == Elements(old(row.jobs)) + {job}
    ensures contextChanged <==> m.contextIds != old(row.Contents()).contextIds
    ensures joined <==> job !in old(row.Contents()).jobs
    ensures m.eventIds == RealIds(old(row.events)) && m.signalIds == Elements(old(row.signals)) && !contextChanged ==>
              row.events == old(row.events)
  {
    var changed;
    changed, contextChanged := row.ReconcileAssociations(m.eventIds, m.contextIds, m.signalIds);
    assert RealIds(row.events) == m.eventIds && m.contextIds - m.eventIds == m.contextIds;
    joined := row.AddJob(job);
    assert joined ==> Elements(row.jobs) != Elements(old(row.jobs));
  }

  ghost function Overwritten(v: View, m: Incident, stamp: Stamper): View {
    v.(scalars := MergedScalars(v.scalars, m), targets := m.targets, techniques := m.techniques,
       metrics := stamp(v.metrics, |v.jobs|, m))
  }

  /** The fields a material merge overwrites, with the one version increment. */
  method Overwrite(row: IncidentRow, m: Incident, stamp: Stamper)
    modifies row`scalars, row`targets, row`techniques, row`metrics, row`version
    ensures row.Contents() == Overwritten(old(row.Contents()), m, stamp)
    ensures row.version == Bumped(old(row.version))
  {
    row.metrics := stamp(row.metrics, |Elements(row.jobs)|, m);
    row.scalars := MergedScalars(row.scalars, m);
    row.targets, row.techniques := m.targets, m.techniques;
    row.version := Bumped(row.version);
  }

  /** Storing a merge: with no material change the row is exactly as it was, version included; otherwise
      it says what the merge says, and its version rises by one. */
  method Store(row: IncidentRow, changes: set<BundleMerge.Change>, m: Incident, job: string, stamp: Stamper)
    returns (materials: set<Material>)
    requires row.Valid() && m.eventIds !! m.contextIds
    requires RealIds(row.events) <= m.eventIds && Elements(row.signals) <= m.signalIds
    requires changes == {} ==> m.eventIds == RealIds(row.events) && m.signalIds == Elements(row.signals)
    modifies row
    ensures row.Valid()
    ensures materials == MaterialsOf(changes, m.contextIds != old(row.Contents()).contextIds,
      job !in old(row.Contents()).jobs)
    ensures materials == {} ==>
      row.Contents() == old(row.Contents()) && row.events == old(row.events) && row.version == old(row.version)
    ensures materials != {} ==> row.Contents() == AfterMerge(old(row.Contents()), m, job, stamp)
                                && row.version == Bumped(old(row.version))
  {
    var contextChanged, joined := Synchronize(row, m, job);
    materials := MaterialsOf(changes, contextChanged, joined);
    NothingMaterial(changes, contextChanged, joined);
    if materials != {} {
      AfterMergeIs(row.Contents(), old(row.Contents()), m, job, stamp);
      Overwrite(row, m, stamp);
    }
  }

  lemma {:induction false} AfterMergeIs(now: View, before: View, m: Incident, job: string, stamp: Stamper)
    requires now.eventIds == m.eventIds && now.contextIds == m.contextIds && now.signals == m.signalIds
    requires now.jobs == before.jobs + {job} && now.scalars == before.scalars && now.metrics == before.metrics
    ensures Overwritten(now, m, stamp) == AfterMerge(before, m, job, stamp)
  {}

  /** `merge_into_canonical`. */
  method MergeIntoCanonical(row: IncidentRow, id: string, i: Incident, job: string, available: seq<Signal>,
      events: EventMap, evidence: seq<Evidence>, maxContext: nat, s: Stamp)
    returns (materials: set<Material>, merged: Incident)
    requires row.Valid()
    modifies row
    ensures row.Valid()
    ensures var c := Loaded(old(row.Contents()), id, evidence);
      && merged == BundleMerge.MergedBundle(c, i, available, events, maxContext, merged.evidence,
        BundleMerge.StandardRater())
      && materials == Materials(c, merged, BundleMerge.SelectAnchor(c, i, available).Some?
        && BundleMerge.Promotes(c, merged),
                                old(row.Contents()), job)
    ensures materials == {} ==>
      row.Contents() == old(row.Contents()) && row.events == old(row.events) && row.version == old(row.version)
    ensures materials != {} ==> row.Contents() == AfterMerge(old(row.Contents()), merged, job, StampWith(s))
                                && row.version == Bumped(old(row.version))
  {
    var c := Loaded(row.Contents(), id, evidence);
    var outcome := BundleMerge.MergeIncidentBundles(c, i, available, events, maxContext);
    merged := outcome.incident;
    MergeCovers(row.Contents(), id, evidence, i, available, events, maxContext, merged.evidence,
      BundleMerge.StandardRater());
    if outcome.changes == {} { NoChangeNoContent(c, merged, outcome.promoted); }
    materials := Store(row, outcome.changes, merged, job, StampWith(s));
  }

  // ---------------------------------------------------------------- the signals at hand

  function SignalIdOf(s: Signal): string { s.signalId }

  function Always(s: Signal): bool { true }

  /** `_load_available_signals`, as a set: the incoming rows, and the stored signals of the row that are
      not among them. */
  function AvailableSet(ids: set<string>, rows: seq<Signal>, stored: Overlaps.SignalMap): set<Signal> {
    Elements(KeepFirst(rows, Always, SignalIdOf, {})) + StoredOf(ids, Elements(Map(SignalIdOf, rows)), stored)
  }

  ghost predicate DistinctSignals(s: seq<Signal>) {
    forall i, j :: 0 <= i < j < |s| ==> s[i].signalId != s[j].signalId
  }

  lemma {:induction false} FirstRows(rows: seq<Signal>)
    ensures var first := KeepFirst(rows, Always, SignalIdOf, {});
      && DistinctSignals(first) && |first| <= |rows|
      && forall x :: x in first ==> x.signalId in Elements(Map(SignalIdOf, rows))
  {
    var first := KeepFirst(rows, Always, SignalIdOf, {});
    BundleMerge.KeepFirstShort(rows, Always, SignalIdOf, {});
    assert forall i, j :: 0 <= i < j < |first| ==> SignalIdOf(first[i]) != SignalIdOf(first[j]);
    forall x | x in first ensures x.signalId in Elements(Map(SignalIdOf, rows)) {
      var i :| 0 <= i < |first| && first[i] == x;
      var j :| 0 <= j < |rows| && rows[j] == x;
      assert Map(SignalIdOf, rows)[j] == x.signalId;
    }
  }

  /** The stored signals of `done` that no incoming row stands for. */
  function StoredOf(done: set<string>, seen: set<string>, stored: Overlaps.SignalMap): set<Signal> {
    set k | k in done && k in stored && k !in seen :: stored[k]
  }

  lemma {:induction false} AppendSignal(r: seq<Signal>, first: set<Signal>, done: set<string>, k: string,
      seen: set<string>, stored: Overlaps.SignalMap)
    requires DistinctSignals(r) && Elements(r) == first + StoredOf(done, seen, stored)
    requires forall x :: x in r ==> x.signalId in seen || x.signalId in done
    requires k !in done && forall k :: k in stored ==> stored[k].signalId == k
    ensures var n := if k !in seen && k in stored then r + [stored[k]] else r;
      && DistinctSignals(n) && Elements(n) == first + StoredOf(done + {k}, seen, stored)
      && forall x :: x in n ==> x.signalId in seen || x.signalId in done + {k}
  {
    if k !in seen && k in stored {
      var n := r + [stored[k]];
      assert forall x :: x in n <==> x in r || x == stored[k];
      assert StoredOf(done + {k}, seen, stored) == StoredOf(done, seen, stored) + {stored[k]};
      forall i | 0 <= i < |r| ensures r[i].signalId != k { assert r[i] in r; }
    } else {
      assert StoredOf(done + {k}, seen, stored) == StoredOf(done, seen, stored);
    }
  }

  method LoadAvailableSignals(ids: set<string>, rows: seq<Signal>, stored: Overlaps.SignalMap) returns (r: seq<Signal>)
    requires forall k :: k in stored ==> stored[k].signalId == k
    ensures Elements(r) == AvailableSet(ids, rows, stored) && DistinctSignals(r)
  {
    FirstRows(rows);
    r := TakeFirst(rows, Always, SignalIdOf, |rows|);
    ghost var first := Elements(r);
    var seen := Elements(Map(SignalIdOf, rows));
    var todo, done: set<string> := ids, {};
    assert StoredOf(done, seen, stored) == {};
    while todo != {}
      invariant done + todo == ids && done !! todo
      invariant DistinctSignals(r) && Elements(r) == first + StoredOf(done, seen, stored)
      invariant forall x :: x in r ==> x.signalId in seen || x.signalId in done
      decreases todo
    {
      var k :| k in todo;
      AppendSignal(r, first, done, k, seen, stored);
      if k !in seen && k in stored {
        r := r + [stored[k]];
      }
      todo, done := todo - {k}, done + {k};
    }
  }

  /** After a merge, the same call finds the same signals. */
  lemma {:induction false} AvailableAgain(ids: set<string>, incoming: set<string>, rows: seq<Signal>,
      stored: Overlaps.SignalMap)
    requires incoming <= Elements(Map(SignalIdOf, rows))
    ensures AvailableSet(ids + incoming, rows, stored) == AvailableSet(ids, rows, stored)
  {}

  lemma {:induction false} ByIdIs(s: seq<Signal>)
    requires DistinctSignals(s)
    ensures forall x :: x in s ==> x.signalId in BundleMerge.BySignalId(s) && BundleMerge.BySignalId(s)[x.signalId] == x
    ensures forall k :: k in BundleMerge.BySignalId(s) ==>
      BundleMerge.BySignalId(s)[k] in s && BundleMerge.BySignalId(s)[k].signalId == k
  {
    if s != [] {
      var n := |s| - 1;
      ByIdIs(s[..n]);
      assert s == s[..n] + [s[n]];
      forall x | x in s[..n] ensures x.signalId != s[n].signalId {
        var i :| 0 <= i < n && s[i] == x;
      }
    }
  }

  /** Two loads of the same signals are alike to a merge. */
  lemma {:induction false} SameLoad(a: seq<Signal>, b: seq<Signal>)
    requires DistinctSignals(a) && DistinctSignals(b) && Elements(a) == Elements(b)
    ensures BundleMerge.BySignalId(a) == BundleMerge.BySignalId(b)
    ensures forall ids :: multiset(BundleMerge.Within(a, ids)) == multiset(BundleMerge.Within(b, ids))
    ensures a == [] <==> b == []
  {
    ByIdIs(a);
    ByIdIs(b);
    var m, n := BundleMerge.BySignalId(a), BundleMerge.BySignalId(b);
    forall k ensures k in m <==> k in n {
      if k in m { assert m[k] in Elements(b); }
      if k in n { assert n[k] in Elements(a); }
    }
    forall k | k in m ensures m[k] == n[k] { assert m[k] in Elements(b); }
    forall ids ensures multiset(BundleMerge.Within(a, ids)) == multiset(BundleMerge.Within(b, ids)) {
      SameWithin(a, b, ids);
    }
    if a != [] { assert a[0] in Elements(b); }
    if b != [] { assert b[0] in Elements(a); }
  }

  lemma {:induction false} SameWithin(a: seq<Signal>, b: seq<Signal>, ids: set<string>)
    requires DistinctSignals(a) && DistinctSignals(b) && Elements(a) == Elements(b)
    ensures multiset(BundleMerge.Within(a, ids)) == multiset(BundleMerge.Within(b, ids))
  {
    var x, y := BundleMerge.Within(a, ids), BundleMerge.Within(b, ids);
    BundleFold.WithinDistinct(a, ids);
    BundleFold.WithinDistinct(b, ids);
    DistinctMultiset(x);
    DistinctMultiset(y);
    assert forall s :: s in Elements(x) <==> s in Elements(a) && s.signalId in ids;
    assert forall s :: s in Elements(y) <==> s in Elements(b) && s.signalId in ids;
  }

  // ---------------------------------------------------------------- doing it again

  /** What the signals and events at hand do to a merge. */
  datatype Inputs = Inputs(available: seq<Signal>, events: EventMap)

  /** `d` is `m` read back: the same but for its evidence and the metrics that are not used again. */
  ghost predicate ReadBack(d: Incident, m: Incident) {
    && d.eventIds == m.eventIds && d.signalIds == m.signalIds && d.contextIds == m.contextIds
    && d.targets == m.targets && d.techniques == m.techniques
    && d.incidentType == m.incidentType && d.family == m.family && d.title == m.title
    && d.severity == m.severity && d.confidence == m.confidence
    && d.firstSeen == m.firstSeen && d.lastSeen == m.lastSeen && d.primaryEntity == m.primaryEntity
  }

  /** Two merges into which the same signals and events enter. */
  ghost predicate SameInputs(a: Inputs, b: Inputs) {
    && a.events == b.events
    && DistinctSignals(a.available) && DistinctSignals(b.available) && Elements(a.available) == Elements(b.available)
  }

  ghost function Merge(c: Incident, i: Incident, n: Inputs, maxContext: nat, kept: seq<Evidence>,
      r: BundleMerge.Rater): Incident {
    BundleMerge.MergedBundle(c, i, n.available, n.events, maxContext, kept, r)
  }

  lemma {:induction false} SameAnchor(c: Incident, d: Incident, i: Incident, a: seq<Signal>, b: seq<Signal>)
    requires d.signalIds == c.signalIds + i.signalIds
    requires BundleMerge.BySignalId(a) == BundleMerge.BySignalId(b) && (a == [] <==> b == [])
    ensures BundleMerge.SelectAnchor(d, i, b) == BundleMerge.SelectAnchor(c, i, a)
  {
    assert d.signalIds + i.signalIds == c.signalIds + i.signalIds;
  }

  /** The contents and the context of the second merge are those of the first. */
  lemma {:induction false} SameContents(c: Incident, d: Incident, i: Incident, n: Inputs, o: Inputs, maxContext: nat,
      kept: seq<Evidence>, kept': seq<Evidence>, r: BundleMerge.Rater)
    requires ReadBack(d, Merge(c, i, n, maxContext, kept, r))
    ensures var again := Merge(d, i, o, maxContext, kept', r);
      && again.eventIds == d.eventIds && again.signalIds == d.signalIds && again.contextIds == d.contextIds
      && again.targets == d.targets && again.firstSeen == d.firstSeen && again.lastSeen == d.lastSeen
  {
    var m := Merge(c, i, n, maxContext, kept, r);
    assert d.eventIds + i.eventIds == d.eventIds && d.signalIds + i.signalIds == d.signalIds
      && d.targets + i.targets == d.targets;
    LeastAbsorbs((c.contextIds + i.contextIds) - m.eventIds, (d.contextIds + i.contextIds) - d.eventIds, maxContext);
  }

  /** With no anchor, identity and scores stay as stored. */
  lemma {:induction false} SameWithoutAnchor(c: Incident, i: Incident, n: Inputs, maxContext: nat,
      kept: seq<Evidence>, r: BundleMerge.Rater)
    requires BundleMerge.SelectAnchor(c, i, n.available).None?
    ensures var m := Merge(c, i, n, maxContext, kept, r);
      && m.severity == c.severity && m.confidence == c.confidence && m.incidentType == c.incidentType
      && m.family == c.family && m.primaryEntity == c.primaryEntity
  {}

  /** What an anchor, the members and the events determine. */
  lemma {:induction false} DeterminedParts(c: Incident, i: Incident, n: Inputs, maxContext: nat, kept: seq<Evidence>,
      r: BundleMerge.Rater, a: Signal)
    requires BundleMerge.SelectAnchor(c, i, n.available) == Some(a)
    ensures var m := Merge(c, i, n, maxContext, kept, r);
      var cluster := BundleMerge.Within(n.available, c.signalIds + i.signalIds);
      && m.incidentType == a.signalType && m.family == a.family
      && m.primaryEntity == BundleMerge.PromotedEntity(a, c, i)
      && m.confidence == r.confidence(cluster)
      && m.severity == (if n.events.Keys == c.eventIds + i.eventIds
        then r.severity(cluster, r.facts(n.events, a.family)) else c.severity)
  {}

  lemma {:induction false} SameWithAnchor(c: Incident, d: Incident, i: Incident, n: Inputs, o: Inputs,
      maxContext: nat, kept: seq<Evidence>, kept': seq<Evidence>, r: BundleMerge.Rater, a: Signal)
    requires ReadBack(d, Merge(c, i, n, maxContext, kept, r)) && BundleMerge.Insensitive(r) && n.events == o.events
    requires BundleMerge.SelectAnchor(c, i, n.available) == Some(a)
      && BundleMerge.SelectAnchor(d, i, o.available) == Some(a)
    requires multiset(BundleMerge.Within(n.available, c.signalIds + i.signalIds))
          == multiset(BundleMerge.Within(o.available, c.signalIds + i.signalIds))
    ensures var again := Merge(d, i, o, maxContext, kept', r);
      && again.severity == d.severity && again.confidence == d.confidence && again.incidentType == d.incidentType
      && again.family == d.family && again.primaryEntity == d.primaryEntity
  {
    DeterminedParts(c, i, n, maxContext, kept, r, a);
    DeterminedParts(d, i, o, maxContext, kept', r, a);
    var ids := c.signalIds + i.signalIds;
    assert d.signalIds + i.signalIds == ids && d.eventIds + i.eventIds == c.eventIds + i.eventIds;
    var x, y := BundleMerge.Within(n.available, ids), BundleMerge.Within(o.available, ids);
    assert r.confidence(x) == r.confidence(y);
    var facts := r.facts(n.events, a.family);
    assert r.severity(x, facts) == r.severity(y, facts);
  }

  lemma {:induction false} NothingChanges(d: Incident, m: Incident)
    requires m.eventIds == d.eventIds && m.signalIds == d.signalIds && m.targets == d.targets
    requires m.firstSeen == d.firstSeen && m.lastSeen == d.lastSeen
    requires m.severity == d.severity && m.confidence == d.confidence && m.incidentType == d.incidentType
    requires m.family == d.family && m.primaryEntity == d.primaryEntity
    ensures !BundleMerge.Promotes(d, m) && BundleMerge.Changes(d, m, false) == {}
  {}

  /** Merging the same incident a second time changes nothing that is material, even when the context
      bound discarded some of its context the first time. */
  lemma {:induction false} MergeAgainChangesNothing(c: Incident, d: Incident, i: Incident, n: Inputs, o: Inputs,
      maxContext: nat, kept: seq<Evidence>, kept': seq<Evidence>, r: BundleMerge.Rater)
    requires ReadBack(d, Merge(c, i, n, maxContext, kept, r)) && SameInputs(n, o) && BundleMerge.Insensitive(r)
    ensures var again := Merge(d, i, o, maxContext, kept', r);
      var promoted := BundleMerge.SelectAnchor(d, i, o.available).Some? && BundleMerge.Promotes(d, again);
      BundleMerge.Changes(d, again, promoted) == {} && again.contextIds == d.contextIds
  {
    SameLoad(n.available, o.available);
    SameAnchor(c, d, i, n.available, o.available);
    SameContents(c, d, i, n, o, maxContext, kept, kept', r);
    var anchor := BundleMerge.SelectAnchor(c, i, n.available);
    if anchor.Some? {
      SameWithAnchor(c, d, i, n, o, maxContext, kept, kept', r, anchor.value);
    } else {
      SameWithoutAnchor(c, i, n, maxContext, kept, r);
      SameWithoutAnchor(d, i, o, maxContext, kept', r);
    }
    NothingChanges(d, Merge(d, i, o, maxContext, kept', r));
  }

  lemma {:induction false} ReadsBack(v: View, m: Incident, job: string, s: Stamp, id: string, evidence: seq<Evidence>)
    ensures ReadBack(Loaded(AfterMerge(v, m, job, StampWith(s)), id, evidence), m)
    ensures Loaded(AfterMerge(v, m, job, StampWith(s)), id, evidence).metrics.primarySignalId
      == m.metrics.primarySignalId
  {}

  /** The events of the final set, if every one of them is stored. */
  function FinalEvents(ids: set<string>, stored: EventMap): EventMap {
    if ids <= stored.Keys then RestrictTo(stored, ids) else map[]
  }

  /** What a merge into the row `v` finds in the database. */
  ghost predicate FindsAll(n: Inputs, v: View, i: Incident, rows: seq<Signal>, signals: Overlaps.SignalMap,
      events: EventMap) {
    && DistinctSignals(n.available) && Elements(n.available) == AvailableSet(v.signals, rows, signals)
    && n.events == FinalEvents(v.eventIds + i.eventIds, events)
  }

  /** After a material merge, the same incident for the same job has nothing material left: the second
      merge leaves the row, its associations and its version as they are. The caller passes rows for
      all the signals of the incoming incident. */
  lemma {:induction false} SecondMergeIsNoop(v: View, id: string, i: Incident, rows: seq<Signal>,
      signals: Overlaps.SignalMap, events: EventMap, n: Inputs, o: Inputs, job: string, s: Stamp, maxContext: nat,
      evidence: seq<Evidence>, evidence': seq<Evidence>, kept: seq<Evidence>, kept': seq<Evidence>)
    requires i.signalIds <= Elements(Map(SignalIdOf, rows))
    requires FindsAll(n, v, i, rows, signals, events)
    requires var m := Merge(Loaded(v, id, evidence), i, n, maxContext, kept, BundleMerge.StandardRater());
      FindsAll(o, AfterMerge(v, m, job, StampWith(s)), i, rows, signals, events)
    ensures var m := Merge(Loaded(v, id, evidence), i, n, maxContext, kept, BundleMerge.StandardRater());
      var after := AfterMerge(v, m, job, StampWith(s));
      var d := Loaded(after, id, evidence');
      var again := Merge(d, i, o, maxContext, kept', BundleMerge.StandardRater());
      Materials(d, again, BundleMerge.SelectAnchor(d, i, o.available).Some?
        && BundleMerge.Promotes(d, again), after, job) == {}
  {
    var r := BundleMerge.StandardRater();
    var c := Loaded(v, id, evidence);
    var m := Merge(c, i, n, maxContext, kept, r);
    var after := AfterMerge(v, m, job, StampWith(s));
    ReadsBack(v, m, job, s, id, evidence');
    AvailableAgain(v.signals, i.signalIds, rows, signals);
    MergeCovers(v, id, evidence, i, n.available, n.events, maxContext, kept, r);
    assert after.eventIds + i.eventIds == v.eventIds + i.eventIds && after.signals == v.signals + i.signalIds;
    BundleMerge.StandardRaterInsensitive();
    MergeAgainChangesNothing(c, Loaded(after, id, evidence'), i, n, o, maxContext, kept, kept', r);
  }

  // ---------------------------------------------------------------- creating

  function Brought(i: Incident): Incoming {
    Incoming(Scalars(i.title, i.incidentType, i.family, i.severity, i.confidence, i.firstSeen, i.lastSeen,
      i.primaryEntity, i.mergeKey.0),
             i.targets, i.techniques,
             map["primary_signal_id" := Text(i.metrics.primarySignalId),
               "total_events" := Number(i.metrics.totalEvents),
                 "correlated_signal_count" := Number(i.metrics.correlatedSignals),
                 "absorbed_signal_count" := Number(i.metrics.absorbedSignals)],
             i.eventIds, i.contextIds, i.signalIds)
  }

  function PrimaryOf(i: Incident): string {
    if i.metrics.primarySignalId != "" then i.metrics.primarySignalId
    else if i.signalIds != {} then LeastName(i.signalIds)
    else ""
  }

  function NewMetrics(i: Incident, s: Stamp): map<string, Value> {
    Applied(Brought(i).metrics, s, Tally(0, 1, |i.eventIds|, |i.signalIds|, |i.absorbedIds|, PrimaryOf(i)))
  }

  function NewView(i: Incident, job: string, metrics: map<string, Value>): View {
    View(i.eventIds, i.contextIds, i.signalIds, {job}, Brought(i).scalars, i.targets, i.techniques, metrics)
  }

  /** What `create_canonical` stores for an incident that is not stored yet. */
  function NewStored(i: Incident, job: string, s: Stamp): Stored { Stored(NewView(i, job, NewMetrics(i, s)), 1) }

  method NewRow(i: Incident, job: string, metrics: map<string, Value>) returns (row: IncidentRow)
    requires i.eventIds !! i.contextIds
    ensures fresh(row) && row.Valid() && row.Contents() == NewView(i, job, metrics) && row.version == 1
  {
    row := new IncidentRow(Brought(i).scalars);
    var changed, contextChanged := row.ReconcileAssociations(i.eventIds, i.contextIds, i.signalIds);
    var joined := row.AddJob(job);
    row.targets, row.techniques, row.metrics := i.targets, i.techniques, metrics;
    assert i.contextIds - i.eventIds == i.contextIds && Elements(row.jobs) == {job};
  }

  /** `create_canonical` for an incident that is not stored yet. */
  method CreateCanonical(i: Incident, job: string, s: Stamp) returns (row: IncidentRow)
    requires i.eventIds !! i.contextIds
    ensures fresh(row) && row.Valid() && row.Value() == NewStored(i, job, s)
  {
    row := NewRow(i, job, NewMetrics(i, s));
  }

  /** The metrics of a stored incident after `create_canonical` has refreshed it to `r`: counts over the
      union, the merge count kept. */
  function Recounted(before: map<string, Value>, r: View, i: Incident, s: Stamp): map<string, Value> {
    var stored := TextIn(r.metrics, "primary_signal_id");
    var primary := if stored != "" then stored else PrimaryOf(i);
    var absorbed := if primary != "" && |r.signals| > 0 then |r.signals| - 1 else |r.signals|;
    Applied(r.metrics, s, Tally(NumberIn(before, "stateful_merge_count"), |r.jobs|, |r.eventIds|, |r.signals|,
      absorbed, primary))
  }

  /** What `create_canonical` makes of a stored incident: refreshed, recounted, and its version raised if
      the refresh or the recount changed anything. */
  ghost function RefreshedStored(x: Stored, i: Incident, job: string, s: Stamp, maxContext: nat): Stored {
    var r := Reconciled(x.view, Brought(i), job, maxContext);
    var metrics := Recounted(x.view.metrics, r, i, s);
    Stored(r.(metrics := metrics), if r != x.view || metrics != x.view.metrics then Bumped(x.version) else x.version)
  }

  /** `create_canonical` for a stored incident. */
  method RefreshCanonical(row: IncidentRow, i: Incident, job: string, s: Stamp, maxContext: nat) returns (changed: bool)
    requires row.Valid()
    modifies row
    ensures row.Valid() && row.Value() == RefreshedStored(old(row.Value()), i, job, s, maxContext)
    ensures changed <==> row.version != old(row.version)
    ensures !changed ==> row.events == old(row.events)
  {
    var previous := row.metrics;
    var reconciled := row.ReconcileExisting(Brought(i), job, maxContext);
    row.metrics := Recounted(previous, row.Contents(), i, s);
    changed := reconciled || row.metrics != previous;
    if changed { row.version := Bumped(row.version); }
  }

  // ---------------------------------------------------------------- merging or leaving alone

  /** What a call loads for a merge, and the evidence the merge selects. */
  datatype Loading = Loading(inputs: Inputs, evidence: seq<Evidence>, kept: seq<Evidence>)

  ghost function Merging(v: View, id: string, i: Incident, l: Loading, maxContext: nat): Incident {
    Merge(Loaded(v, id, l.evidence), i, l.inputs, maxContext, l.kept, BundleMerge.StandardRater())
  }

  ghost function Effects(v: View, id: string, i: Incident, job: string, l: Loading, maxContext: nat): set<Material> {
    var c, m := Loaded(v, id, l.evidence), Merging(v, id, i, l, maxContext);
    Materials(c, m, BundleMerge.SelectAnchor(c, i, l.inputs.available).Some? && BundleMerge.Promotes(c, m), v, job)
  }

  /** `_merge` on a stored incident: nothing when the quick test or the merge itself finds nothing material. */
  ghost function MergeOnce(x: Stored, id: string, i: Incident, job: string, l: Loading, s: Stamp,
      maxContext: nat): Option<Stored> {
    if IsNoop(x.view, Brought(i), job) || Effects(x.view, id, i, job, l, maxContext) == {} then None
    else Some(Stored(AfterMerge(x.view, Merging(x.view, id, i, l, maxContext), job, StampWith(s)), Bumped(x.version)))
  }

  /** `merge_into_canonical`, with what it was given and what evidence it selected. */
  method MergeNow(row: IncidentRow, id: string, i: Incident, job: string, inputs: Inputs, evidence: seq<Evidence>,
      maxContext: nat, s: Stamp)
    returns (materials: set<Material>, ghost l: Loading)
    requires row.Valid()
    modifies row
    ensures row.Valid() && l.inputs == inputs && l.evidence == evidence
    ensures materials == Effects(old(row.Contents()), id, i, job, l, maxContext)
    ensures materials == {} ==> row.Value() == old(row.Value()) && row.events == old(row.events)
    ensures materials != {} ==>
      row.Value() == Stored(AfterMerge(old(row.Contents()), Merging(old(row.Contents()), id, i, l, maxContext), job,
        StampWith(s)),
                            Bumped(old(row.version)))
  {
    var merged;
    materials, merged := MergeIntoCanonical(row, id, i, job, inputs.available, inputs.events, evidence, maxContext, s);
    l := Loading(inputs, evidence, merged.evidence);
  }

  datatype MergeResult = LeftAlone | MergedInto(materials: set<Material>)

  /** `_merge` up to the state row: the quick test first, then the merge, whose report decides. `l` is what
      was loaded for it. */
  method MergeOrLeave(row: IncidentRow, id: string, i: Incident, job: string, rows: seq<Signal>,
      signals: Overlaps.SignalMap, events: EventMap, evidence: seq<Evidence>, maxContext: nat, s: Stamp)
    returns (r: MergeResult, ghost l: Loading)
    requires row.Valid() && forall k :: k in signals ==> signals[k].signalId == k
    modifies row
    ensures row.Valid() && l.evidence == evidence
    ensures !IsNoop(old(row.Contents()), Brought(i), job) ==>
      FindsAll(l.inputs, old(row.Contents()), i, rows, signals, events)
    ensures r.LeftAlone? <==> MergeOnce(old(row.Value()), id, i, job, l, s, maxContext).None?
    ensures r.LeftAlone? ==> row.Value() == old(row.Value()) && row.events == old(row.events)
    ensures r.MergedInto? ==> Some(row.Value()) == MergeOnce(old(row.Value()), id, i, job, l, s, maxContext)
                              && r.materials == Effects(old(row.Contents()), id, i, job, l, maxContext)
  {
    if IsNoop(row.Contents(), Brought(i), job) {
      return LeftAlone, Loading(Inputs([], map[]), evidence, []);
    }
    var available := LoadAvailableSignals(Elements(row.signals), rows, signals);
    var final := FinalEvents(RealIds(row.events) + i.eventIds, events);
    var materials;
    materials, l := MergeNow(row, id, i, job, Inputs(available, final), evidence, maxContext, s);
    r := if materials == {} then LeftAlone else MergedInto(materials);
  }

  // ---------------------------------------------------------------- what a stored row says of itself

  predicate SaysNumber(metrics: map<string, Value>, key: string, n: int) {
    key in metrics && metrics[key] == Number(n)
  }

  predicate SaysText(metrics: map<string, Value>, key: string, text: string) {
    key in metrics && metrics[key] == Text(text)
  }

  /** The metrics name the correlation they were stamped for. */
  predicate StampedAs(metrics: map<string, Value>, s: Stamp) {
    && SaysText(metrics, "stateful_correlation_version", s.correlationVersion)
    && SaysText(metrics, "stateful_correlation_key", s.key)
    && SaysText(metrics, "stateful_correlation_strategy", s.strategy)
    && SaysNumber(metrics, "stateful_generation", s.generation)
  }

  predicate CountedAs(metrics: map<string, Value>, n: Tally) {
    && SaysNumber(metrics, "stateful_merge_count", n.merges) && SaysNumber(metrics, "correlated_job_count", n.jobs)
    && SaysNumber(metrics, "total_events", n.events) && SaysNumber(metrics, "correlated_signal_count", n.signals)
    && SaysNumber(metrics, "absorbed_signal_count", n.absorbed) && SaysText(metrics, "primary_signal_id", n.primary)
  }

  lemma {:induction false} AppliedSays(metrics: map<string, Value>, s: Stamp, n: Tally)
    ensures StampedAs(Applied(metrics, s, n), s) && CountedAs(Applied(metrics, s, n), n)
    ensures forall k :: k in metrics ==> k in Applied(metrics, s, n)
  {}

  /** The metrics of a stored row count what the row holds; `merges` merges went into it. */
  ghost predicate CountsItself(v: View, s: Stamp, merges: int) {
    && StampedAs(v.metrics, s)
    && SaysNumber(v.metrics, "stateful_merge_count", merges)
    && SaysNumber(v.metrics, "total_events", |v.eventIds|)
    && SaysNumber(v.metrics, "correlated_signal_count", |v.signals|)
    && SaysNumber(v.metrics, "correlated_job_count", |v.jobs|)
    && SaysNumber(v.metrics, "absorbed_signal_count",
         if TextIn(v.metrics, "primary_signal_id") in v.signals then |v.signals| - 1 else |v.signals|)
  }

  lemma {:induction false} WithoutOne(ids: set<string>, x: string)
    ensures |ids - {x}| == if x in ids then |ids| - 1 else |ids|
  {
    if x !in ids { assert ids - {x} == ids; }
  }

  /** A row that is stored anew holds what the incident brought, under its primary signal, with no merge yet. */
  lemma {:induction false} NewCounts(i: Incident, job: string, s: Stamp, maxContext: nat)
    requires WellFormed(i, maxContext) && i.metrics.primarySignalId != ""
    ensures var x := NewStored(i, job, s);
      && CountsItself(x.view, s, 0) && SaysText(x.view.metrics, "primary_signal_id", i.metrics.primarySignalId)
      && x.version == 1 && x.view.jobs == {job}
      && ReadBack(Loaded(x.view, i.incidentId, []), i)
  {
    AppliedSays(Brought(i).metrics, s, Tally(0, 1, |i.eventIds|, |i.signalIds|, |i.absorbedIds|, PrimaryOf(i)));
    WithoutOne(i.signalIds, i.metrics.primarySignalId);
  }

  /** A merge adds one to the merges of the row and counts the rest anew. */
  lemma {:induction false} MergedCounts(v: View, m: Incident, job: string, s: Stamp, id: string)
    requires BundleMerge.CountedAnew(m, Loaded(v, id, []))
    ensures var n := AfterMerge(v, m, job, StampWith(s));
      && CountsItself(n, s, NumberIn(v.metrics, "stateful_merge_count") + 1)
      && SaysText(n.metrics, "primary_signal_id", m.metrics.primarySignalId)
  {
    var n := AfterMerge(v, m, job, StampWith(s));
    var counted := MergedTally(v, m, job);
    AppliedSays(v.metrics, s, counted);
    WithoutOne(m.signalIds, m.metrics.primarySignalId);
    MergedMetrics(v, m, job, s);
    TalliedCounts(n, s, counted);
  }

  ghost function MergedTally(v: View, m: Incident, job: string): Tally {
    Tally(NumberIn(v.metrics, "stateful_merge_count") + 1, |v.jobs + {job}|, m.metrics.totalEvents,
          m.metrics.correlatedSignals, m.metrics.absorbedSignals, m.metrics.primarySignalId)
  }

  lemma {:induction false} MergedMetrics(v: View, m: Incident, job: string, s: Stamp)
    ensures AfterMerge(v, m, job, StampWith(s)).metrics == Applied(v.metrics, s, MergedTally(v, m, job))
  {}

  /** The merged row says what the merged incident says, keeps its merge key and gains the job. */
  lemma {:induction false} MergedSays(v: View, m: Incident, job: string, s: Stamp, id: string, evidence: seq<Evidence>)
    ensures var n := AfterMerge(v, m, job, StampWith(s));
      n.jobs == v.jobs + {job} && n.scalars.mergeKey == v.scalars.mergeKey && ReadBack(Loaded(n, id, evidence), m)
  {
    ReadsBack(v, m, job, s, id, evidence);
  }

  lemma {:induction false} TalliedCounts(v: View, s: Stamp, n: Tally)
    requires StampedAs(v.metrics, s) && CountedAs(v.metrics, n)
    requires n.events == |v.eventIds| && n.signals == |v.signals| && n.jobs == |v.jobs|
    requires n.absorbed == if n.primary in v.signals then |v.signals| - 1 else |v.signals|
    ensures CountsItself(v, s, n.merges)
  {}

  /** A refresh leaves the number of merges and counts the rest anew, over what the row held and what the
      incident brought. */
  lemma {:induction false} RefreshedCounts(x: Stored, i: Incident, job: string, s: Stamp, maxContext: nat)
    requires i.metrics.primarySignalId in i.signalIds && i.metrics.primarySignalId != ""
    ensures var n := RefreshedStored(x, i, job, s, maxContext).view;
      && CountsItself(n, s, NumberIn(x.view.metrics, "stateful_merge_count"))
      && SaysText(n.metrics, "primary_signal_id", i.metrics.primarySignalId)
  {
    var r := Reconciled(x.view, Brought(i), job, maxContext);
    assert TextIn(r.metrics, "primary_signal_id") == i.metrics.primarySignalId;
    AppliedSays(r.metrics, s, Tally(NumberIn(x.view.metrics, "stateful_merge_count"), |r.jobs|, |r.eventIds|,
      |r.signals|, |r.signals| - 1, i.metrics.primarySignalId));
  }

  /** The severity facts are computed from all events or from none. */
  lemma {:induction false} AllEventsOrNone(ids: set<string>, stored: EventMap)
    ensures var r := FinalEvents(ids, stored);
      if exists id :: id in ids && id !in stored then r == map[]
      else r.Keys == ids && forall id :: id in ids ==> r[id] == stored[id]
  {
    if id :| id in ids && id !in stored { assert !(ids <= stored.Keys); }
  }
}
