/** One resolve call on the state row and the stored incident together, and the same call again. */
module ResolveTwice {
  import opened Ordering
  import opened Signals
  import opened Scoring
  import opened Incidents
  import opened IncidentStore
  import opened StatefulMerge
  import BundleMerge
  import Overlaps
  import C = CorrelationState

  datatype Store = Store(state: Option<C.StateRow>, incidents: map<string, Stored>)

  /** What a call brings: the incident, the job, and rows for signals of the incident. `createId` is the
      identifier the create path uses, the incident's own or the version-scoped one. */
  datatype Arrival = Arrival(incident: Incident, createId: string, job: string, rows: seq<Signal>)

  /** What the database holds besides: signals and events. */
  datatype Held = Held(signals: Overlaps.SignalMap, events: EventMap)

  datatype Setup = Setup(rules: C.Rules, key: string, strategy: string, maxContext: nat)

  function CallOf(a: Arrival, now: int): C.Call {
    C.Call(a.incident.incidentId, a.createId, a.job, a.incident.firstSeen, a.incident.lastSeen, now)
  }

  // ---------------------------------------------------------------- one call

  /** The row the create path works on. */
  function CreateKey(db: Store, a: Arrival): string { if db.state.None? then a.createId else a.incident.incidentId }

  function StampFor(generation: nat, setup: Setup): Stamp {
    Stamp(setup.key, setup.strategy, setup.rules.correlationVersion, generation)
  }

  function CreateStamp(db: Store, setup: Setup): Stamp {
    StampFor(if db.state.None? then 1 else db.state.value.generation + 1, setup)
  }

  /** `create_canonical`: a stored incident is refreshed rather than duplicated. */
  ghost function Canonical(db: Store, a: Arrival, setup: Setup): Stored {
    var id := CreateKey(db, a);
    if id in db.incidents then RefreshedStored(db.incidents[id], a.incident, a.job, CreateStamp(db, setup),
      setup.maxContext)
    else NewStored(a.incident, a.job, CreateStamp(db, setup))
  }

  function Extended(row: C.StateRow, a: Arrival, now: int, setup: Setup): C.StateRow {
    var last := C.Greater(row.lastSeen, a.incident.lastSeen);
    row.(firstSeen := C.Lesser(row.firstSeen, a.incident.firstSeen), lastSeen := last,
         expiresAt := C.ExpiresAt(now, last, setup.rules.ttl), version := row.version + 1)
  }

  function Put(db: Store, row: C.StateRow, x: Stored, status: C.Status): (C.Status, Store) {
    if C.Checked(row) then (status, Store(Some(row), db.incidents[row.incidentId := x])) else (C.Rejected, db)
  }

  /** `_merge`; `merged` is what the merge makes of the stored incident, if anything material. */
  function Join(db: Store, row: C.StateRow, a: Arrival, merged: Option<Stored>, now: int, setup: Setup): (C.Status,
    Store) {
    if merged.None? then (C.NoOp, db) else Put(db, Extended(row, a, now, setup), merged.value, C.Merged)
  }

  function Restarted(row: C.StateRow, a: Arrival, now: int, setup: Setup): C.StateRow {
    row.(incidentId := a.incident.incidentId, generation := row.generation + 1, firstSeen := a.incident.firstSeen,
         lastSeen := a.incident.lastSeen, expiresAt := C.ExpiresAt(now, a.incident.lastSeen, setup.rules.ttl),
         version := row.version + 1)
  }

  /** `_new_generation`; `canonical` is what `create_canonical` leaves. */
  function Restart(db: Store, row: C.StateRow, a: Arrival, merged: Option<Stored>, canonical: Stored, now: int,
      setup: Setup)
    : (C.Status, Store)
  {
    if row.incidentId in db.incidents
      && a.incident.incidentId == row.incidentId then Join(db, row, a, merged, now, setup)
    else Put(db, Restarted(row, a, now, setup), canonical, C.NewGenerationStarted)
  }

  /** `resolve_and_merge`, given both outcomes for the incident. */
  function ResolveWith(db: Store, a: Arrival, merged: Option<Stored>, canonical: Stored, now: int, setup: Setup)
    : (C.Status, Store)
  {
    if db.state.None? then Put(db, C.NewRow(CallOf(a, now), setup.rules), canonical, C.Created)
    else
      var row := db.state.value;
      var known := row.incidentId in db.incidents;
      match C.Classify(row, known, CallOf(a, now), setup.rules)
      case Stale => (C.LeftStale, db)
      case Merge => if known then Join(db, row, a, merged, now, setup) else (C.LeftStale, db)
      case NewGeneration => Restart(db, row, a, merged, canonical, now, setup)
      case Repair => Restart(db, row, a, merged, canonical, now, setup)
  }

  ghost predicate HasIncident(db: Store) { db.state.Some? && db.state.value.incidentId in db.incidents }

  /** The incident the state row points to. */
  ghost function Pointed(db: Store): Stored
    requires HasIncident(db)
  {
    db.incidents[db.state.value.incidentId]
  }

  ghost function MergedStored(db: Store, a: Arrival, l: Loading, setup: Setup): Option<Stored> {
    if HasIncident(db) then
      var row := db.state.value;
      MergeOnce(Pointed(db), row.incidentId, a.incident, a.job, l, StampFor(row.generation, setup), setup.maxContext)
    else None
  }

  /** `resolve_and_merge`. */
  ghost function Resolve(db: Store, a: Arrival, l: Loading, now: int, setup: Setup): (C.Status, Store) {
    ResolveWith(db, a, MergedStored(db, a, l, setup), Canonical(db, a, setup), now, setup)
  }

  /** With the stored incidents forgotten but for their names, a call is an uninterrupted call of the
      correlation protocol: same status, same row, same incidents. */
  lemma {:induction false} RefinesProtocol(db: Store, abs: C.Database, a: Arrival, merged: Option<Stored>,
      canonical: Stored, now: int, setup: Setup)
    requires abs.state == db.state && abs.incidents.Keys == db.incidents.Keys
    requires HasIncident(db) ==>
      (setup.rules.material(abs.incidents[db.state.value.incidentId], CallOf(a, now)) <==> merged.Some?)
    ensures var x := C.Read(abs, CallOf(a, now));
      var e := C.Resolve(abs, x.seen, x.content, x.call, setup.rules);
      var (status, n) := ResolveWith(db, a, merged, canonical, now, setup);
      e.Finished? && e.status == status && e.db.state == n.state && e.db.incidents.Keys == n.incidents.Keys
  {}

  // ---------------------------------------------------------------- where the second call goes

  /** The row covers the call's window and is the call's own or alive for its version. */
  predicate Covers(row: C.StateRow, a: Arrival, setup: Setup) {
    && row.firstSeen <= a.incident.firstSeen <= a.incident.lastSeen <= row.lastSeen
    && (row.incidentId == a.incident.incidentId || row.correlationVersion == setup.rules.correlationVersion)
  }

  /** Such a row sends the same call to the merge path. */
  lemma {:induction false} AgainJoins(db: Store, a: Arrival, merged: Option<Stored>, canonical: Stored, now: int,
      setup: Setup)
    requires HasIncident(db) && Covers(db.state.value, a, setup) && now < db.state.value.expiresAt
    ensures ResolveWith(db, a, merged, canonical, now, setup) == Join(db, db.state.value, a, merged, now, setup)
  {}

  /** The merge path stores nothing, and says so, exactly when nothing is left to merge. */
  lemma {:induction false} JoinIsNoop(db: Store, a: Arrival, merged: Option<Stored>, now: int, setup: Setup)
    requires db.state.Some?
    ensures Join(db, db.state.value, a, merged, now, setup) == (C.NoOp, db) <==> merged.None?
  {}

  /** What a call that stored something has stored. */
  lemma {:induction false} StoredBy(db: Store, a: Arrival, merged: Option<Stored>, canonical: Stored, now: int,
      setup: Setup)
    requires a.incident.firstSeen <= a.incident.lastSeen
    requires ResolveWith(db, a, merged, canonical, now, setup).0 in {C.Created, C.Merged, C.NewGenerationStarted}
    ensures var (status, n) := ResolveWith(db, a, merged, canonical, now, setup);
      && HasIncident(n) && Covers(n.state.value, a, setup)
      && (if status == C.Merged then
            HasIncident(db) && n.state.value.incidentId == db.state.value.incidentId && Some(Pointed(n)) == merged
          else Pointed(n) == canonical)
  {}

  // ---------------------------------------------------------------- what is left to merge

  ghost predicate Loads(l: Loading, v: View, a: Arrival, h: Held) {
    FindsAll(l.inputs, v, a.incident, a.rows, h.signals, h.events)
  }

  /** Once merged, there is nothing left to merge. */
  lemma {:induction false} MergedOnceIsDone(x: Stored, id: string, a: Arrival, l: Loading, again: Loading, s: Stamp,
      t: Stamp, h: Held, maxContext: nat)
    requires a.incident.signalIds <= Elements(Map(SignalIdOf, a.rows)) && Loads(l, x.view, a, h)
    requires MergeOnce(x, id, a.incident, a.job, l, s, maxContext).Some?
    requires Loads(again, MergeOnce(x, id, a.incident, a.job, l, s, maxContext).value.view, a, h)
    ensures MergeOnce(MergeOnce(x, id, a.incident, a.job, l, s, maxContext).value, id, a.incident, a.job, again, t,
      maxContext).None?
  {
    SecondMergeIsNoop(x.view, id, a.incident, a.rows, h.signals, h.events, l.inputs, again.inputs, a.job, s, maxContext,
                      l.evidence, again.evidence, l.kept, again.kept);
  }

  /** Before the call: the row the create path works on, if it is stored, has room for the context. */
  predicate HasRoomFor(db: Store, a: Arrival, setup: Setup) {
    CreateKey(db, a) in db.incidents ==>
      HasRoom(db.incidents[CreateKey(db, a)].view, Brought(a.incident), setup.maxContext)
  }

  /** The quick test recognizes what `create_canonical` has just stored exactly when there was room; a new
      incident always has it. */
  lemma {:induction false} CanonicalIsRecognized(db: Store, a: Arrival, setup: Setup)
    ensures IsNoop(Canonical(db, a, setup).view, Brought(a.incident), a.job) <==> HasRoomFor(db, a, setup)
    ensures CreateKey(db, a) !in db.incidents ==> HasRoomFor(db, a, setup)
  {
    if CreateKey(db, a) in db.incidents {
      NoopAfterReconcile(db.incidents[CreateKey(db, a)].view, Brought(a.incident), a.job, setup.maxContext);
    }
  }

  /** Before a refresh of `v` from `i`: the signals of both, as far as they are at hand, make for no other
      identity, no higher severity and no other confidence than `i` brings. */
  ghost predicate Settled(v: View, i: Incident, n: Inputs) {
    var ids := v.signals + i.signalIds;
    var c := v.(signals := ids);
    var anchor := BundleMerge.SelectAnchor(Loaded(c, "", []), i, n.available);
    anchor.Some? ==>
      var a, cluster := anchor.value, BundleMerge.Within(n.available, ids);
      && a.signalType == i.incidentType && a.family == i.family
      && (a.family in ASSET_PRIMARY_FAMILIES || a.primaryEntity == i.primaryEntity)
      && (n.events.Keys == v.eventIds + i.eventIds ==>
            SeverityRank(IncidentSeverity(cluster, Some(FactsOf(n.events, a.family)))) <= SeverityRank(i.severity))
      && Distance(IncidentConfidence(cluster),
        ScalarsAfter(v.scalars, Brought(i).scalars).confidence) <= CONFIDENCE_TOLERANCE
  }

  /** Contents that agree leave only identity and scores to report. */
  lemma {:induction false} OnlyScoresLeft(c: Incident, m: Incident, promoted: bool)
    requires m.eventIds == c.eventIds && m.signalIds == c.signalIds && m.targets == c.targets
    requires m.firstSeen == c.firstSeen && m.lastSeen == c.lastSeen
    ensures BundleMerge.Changes(c, m, promoted) == {} <==>
      && SeverityRank(m.severity) <= SeverityRank(c.severity)
      && BundleMerge.Distance(m.confidence, c.confidence) <= BundleMerge.CONFIDENCE_TOLERANCE && !promoted
  {
    var changes := BundleMerge.Changes(c, m, promoted);
    if SeverityRank(m.severity) > SeverityRank(c.severity) { assert BundleMerge.SeverityIncreased in changes; }
    if BundleMerge.Distance(m.confidence, c.confidence) > BundleMerge.CONFIDENCE_TOLERANCE {
      assert BundleMerge.ConfidenceChanged in changes;
    }
    if promoted { assert BundleMerge.IdentityPromoted in changes; }
  }

  /** The view a refresh leaves. */
  ghost function RefreshedView(x: Stored, a: Arrival, s: Stamp, maxContext: nat): View {
    RefreshedStored(x, a.incident, a.job, s, maxContext).view
  }

  /** A merge of the incident into the row just refreshed from it adds no contents. */
  lemma {:induction false} RefreshedContents(x: Stored, id: string, a: Arrival, l: Loading, s: Stamp, maxContext: nat)
    ensures var v := RefreshedView(x, a, s, maxContext);
      var c, m := Loaded(v, id, l.evidence), Merging(v, id, a.incident, l, maxContext);
      && m.eventIds == c.eventIds && m.signalIds == c.signalIds && m.targets == c.targets
        && m.contextIds == v.contextIds
      && m.firstSeen == c.firstSeen && m.lastSeen == c.lastSeen && a.job in v.jobs
  {
    var v := RefreshedView(x, a, s, maxContext);
    assert v.eventIds + a.incident.eventIds == v.eventIds && v.signals + a.incident.signalIds == v.signals;
    BoundedAgain(x.view.contextIds, a.incident.contextIds, v.eventIds, maxContext);
  }

  /** What it computes of identity and scores is settled before the refresh. */
  lemma {:induction false} RefreshedScores(x: Stored, id: string, a: Arrival, l: Loading, s: Stamp, maxContext: nat)
    ensures var v := RefreshedView(x, a, s, maxContext);
      var c, m := Loaded(v, id, l.evidence), Merging(v, id, a.incident, l, maxContext);
      var promoted := BundleMerge.SelectAnchor(c, a.incident, l.inputs.available).Some? && BundleMerge.Promotes(c, m);
      (SeverityRank(m.severity) <= SeverityRank(c.severity)
       && BundleMerge.Distance(m.confidence, c.confidence) <= BundleMerge.CONFIDENCE_TOLERANCE && !promoted)
      <==> Settled(x.view, a.incident, l.inputs)
  {
    var i, v := a.incident, RefreshedView(x, a, s, maxContext);
    var c := Loaded(v, id, l.evidence);
    assert v.signals + i.signalIds == x.view.signals + i.signalIds
      && v.eventIds + i.eventIds == x.view.eventIds + i.eventIds;
    var before := Loaded(x.view.(signals := x.view.signals + i.signalIds), "", []);
    assert before.signalIds + i.signalIds == c.signalIds + i.signalIds;
    var anchor := BundleMerge.SelectAnchor(c, i, l.inputs.available);
    assert anchor == BundleMerge.SelectAnchor(before, i, l.inputs.available);
    if anchor.Some? {
      DeterminedParts(c, i, l.inputs, maxContext, l.kept, BundleMerge.StandardRater(), anchor.value);
    } else {
      SameWithoutAnchor(c, i, l.inputs, maxContext, l.kept, BundleMerge.StandardRater());
    }
  }

  /** After a refresh, the merge path finds nothing to do exactly when identity and scores were settled. */
  lemma {:induction false} SettledExactly(x: Stored, id: string, a: Arrival, l: Loading, s: Stamp, maxContext: nat)
    ensures Effects(RefreshedView(x, a, s, maxContext), id, a.incident, a.job, l, maxContext) == {}
            <==> Settled(x.view, a.incident, l.inputs)
  {
    var v := RefreshedView(x, a, s, maxContext);
    var c, m := Loaded(v, id, l.evidence), Merging(v, id, a.incident, l, maxContext);
    var promoted := BundleMerge.SelectAnchor(c, a.incident, l.inputs.available).Some? && BundleMerge.Promotes(c, m);
    RefreshedContents(x, id, a, l, s, maxContext);
    RefreshedScores(x, id, a, l, s, maxContext);
    OnlyScoresLeft(c, m, promoted);
    NothingMaterial(BundleMerge.Changes(c, m, promoted), m.contextIds != v.contextIds, a.job !in v.jobs);
  }

  // ---------------------------------------------------------------- main result

  /** Before the first call: what decides whether the second will find something to do. */
  ghost predicate NothingWillBeLeft(db: Store, a: Arrival, status: C.Status, again: Loading, setup: Setup) {
    status == C.Merged || HasRoomFor(db, a, setup)
    || (CreateKey(db, a) in db.incidents && Settled(db.incidents[CreateKey(db, a)].view, a.incident, again.inputs))
  }

  /** The calls are made in a database that holds what they load. */
  ghost predicate BothLoad(db: Store, n: Store, a: Arrival, l: Loading, again: Loading, h: Held) {
    && HasIncident(n) && Loads(again, Pointed(n).view, a, h)
    && (HasIncident(db) ==> Loads(l, Pointed(db).view, a, h))
  }

  lemma {:induction false} LeftToMerge(db: Store, a: Arrival, l: Loading, again: Loading, now: int, h: Held,
      setup: Setup)
    requires a.incident.firstSeen <= a.incident.lastSeen && a.incident.signalIds <= Elements(Map(SignalIdOf, a.rows))
    requires var (status, n) := Resolve(db, a, l, now, setup);
      status in {C.Created, C.Merged, C.NewGenerationStarted} && BothLoad(db, n, a, l, again, h)
    ensures var (status, n) := Resolve(db, a, l, now, setup);
      MergedStored(n, a, again, setup).None? <==> NothingWillBeLeft(db, a, status, again, setup)
  {
    var merged, canonical := MergedStored(db, a, l, setup), Canonical(db, a, setup);
    var (status, n) := ResolveWith(db, a, merged, canonical, now, setup);
    StoredBy(db, a, merged, canonical, now, setup);
    var s := StampFor(n.state.value.generation, setup);
    if status == C.Merged {
      var row := db.state.value;
      MergedOnceIsDone(Pointed(db), row.incidentId, a, l, again, StampFor(row.generation, setup), s, h,
        setup.maxContext);
    } else {
      CanonicalIsRecognized(db, a, setup);
      if CreateKey(db, a) in db.incidents {
        SettledExactly(db.incidents[CreateKey(db, a)], n.state.value.incidentId, a, again, CreateStamp(db, setup),
          setup.maxContext);
      }
    }
  }

  /** After a call has created the row, merged, or started a generation, the same incident for the same
      job before expiry returns no_op and leaves the state row, the stored incident, its associations and
      both versions as they are: always after a merge, even when the context bound discarded some of the
      context, and always for a new incident; for an incident that was stored before, if and only if there
      was room for its context or the signals of both settle on what it brings. */
  lemma {:induction false} SecondResolveIsNoop(db: Store, a: Arrival, l: Loading, again: Loading, now: int,
      later: int, h: Held, setup: Setup)
    requires a.incident.firstSeen <= a.incident.lastSeen && a.incident.signalIds <= Elements(Map(SignalIdOf, a.rows))
    requires var (status, n) := Resolve(db, a, l, now, setup);
      && status in {C.Created, C.Merged, C.NewGenerationStarted} && BothLoad(db, n, a, l, again, h)
      && later < n.state.value.expiresAt
    ensures var (status, n) := Resolve(db, a, l, now, setup);
      Resolve(n, a, again, later, setup) == (C.NoOp, n) <==> NothingWillBeLeft(db, a, status, again, setup)
  {
    var merged, canonical := MergedStored(db, a, l, setup), Canonical(db, a, setup);
    var n := ResolveWith(db, a, merged, canonical, now, setup).1;
    StoredBy(db, a, merged, canonical, now, setup);
    LeftToMerge(db, a, l, again, now, h, setup);
    AgainJoins(n, a, MergedStored(n, a, again, setup), Canonical(n, a, setup), later, setup);
    JoinIsNoop(n, a, MergedStored(n, a, again, setup), later, setup);
  }

  /** In particular after any first call for an incident that was not stored, and after any merge. */
  lemma {:induction false} SecondResolveOfNewIsNoop(db: Store, a: Arrival, l: Loading, again: Loading, now: int,
      later: int, h: Held, setup: Setup)
    requires a.incident.firstSeen <= a.incident.lastSeen && a.incident.signalIds <= Elements(Map(SignalIdOf, a.rows))
    requires var (status, n) := Resolve(db, a, l, now, setup);
      && status in {C.Created, C.Merged, C.NewGenerationStarted} && BothLoad(db, n, a, l, again, h)
      && later < n.state.value.expiresAt
      && (status == C.Merged || CreateKey(db, a) !in db.incidents)
    ensures var n := Resolve(db, a, l, now, setup).1; Resolve(n, a, again, later, setup) == (C.NoOp, n)
  {
    CanonicalIsRecognized(db, a, setup);
    SecondResolveIsNoop(db, a, l, again, now, later, h, setup);
  }

  // ---------------------------------------------------------------- the row and its incident agree

  /** The metrics of the incident that a successful call stores name the key, the strategy, the version of the
      rules and the generation of the state row that points to it. */
  lemma {:induction false} GenerationIsStamped(db: Store, a: Arrival, l: Loading, now: int, setup: Setup)
    requires var (status, n) := Resolve(db, a, l, now, setup); status in {C.Created, C.Merged, C.NewGenerationStarted}
    ensures var (status, n) := Resolve(db, a, l, now, setup);
      HasIncident(n) && StampedAs(Pointed(n).view.metrics, StampFor(n.state.value.generation, setup))
  {
    var (status, n) := Resolve(db, a, l, now, setup);
    var canonical, merged := Canonical(db, a, setup), MergedStored(db, a, l, setup);
    CanonicalStamped(db, a, setup);
    if HasIncident(db) && merged.Some? { MergedStamped(db, a, l, setup); }
    StampAgrees(db, a, merged, canonical, now, setup);
  }

  ghost predicate Stamped(x: Stored, generation: nat, setup: Setup) {
    StampedAs(x.view.metrics, StampFor(generation, setup))
  }

  lemma {:induction false} StampAgrees(db: Store, a: Arrival, merged: Option<Stored>, canonical: Stored, now: int,
      setup: Setup)
    requires Stamped(canonical, if db.state.None? then 1 else db.state.value.generation + 1, setup)
    requires db.state.Some? && merged.Some? ==> Stamped(merged.value, db.state.value.generation, setup)
    requires ResolveWith(db, a, merged, canonical, now, setup).0 in {C.Created, C.Merged, C.NewGenerationStarted}
    ensures var n := ResolveWith(db, a, merged, canonical, now, setup).1;
      HasIncident(n) && Stamped(Pointed(n), n.state.value.generation, setup)
  {}

  lemma {:induction false} CanonicalStamped(db: Store, a: Arrival, setup: Setup)
    ensures Stamped(Canonical(db, a, setup), if db.state.None? then 1 else db.state.value.generation + 1, setup)
  {
    var s, id, i := CreateStamp(db, setup), CreateKey(db, a), a.incident;
    if id in db.incidents {
      var x := db.incidents[id];
      var r := Reconciled(x.view, Brought(i), a.job, setup.maxContext);
      RecountedStamped(x.view.metrics, r, i, s);
    } else {
      AppliedSays(Brought(i).metrics, s, Tally(0, 1, |i.eventIds|, |i.signalIds|, |i.absorbedIds|, PrimaryOf(i)));
    }
  }

  lemma {:induction false} RecountedStamped(before: map<string, Value>, r: View, i: Incident, s: Stamp)
    ensures StampedAs(Recounted(before, r, i, s), s)
  {
    var stored := TextIn(r.metrics, "primary_signal_id");
    var primary := if stored != "" then stored else PrimaryOf(i);
    var absorbed := if primary != "" && |r.signals| > 0 then |r.signals| - 1 else |r.signals|;
    AppliedSays(r.metrics, s, Tally(NumberIn(before, "stateful_merge_count"), |r.jobs|, |r.eventIds|, |r.signals|,
      absorbed, primary));
  }

  lemma {:induction false} MergedStamped(db: Store, a: Arrival, l: Loading, setup: Setup)
    requires HasIncident(db) && MergedStored(db, a, l, setup).Some?
    ensures Stamped(MergedStored(db, a, l, setup).value, db.state.value.generation, setup)
  {
    var row, x := db.state.value, Pointed(db);
    var m := Merging(x.view, row.incidentId, a.incident, l, setup.maxContext);
    AppliedSays(x.view.metrics, StampFor(row.generation, setup),
      Tally(NumberIn(x.view.metrics, "stateful_merge_count") + 1, |x.view.jobs + {a.job}|, m.metrics.totalEvents,
            m.metrics.correlatedSignals, m.metrics.absorbedSignals, m.metrics.primarySignalId));
  }
}
