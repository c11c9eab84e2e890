/** The join of a stored incident with one from another job, which may change the incident's identity. */
module BundleMerge {
  import opened Ordering
  import opened Signals
  import opened Scoring
  import opened Incidents
  import opened Overlaps

  datatype Change =
    | EventsAdded | SignalsAdded | TargetsAdded | SeverityIncreased
    | ConfidenceChanged | IdentityPromoted | WindowExtended

  datatype Outcome = Outcome(incident: Incident, promoted: bool, rescored: bool, changes: set<Change>)

  const CONFIDENCE_TOLERANCE: real := 0.000000001

  /** How scores are computed; only their dependence on the members matters here. */
  datatype Rater = Rater(
    confidence: seq<Signal> -> real,
    severity: (seq<Signal>, Facts) -> Severity,
    facts: (EventMap, string) -> Facts)

  ghost function StandardRater(): Rater {
    Rater(IncidentConfidence, (c, f) => IncidentSeverity(c, Some(f)), (m, family) => FactsOf(m, family))
  }

  /** The scores do not depend on the order of the signals. */
  ghost predicate Insensitive(r: Rater) {
    forall a, b :: multiset(a) == multiset(b) ==>
      r.confidence(a) == r.confidence(b) && forall f :: r.severity(a, f) == r.severity(b, f)
  }

  lemma {:induction false} StandardRaterInsensitive()
    ensures Insensitive(StandardRater())
  {
    var r := StandardRater();
    forall a: seq<Signal>, b: seq<Signal> | multiset(a) == multiset(b)
      ensures r.confidence(a) == r.confidence(b) && forall f :: r.severity(a, f) == r.severity(b, f) {
      ConfidencePermutation(a, b);
      forall f ensures r.severity(a, f) == r.severity(b, f) { SeverityPermutation(a, b, Some(f)); }
    }
  }

  // ---------------------------------------------------------------- anchor

  /** `{signal.signal_id: signal ...}`: a repeated id keeps its last signal. */
  function BySignalId(available: seq<Signal>): SignalMap {
    if available == [] then map[]
    else BySignalId(available[..|available| - 1])[available[|available| - 1].signalId := available[|available| - 1]]
  }

  /** `_select_anchor`: the best signal of both incidents, if every one of them is at hand. */
  function SelectAnchor(canonical: Incident, incoming: Incident, available: seq<Signal>): (a: Option<Signal>) {
    var required := canonical.signalIds + incoming.signalIds;
    var byId := BySignalId(available);
    if required == {} || available == [] || !(required <= byId.Keys) then None
    else
      var cluster := Members(required, byId);
      if cluster == [] then None else Some(MinBy(cluster, Precedes))
  }

  function Within(available: seq<Signal>, ids: set<string>): (r: seq<Signal>)
    ensures forall s :: s in r <==> s in available && s.signalId in ids
  {
    if available == [] then []
    else
      var rest := Within(available[1..], ids);
      assert forall s :: s in available <==> s == available[0] || s in available[1..];
      if available[0].signalId in ids then [available[0]] + rest else rest
  }

  /** Exposure and policy incidents keep the asset that the anchor's own incident named. */
  function PromotedEntity(a: Signal, canonical: Incident, incoming: Incident): string {
    if a.family in ASSET_PRIMARY_FAMILIES then
      if a.signalId in incoming.signalIds then incoming.primaryEntity else canonical.primaryEntity
    else a.primaryEntity
  }

  function StoredPrimary(canonical: Incident): string {
    if canonical.metrics.primarySignalId != "" then canonical.metrics.primarySignalId
    else if canonical.signalIds != {} then LeastName(canonical.signalIds)
    else ""
  }

  // ---------------------------------------------------------------- the join

  function Earlier(a: int, b: int): int { if a <= b then a else b }
  function Later(a: int, b: int): int { if a >= b then a else b }

  /** The fields that need no score, with the identity taken from `anchor` when there is one. */
  function Joined(canonical: Incident, incoming: Incident, anchor: Option<Signal>, severity: Severity,
      confidence: real, facts: Option<Facts>, contextIds: set<string>, evidence: seq<Evidence>): Incident {
    var signalIds := canonical.signalIds + incoming.signalIds;
    var eventIds := canonical.eventIds + incoming.eventIds;
    var primary := if anchor.Some? then anchor.value.signalId else StoredPrimary(canonical);
    canonical.(
      incidentType := if anchor.Some? then anchor.value.signalType else canonical.incidentType,
      family := if anchor.Some? then anchor.value.family else canonical.family,
      title := if anchor.Some? then Title(anchor.value, map[]) else canonical.title,
      primaryEntity := if anchor.Some?
        then PromotedEntity(anchor.value, canonical, incoming) else canonical.primaryEntity,
      severity := severity,
      confidence := confidence,
      firstSeen := Earlier(canonical.firstSeen, incoming.firstSeen),
      lastSeen := Later(canonical.lastSeen, incoming.lastSeen),
      targets := canonical.targets + incoming.targets,
      signalIds := signalIds,
      eventIds := eventIds,
      contextIds := contextIds,
      evidence := evidence,
      metrics := canonical.metrics.(
        totalEvents := |eventIds|,
        correlatedSignals := |signalIds|,
        absorbedSignals := |signalIds - {primary}|,
        primarySignalId := primary,
        facts := if facts.Some? then facts else canonical.metrics.facts),
      techniques := canonical.techniques + incoming.techniques,
      absorbedIds := signalIds - {primary})
  }

  ghost function MergedBundle(canonical: Incident, incoming: Incident, available: seq<Signal>, events: EventMap,
      maxContext: nat, evidence: seq<Evidence>, r: Rater): Incident {
    var signalIds := canonical.signalIds + incoming.signalIds;
    var eventIds := canonical.eventIds + incoming.eventIds;
    var anchor := SelectAnchor(canonical, incoming, available);
    var cluster := Within(available, signalIds);
    var facts := if anchor.Some? && events.Keys == eventIds then Some(r.facts(events, anchor.value.family)) else None;
    Joined(canonical, incoming, anchor,
           if facts.Some? then r.severity(cluster, facts.value) else canonical.severity,
           if anchor.Some? then r.confidence(cluster) else canonical.confidence,
           facts,
           Least((canonical.contextIds + incoming.contextIds) - eventIds, maxContext),
           evidence)
  }

  function Distance(a: real, b: real): real { if a >= b then a - b else b - a }

  predicate Applies(change: Change, canonical: Incident, merged: Incident, promoted: bool) {
    match change
    case EventsAdded => |merged.eventIds| > |canonical.eventIds|
    case SignalsAdded => |merged.signalIds| > |canonical.signalIds|
    case TargetsAdded => |merged.targets| > |canonical.targets|
    case SeverityIncreased => SeverityRank(merged.severity) > SeverityRank(canonical.severity)
    case ConfidenceChanged => Distance(merged.confidence, canonical.confidence) > CONFIDENCE_TOLERANCE
    case IdentityPromoted => promoted
    case WindowExtended => merged.firstSeen < canonical.firstSeen || merged.lastSeen > canonical.lastSeen
  }

  /** What the caller is told has changed between the stored incident and the merged one. */
  function Changes(canonical: Incident, merged: Incident, promoted: bool): set<Change> {
    set change: Change | Applies(change, canonical, merged, promoted)
  }

  predicate Promotes(canonical: Incident, merged: Incident) {
    || merged.incidentType != canonical.incidentType
    || merged.family != canonical.family
    || merged.primaryEntity != canonical.primaryEntity
  }

  method MergeIncidentBundles(canonical: Incident, incoming: Incident, available: seq<Signal>, events: EventMap,
      maxContext: nat)
    returns (o: Outcome)
    ensures EvidenceKept(o.incident.evidence, canonical.evidence, incoming.evidence, o.incident.eventIds)
    ensures EvidenceFilled(o.incident.evidence, canonical.evidence, incoming.evidence, o.incident.eventIds)
    ensures o.incident == MergedBundle(canonical, incoming, available, events, maxContext, o.incident.evidence,
      StandardRater())
    ensures o.promoted <==> SelectAnchor(canonical, incoming, available).Some? && Promotes(canonical, o.incident)
    ensures o.changes == Changes(canonical, o.incident, o.promoted)
    ensures o.rescored <==> SelectAnchor(canonical, incoming, available).Some? && events.Keys == o.incident.eventIds
  {
    var signalIds := canonical.signalIds + incoming.signalIds;
    var eventIds := canonical.eventIds + incoming.eventIds;
    var contextIds := TakeLeast((canonical.contextIds + incoming.contextIds) - eventIds, maxContext);
    var evidence := MergeEvidence(canonical.evidence, incoming.evidence, eventIds);
    var anchor := SelectAnchor(canonical, incoming, available);
    var severity, confidence, facts := canonical.severity, canonical.confidence, None;
    if anchor.Some? {
      var cluster := Within(available, signalIds);
      if events.Keys == eventIds {
        var f := DeriveFacts(events, anchor.value.family);
        facts := Some(f);
        severity := IncidentSeverity(cluster, facts);
      }
      confidence := IncidentConfidence(cluster);
    }
    var merged := Joined(canonical, incoming, anchor, severity, confidence, facts, contextIds, evidence);
    var promoted := anchor.Some? && Promotes(canonical, merged);
    o := Outcome(merged, promoted, facts.Some?, Changes(canonical, merged, promoted));
  }

  // ---------------------------------------------------------------- evidence

  /** `e` is the earliest evidence of `side` that belongs to the incident. */
  ghost predicate EarliestValid(e: Evidence, side: seq<Evidence>, ids: set<string>) {
    && e in side && e.eventId in ids
    && forall x :: x in side && x.eventId in ids ==> !StrLess(x.eventId, e.eventId)
  }

  /** Bounded, owned, in event order without repeats, and with an item of each side that had any. */
  ghost predicate EvidenceKept(r: seq<Evidence>, canonical: seq<Evidence>, incoming: seq<Evidence>, ids: set<string>) {
    && |r| <= MAX_INCIDENT_EVIDENCE
    && Ascending(r, EvidenceBefore)
    && (forall e :: e in r ==> e.eventId in ids && (e in canonical || e in incoming))
    && ((exists x :: x in canonical && x.eventId in ids) ==> exists e :: e in r && EarliestValid(e, canonical, ids))
    && ((exists x :: x in incoming && x.eventId in ids) ==>
          exists e, x :: e in r && EarliestValid(x, incoming, ids) && e.eventId == x.eventId)
  }

  /** Some item of `r` is about the same event. */
  ghost predicate Represented(x: Evidence, r: seq<Evidence>) {
    exists i :: 0 <= i < |r| && r[i].eventId == x.eventId
  }

  ghost predicate IsValid(x: Evidence, canonical: seq<Evidence>, incoming: seq<Evidence>, ids: set<string>) {
    (x in canonical || x in incoming) && x.eventId in ids
  }

  /** The event is that of the earliest valid item of a side. */
  ghost predicate IsReserved(id: string, canonical: seq<Evidence>, incoming: seq<Evidence>, ids: set<string>) {
    exists e :: (EarliestValid(e, canonical, ids) || EarliestValid(e, incoming, ids)) && e.eventId == id
  }

  /** An event is left out only when there is no place left, and only for reserved or earlier events. */
  ghost predicate EvidenceFilled(r: seq<Evidence>, canonical: seq<Evidence>, incoming: seq<Evidence>,
      ids: set<string>) {
    forall x :: IsValid(x, canonical, incoming, ids) && !Represented(x, r) ==>
      && |r| == MAX_INCIDENT_EVIDENCE
      && forall e :: e in r ==> StrLess(e.eventId, x.eventId) || IsReserved(e.eventId, canonical, incoming, ids)
  }

  /** Selected from a sorted pool, one item per event, the selection is strictly in event order. */
  lemma {:induction false} KeepFirstStrict(pool: seq<Evidence>, ok: Evidence -> bool, seen: set<string>)
    requires Sorted(pool, EvidenceBefore)
    ensures Ascending(KeepFirst(pool, ok, EventOf, seen), EvidenceBefore)
  {
    if pool != [] {
      KeepFirstStrict(pool[1..], ok, seen);
      KeepFirstStrict(pool[1..], ok, seen + {EventOf(pool[0])});
      var rest := KeepFirst(pool[1..], ok, EventOf, seen + {EventOf(pool[0])});
      forall j | 0 <= j < |rest| ensures EvidenceBefore(pool[0], rest[j]) {
        var k :| 0 <= k < |pool| - 1 && pool[1..][k] == rest[j];
        assert !EvidenceBefore(pool[k + 1], pool[0]);
        assert EventOf(rest[j]) !in seen + {EventOf(pool[0])};
        StrLessTotal(pool[0].eventId, rest[j].eventId);
      }
    }
  }

  /** What a bounded selection leaves out comes after everything it took. */
  lemma {:induction false} CutOff(pool: seq<Evidence>, ok: Evidence -> bool, limit: nat, x: Evidence)
    requires Sorted(pool, EvidenceBefore) && x in pool && ok(x)
    requires !Represented(x, Bounded(KeepFirst(pool, ok, EventOf, {}), limit))
    ensures |Bounded(KeepFirst(pool, ok, EventOf, {}), limit)| == limit
    ensures forall e :: e in Bounded(KeepFirst(pool, ok, EventOf, {}), limit) ==> StrLess(e.eventId, x.eventId)
  {
    var all := KeepFirst(pool, ok, EventOf, {});
    var r := Bounded(all, limit);
    KeepFirstStrict(pool, ok, {});
    KeepFirstComplete(pool, ok, EventOf, {}, x);
    var i :| 0 <= i < |all| && EventOf(all[i]) == EventOf(x);
    assert forall k :: 0 <= k < |r| ==> r[k] == all[k];
    forall e | e in r ensures StrLess(e.eventId, x.eventId) {
      var j :| 0 <= j < |r| && r[j] == e;
      assert EvidenceBefore(all[j], all[i]);
    }
  }

  lemma {:induction false} KeepFirstHead(pool: seq<Evidence>, ok: Evidence -> bool, key: Evidence -> string)
    requires Sorted(pool, EvidenceBefore)
    requires KeepFirst(pool, ok, key, {}) != []
    ensures forall x :: x in pool && ok(x) ==> !EvidenceBefore(x, KeepFirst(pool, ok, key, {})[0])
  {
    if ok(pool[0]) {
      forall x | x in pool ensures !EvidenceBefore(x, pool[0]) {
        var i :| 0 <= i < |pool| && pool[i] == x;
        StrLessIrreflexive(pool[0].eventId);
      }
    } else {
      KeepFirstHead(pool[1..], ok, key);
    }
  }

  /** `r` is the valid evidence of a side, one item per event, strictly in event order, each event's first. */
  ghost predicate ValidSide(r: seq<Evidence>, side: seq<Evidence>, ids: set<string>) {
    && (forall e :: e in r ==> e in side && e.eventId in ids)
    && Ascending(r, EvidenceBefore)
    && (forall x :: x in side && x.eventId in ids ==> Represented(x, r))
    && (r != [] ==> EarliestValid(r[0], side, ids))
  }

  function ValidOf(side: seq<Evidence>, ids: set<string>): seq<Evidence> {
    KeepFirst(SortBy(side, EvidenceBefore), (e: Evidence) => e.eventId in ids, EventOf, {})
  }

  lemma {:induction false} ValidPool(side: seq<Evidence>)
    ensures Sorted(SortBy(side, EvidenceBefore), EvidenceBefore)
    ensures forall e :: e in SortBy(side, EvidenceBefore) <==> e in side
  {
    EvidenceBeforeIsWeak();
    SortBySorted(side, EvidenceBefore);
    SameMultisetSameElements(SortBy(side, EvidenceBefore), side);
    assert forall e :: e in SortBy(side, EvidenceBefore) <==> e in Elements(side);
  }

  lemma {:induction false} ValidOfIsRight(side: seq<Evidence>, ids: set<string>)
    ensures ValidSide(ValidOf(side, ids), side, ids)
  {
    ValidPool(side);
    SelectedIsRight(SortBy(side, EvidenceBefore), side, (e: Evidence) => e.eventId in ids, ids);
  }

  lemma {:induction false} SelectedIsRight(pool: seq<Evidence>, side: seq<Evidence>, ok: Evidence -> bool,
      ids: set<string>)
    requires Sorted(pool, EvidenceBefore) && (forall e :: e in pool <==> e in side)
    requires forall e :: ok(e) <==> e.eventId in ids
    ensures ValidSide(KeepFirst(pool, ok, EventOf, {}), side, ids)
  {
    var r := KeepFirst(pool, ok, EventOf, {});
    KeepFirstStrict(pool, ok, {});
    forall x | x in side && x.eventId in ids ensures Represented(x, r) {
      KeepFirstComplete(pool, ok, EventOf, {}, x);
    }
    if r != [] { KeepFirstHead(pool, ok, EventOf); }
  }

  /** `_valid_sorted_unique`. */
  method ValidSortedUnique(evidence: seq<Evidence>, ids: set<string>) returns (r: seq<Evidence>)
    ensures r == ValidOf(evidence, ids) && ValidSide(r, evidence, ids)
  {
    var pool := SortBy(evidence, EvidenceBefore);
    r := TakeFirst(pool, (e: Evidence) => e.eventId in ids, EventOf, |pool|);
    KeepFirstShort(pool, (e: Evidence) => e.eventId in ids, EventOf, {});
    ValidOfIsRight(evidence, ids);
  }

  lemma {:induction false} KeepFirstShort<T, K>(pool: seq<T>, ok: T -> bool, key: T -> K, seen: set<K>)
    ensures |KeepFirst(pool, ok, key, seen)| <= |pool|
  {
    if pool != [] {
      KeepFirstShort(pool[1..], ok, key, seen);
      KeepFirstShort(pool[1..], ok, key, seen + {key(pool[0])});
    }
  }

  /** The pooled items, one per event id; the incoming side wins a tie. */
  function Pooled(items: seq<Evidence>): (m: map<string, Evidence>)
    ensures forall k :: k in m ==> m[k] in items && m[k].eventId == k
  {
    if items == [] then map[] else Pooled(items[..|items| - 1])[items[|items| - 1].eventId := items[|items| - 1]]
  }

  function InEventOrder(m: map<string, Evidence>): (r: seq<Evidence>)
    ensures forall e :: e in r ==> exists k :: k in m && m[k] == e
  {
    var names := SortedIds(m.Keys);
    seq(|names|, i requires 0 <= i < |names| => assert names[i] in Elements(names); m[names[i]])
  }

  /** `_merge_evidence`: a place is reserved for the earliest item of each side before the rest is filled. */
  method MergeEvidence(canonical: seq<Evidence>, incoming: seq<Evidence>, ids: set<string>) returns (r: seq<Evidence>)
    ensures EvidenceKept(r, canonical, incoming, ids) && EvidenceFilled(r, canonical, incoming, ids)
  {
    var canonicalValid := ValidSortedUnique(canonical, ids);
    var incomingValid := ValidSortedUnique(incoming, ids);
    var selected := Reserved(canonicalValid, incomingValid);
    var fill := Fill(selected, canonicalValid + incomingValid);
    r := SortBy(selected + fill, EvidenceBefore);
    EventOrder(selected + fill);
    SidesKept(r, selected + fill, canonical, incoming, canonicalValid, incomingValid, ids);
    FilledUp(r, selected, fill, canonical, incoming, canonicalValid, incomingValid, ids);
  }

  lemma {:induction false} FilledUp(r: seq<Evidence>, selected: seq<Evidence>, fill: seq<Evidence>,
      canonical: seq<Evidence>, incoming: seq<Evidence>, canonicalValid: seq<Evidence>, incomingValid: seq<Evidence>,
      ids: set<string>)
    requires Elements(r) == Elements(selected + fill) && |r| == |selected + fill|
    requires selected == Reserved(canonicalValid, incomingValid)
    requires ValidSide(canonicalValid, canonical, ids) && ValidSide(incomingValid, incoming, ids)
    requires FillComplete(selected, fill, canonicalValid + incomingValid)
    ensures EvidenceFilled(r, canonical, incoming, ids)
  {
    forall x | IsValid(x, canonical, incoming, ids) && !Represented(x, r)
      ensures |r| == MAX_INCIDENT_EVIDENCE
      ensures forall e :: e in r ==> StrLess(e.eventId, x.eventId) || IsReserved(e.eventId, canonical, incoming, ids) {
      var y := OneOf(x, canonicalValid, incomingValid);
      NotIn(x, r, selected, fill);
      assert LeftOut(y, selected, fill);
      forall e | e in r ensures StrLess(e.eventId, x.eventId) || IsReserved(e.eventId, canonical, incoming, ids) {
        assert e in Elements(selected + fill);
      }
    }
  }

  lemma {:induction false} OneOf(x: Evidence, a: seq<Evidence>, b: seq<Evidence>) returns (y: Evidence)
    requires Represented(x, a) || Represented(x, b)
    ensures y in a + b && y.eventId == x.eventId
  {
    if Represented(x, a) {
      var i :| 0 <= i < |a| && a[i].eventId == x.eventId;
      y := a[i];
    } else {
      var i :| 0 <= i < |b| && b[i].eventId == x.eventId;
      y := b[i];
    }
  }

  lemma {:induction false} NotIn(x: Evidence, r: seq<Evidence>, selected: seq<Evidence>, fill: seq<Evidence>)
    requires Elements(r) == Elements(selected + fill) && !Represented(x, r)
    ensures !Represented(x, selected) && !Represented(x, fill)
  {
    forall e | e in selected + fill ensures e.eventId != x.eventId {
      assert e in Elements(r);
      var i :| 0 <= i < |r| && r[i] == e;
    }
    forall i | 0 <= i < |selected| ensures selected[i].eventId != x.eventId { assert selected[i] in selected + fill; }
    forall i | 0 <= i < |fill| ensures fill[i].eventId != x.eventId { assert fill[i] in selected + fill; }
  }

  ghost predicate LeftOut(x: Evidence, selected: seq<Evidence>, fill: seq<Evidence>) {
    !Represented(x, selected) && !Represented(x, fill)
  }

  /** What the filling leaves out found no place and comes after what was filled in. */
  ghost predicate FillComplete(selected: seq<Evidence>, fill: seq<Evidence>, items: seq<Evidence>) {
    forall x :: x in items && LeftOut(x, selected, fill) ==>
      |selected| + |fill| == MAX_INCIDENT_EVIDENCE && forall e :: e in fill ==> StrLess(e.eventId, x.eventId)
  }

  function Reserved(canonicalValid: seq<Evidence>, incomingValid: seq<Evidence>): (r: seq<Evidence>)
    ensures |r| <= 2
    ensures forall e :: e in r ==>
      (canonicalValid != [] && e == canonicalValid[0]) || (incomingValid != [] && e == incomingValid[0])
    ensures forall i, j :: 0 <= i < j < |r| ==> r[i].eventId != r[j].eventId
    ensures canonicalValid != [] ==> canonicalValid[0] in r
    ensures incomingValid != [] ==> exists e :: e in r && e.eventId == incomingValid[0].eventId
  {
    var first := if canonicalValid != [] then [canonicalValid[0]] else [];
    if incomingValid != [] && (first == [] || incomingValid[0].eventId != first[0].eventId) then
      var r := first + [incomingValid[0]];
      assert incomingValid[0] in r;
      r
    else
      assert incomingValid != [] ==> first[0] in first && first[0].eventId == incomingValid[0].eventId;
      first
  }

  lemma {:induction false} PooledHas(items: seq<Evidence>, x: Evidence)
    requires x in items
    ensures x.eventId in Pooled(items)
  {
    var n := |items| - 1;
    if x != items[n] {
      assert x in items[..n];
      PooledHas(items[..n], x);
    }
  }

  lemma {:induction false} PoolInOrder(m: map<string, Evidence>)
    requires forall k :: k in m ==> m[k].eventId == k
    ensures Sorted(InEventOrder(m), EvidenceBefore)
    ensures forall k :: k in m ==> m[k] in InEventOrder(m)
  {
    var names, pool := SortedIds(m.Keys), InEventOrder(m);
    SortedIdsAscending(m.Keys);
    forall i, j | 0 <= i < j < |pool| ensures !EvidenceBefore(pool[j], pool[i]) {
      assert names[i] in Elements(names) && names[j] in Elements(names) && StrLess(names[i], names[j]);
      StrLessIsStrictOrder();
    }
    forall k | k in m ensures m[k] in pool {
      assert k in Elements(names);
      var i :| 0 <= i < |names| && names[i] == k;
      assert pool[i] == m[k];
    }
  }

  lemma {:induction false} FillIsComplete(selected: seq<Evidence>, fill: seq<Evidence>, items: seq<Evidence>,
      taken: set<string>)
    requires |selected| <= 2 && taken == Elements(Map(EventOf, selected))
    requires var ok := (e: Evidence) => e.eventId !in taken;
      fill == Bounded(KeepFirst(InEventOrder(Pooled(items)), ok, EventOf, {}), MAX_INCIDENT_EVIDENCE - |selected|)
    ensures FillComplete(selected, fill, items)
  {
    var pool, m := InEventOrder(Pooled(items)), Pooled(items);
    PoolInOrder(m);
    forall x | x in items && LeftOut(x, selected, fill)
      ensures |selected| + |fill| == MAX_INCIDENT_EVIDENCE && forall e :: e in fill ==> StrLess(e.eventId, x.eventId) {
      PooledHas(items, x);
      var y := m[x.eventId];
      NotTaken(x, selected, taken);
      CutOff(pool, (e: Evidence) => e.eventId !in taken, MAX_INCIDENT_EVIDENCE - |selected|, y);
    }
  }

  lemma {:induction false} NotTaken(x: Evidence, selected: seq<Evidence>, taken: set<string>)
    requires !Represented(x, selected) && taken == Elements(Map(EventOf, selected))
    ensures x.eventId !in taken
  {
    forall i | 0 <= i < |selected| ensures Map(EventOf, selected)[i] != x.eventId {
      assert selected[i].eventId != x.eventId;
    }
  }

  method Fill(selected: seq<Evidence>, items: seq<Evidence>) returns (fill: seq<Evidence>)
    requires |selected| <= 2
    requires forall i, j :: 0 <= i < j < |selected| ==> selected[i].eventId != selected[j].eventId
    ensures |selected| + |fill| <= MAX_INCIDENT_EVIDENCE
    ensures forall e :: e in fill ==> e in items
    ensures forall i, j :: 0 <= i < j < |selected + fill| ==>
      (selected + fill)[i].eventId != (selected + fill)[j].eventId
    ensures FillComplete(selected, fill, items)
  {
    var taken := Elements(Map(EventOf, selected));
    var pool := InEventOrder(Pooled(items));
    fill := TakeFirst(pool, (e: Evidence) => e.eventId !in taken, EventOf, MAX_INCIDENT_EVIDENCE - |selected|);
    FillIsComplete(selected, fill, items, taken);
    FillIsNew(selected, fill, items, taken);
    AllDistinct(selected, fill, taken);
  }

  lemma {:induction false} FillIsNew(selected: seq<Evidence>, fill: seq<Evidence>, items: seq<Evidence>,
      taken: set<string>)
    requires |selected| <= 2
    requires var ok := (e: Evidence) => e.eventId !in taken;
      fill == Bounded(KeepFirst(InEventOrder(Pooled(items)), ok, EventOf, {}), MAX_INCIDENT_EVIDENCE - |selected|)
    ensures forall e :: e in fill ==> e in items && e.eventId !in taken
    ensures forall i, j :: 0 <= i < j < |fill| ==> EventOf(fill[i]) != EventOf(fill[j])
  {
    var pool, ok := InEventOrder(Pooled(items)), (e: Evidence) => e.eventId !in taken;
    forall e | e in fill ensures e in items && e.eventId !in taken {
      var i :| 0 <= i < |fill| && fill[i] == e;
      assert fill[i] in pool && ok(fill[i]);
    }
  }

  lemma {:induction false} SidesKept(r: seq<Evidence>, all: seq<Evidence>, canonical: seq<Evidence>,
      incoming: seq<Evidence>, canonicalValid: seq<Evidence>, incomingValid: seq<Evidence>, ids: set<string>)
    requires |r| <= MAX_INCIDENT_EVIDENCE && Ascending(r, EvidenceBefore) && Elements(r) == Elements(all)
    requires ValidSide(canonicalValid, canonical, ids) && ValidSide(incomingValid, incoming, ids)
    requires Reserved(canonicalValid, incomingValid) <= all
    requires forall e :: e in all ==> e in canonicalValid || e in incomingValid
    ensures EvidenceKept(r, canonical, incoming, ids)
  {
    var reserved := Reserved(canonicalValid, incomingValid);
    forall e | e in reserved ensures e in Elements(r) {
      var i :| 0 <= i < |reserved| && reserved[i] == e;
      assert all[i] == e && e in Elements(all);
    }
    forall e | e in r ensures e in all { assert e in Elements(r); }
    if canonicalValid != [] { assert canonicalValid[0] in r; }
    if incomingValid != [] {
      var e :| e in reserved && e.eventId == incomingValid[0].eventId;
      assert e in r;
    }
  }

  lemma {:induction false} AllDistinct(selected: seq<Evidence>, fill: seq<Evidence>, taken: set<string>)
    requires taken == Elements(Map(EventOf, selected))
    requires forall i, j :: 0 <= i < j < |selected| ==> selected[i].eventId != selected[j].eventId
    requires forall i, j :: 0 <= i < j < |fill| ==> EventOf(fill[i]) != EventOf(fill[j])
    requires forall e :: e in fill ==> e.eventId !in taken
    ensures forall i, j :: 0 <= i < j < |selected + fill| ==>
      (selected + fill)[i].eventId != (selected + fill)[j].eventId
  {
    forall i | 0 <= i < |selected| ensures selected[i].eventId in taken { assert Map(EventOf, selected)[i] in taken; }
  }

  lemma {:induction false} EventOrder(s: seq<Evidence>)
    requires forall i, j :: 0 <= i < j < |s| ==> s[i].eventId != s[j].eventId
    ensures Ascending(SortBy(s, EvidenceBefore), EvidenceBefore)
    ensures Elements(SortBy(s, EvidenceBefore)) == Elements(s)
  {
    StrLessIsStrictOrder();
    forall a, b | a in Elements(s) && b in Elements(s) && a != b ensures EvidenceBefore(a, b) || EvidenceBefore(b, a) {
      var i, j :| 0 <= i < |s| && 0 <= j < |s| && s[i] == a && s[j] == b;
      assert i < j || j < i;
    }
    SortByAscending(s, EvidenceBefore);
  }

  // ---------------------------------------------------------------- a merge, field by field

  lemma {:induction false} BySignalIdKeyed(available: seq<Signal>)
    ensures forall k :: k in BySignalId(available) ==> BySignalId(available)[k].signalId == k
  {
    if available != [] { BySignalIdKeyed(available[..|available| - 1]); }
  }

  lemma {:induction false} BySignalIdHolds(available: seq<Signal>)
    ensures forall k :: k in BySignalId(available) ==> BySignalId(available)[k] in available
    ensures forall x :: x in available ==> x.signalId in BySignalId(available)
  {
    if available != [] {
      var n := |available| - 1;
      assert available == available[..n] + [available[n]];
      BySignalIdHolds(available[..n]);
      assert forall x :: x in available <==> x in available[..n] || x == available[n];
    }
  }

  ghost predicate Missing(id: string, available: seq<Signal>) { forall x :: x in available ==> x.signalId != id }

  /** Who leads the merged incident: no one if a signal of either is missing, else the one of their signals that
      precedes all others. */
  lemma {:induction false} AnchorExactly(canonical: Incident, incoming: Incident, available: seq<Signal>)
    requires DistinctIds(Elements(available))
    ensures var ids, a := canonical.signalIds + incoming.signalIds, SelectAnchor(canonical, incoming, available);
      && (a.None? <==> ids == {} || exists id :: id in ids && Missing(id, available))
      && (a.Some? ==> a.value in available && a.value.signalId in ids)
      && (a.Some? ==> forall x :: x in available && x.signalId in ids && x != a.value ==> Precedes(a.value, x))
  {
    var ids, byId := canonical.signalIds + incoming.signalIds, BySignalId(available);
    BySignalIdKeyed(available);
    BySignalIdHolds(available);
    MembersAre(ids, byId);
    forall id | id in ids ensures Missing(id, available) <==> id !in byId {
      if id in byId { assert byId[id] in available; }
    }
    var cluster := Members(ids, byId);
    if ids != {} && ids <= byId.Keys {
      var id :| id in ids;
      assert id in ids * byId.Keys;
      BestOfCluster(cluster, available);
      forall x | x in available && x.signalId in ids ensures x in cluster {
        assert byId[x.signalId] in Elements(available) && x in Elements(available) && byId[x.signalId] == x;
      }
    }
  }

  lemma {:induction false} BestOfCluster(cluster: seq<Signal>, available: seq<Signal>)
    requires cluster != [] && DistinctIds(Elements(available)) && forall x :: x in cluster ==> x in available
    ensures var a := MinBy(cluster, Precedes); a in cluster && forall x :: x in cluster && x != a ==> Precedes(a, x)
  {
    forall x | x in Elements(cluster) ensures x in Elements(available) {}
    PrecedesIsTotal(Elements(cluster));
    MinByLeast(cluster, Precedes);
  }

  /** Whom the merged incident is about, once an anchor leads it. */
  predicate LedBy(m: Incident, a: Signal, canonical: Incident, incoming: Incident) {
    && m.metrics.primarySignalId == a.signalId && m.incidentType == a.signalType && m.family == a.family
    && m.title == Title(a, map[])
    && m.primaryEntity == if a.family !in {"firewall_exposure", "firewall_policy"} then a.primaryEntity
                          else if a.signalId in incoming.signalIds then incoming.primaryEntity
                          else canonical.primaryEntity
  }

  /** Without an anchor it stays whom it was about, with the scores it had. */
  predicate LedAsBefore(m: Incident, canonical: Incident) {
    && m.incidentType == canonical.incidentType && m.family == canonical.family && m.title == canonical.title
    && m.primaryEntity == canonical.primaryEntity && m.severity == canonical.severity
    && m.confidence == canonical.confidence && m.metrics.facts == canonical.metrics.facts
    && (canonical.metrics.primarySignalId != "" ==> m.metrics.primarySignalId == canonical.metrics.primarySignalId)
    && (canonical.metrics.primarySignalId == "" ==>
          if canonical.signalIds == {} then m.metrics.primarySignalId == ""
          else IsLeastName(m.metrics.primarySignalId, canonical.signalIds))
  }

  /** What the merged incident keeps of the stored one, and what it counts anew. */
  predicate CountedAnew(m: Incident, canonical: Incident) {
    && m.incidentId == canonical.incidentId && m.mergeKey == canonical.mergeKey
    && m.absorbedIds == m.signalIds - {m.metrics.primarySignalId}
    && m.metrics.totalEvents == |m.eventIds| && m.metrics.correlatedSignals == |m.signalIds|
    && m.metrics.absorbedSignals == |m.absorbedIds|
    && m.metrics.distinctTargets == canonical.metrics.distinctTargets
    && m.metrics.overlapMerges == canonical.metrics.overlapMerges
  }

  /** Scores of a led incident: confidence always anew, severity and facts when every event was found. */
  ghost predicate ScoredFor(m: Incident, a: Signal, canonical: Incident, cluster: seq<Signal>, events: EventMap) {
    && m.confidence == IncidentConfidence(cluster)
    && if events.Keys == m.eventIds then
         m.metrics.facts == Some(FactsOf(events, a.family)) && m.severity == IncidentSeverity(cluster, m.metrics.facts)
       else m.metrics.facts == canonical.metrics.facts && m.severity == canonical.severity
  }

  /** What the merged incident holds and counts, and its context, whoever leads it. */
  lemma {:induction false} MergeContents(canonical: Incident, incoming: Incident, available: seq<Signal>,
      events: EventMap, maxContext: nat, evidence: seq<Evidence>)
    ensures var m := MergedBundle(canonical, incoming, available, events, maxContext, evidence, StandardRater());
      && HoldsBoth(m, canonical, incoming) && CountedAnew(m, canonical)
      && ContextOfBoth(m, canonical, incoming, maxContext)
  {
    var all := (canonical.contextIds + incoming.contextIds) - (canonical.eventIds + incoming.eventIds);
    assert IsLeast(Least(all, maxContext), all, maxContext);
    ContextIsLeast(Least(all, maxContext), all, maxContext);
  }

  /** Who leads the merged incident, and its scores. */
  lemma {:induction false} MergeIdentity(canonical: Incident, incoming: Incident, available: seq<Signal>,
      events: EventMap, maxContext: nat, evidence: seq<Evidence>)
    ensures var m := MergedBundle(canonical, incoming, available, events, maxContext, evidence, StandardRater());
      var a := SelectAnchor(canonical, incoming, available);
      if a.None? then LedAsBefore(m, canonical)
      else
        && LedBy(m, a.value, canonical, incoming)
        && ScoredFor(m, a.value, canonical, Within(available, m.signalIds), events)
  {
    if SelectAnchor(canonical, incoming, available).None? {
      KeepsIdentity(canonical, incoming, available, events, maxContext, evidence);
    } else {
      TakesIdentity(canonical, incoming, available, events, maxContext, evidence);
    }
  }

  lemma {:induction false} KeepsIdentity(canonical: Incident, incoming: Incident, available: seq<Signal>,
      events: EventMap, maxContext: nat, evidence: seq<Evidence>)
    requires SelectAnchor(canonical, incoming, available).None?
    ensures LedAsBefore(MergedBundle(canonical, incoming, available, events, maxContext, evidence, StandardRater()),
                        canonical)
  {
    if canonical.signalIds != {} { assert IsLeastName(LeastName(canonical.signalIds), canonical.signalIds); }
  }

  lemma {:induction false} TakesIdentity(canonical: Incident, incoming: Incident, available: seq<Signal>,
      events: EventMap, maxContext: nat, evidence: seq<Evidence>)
    requires SelectAnchor(canonical, incoming, available).Some?
    ensures var m := MergedBundle(canonical, incoming, available, events, maxContext, evidence, StandardRater());
      var a := SelectAnchor(canonical, incoming, available).value;
      LedBy(m, a, canonical, incoming) && ScoredFor(m, a, canonical, Within(available, m.signalIds), events)
  {}

  ghost predicate Adds(more: set<string>, to: set<string>) { exists x :: x in more && x !in to }

  lemma {:induction false} AddsExactly(more: set<string>, to: set<string>)
    ensures |to + more| > |to| <==> Adds(more, to)
  {
    assert to + more == to + (more - to);
    if x :| x in more && x !in to { assert x in more - to; }
    if more - to != {} { var x := Member(more - to); assert x in more && x !in to; }
  }

  /** What is reported as changed: new events, signals and targets, a higher severity, a confidence that moved
      by more than the tolerance, another identity, a wider window. */
  lemma {:induction false} ChangesExactly(canonical: Incident, incoming: Incident, m: Incident, promoted: bool)
    requires HoldsBoth(m, canonical, incoming)
    ensures var changes := Changes(canonical, m, promoted);
      && (EventsAdded in changes <==> Adds(incoming.eventIds, canonical.eventIds))
      && (SignalsAdded in changes <==> Adds(incoming.signalIds, canonical.signalIds))
      && (TargetsAdded in changes <==> Adds(incoming.targets, canonical.targets))
      && (SeverityIncreased in changes <==> MoreSevere(m.severity, canonical.severity))
      && (ConfidenceChanged in changes <==>
            m.confidence > canonical.confidence + 0.000000001 || m.confidence < canonical.confidence - 0.000000001)
      && (IdentityPromoted in changes <==> promoted)
      && (WindowExtended in changes <==>
            incoming.firstSeen < canonical.firstSeen || incoming.lastSeen > canonical.lastSeen)
  {
    assert m.eventIds == canonical.eventIds + incoming.eventIds;
    assert m.signalIds == canonical.signalIds + incoming.signalIds;
    assert m.targets == canonical.targets + incoming.targets;
    AddsExactly(incoming.eventIds, canonical.eventIds);
    AddsExactly(incoming.signalIds, canonical.signalIds);
    AddsExactly(incoming.targets, canonical.targets);
    SeveritiesCompare(m.severity, canonical.severity);
  }

  /** The identity is promoted exactly when the anchor brings another type, family or entity. */
  lemma {:induction false} PromotesExactly(canonical: Incident, incoming: Incident, m: Incident, a: Signal)
    requires LedBy(m, a, canonical, incoming)
    ensures Promotes(canonical, m) <==>
      || a.signalType != canonical.incidentType || a.family != canonical.family
      || (if a.family !in {"firewall_exposure", "firewall_policy"} then a.primaryEntity != canonical.primaryEntity
          else a.signalId in incoming.signalIds && incoming.primaryEntity != canonical.primaryEntity)
  {}
}
