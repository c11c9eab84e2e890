/** What a cluster of signals is turned into. */
module Incidents {
  import opened Ordering
  import opened Signals
  import opened Scoring
  import Clustering

  const MAX_INCIDENT_EVIDENCE: nat := 10
  const ASSET_PRIMARY_FAMILIES: set<string> := {"firewall_exposure", "firewall_policy"}

  /** What an incident identifier is a digest of. */
  datatype Identity = Identity(
    family: string, signalType: string, primaryEntity: string,
    ruleId: string, signalId: string, bucket: int, minute: int)

  /** `related` is the bidirectional context match; `identify` the digest of an identity. */
  datatype Settings = Settings(
    params: Params, maxContext: nat, related: (Event, Event) -> bool, identify: Identity -> string)

  datatype Metrics = Metrics(
    totalEvents: nat, distinctTargets: nat, correlatedSignals: nat, absorbedSignals: nat,
    primarySignalId: string, overlapMerges: nat, facts: Option<Facts>)

  /** Identifier lists are kept sorted and duplicate-free by the program, so they are sets here. */
  datatype Incident = Incident(
    incidentId: string,
    incidentType: string,
    family: string,
    title: string,
    severity: Severity,
    confidence: real,
    firstSeen: int,
    lastSeen: int,
    primaryEntity: string,
    targets: set<string>,
    signalIds: set<string>,
    eventIds: set<string>,
    contextIds: set<string>,
    evidence: seq<Evidence>,
    metrics: Metrics,
    techniques: set<string>,
    mergeKey: (string, string, int),
    absorbedIds: set<string>)

  /** What every incident keeps, although copies skip the model's validators. */
  ghost predicate WellFormed(b: Incident, maxContext: nat) {
    && b.eventIds !! b.contextIds
    && |b.contextIds| <= maxContext
    && |b.evidence| <= MAX_INCIDENT_EVIDENCE
    && (forall i :: 0 <= i < |b.evidence| ==> b.evidence[i].eventId in b.eventIds)
    && (forall i, j :: 0 <= i < j < |b.evidence| ==> b.evidence[i] != b.evidence[j])
    && b.firstSeen <= b.lastSeen
    && b.metrics.primarySignalId in b.signalIds
    && b.absorbedIds == b.signalIds - {b.metrics.primarySignalId}
    && b.metrics.totalEvents == |b.eventIds|
    && b.metrics.correlatedSignals == |b.signalIds|
    && b.metrics.absorbedSignals == |b.absorbedIds|
  }

  // ---------------------------------------------------------------- bounded, duplicate-free selection

  /** The acceptable items of `pool` in order, each key once, skipping keys already seen. */
  function KeepFirst<T, K(==)>(pool: seq<T>, ok: T -> bool, key: T -> K, seen: set<K>): (r: seq<T>)
    ensures forall i :: 0 <= i < |r| ==> r[i] in pool && ok(r[i]) && key(r[i]) !in seen
    ensures forall i, j :: 0 <= i < j < |r| ==> key(r[i]) != key(r[j])
  {
    if pool == [] then []
    else if ok(pool[0]) && key(pool[0]) !in seen then
      [pool[0]] + KeepFirst(pool[1..], ok, key, seen + {key(pool[0])})
    else KeepFirst(pool[1..], ok, key, seen)
  }

  function Bounded<T>(s: seq<T>, limit: nat): (r: seq<T>)
    ensures |r| <= limit && r <= s
    ensures |s| <= limit ==> r == s
  {
    if |s| <= limit then s else s[..limit]
  }

  /** Nothing acceptable is left out except a repeated key. */
  lemma {:induction false} KeepFirstComplete<T, K>(pool: seq<T>, ok: T -> bool, key: T -> K, seen: set<K>, x: T)
    requires x in pool && ok(x) && key(x) !in seen
    ensures exists i :: 0 <= i < |KeepFirst(pool, ok, key, seen)| && key(KeepFirst(pool, ok, key, seen)[i]) == key(x)
  {
    var r := KeepFirst(pool, ok, key, seen);
    if ok(pool[0]) && key(pool[0]) !in seen {
      if key(pool[0]) == key(x) {
        assert key(r[0]) == key(x);
      } else {
        KeepFirstComplete(pool[1..], ok, key, seen + {key(pool[0])}, x);
        var i :| 0 <= i < |r| - 1 && key(r[1..][i]) == key(x);
        assert key(r[i + 1]) == key(x);
      }
    } else {
      assert x in pool[1..];
      KeepFirstComplete(pool[1..], ok, key, seen, x);
    }
  }

  /** `x` stands in the pool at `p` or before. */
  ghost predicate UpTo<T>(x: T, pool: seq<T>, p: nat) { exists q :: 0 <= q <= p && q < |pool| && pool[q] == x }

  /** An acceptable item is represented by one no later than itself, and so is all that is kept before it. */
  lemma {:induction false} KeepFirstInOrder<T, K>(pool: seq<T>, ok: T -> bool, key: T -> K, seen: set<K>, p: nat)
    returns (k: nat)
    requires p < |pool| && ok(pool[p]) && key(pool[p]) !in seen
    ensures var r := KeepFirst(pool, ok, key, seen);
      k < |r| && key(r[k]) == key(pool[p]) && forall l :: 0 <= l <= k ==> UpTo(r[l], pool, p)
  {
    var r := KeepFirst(pool, ok, key, seen);
    var rest := pool[1..];
    if ok(pool[0]) && key(pool[0]) !in seen {
      assert UpTo(r[0], pool, p);
      if key(pool[0]) == key(pool[p]) {
        k := 0;
      } else {
        k := KeepFirstInOrder(rest, ok, key, seen + {key(pool[0])}, p - 1);
        k := k + 1;
        forall l | 0 < l <= k ensures UpTo(r[l], pool, p) {
          assert UpTo(r[1..][l - 1], rest, p - 1);
          ShiftUpTo(r[l], pool, p);
        }
      }
    } else {
      k := KeepFirstInOrder(rest, ok, key, seen, p - 1);
      forall l | 0 <= l <= k ensures UpTo(r[l], pool, p) { ShiftUpTo(r[l], pool, p); }
    }
  }

  lemma {:induction false} ShiftUpTo<T>(x: T, pool: seq<T>, p: nat)
    requires 0 < p < |pool| && UpTo(x, pool[1..], p - 1)
    ensures UpTo(x, pool, p)
  {
    var q :| 0 <= q <= p - 1 && q < |pool[1..]| && pool[1..][q] == x;
    assert pool[q + 1] == x;
  }

  /** An acceptable item is left out only for an item no later with its key, or because items no later fill
      the list. */
  lemma {:induction false} TakenInOrder<T, K>(pool: seq<T>, ok: T -> bool, key: T -> K, limit: nat, p: nat)
    requires p < |pool| && ok(pool[p])
    ensures var r := Bounded(KeepFirst(pool, ok, key, {}), limit);
      || (exists k :: 0 <= k < |r| && key(r[k]) == key(pool[p]) && UpTo(r[k], pool, p))
      || (|r| == limit && forall k :: 0 <= k < |r| ==> UpTo(r[k], pool, p))
  {
    var all := KeepFirst(pool, ok, key, {});
    var k := KeepFirstInOrder(pool, ok, key, {}, p);
    var r := Bounded(all, limit);
    if k < |r| { assert r[k] == all[k]; } else { assert forall l :: 0 <= l < |r| ==> r[l] == all[l]; }
  }

  /** The loop shared by evidence collection and context selection: a list and a seen-set grow
      until the bound is reached. */
  method TakeFirst<T, K(==)>(pool: seq<T>, ok: T -> bool, key: T -> K, limit: nat) returns (taken: seq<T>)
    ensures taken == Bounded(KeepFirst(pool, ok, key, {}), limit)
  {
    taken := [];
    var seen: set<K> := {};
    var i := 0;
    while i < |pool| && |taken| < limit
      invariant i <= |pool| && |taken| <= limit
      invariant KeepFirst(pool, ok, key, {}) == taken + KeepFirst(pool[i..], ok, key, seen)
      decreases |pool| - i
    {
      var item := pool[i];
      assert pool[i..][1..] == pool[i + 1..];
      if ok(item) && key(item) !in seen {
        assert taken + KeepFirst(pool[i..], ok, key, seen) ==
               (taken + [item]) + KeepFirst(pool[i + 1..], ok, key, seen + {key(item)});
        taken := taken + [item];
        seen := seen + {key(item)};
      }
      i := i + 1;
    }
    if i == |pool| {
      assert taken + KeepFirst(pool[i..], ok, key, seen) == taken;
    }
  }

  // ---------------------------------------------------------------- parts of an incident

  function AllEvents(c: seq<Signal>): set<string> { set s, e | s in c && e in s.eventIds :: e }

  function AllTechniques(c: seq<Signal>): set<string> { set s, t | s in c && t in s.techniques :: t }

  function AllSignalIds(c: seq<Signal>): set<string> { set s | s in c :: s.signalId }

  /** `min(signal.first_seen ...)` and `max(signal.last_seen ...)`. */
  function Window(c: seq<Signal>): (w: (int, int))
    requires c != []
    ensures forall s :: s in c ==> w.0 <= s.firstSeen && s.lastSeen <= w.1
    ensures exists s :: s in c && s.firstSeen == w.0
    ensures exists s :: s in c && s.lastSeen == w.1
  {
    if |c| == 1 then (c[0].firstSeen, c[0].lastSeen)
    else
      var r := Window(c[1..]);
      assert forall s :: s in c <==> s == c[0] || s in c[1..];
      assert c[0] in c;
      (if c[0].firstSeen < r.0 then c[0].firstSeen else r.0, if c[0].lastSeen > r.1 then c[0].lastSeen else r.1)
  }

  function WholeSeconds(t: int): int { if t >= 0 then t / MICROS else -((-t) / MICROS) }

  function SourceIps(ids: set<string>, lookup: EventMap): set<string> {
    set e | e in ids && e in lookup && lookup[e].srcIp != "" :: lookup[e].srcIp
  }

  function Targeted(ids: set<string>, lookup: EventMap): set<string> {
    set e | e in ids && e in lookup && lookup[e].destination != "" :: lookup[e].destination
  }

  /** `incident_title_source`. */
  function TitleSource(s: Signal, lookup: EventMap): string {
    var ips := SourceIps(s.eventIds, lookup);
    if ips != {} then LeastName(ips)
    else if s.metricSources != {} then LeastName(s.metricSources)
    else s.primaryEntity
  }

  function Title(s: Signal, lookup: EventMap): string {
    "Detected " + s.ruleName + " from " + TitleSource(s, lookup)
  }

  /** `incident_primary_entity`: exposure and policy incidents belong to the destination asset. */
  function PrimaryEntity(s: Signal, lookup: EventMap): string {
    if s.family !in ASSET_PRIMARY_FAMILIES then s.primaryEntity
    else
      var destinations := Targeted(s.eventIds, lookup);
      if destinations != {} then LeastName(destinations) else s.primaryEntity
  }

  /** Everything that identifies an incident comes from its anchor. */
  function IdentityOf(anchor: Signal, lookup: EventMap, settings: Settings): Identity
    requires settings.params.windowSeconds > 0
  {
    Identity(anchor.family, anchor.signalType, PrimaryEntity(anchor, lookup), anchor.ruleId, anchor.signalId,
             WholeSeconds(anchor.firstSeen) / settings.params.windowSeconds, anchor.firstSeen / (60 * MICROS))
  }

  predicate Sent(s: Signal, lookup: EventMap, ip: string) {
    ip != "" && exists e :: e in s.eventIds && e in lookup && lookup[e].srcIp == ip
  }

  predicate Received(s: Signal, lookup: EventMap, ip: string) {
    ip != "" && exists e :: e in s.eventIds && e in lookup && lookup[e].destination == ip
  }

  /** Whom the title names: the smallest source address of the anchor's events, else the smallest one it
      measured, else its primary entity. */
  lemma {:induction false} TitleNames(s: Signal, lookup: EventMap)
    ensures var t := TitleSource(s, lookup);
      if exists ip :: Sent(s, lookup, ip) then
        Sent(s, lookup, t) && forall ip :: Sent(s, lookup, ip) ==> !StrLess(ip, t)
      else if exists ip :: ip in s.metricSources then
        t in s.metricSources && forall ip :: ip in s.metricSources ==> !StrLess(ip, t)
      else t == s.primaryEntity
  {
    var ips := SourceIps(s.eventIds, lookup);
    forall ip ensures ip in ips <==> Sent(s, lookup, ip) {}
    StrLessIsStrictOrder();
    if ips != {} { assert IsLeastName(LeastName(ips), ips); }
    else if s.metricSources != {} { assert IsLeastName(LeastName(s.metricSources), s.metricSources); }
  }

  /** Whom an incident is about: exposure and policy incidents the smallest destination of the anchor's
      events, all others the anchor's own entity. */
  lemma {:induction false} PrimaryIs(s: Signal, lookup: EventMap)
    ensures var t := PrimaryEntity(s, lookup);
      if s.family in {"firewall_exposure", "firewall_policy"} && exists ip :: Received(s, lookup, ip) then
        Received(s, lookup, t) && forall ip :: Received(s, lookup, ip) ==> !StrLess(ip, t)
      else t == s.primaryEntity
  {
    var ips := Targeted(s.eventIds, lookup);
    forall ip ensures ip in ips <==> Received(s, lookup, ip) {}
    StrLessIsStrictOrder();
    if ips != {} { assert IsLeastName(LeastName(ips), ips); }
  }

  /** The bucket of the merge key holds the anchor's first whole second, the minute of the identity its first
      sighting. */
  lemma {:induction false} BucketHolds(anchor: Signal, lookup: EventMap, settings: Settings)
    requires settings.params.windowSeconds > 0
    ensures var id, w := IdentityOf(anchor, lookup, settings), settings.params.windowSeconds;
      var seconds := WholeSeconds(anchor.firstSeen);
      && id.bucket * w <= seconds < (id.bucket + 1) * w
      && -1_000_000 < anchor.firstSeen - seconds * 1_000_000 < 1_000_000
      && (anchor.firstSeen >= 0 ==> seconds * 1_000_000 <= anchor.firstSeen)
      && (anchor.firstSeen < 0 ==> seconds * 1_000_000 >= anchor.firstSeen)
      && id.minute * 60_000_000 <= anchor.firstSeen < (id.minute + 1) * 60_000_000
  {}

  /** An absorbed signal has no say in who an incident is: without it, every incident keeps its identity. */
  lemma {:induction false} AbsorbedKeepsIdentities(signals: set<Signal>, c: seq<Clustering.Cluster<Signal>>,
      d: seq<Clustering.Cluster<Signal>>, x: Signal, i: nat, lookup: EventMap, settings: Settings)
    requires settings.params.windowSeconds > 0
    requires Clustering.Canonical(signals, c, CorrelationRules(settings.params))
    requires Clustering.Canonical(signals - {x}, d, CorrelationRules(settings.params))
    requires i < |c| && x in c[i] && x != c[i][0]
    ensures |d| == |c| && d == c[i := Clustering.Removed(c[i], x)]
    ensures forall k :: 0 <= k < |c| ==> IdentityOf(d[k][0], lookup, settings) == IdentityOf(c[k][0], lookup, settings)
  {
    PrecedesIsStrict();
    Clustering.AbsorbedIsIrrelevant(signals, c, d, CorrelationRules(settings.params), x, i);
    SameAnchors(c, d);
  }

  lemma {:induction false} SameAnchors(c: seq<Clustering.Cluster<Signal>>, d: seq<Clustering.Cluster<Signal>>)
    requires Clustering.NonEmpty(c) && Clustering.NonEmpty(d) && Clustering.Anchors(c) == Clustering.Anchors(d)
    ensures |c| == |d| && forall k :: 0 <= k < |c| ==> c[k][0] == d[k][0]
  {
    assert |c| == |Clustering.Anchors(c)| == |d|;
    forall k | 0 <= k < |c| ensures c[k][0] == d[k][0] {
      assert Clustering.Anchors(c)[k] == Clustering.Anchors(d)[k];
    }
  }

  function RestrictTo(lookup: EventMap, ids: set<string>): EventMap {
    map e | e in ids && e in lookup :: lookup[e]
  }

  function EvidenceBefore(a: Evidence, b: Evidence): bool { StrLess(a.eventId, b.eventId) }

  /** Evidence of the anchor first, then of the other members in order, each by event id. */
  function EvidencePool(c: seq<Signal>): (r: seq<Evidence>) {
    if c == [] then [] else SortBy(c[0].evidence, EvidenceBefore) + EvidencePool(c[1..])
  }

  /** A context event in the extended window, related to an event of the incident. */
  predicate ContextOk(e: Event, ids: set<string>, lookup: EventMap, first: int, last: int, settings: Settings) {
    && e.eventId !in ids
    && e.timestamp.Some?
    && first - settings.params.windowSeconds * MICROS <= e.timestamp.value <= last
      + settings.params.windowSeconds * MICROS
    && exists r :: r in ids && r in lookup && settings.related(lookup[r], e)
  }

  function IdOfEvent(e: Event): string { e.eventId }

  function EventOf(e: Evidence): string { e.eventId }

  /** The first related context events of the extended window, in time order, up to the bound. */
  function ChosenContext(ids: set<string>, lookup: EventMap, context: seq<Event>, first: int, last: int,
      settings: Settings)
    : set<string>
  {
    Elements(Map(IdOfEvent,
      Bounded(KeepFirst(context, e => ContextOk(e, ids, lookup, first, last, settings), IdOfEvent, {}),
        settings.maxContext)))
  }

  /** The first evidence of each event of the incident, anchor first, up to the bound. */
  function ChosenEvidence(c: seq<Signal>, ids: set<string>): seq<Evidence> {
    Bounded(KeepFirst(EvidencePool(c), (e: Evidence) => e.eventId in ids, EventOf, {}), MAX_INCIDENT_EVIDENCE)
  }

  lemma {:induction false} ChosenContextRight(ids: set<string>, lookup: EventMap, context: seq<Event>, first: int,
      last: int, settings: Settings)
    ensures var chosen := ChosenContext(ids, lookup, context, first, last, settings);
      |chosen| <= settings.maxContext && chosen !! ids
  {
    var ok := (e: Event) => ContextOk(e, ids, lookup, first, last, settings);
    var taken := Bounded(KeepFirst(context, ok, IdOfEvent, {}), settings.maxContext);
    var names := Map(IdOfEvent, taken);
    ElementsSize(names);
    forall x | x in Elements(names) ensures x !in ids {
      var i :| 0 <= i < |names| && names[i] == x;
      assert ok(taken[i]);
    }
  }

  lemma {:induction false} ChosenEvidenceRight(c: seq<Signal>, ids: set<string>)
    ensures var evidence := ChosenEvidence(c, ids);
      && |evidence| <= MAX_INCIDENT_EVIDENCE
      && (forall i :: 0 <= i < |evidence| ==> evidence[i].eventId in ids)
      && (forall i, j :: 0 <= i < j < |evidence| ==> evidence[i] != evidence[j])
  {
    var ok := (e: Evidence) => e.eventId in ids;
    var evidence := ChosenEvidence(c, ids);
    forall i | 0 <= i < |evidence| ensures evidence[i].eventId in ids { assert ok(evidence[i]); }
    forall i, j | 0 <= i < j < |evidence| ensures evidence[i] != evidence[j] {
      assert EventOf(evidence[i]) != EventOf(evidence[j]);
    }
  }

  /** A context event is not one of the incident's own, some moment of the incident's window is close enough
      to it, and it is related to one of the incident's events. */
  lemma {:induction false} ContextExactly(e: Event, ids: set<string>, lookup: EventMap, first: int, last: int,
      settings: Settings)
    requires first <= last && settings.params.windowSeconds > 0
    ensures ContextOk(e, ids, lookup, first, last, settings) <==>
      && e.eventId !in ids && e.timestamp.Some?
      && WithinReach(first, last, e.timestamp.value, e.timestamp.value, settings.params.windowSeconds * 1_000_000)
      && RelatedToOne(e, ids, lookup, settings)
  {
    if e.timestamp.Some? {
      var t := e.timestamp.value;
      var u := if t < first then first else if t > last then last else t;
      assert Apart(u, t, settings.params.windowSeconds * 1_000_000) ==>
               WithinReach(first, last, t, t, settings.params.windowSeconds * 1_000_000);
    }
  }

  ghost predicate RelatedToOne(e: Event, ids: set<string>, lookup: EventMap, settings: Settings) {
    exists r :: r in ids && r in lookup && settings.related(lookup[r], e)
  }

  /** A fitting context event is left out only when the incident's context is full. */
  lemma {:induction false} ContextFilled(ids: set<string>, lookup: EventMap, context: seq<Event>, first: int,
      last: int, settings: Settings, p: nat)
    requires p < |context| && ContextOk(context[p], ids, lookup, first, last, settings)
    ensures var chosen := ChosenContext(ids, lookup, context, first, last, settings);
      context[p].eventId in chosen
        || (|chosen| == settings.maxContext && forall id :: id in chosen ==> Listed(id, context, p))
  {
    var ok := (e: Event) => ContextOk(e, ids, lookup, first, last, settings);
    var taken := Bounded(KeepFirst(context, ok, IdOfEvent, {}), settings.maxContext);
    var names := Map(IdOfEvent, taken);
    assert ok(context[p]);
    TakenInOrder(context, ok, IdOfEvent, settings.maxContext, p);
    if k :| 0 <= k < |taken| && IdOfEvent(taken[k]) == context[p].eventId {
      assert names[k] in Elements(names);
    } else {
      forall i, j | 0 <= i < j < |names| ensures names[i] != names[j] {
        assert IdOfEvent(taken[i]) != IdOfEvent(taken[j]);
      }
      DistinctSize(names);
      forall id | id in Elements(names) ensures Listed(id, context, p) {
        var i :| 0 <= i < |names| && names[i] == id;
        assert UpTo(taken[i], context, p);
      }
    }
  }

  /** An event of that name is listed at `p` or before. */
  ghost predicate Listed(id: string, context: seq<Event>, p: nat) {
    exists q :: 0 <= q <= p && q < |context| && context[q].eventId == id
  }

  /** `e` belongs to a member before `i`, or to member `i` and does not come after `x` there. */
  ghost predicate NoLater(e: Evidence, x: Evidence, c: seq<Signal>, i: nat)
    requires i < |c|
  {
    (exists j :: 0 <= j < i && e in c[j].evidence) || (e in c[i].evidence && !StrLess(x.eventId, e.eventId))
  }

  ghost predicate AtNoLater(pool: seq<Evidence>, p: nat, x: Evidence, c: seq<Signal>, i: nat)
    requires i < |c|
  {
    p < |pool| && pool[p] == x && forall q :: 0 <= q <= p ==> NoLater(pool[q], x, c, i)
  }

  lemma {:induction false} PoolPosition(c: seq<Signal>, i: nat, x: Evidence) returns (p: nat)
    requires i < |c| && x in c[i].evidence
    ensures AtNoLater(EvidencePool(c), p, x, c, i)
  {
    var own := SortBy(c[0].evidence, EvidenceBefore);
    OwnEvidence(c[0].evidence);
    if i == 0 {
      p := InOwn(own, EvidencePool(c[1..]), x, c);
    } else {
      p := PoolPosition(c[1..], i - 1, x);
      InTail(own, EvidencePool(c[1..]), p, x, c, i);
      p := |own| + p;
    }
  }

  lemma {:induction false} InOwn(own: seq<Evidence>, tail: seq<Evidence>, x: Evidence, c: seq<Signal>) returns (p: nat)
    requires c != [] && x in own && forall e :: e in own ==> e in c[0].evidence
    requires forall i, j :: 0 <= i <= j < |own| ==> !StrLess(own[j].eventId, own[i].eventId)
    ensures AtNoLater(own + tail, p, x, c, 0)
  {
    p :| 0 <= p < |own| && own[p] == x;
    forall q | 0 <= q <= p ensures NoLater((own + tail)[q], x, c, 0) { assert (own + tail)[q] == own[q]; }
  }

  lemma {:induction false} InTail(own: seq<Evidence>, tail: seq<Evidence>, p: nat, x: Evidence, c: seq<Signal>, i: nat)
    requires 0 < i < |c| && (forall e :: e in own ==> e in c[0].evidence)
    requires AtNoLater(tail, p, x, c[1..], i - 1)
    ensures AtNoLater(own + tail, |own| + p, x, c, i)
  {
    forall q | 0 <= q <= |own| + p ensures NoLater((own + tail)[q], x, c, i) {
      if q < |own| {
        assert (own + tail)[q] == own[q] && own[q] in c[0].evidence;
      } else {
        assert (own + tail)[q] == tail[q - |own|];
        LaterInTail(tail[q - |own|], x, c, i);
      }
    }
  }

  lemma {:induction false} LaterInTail(e: Evidence, x: Evidence, c: seq<Signal>, i: nat)
    requires 0 < i < |c| && NoLater(e, x, c[1..], i - 1)
    ensures NoLater(e, x, c, i)
  {
    if j :| 0 <= j < i - 1 && e in c[1..][j].evidence { assert e in c[j + 1].evidence; }
  }

  lemma {:induction false} EvidenceBeforeIsWeak()
    ensures WeakOrder(EvidenceBefore)
  {
    StrLessIsStrictOrder();
    forall a: Evidence, b: Evidence, c: Evidence | EvidenceBefore(a, c)
      ensures EvidenceBefore(a, b) || EvidenceBefore(b, c) {
      if a.eventId != b.eventId && !StrLess(a.eventId, b.eventId) { assert StrLess(b.eventId, a.eventId); }
    }
  }

  lemma {:induction false} OwnEvidence(s: seq<Evidence>)
    ensures var own := SortBy(s, EvidenceBefore);
      && (forall e :: e in own <==> e in s)
      && forall i, j :: 0 <= i <= j < |own| ==> !StrLess(own[j].eventId, own[i].eventId)
  {
    var own := SortBy(s, EvidenceBefore);
    EvidenceBeforeIsWeak();
    SortBySorted(s, EvidenceBefore);
    forall e ensures e in own <==> e in s { assert e in multiset(own) <==> e in multiset(s); }
    forall i, j | 0 <= i <= j < |own| ensures !StrLess(own[j].eventId, own[i].eventId) {
      if i == j { StrLessIrreflexive(own[i].eventId); } else { assert !EvidenceBefore(own[j], own[i]); }
    }
  }

  /** The anchor's evidence comes first, then that of the other members in order, each by event: an item is
      left out only for one that is no later, or because such items fill the bound. */
  lemma {:induction false} EarlierMembersFirst(c: seq<Signal>, ids: set<string>, i: nat, x: Evidence)
    requires i < |c| && x in c[i].evidence && x.eventId in ids
    ensures var r := ChosenEvidence(c, ids);
      || (exists k :: 0 <= k < |r| && r[k].eventId == x.eventId && NoLater(r[k], x, c, i))
      || (|r| == 10 && forall k :: 0 <= k < |r| ==> NoLater(r[k], x, c, i))
  {
    var p := PoolPosition(c, i, x);
    TakenInOrder(EvidencePool(c), (e: Evidence) => e.eventId in ids, EventOf, MAX_INCIDENT_EVIDENCE, p);
  }

  /** `_select_context_event_ids`; `context` is already in time order. */
  method SelectContext(ids: set<string>, lookup: EventMap, context: seq<Event>, first: int, last: int,
      settings: Settings)
    returns (chosen: set<string>)
    ensures |chosen| <= settings.maxContext && chosen !! ids
    ensures chosen == ChosenContext(ids, lookup, context, first, last, settings)
  {
    var taken := TakeFirst(context, e => ContextOk(e, ids, lookup, first, last, settings), IdOfEvent,
      settings.maxContext);
    chosen := Elements(Map(IdOfEvent, taken));
    ChosenContextRight(ids, lookup, context, first, last, settings);
  }

  lemma {:induction false} ElementsSize<T(!new)>(s: seq<T>)
    ensures |Elements(s)| <= |s|
  {
    if s != [] {
      ElementsSize(s[1..]);
      assert s == [s[0]] + s[1..];
      assert Elements(s) == {s[0]} + Elements(s[1..]);
    }
  }

  /** `_collect_evidence`. */
  method CollectEvidence(c: seq<Signal>, ids: set<string>) returns (evidence: seq<Evidence>)
    ensures evidence == ChosenEvidence(c, ids)
    ensures |evidence| <= MAX_INCIDENT_EVIDENCE
    ensures forall i :: 0 <= i < |evidence| ==> evidence[i].eventId in ids
    ensures forall i, j :: 0 <= i < j < |evidence| ==> evidence[i] != evidence[j]
  {
    evidence := TakeFirst(EvidencePool(c), (e: Evidence) => e.eventId in ids, EventOf, MAX_INCIDENT_EVIDENCE);
    ChosenEvidenceRight(c, ids);
  }

  // ---------------------------------------------------------------- building

  /** The identity of a built incident comes from its anchor, `c[0]`. */
  ghost predicate NamedByAnchor(b: Incident, c: seq<Signal>, lookup: EventMap, settings: Settings)
    requires c != [] && settings.params.windowSeconds > 0
  {
    && b.incidentId == settings.identify(IdentityOf(c[0], lookup, settings))
    && b.incidentType == c[0].signalType && b.family == c[0].family && b.title == Title(c[0], lookup)
    && b.primaryEntity == PrimaryEntity(c[0], lookup) && b.metrics.primarySignalId == c[0].signalId
    && b.mergeKey == (c[0].ruleId, c[0].signalId, IdentityOf(c[0], lookup, settings).bucket)
  }

  /** Its contents come from all members, its evidence and context from the selections, its scores from
      members and facts. */
  ghost predicate FilledByMembers(b: Incident, c: seq<Signal>, lookup: EventMap, context: seq<Event>,
      settings: Settings)
    requires c != []
  {
    && b.eventIds == AllEvents(c) && b.signalIds == AllSignalIds(c)
    && b.targets == AllTargets(c) && b.techniques == AllTechniques(c)
    && (b.firstSeen, b.lastSeen) == Window(c)
    && b.evidence == ChosenEvidence(c, b.eventIds)
    && b.contextIds == ChosenContext(b.eventIds, lookup, context, b.firstSeen, b.lastSeen, settings)
    && b.metrics.facts == Some(FactsOf(RestrictTo(lookup, b.eventIds), c[0].family))
    && b.severity == IncidentSeverity(c, b.metrics.facts) && b.confidence == IncidentConfidence(c)
    && b.absorbedIds == b.signalIds - {c[0].signalId}
    && b.metrics.totalEvents == |b.eventIds| && b.metrics.distinctTargets == |b.targets|
    && b.metrics.correlatedSignals == |b.signalIds| && b.metrics.absorbedSignals == |b.absorbedIds|
    && b.metrics.overlapMerges == 0
  }

  ghost predicate IsBuilt(b: Incident, c: seq<Signal>, lookup: EventMap, context: seq<Event>, settings: Settings) {
    && c != [] && settings.params.windowSeconds > 0 && (forall s :: s in c ==> s.firstSeen <= s.lastSeen)
    && NamedByAnchor(b, c, lookup, settings) && FilledByMembers(b, c, lookup, context, settings)
  }

  /** What is built is well formed. */
  lemma {:induction false} BuiltIsWellFormed(b: Incident, c: seq<Signal>, lookup: EventMap, context: seq<Event>,
      settings: Settings)
    requires IsBuilt(b, c, lookup, context, settings)
    ensures WellFormed(b, settings.maxContext)
  {
    ChosenEvidenceRight(c, b.eventIds);
    ChosenContextRight(b.eventIds, lookup, context, b.firstSeen, b.lastSeen, settings);
    assert c[0] in c && c[0].signalId in AllSignalIds(c);
    WindowOrdered(c);
  }

  lemma {:induction false} WindowOrdered(c: seq<Signal>)
    requires c != [] && forall s :: s in c ==> s.firstSeen <= s.lastSeen
    ensures Window(c).0 <= Window(c).1
  {
    assert c[0] in c;
  }

  /** `build_correlated_incident`. */
  method BuildIncident(c: seq<Signal>, lookup: EventMap, context: seq<Event>, settings: Settings) returns (b: Incident)
    requires c != [] && settings.params.windowSeconds > 0
    requires forall s :: s in c ==> s.firstSeen <= s.lastSeen
    ensures IsBuilt(b, c, lookup, context, settings) && WellFormed(b, settings.maxContext)
  {
    var anchor := c[0];
    var signalIds := AllSignalIds(c);
    var eventIds := AllEvents(c);
    var window := Window(c);
    var evidence := CollectEvidence(c, eventIds);
    var facts := DeriveFacts(RestrictTo(lookup, eventIds), anchor.family);
    var chosen := SelectContext(eventIds, lookup, context, window.0, window.1, settings);
    var absorbed := signalIds - {anchor.signalId};
    var identity := IdentityOf(anchor, lookup, settings);
    b := Incident(
      settings.identify(identity), anchor.signalType, anchor.family, Title(anchor, lookup),
      IncidentSeverity(c, Some(facts)), IncidentConfidence(c), window.0, window.1,
      identity.primaryEntity, AllTargets(c), signalIds, eventIds, chosen, evidence,
      Metrics(|eventIds|, |AllTargets(c)|, |signalIds|, |absorbed|, anchor.signalId, 0, Some(facts)),
      AllTechniques(c), (anchor.ruleId, anchor.signalId, identity.bucket), absorbed);
    BuiltIsWellFormed(b, c, lookup, context, settings);
  }
}
