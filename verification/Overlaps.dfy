/** The pass that folds incidents with touching windows and nested or mostly shared events together. */
module Overlaps {
  import opened Ordering
  import opened Signals
  import opened Scoring
  import opened Incidents

  type SignalMap = map<string, Signal>

  predicate WindowsTouch(a: Incident, b: Incident) {
    a.firstSeen <= b.lastSeen && b.firstSeen <= a.lastSeen
  }

  predicate EventsOverlap(a: Incident, b: Incident) {
    && a.eventIds != {} && b.eventIds != {}
    && (a.eventIds <= b.eventIds || b.eventIds <= a.eventIds
        || 2 * |a.eventIds * b.eventIds| >= |a.eventIds + b.eventIds|)
  }

  predicate Mergeable(a: Incident, b: Incident) {
    && a.incidentType == b.incidentType
    && a.primaryEntity == b.primaryEntity
    && WindowsTouch(a, b)
    && EventsOverlap(a, b)
  }

  /** Two incidents may merge when they are of one type and entity, share a moment, and no event is only in
      one of them, or at most as many events as they share are only in one. */
  lemma {:induction false} MergeableExactly(a: Incident, b: Incident)
    requires a.firstSeen <= a.lastSeen && b.firstSeen <= b.lastSeen
    ensures Mergeable(a, b) <==>
      && a.incidentType == b.incidentType && a.primaryEntity == b.primaryEntity
      && WithinReach(a.firstSeen, a.lastSeen, b.firstSeen, b.lastSeen, 0)
      && (exists e :: e in a.eventIds) && (exists e :: e in b.eventIds)
      && (|a.eventIds - b.eventIds| == 0 || |b.eventIds - a.eventIds| == 0
          || |a.eventIds - b.eventIds| + |b.eventIds - a.eventIds| <= |a.eventIds * b.eventIds|)
  {
    var t := if a.firstSeen >= b.firstSeen then a.firstSeen else b.firstSeen;
    assert Apart(t, t, 0);
    SplitUnion(a.eventIds, b.eventIds);
    NoneLeft(a.eventIds, b.eventIds);
    NoneLeft(b.eventIds, a.eventIds);
  }

  lemma {:induction false} NoneLeft(a: set<string>, b: set<string>)
    ensures |a - b| == 0 <==> a <= b
  {
    if |a - b| == 0 {
      forall x | x in a ensures x in b { assert x !in a - b; }
    } else {
      assert a <= b ==> a - b == {};
    }
  }

  lemma {:induction false} SplitUnion(a: set<string>, b: set<string>)
    ensures |a + b| == |a - b| + |b - a| + |a * b|
  {
    assert a + b == (a - b) + ((b - a) + a * b);
    assert |(b - a) + a * b| == |b - a| + |a * b|;
  }

  /** Most events first, then earliest, then by identifier. */
  predicate KeeperBefore(a: Incident, b: Incident) {
    if |a.eventIds| != |b.eventIds| then |a.eventIds| > |b.eventIds|
    else if a.firstSeen != b.firstSeen then a.firstSeen < b.firstSeen
    else StrLess(a.incidentId, b.incidentId)
  }

  predicate ShownBefore(a: Incident, b: Incident) {
    if a.firstSeen != b.firstSeen then a.firstSeen < b.firstSeen else StrLess(a.incidentId, b.incidentId)
  }

  ghost predicate DistinctIncidents(s: seq<Incident>) {
    forall i, j :: 0 <= i < j < |s| ==> s[i].incidentId != s[j].incidentId
  }

  lemma {:induction false} OrdersAreTotal(s: seq<Incident>)
    requires DistinctIncidents(s)
    ensures Distinct(s)
    ensures StrictOrder(KeeperBefore) && TotalOn(KeeperBefore, Elements(s))
    ensures StrictOrder(ShownBefore) && TotalOn(ShownBefore, Elements(s))
  {
    StrLessIsStrictOrder();
    forall a, b | a in Elements(s) && b in Elements(s) && a != b
      ensures (KeeperBefore(a, b) || KeeperBefore(b, a)) && (ShownBefore(a, b) || ShownBefore(b, a)) {
      var i, j :| 0 <= i < |s| && 0 <= j < |s| && s[i] == a && s[j] == b;
      assert i < j || j < i;
      StrLessTotal(a.incidentId, b.incidentId);
    }
  }

  // ---------------------------------------------------------------- one merge

  /** Severity, confidence and facts of an incident. */
  datatype Scores = Scores(severity: Severity, confidence: real, facts: Facts)

  /** Scores from the signal ids, the event ids and the family. */
  type Scorer = (set<string>, set<string>, string) -> Scores

  function Members(ids: set<string>, signals: SignalMap): (r: seq<Signal>) {
    var names := SortedIds(ids * signals.Keys);
    seq(|names|, i requires 0 <= i < |names| => assert names[i] in Elements(names); signals[names[i]])
  }

  ghost function ScoreWith(signals: SignalMap, lookup: EventMap): Scorer {
    (ids, events, family) =>
      var facts := FactsOf(RestrictTo(lookup, events), family);
      Scores(IncidentSeverity(Members(ids, signals), Some(facts)), IncidentConfidence(Members(ids, signals)), facts)
  }

  method Rescore(ids: set<string>, events: set<string>, family: string, signals: SignalMap, lookup: EventMap)
    returns (r: Scores)
    ensures r == ScoreWith(signals, lookup)(ids, events, family)
  {
    var facts := DeriveFacts(RestrictTo(lookup, events), family);
    var members := Members(ids, signals);
    r := Scores(IncidentSeverity(members, Some(facts)), IncidentConfidence(members), facts);
  }

  function Itself(e: Evidence): Evidence { e }

  function MergedEvidence(keeper: Incident, absorbed: Incident): seq<Evidence> {
    var ids := keeper.eventIds + absorbed.eventIds;
    Bounded(KeepFirst(keeper.evidence + absorbed.evidence, (e: Evidence) => e.eventId in ids, Itself, {}),
            MAX_INCIDENT_EVIDENCE)
  }

  /** `keeper` with the content of `absorbed` and the given scores, context and evidence; its
      identity, type and title stay. */
  function Absorb(keeper: Incident, absorbed: Incident, scores: Scores, contextIds: set<string>,
      evidence: seq<Evidence>): Incident {
    var eventIds := keeper.eventIds + absorbed.eventIds;
    var signalIds := keeper.signalIds + absorbed.signalIds;
    var targets := keeper.targets + absorbed.targets;
    var absorbedIds := (keeper.absorbedIds + absorbed.signalIds
      + absorbed.absorbedIds) - {keeper.metrics.primarySignalId};
    keeper.(
      severity := scores.severity,
      confidence := scores.confidence,
      firstSeen := if keeper.firstSeen <= absorbed.firstSeen then keeper.firstSeen else absorbed.firstSeen,
      lastSeen := if keeper.lastSeen >= absorbed.lastSeen then keeper.lastSeen else absorbed.lastSeen,
      targets := targets,
      signalIds := signalIds,
      eventIds := eventIds,
      contextIds := contextIds,
      evidence := evidence,
      metrics := Metrics(|eventIds|, |targets|, |signalIds|, |absorbedIds|, keeper.metrics.primarySignalId,
                         keeper.metrics.overlapMerges + 1 + absorbed.metrics.overlapMerges, Some(scores.facts)),
      techniques := keeper.techniques + absorbed.techniques,
      absorbedIds := absorbedIds)
  }

  /** `_merge_incident_pair`. */
  ghost function MergedPair(keeper: Incident, absorbed: Incident, score: Scorer, maxContext: nat): Incident {
    var eventIds := keeper.eventIds + absorbed.eventIds;
    Absorb(keeper, absorbed,
           score(keeper.signalIds + absorbed.signalIds, eventIds, keeper.family),
           Least((keeper.contextIds + absorbed.contextIds) - eventIds, maxContext),
           MergedEvidence(keeper, absorbed))
  }

  /** The result of a merge is well formed, whatever the scores. */
  lemma {:induction false} MergedPairKeeps(k: Incident, a: Incident, score: Scorer, maxContext: nat)
    requires WellFormed(k, maxContext) && WellFormed(a, maxContext)
    ensures WellFormed(MergedPair(k, a, score, maxContext), maxContext)
  {
    EvidenceKeeps(k, a);
    var eventIds := k.eventIds + a.eventIds;
    AbsorbKeeps(k, a, score(k.signalIds + a.signalIds, eventIds, k.family),
                Least((k.contextIds + a.contextIds) - eventIds, maxContext), MergedEvidence(k, a), maxContext);
  }

  lemma {:induction false} AbsorbKeeps(k: Incident, a: Incident, scores: Scores, contextIds: set<string>,
      evidence: seq<Evidence>, maxContext: nat)
    requires WellFormed(k, maxContext) && WellFormed(a, maxContext)
    requires contextIds !! k.eventIds + a.eventIds && |contextIds| <= maxContext && |evidence| <= MAX_INCIDENT_EVIDENCE
    requires forall i :: 0 <= i < |evidence| ==> evidence[i].eventId in k.eventIds + a.eventIds
    requires forall i, j :: 0 <= i < j < |evidence| ==> evidence[i] != evidence[j]
    ensures WellFormed(Absorb(k, a, scores, contextIds, evidence), maxContext)
  {
    var primary := {k.metrics.primarySignalId};
    assert (k.absorbedIds + a.signalIds + a.absorbedIds) - primary == (k.signalIds + a.signalIds) - primary;
  }

  lemma {:induction false} EvidenceKeeps(k: Incident, a: Incident)
    ensures |MergedEvidence(k, a)| <= MAX_INCIDENT_EVIDENCE
    ensures forall i :: 0 <= i < |MergedEvidence(k, a)| ==> MergedEvidence(k, a)[i].eventId in k.eventIds + a.eventIds
    ensures forall i, j :: 0 <= i < j < |MergedEvidence(k, a)| ==> MergedEvidence(k, a)[i] != MergedEvidence(k, a)[j]
  {
    var m := MergedEvidence(k, a);
    forall i, j | 0 <= i < j < |m| ensures m[i] != m[j] { assert Itself(m[i]) != Itself(m[j]); }
  }

  lemma {:induction false} MembersAre(ids: set<string>, signals: SignalMap)
    ensures forall s :: s in Members(ids, signals) <==> exists k :: k in ids && k in signals && signals[k] == s
    ensures ids * signals.Keys != {} ==> Members(ids, signals) != []
  {
    var names := SortedIds(ids * signals.Keys);
    var m := Members(ids, signals);
    forall s | s in m ensures exists k :: k in ids && k in signals && signals[k] == s {
      var i :| 0 <= i < |m| && m[i] == s;
      assert names[i] in Elements(names);
    }
    forall k | k in ids && k in signals ensures signals[k] in m {
      assert k in Elements(names);
      var i :| 0 <= i < |names| && names[i] == k;
      assert m[i] == signals[k];
    }
    if ids * signals.Keys != {} {
      var k :| k in ids * signals.Keys;
      assert signals[k] in m;
    }
  }

  /** The signals of a signal map bear their keys. */
  ghost predicate Keyed(signals: SignalMap) { forall k :: k in signals ==> signals[k].signalId == k }

  /** The signals of the given ids that there are, each once, in any order. */
  ghost predicate IsCluster(cluster: seq<Signal>, ids: set<string>, signals: SignalMap) {
    && Distinct(cluster)
    && forall s :: s in cluster <==> s.signalId in ids && s.signalId in signals && signals[s.signalId] == s
  }

  lemma {:induction false} MembersAreCluster(ids: set<string>, signals: SignalMap, cluster: seq<Signal>)
    requires Keyed(signals) && IsCluster(cluster, ids, signals)
    ensures multiset(cluster) == multiset(Members(ids, signals))
  {
    var m, names := Members(ids, signals), SortedIds(ids * signals.Keys);
    SortedIdsAscending(ids * signals.Keys);
    StrLessIsStrictOrder();
    AscendingDistinct(names, StrLess);
    MembersAre(ids, signals);
    forall i, j | 0 <= i < j < |m| ensures m[i] != m[j] {
      assert names[i] in Elements(names) && names[j] in Elements(names) && names[i] != names[j];
    }
    DistinctMultiset(m);
    DistinctMultiset(cluster);
    forall s ensures s in Elements(m) <==> s in Elements(cluster) {
      assert s in m <==> exists k :: k in ids && k in signals && signals[k] == s;
    }
  }

  /** Who the pair is: the keeper. */
  ghost predicate SameName(m: Incident, keeper: Incident) {
    && m.incidentId == keeper.incidentId && m.incidentType == keeper.incidentType && m.family == keeper.family
    && m.title == keeper.title && m.primaryEntity == keeper.primaryEntity && m.mergeKey == keeper.mergeKey
    && m.metrics.primarySignalId == keeper.metrics.primarySignalId
  }

  /** What the pair holds: all that either held, over the hull of the windows. */
  ghost predicate HoldsBoth(m: Incident, keeper: Incident, absorbed: Incident) {
    && (forall x :: x in m.eventIds <==> x in keeper.eventIds || x in absorbed.eventIds)
    && (forall x :: x in m.signalIds <==> x in keeper.signalIds || x in absorbed.signalIds)
    && (forall x :: x in m.targets <==> x in keeper.targets || x in absorbed.targets)
    && (forall x :: x in m.techniques <==> x in keeper.techniques || x in absorbed.techniques)
    && m.firstSeen in {keeper.firstSeen, absorbed.firstSeen} && m.lastSeen in {keeper.lastSeen, absorbed.lastSeen}
    && m.firstSeen <= keeper.firstSeen && m.firstSeen <= absorbed.firstSeen
    && keeper.lastSeen <= m.lastSeen && absorbed.lastSeen <= m.lastSeen
  }

  /** Its scores are those of its signals and events under the keeper's family. */
  ghost predicate ScoredAnew(m: Incident, cluster: seq<Signal>, lookup: EventMap) {
    var facts := FactsOf(RestrictTo(lookup, m.eventIds), m.family);
    && m.metrics.facts == Some(facts)
    && m.severity == IncidentSeverity(cluster, Some(facts)) && m.confidence == IncidentConfidence(cluster)
  }

  /** Its counters count what it holds, and one merge more than both had. */
  ghost predicate CountsBoth(m: Incident, keeper: Incident, absorbed: Incident) {
    && m.metrics.totalEvents == |m.eventIds| && m.metrics.distinctTargets == |m.targets|
    && m.metrics.correlatedSignals == |m.signalIds| && m.metrics.absorbedSignals == |m.absorbedIds|
    && m.metrics.overlapMerges == keeper.metrics.overlapMerges + absorbed.metrics.overlapMerges + 1
  }

  /** Its context is the first of what either had and neither has as an event. */
  ghost predicate ContextOfBoth(m: Incident, keeper: Incident, absorbed: Incident, maxContext: nat) {
    && |m.contextIds| <= maxContext
    && (forall x :: x in m.contextIds ==> IsContext(x, m, keeper, absorbed))
    && (forall x :: IsContext(x, m, keeper, absorbed) && x !in m.contextIds ==>
          |m.contextIds| == maxContext && forall y :: y in m.contextIds ==> StrLess(y, x))
  }

  ghost predicate IsContext(x: string, m: Incident, keeper: Incident, absorbed: Incident) {
    (x in keeper.contextIds || x in absorbed.contextIds) && x !in m.eventIds
  }

  /** What becomes of a pair, field by field. */
  lemma {:induction false} PairExactly(keeper: Incident, absorbed: Incident, signals: SignalMap, lookup: EventMap,
      maxContext: nat, cluster: seq<Signal>)
    requires Keyed(signals) && IsCluster(cluster, keeper.signalIds + absorbed.signalIds, signals)
    ensures var m := MergedPair(keeper, absorbed, ScoreWith(signals, lookup), maxContext);
      && SameName(m, keeper) && HoldsBoth(m, keeper, absorbed) && CountsBoth(m, keeper, absorbed)
      && ScoredAnew(m, cluster, lookup) && ContextOfBoth(m, keeper, absorbed, maxContext)
  {
    var ids := keeper.signalIds + absorbed.signalIds;
    var all := (keeper.contextIds + absorbed.contextIds) - (keeper.eventIds + absorbed.eventIds);
    assert IsLeast(Least(all, maxContext), all, maxContext);
    ContextIsLeast(Least(all, maxContext), all, maxContext);
    MembersAreCluster(ids, signals, cluster);
    var facts := Some(FactsOf(RestrictTo(lookup, keeper.eventIds + absorbed.eventIds), keeper.family));
    SeverityPermutation(cluster, Members(ids, signals), facts);
    ConfidencePermutation(cluster, Members(ids, signals));
  }

  lemma {:induction false} ContextIsLeast(r: set<string>, all: set<string>, n: nat)
    requires IsLeast(r, all, n)
    ensures |r| <= n && r <= all
    ensures forall x :: x in all && x !in r ==> |r| == n && forall y :: y in r ==> StrLess(y, x)
  {
    forall x | x in all && x !in r ensures |r| == n {
      if |r| == |all| { SubsetOfSameSize(r, all); }
    }
  }

  /** The keeper's evidence is kept before the absorbed one's: an item is left out only when items no later
      fill the bound. */
  lemma {:induction false} KeepersEvidenceFirst(keeper: Incident, absorbed: Incident, x: Evidence)
    requires x.eventId in keeper.eventIds + absorbed.eventIds && x !in MergedEvidence(keeper, absorbed)
    requires x in keeper.evidence || x in absorbed.evidence
    ensures |MergedEvidence(keeper, absorbed)| == 10
    ensures x in keeper.evidence ==> forall e :: e in MergedEvidence(keeper, absorbed) ==> e in keeper.evidence
  {
    var ids, pool := keeper.eventIds + absorbed.eventIds, keeper.evidence + absorbed.evidence;
    var ok := (e: Evidence) => e.eventId in ids;
    var r := MergedEvidence(keeper, absorbed);
    var n := |keeper.evidence|;
    var p: nat :| p < |pool| && pool[p] == x && (x in keeper.evidence ==> p < n) by {
      if i :| 0 <= i < n && keeper.evidence[i] == x { assert pool[i] == x; }
      else { var j :| 0 <= j < |absorbed.evidence| && absorbed.evidence[j] == x; assert pool[n + j] == x; }
    }
    TakenInOrder(pool, ok, Itself, MAX_INCIDENT_EVIDENCE, p);
    assert forall k :: 0 <= k < |r| ==> UpTo(r[k], pool, p);
    if x in keeper.evidence {
      forall e | e in r ensures e in keeper.evidence {
        var q :| 0 <= q <= p && pool[q] == e;
        assert pool[q] == keeper.evidence[q];
      }
    }
  }

  method MergeIncidentPair(keeper: Incident, absorbed: Incident, signals: SignalMap, lookup: EventMap, maxContext: nat)
    returns (m: Incident)
    requires keeper.signalIds + absorbed.signalIds <= signals.Keys
    ensures m == MergedPair(keeper, absorbed, ScoreWith(signals, lookup), maxContext)
  {
    var eventIds := keeper.eventIds + absorbed.eventIds;
    var evidence := TakeFirst(keeper.evidence + absorbed.evidence, (e: Evidence) => e.eventId in eventIds,
                              Itself, MAX_INCIDENT_EVIDENCE);
    var scores := Rescore(keeper.signalIds + absorbed.signalIds, eventIds, keeper.family, signals, lookup);
    var contextIds := TakeLeast((keeper.contextIds + absorbed.contextIds) - eventIds, maxContext);
    m := Absorb(keeper, absorbed, scores, contextIds, evidence);
    assert evidence == MergedEvidence(keeper, absorbed);
  }

  // ---------------------------------------------------------------- the pass

  function EligibleKeepers(merged: seq<Incident>, c: Incident): (r: seq<Incident>)
    ensures forall k :: k in r <==> k in merged && Mergeable(k, c)
  {
    if merged == [] then []
    else
      var rest := EligibleKeepers(merged[1..], c);
      assert forall k :: k in merged <==> k == merged[0] || k in merged[1..];
      if Mergeable(merged[0], c) then [merged[0]] + rest else rest
  }

  function IndexOf(s: seq<Incident>, x: Incident): (i: nat)
    requires x in s
    ensures i < |s| && s[i] == x
  {
    if s[0] == x then 0 else 1 + IndexOf(s[1..], x)
  }

  /** `merged.index(keeper)` for the first of the eligible keepers. */
  function KeeperIndex(merged: seq<Incident>, c: Incident): (i: nat)
    requires EligibleKeepers(merged, c) != []
    ensures i < |merged| && Mergeable(merged[i], c)
  {
    IndexOf(merged, MinBy(EligibleKeepers(merged, c), KeeperBefore))
  }

  ghost predicate Known(s: seq<Incident>, signals: SignalMap) {
    forall i :: 0 <= i < |s| ==> s[i].signalIds <= signals.Keys
  }

  /** One candidate is folded into the first of its eligible keepers, or kept on its own. */
  ghost function MergeStep(merged: seq<Incident>, c: Incident, score: Scorer, maxContext: nat): (r: seq<Incident>)
    ensures |merged| <= |r| <= |merged| + 1
  {
    var eligible := EligibleKeepers(merged, c);
    if eligible == [] then merged + [c]
    else
      var i := KeeperIndex(merged, c);
      merged[i := MergedPair(merged[i], c, score, maxContext)]
  }

  /** `k` is a better keeper than `j`: more events, or as many and an earlier start, or the smaller name. */
  predicate Outranks(k: Incident, j: Incident) {
    || |k.eventIds| > |j.eventIds|
    || (|k.eventIds| == |j.eventIds| && k.firstSeen < j.firstSeen)
    || (|k.eventIds| == |j.eventIds| && k.firstSeen == j.firstSeen && StrLess(k.incidentId, j.incidentId))
  }

  lemma {:induction false} OutranksExactly(a: Incident, b: Incident)
    ensures KeeperBefore(a, b) <==> Outranks(a, b)
  {}

  /** Which kept incident takes the candidate in: the one that may and outranks every other that may; the
      others stay as they are. If none may, the candidate is kept on its own. */
  lemma {:induction false} MergeStepExactly(merged: seq<Incident>, c: Incident, score: Scorer, maxContext: nat)
    requires DistinctIncidents(merged)
    ensures var r := MergeStep(merged, c, score, maxContext);
      if forall i :: 0 <= i < |merged| ==> !Mergeable(merged[i], c) then r == merged + [c]
      else exists i ::
        && 0 <= i < |merged| && TakesIn(merged, c, i)
        && r == merged[i := MergedPair(merged[i], c, score, maxContext)]
  {
    var eligible := EligibleKeepers(merged, c);
    if eligible != [] {
      OrdersAreTotal(merged);
      forall k, l | k in eligible && l in eligible && k != l ensures KeeperBefore(k, l) || KeeperBefore(l, k) {
        assert k in Elements(merged) && l in Elements(merged);
      }
      assert TotalOn(KeeperBefore, Elements(eligible));
      MinByLeast(eligible, KeeperBefore);
      var i := KeeperIndex(merged, c);
      forall j | 0 <= j < |merged| && j != i && Mergeable(merged[j], c) ensures Outranks(merged[i], merged[j]) {
        assert merged[j] in eligible && merged[j] != merged[i];
        OutranksExactly(merged[i], merged[j]);
      }
      assert TakesIn(merged, c, i);
    } else {
      forall i | 0 <= i < |merged| ensures !Mergeable(merged[i], c) { assert merged[i] !in eligible; }
    }
  }

  predicate TakesIn(merged: seq<Incident>, c: Incident, i: nat)
    requires i < |merged|
  {
    && Mergeable(merged[i], c)
    && forall j :: 0 <= j < |merged| && j != i && Mergeable(merged[j], c) ==> Outranks(merged[i], merged[j])
  }

  ghost function MergeAll(s: seq<Incident>, score: Scorer, maxContext: nat): (r: seq<Incident>)
  {
    if s == [] then [] else MergeStep(MergeAll(s[..|s| - 1], score, maxContext), s[|s| - 1], score, maxContext)
  }

  /** One turn of the loop: `merged[merged.index(keeper)] = pair`, or `merged.append(candidate)`. */
  method FoldIn(merged: seq<Incident>, candidate: Incident, signals: SignalMap, lookup: EventMap, maxContext: nat)
    returns (r: seq<Incident>, absorbed: bool)
    requires Known(merged, signals) && candidate.signalIds <= signals.Keys
    ensures r == MergeStep(merged, candidate, ScoreWith(signals, lookup), maxContext) && Known(r, signals)
    ensures |r| == if absorbed then |merged| else |merged| + 1
  {
    var eligible := EligibleKeepers(merged, candidate);
    if eligible == [] {
      return merged + [candidate], false;
    }
    var i := KeeperIndex(merged, candidate);
    var pair := MergeIncidentPair(merged[i], candidate, signals, lookup, maxContext);
    r, absorbed := merged[i := pair], true;
    KnownUpdate(merged, i, pair, candidate, signals);
  }

  lemma {:induction false} KnownUpdate(s: seq<Incident>, i: nat, m: Incident, c: Incident, signals: SignalMap)
    requires i < |s| && Known(s, signals) && c.signalIds <= signals.Keys
    requires m.signalIds == s[i].signalIds + c.signalIds
    ensures Known(s[i := m], signals)
  {
    assert m.signalIds <= signals.Keys;
  }

  /** What the pass leaves: largest first in, earliest first out. */
  ghost function Remaining(incidents: seq<Incident>, score: Scorer, maxContext: nat): seq<Incident> {
    SortBy(MergeAll(SortBy(incidents, KeeperBefore), score, maxContext), ShownBefore)
  }

  /** `merge_overlapping_incidents`: the incidents left, and how many were absorbed. */
  method MergeOverlapping(incidents: seq<Incident>, signals: SignalMap, lookup: EventMap, maxContext: nat)
    returns (merged: seq<Incident>, absorbedCount: nat)
    requires Known(incidents, signals)
    ensures merged == Remaining(incidents, ScoreWith(signals, lookup), maxContext)
    ensures |merged| + absorbedCount == |incidents|
  {
    var ordered := SortBy(incidents, KeeperBefore);
    KnownSorted(incidents, signals);
    ghost var score := ScoreWith(signals, lookup);
    merged, absorbedCount := [], 0;
    for k := 0 to |ordered|
      invariant Known(merged, signals)
      invariant merged == MergeAll(ordered[..k], score, maxContext)
      invariant |merged| + absorbedCount == k
    {
      PrefixStep(ordered, k, score, maxContext);
      var absorbed;
      merged, absorbed := FoldIn(merged, ordered[k], signals, lookup, maxContext);
      if absorbed { absorbedCount := absorbedCount + 1; }
    }
    assert ordered[..|ordered|] == ordered;
    merged := SortBy(merged, ShownBefore);
  }

  lemma {:induction false} PrefixStep(s: seq<Incident>, k: nat, score: Scorer, maxContext: nat)
    requires k < |s|
    ensures MergeAll(s[..k + 1], score, maxContext)
      == MergeStep(MergeAll(s[..k], score, maxContext), s[k], score, maxContext)
  {
    assert s[..k + 1][..k] == s[..k];
  }

  lemma {:induction false} KnownSorted(s: seq<Incident>, signals: SignalMap)
    requires Known(s, signals)
    ensures Known(SortBy(s, KeeperBefore), signals)
  {
    var ordered := SortBy(s, KeeperBefore);
    SameMultisetSameElements(ordered, s);
    forall i | 0 <= i < |ordered| ensures ordered[i].signalIds <= signals.Keys {
      assert ordered[i] in Elements(s);
    }
  }

  // ---------------------------------------------------------------- main results

  /** The outcome does not depend on the order the incidents arrive in. */
  lemma {:induction false} OverlapOrderIndependent(a: seq<Incident>, b: seq<Incident>, score: Scorer, maxContext: nat)
    requires multiset(a) == multiset(b) && DistinctIncidents(a) && DistinctIncidents(b)
    ensures Remaining(a, score, maxContext) == Remaining(b, score, maxContext)
  {
    OrdersAreTotal(a);
    OrdersAreTotal(b);
    SortByPermutation(a, b, KeeperBefore);
  }

  function EventUnion(s: seq<Incident>): set<string> { set b, e | b in s && e in b.eventIds :: e }
  function SignalUnion(s: seq<Incident>): set<string> { set b, e | b in s && e in b.signalIds :: e }
  function TargetUnion(s: seq<Incident>): set<string> { set b, e | b in s && e in b.targets :: e }
  function TechniqueUnion(s: seq<Incident>): set<string> { set b, e | b in s && e in b.techniques :: e }
  function MergeCount(s: seq<Incident>): nat {
    if s == [] then 0 else MergeCount(s[..|s| - 1]) + s[|s| - 1].metrics.overlapMerges
  }

  /** `c` is inside `k`: all its content, under the same type and primary entity. */
  ghost predicate Inside(c: Incident, k: Incident) {
    && c.eventIds <= k.eventIds && c.signalIds <= k.signalIds
    && c.targets <= k.targets && c.techniques <= k.techniques
    && c.incidentType == k.incidentType && c.primaryEntity == k.primaryEntity
    && k.firstSeen <= c.firstSeen && c.lastSeen <= k.lastSeen
  }

  ghost predicate InsideSome(c: Incident, s: seq<Incident>) {
    exists i :: 0 <= i < |s| && Inside(c, s[i])
  }

  lemma {:induction false} UnionUpdate(s: seq<Incident>, i: nat, m: Incident, c: Incident)
    requires i < |s|
    requires m.eventIds == s[i].eventIds + c.eventIds && m.signalIds == s[i].signalIds + c.signalIds
    requires m.targets == s[i].targets + c.targets && m.techniques == s[i].techniques + c.techniques
    ensures EventUnion(s[i := m]) == EventUnion(s) + c.eventIds
    ensures SignalUnion(s[i := m]) == SignalUnion(s) + c.signalIds
    ensures TargetUnion(s[i := m]) == TargetUnion(s) + c.targets
    ensures TechniqueUnion(s[i := m]) == TechniqueUnion(s) + c.techniques
  {
    var t := s[i := m];
    assert forall b :: b in t ==> b == m || b in s;
    assert m in t by { assert t[i] == m; }
    forall b | b in s ensures b == s[i] || b in t {
      var j :| 0 <= j < |s| && s[j] == b;
      if j != i { assert t[j] == b; }
    }
  }

  lemma {:induction false} UnionAppend(s: seq<Incident>, c: Incident)
    ensures EventUnion(s + [c]) == EventUnion(s) + c.eventIds
    ensures SignalUnion(s + [c]) == SignalUnion(s) + c.signalIds
    ensures TargetUnion(s + [c]) == TargetUnion(s) + c.targets
    ensures TechniqueUnion(s + [c]) == TechniqueUnion(s) + c.techniques
  {
    assert forall b :: b in s + [c] <==> b in s || b == c;
  }

  /** No event, signal, target or technique is lost or invented. */
  lemma {:induction false} MergeAllConserves(s: seq<Incident>, score: Scorer, maxContext: nat)
    ensures EventUnion(MergeAll(s, score, maxContext)) == EventUnion(s)
    ensures SignalUnion(MergeAll(s, score, maxContext)) == SignalUnion(s)
    ensures TargetUnion(MergeAll(s, score, maxContext)) == TargetUnion(s)
    ensures TechniqueUnion(MergeAll(s, score, maxContext)) == TechniqueUnion(s)
  {
    if s != [] {
      var init, c := s[..|s| - 1], s[|s| - 1];
      MergeAllConserves(init, score, maxContext);
      assert s == init + [c];
      UnionAppend(init, c);
      var merged := MergeAll(init, score, maxContext);
      var eligible := EligibleKeepers(merged, c);
      if eligible == [] {
        UnionAppend(merged, c);
      } else {
        var i := KeeperIndex(merged, c);
        UnionUpdate(merged, i, MergedPair(merged[i], c, score, maxContext), c);
      }
    }
  }

  /** What one step does to each kept incident and to the candidate. */
  lemma {:induction false} StepKeeps(merged: seq<Incident>, c: Incident, score: Scorer, maxContext: nat)
    ensures var r := MergeStep(merged, c, score, maxContext);
      && (forall j :: 0 <= j < |merged| ==> Inside(merged[j], r[j]) && r[j].incidentId == merged[j].incidentId)
      && (|r| == |merged| + 1 ==> r[|merged|] == c)
      && InsideSome(c, r)
  {
    var r := MergeStep(merged, c, score, maxContext);
    var eligible := EligibleKeepers(merged, c);
    if eligible == [] {
      assert r[|merged|] == c && Inside(c, c);
    } else {
      var i := KeeperIndex(merged, c);
      assert Mergeable(merged[i], c) && Inside(c, r[i]);
    }
  }

  lemma {:induction false} StepCarries(x: Incident, merged: seq<Incident>, c: Incident, score: Scorer, maxContext: nat)
    requires InsideSome(x, merged) || x == c
    ensures InsideSome(x, MergeStep(merged, c, score, maxContext))
  {
    var after := MergeStep(merged, c, score, maxContext);
    StepKeeps(merged, c, score, maxContext);
    if x != c {
      var j :| 0 <= j < |merged| && Inside(x, merged[j]);
      assert Inside(merged[j], after[j]);
      InsideTransitive(x, merged[j], after[j]);
    }
  }

  lemma {:induction false} InsideTransitive(a: Incident, b: Incident, c: Incident)
    requires Inside(a, b) && Inside(b, c)
    ensures Inside(a, c)
  {}

  /** Every incident ends up inside one that is kept. */
  lemma {:induction false} EveryIncidentIsKept(s: seq<Incident>, score: Scorer, maxContext: nat, k: nat)
    requires k < |s|
    ensures InsideSome(s[k], MergeAll(s, score, maxContext))
    decreases |s|
  {
    var init, c, x := s[..|s| - 1], s[|s| - 1], s[k];
    var merged := MergeAll(init, score, maxContext);
    if k < |s| - 1 {
      assert init[k] == x;
      EveryIncidentIsKept(init, score, maxContext, k);
    }
    assert InsideSome(x, merged) || x == c;
    StepCarries(x, merged, c, score, maxContext);
  }

  /** Incidents absorb only incidents with no more events than they have. */
  lemma {:induction false} KeepersAreLarger(s: seq<Incident>, score: Scorer, maxContext: nat, c: Incident)
    requires forall b :: b in s ==> |b.eventIds| >= |c.eventIds|
    ensures forall i :: 0 <= i < |MergeAll(s, score, maxContext)| ==>
              |MergeAll(s, score, maxContext)[i].eventIds| >= |c.eventIds|
  {
    if s != [] {
      var init, d := s[..|s| - 1], s[|s| - 1];
      assert forall b :: b in init ==> b in s;
      KeepersAreLarger(init, score, maxContext, c);
      var merged := MergeAll(init, score, maxContext);
      var eligible := EligibleKeepers(merged, d);
      if eligible != [] {
        var i := KeeperIndex(merged, d);
        SubsetSize(merged[i].eventIds, merged[i].eventIds + d.eventIds);
      }
    }
  }

  /** At each step of the pass over the sorted incidents, every kept incident is at least as large
      as the candidate, so the larger event set is always the keeper. */
  lemma {:induction false} LargerNeverAbsorbed(s: seq<Incident>, k: nat, score: Scorer, maxContext: nat)
    requires Ascending(s, KeeperBefore) && k < |s|
    ensures forall i :: 0 <= i < |MergeAll(s[..k], score, maxContext)| ==>
              |MergeAll(s[..k], score, maxContext)[i].eventIds| >= |s[k].eventIds|
  {
    forall b | b in s[..k] ensures |b.eventIds| >= |s[k].eventIds| {
      var i :| 0 <= i < k && s[i] == b;
      assert KeeperBefore(s[i], s[k]);
    }
    KeepersAreLarger(s[..k], score, maxContext, s[k]);
  }

  lemma {:induction false} MergeCountUpdate(s: seq<Incident>, i: nat, m: Incident)
    requires i < |s|
    ensures MergeCount(s[i := m]) + s[i].metrics.overlapMerges == MergeCount(s) + m.metrics.overlapMerges
  {
    var n := |s| - 1;
    if i < n {
      MergeCountUpdate(s[..n], i, m);
      assert s[i := m][..n] == s[..n][i := m];
    } else {
      assert s[i := m][..n] == s[..n];
    }
  }

  /** The merge counters rise by exactly the number of incidents absorbed. */
  lemma {:induction false} MergeCountRises(s: seq<Incident>, score: Scorer, maxContext: nat)
    ensures MergeCount(MergeAll(s, score, maxContext)) + |MergeAll(s, score, maxContext)| == MergeCount(s) + |s|
  {
    if s != [] {
      var init, c := s[..|s| - 1], s[|s| - 1];
      MergeCountRises(init, score, maxContext);
      var merged := MergeAll(init, score, maxContext);
      var eligible := EligibleKeepers(merged, c);
      if eligible == [] {
        assert (merged + [c])[..|merged|] == merged;
      } else {
        var i := KeeperIndex(merged, c);
        MergeCountUpdate(merged, i, MergedPair(merged[i], c, score, maxContext));
      }
    }
  }

  ghost predicate AllWellFormed(s: seq<Incident>, maxContext: nat) {
    forall i :: 0 <= i < |s| ==> WellFormed(s[i], maxContext)
  }

  lemma {:induction false} StepWellFormed(merged: seq<Incident>, c: Incident, score: Scorer, maxContext: nat)
    requires AllWellFormed(merged, maxContext) && WellFormed(c, maxContext)
    ensures AllWellFormed(MergeStep(merged, c, score, maxContext), maxContext)
  {
    if EligibleKeepers(merged, c) != [] {
      MergedPairKeeps(merged[KeeperIndex(merged, c)], c, score, maxContext);
    }
  }

  /** The pass preserves well-formedness. */
  lemma {:induction false} MergeAllWellFormed(s: seq<Incident>, score: Scorer, maxContext: nat)
    requires AllWellFormed(s, maxContext)
    ensures AllWellFormed(MergeAll(s, score, maxContext), maxContext)
  {
    if s != [] {
      var n := |s| - 1;
      MergeAllWellFormed(s[..n], score, maxContext);
      StepWellFormed(MergeAll(s[..n], score, maxContext), s[n], score, maxContext);
    }
  }

  ghost predicate HasId(id: string, s: seq<Incident>) {
    exists j :: 0 <= j < |s| && s[j].incidentId == id
  }

  ghost predicate NamesFrom(merged: seq<Incident>, s: seq<Incident>) {
    forall i :: 0 <= i < |merged| ==> HasId(merged[i].incidentId, s)
  }

  /** Kept incidents have distinct identifiers, each that of an incident that came in. */
  lemma {:induction false} MergeAllNames(s: seq<Incident>, score: Scorer, maxContext: nat)
    requires DistinctIncidents(s)
    ensures DistinctIncidents(MergeAll(s, score, maxContext)) && NamesFrom(MergeAll(s, score, maxContext), s)
  {
    if s != [] {
      var n := |s| - 1;
      MergeAllNames(s[..n], score, maxContext);
      var merged := MergeAll(s[..n], score, maxContext);
      StepKeeps(merged, s[n], score, maxContext);
      NamesExtend(merged, MergeStep(merged, s[n], score, maxContext), s);
    }
  }

  lemma {:induction false} NamesExtend(merged: seq<Incident>, after: seq<Incident>, s: seq<Incident>)
    requires s != [] && DistinctIncidents(s) && DistinctIncidents(merged) && NamesFrom(merged, s[..|s| - 1])
    requires |merged| <= |after| <= |merged| + 1
    requires forall j :: 0 <= j < |merged| ==> after[j].incidentId == merged[j].incidentId
    requires |after| == |merged| + 1 ==> after[|merged|] == s[|s| - 1]
    ensures DistinctIncidents(after) && NamesFrom(after, s)
  {
    var n := |s| - 1;
    forall i | 0 <= i < |after|
      ensures HasId(after[i].incidentId, s)
      ensures i < |merged| ==> after[i].incidentId != s[n].incidentId {
      if i < |merged| {
        assert HasId(merged[i].incidentId, s[..n]);
        var j :| 0 <= j < n && s[..n][j].incidentId == merged[i].incidentId;
        assert s[j].incidentId == after[i].incidentId;
      } else {
        assert s[n].incidentId == after[i].incidentId;
      }
    }
  }

  /** The incidents left are shown by first sighting, then by identifier. */
  lemma {:induction false} ShownInOrder(incidents: seq<Incident>, score: Scorer, maxContext: nat, i: nat, j: nat)
    requires DistinctIncidents(incidents) && i < j < |Remaining(incidents, score, maxContext)|
    ensures var r := Remaining(incidents, score, maxContext);
      || r[i].firstSeen < r[j].firstSeen
      || (r[i].firstSeen == r[j].firstSeen && StrLess(r[i].incidentId, r[j].incidentId))
  {
    var ordered := SortBy(incidents, KeeperBefore);
    OrdersAreTotal(incidents);
    SameMultisetSameElements(ordered, incidents);
    SortByAscending(incidents, KeeperBefore);
    MergeAllNames(ordered, score, maxContext);
    var merged := MergeAll(ordered, score, maxContext);
    OrdersAreTotal(merged);
    SortByAscending(merged, ShownBefore);
    var r := Remaining(incidents, score, maxContext);
    assert ShownBefore(r[i], r[j]);
  }
}
