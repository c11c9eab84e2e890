/** Detection signals and the order of precedence among them. Times are microseconds. */
module Signals {
  import opened Ordering
  import Clustering

  datatype Severity = Informational | Low | Medium | High | Critical

  datatype Evidence = Evidence(eventId: string, source: string, reason: string, quote: string)

  datatype Signal = Signal(
    signalId: string,
    ruleId: string,
    ruleName: string,
    signalType: string,
    family: string,
    severity: Severity,
    confidence: real,
    firstSeen: int,
    lastSeen: int,
    eventIds: set<string>,
    primaryEntity: string,
    targets: set<string>,
    techniques: set<string>,
    evidence: seq<Evidence>,
    metricSources: set<string>)

  /** `INCIDENT_MERGE_WINDOW_SECONDS` and `INCIDENT_EVENT_OVERLAP_THRESHOLD`. */
  datatype Params = Params(windowSeconds: int, threshold: real)

  const MICROS: int := 1_000_000
  const CROSS_PRIMARY_FAMILIES: set<string> := {"firewall_exposure", "firewall_policy"}

  const PRECEDENCE_LEVELS: seq<seq<string>> := [
    ["scan_followed_by_allowed_connection", "blocked_then_allowed_same_service",
     "spi_followed_by_allowed_connection"],
    ["critical_management_service_exposed", "dnat_sensitive_service_exposure",
     "wan_to_lan_sensitive_service_allowed", "multi_source_allowed_sensitive_service",
     "wan_to_dmz_administrative_service_allowed", "inbound_sensitive_service_allowed"],
    ["rdp_probe", "ssh_probe", "smb_probe", "vnc_probe", "winrm_probe", "mssql_probe", "oracle_probe",
     "mysql_probe", "postgresql_probe", "redis_probe", "elasticsearch_probe", "mongodb_probe",
     "docker_daemon_probe", "kubernetes_api_probe", "kubelet_probe", "telnet_probe", "ftp_probe",
     "web_admin_panel_probe", "database_service_probe", "kubernetes_service_probe",
     "legacy_cleartext_service_probe"],
    ["low_and_slow_horizontal_scan", "low_and_slow_vertical_scan", "internal_lateral_scan",
     "subnet_sweep", "distributed_scan", "multi_service_sweep"],
    ["horizontal_scan", "vertical_scan"],
    ["repeated_blocked_scanner"]
  ]

  function PositionIn(names: seq<string>, name: string): (i: nat)
    ensures i <= |names|
    ensures i < |names| ==> names[i] == name
  {
    if names == [] || names[0] == name then 0 else 1 + PositionIn(names[1..], name)
  }

  /** (level, order within the level); types that are not listed share the last level. */
  function PrecedenceLevel(levels: seq<seq<string>>, first: nat, signalType: string): (nat, nat) {
    if levels == [] then (first, 0)
    else
      var i := PositionIn(levels[0], signalType);
      if i < |levels[0]| then (first, i) else PrecedenceLevel(levels[1..], first + 1, signalType)
  }

  function SeverityRank(s: Severity): nat {
    match s
    case Informational => 0
    case Low => 1
    case Medium => 2
    case High => 3
    case Critical => 4
  }

  datatype Rank = Rank(level: nat, within: nat, severity: nat, confidence: real, firstSeen: int,
                       ruleId: string, signalType: string, signalId: string)

  function RankOf(s: Signal): Rank {
    var level := PrecedenceLevel(PRECEDENCE_LEVELS, 1, s.signalType);
    Rank(level.0, level.1, SeverityRank(s.severity), s.confidence, s.firstSeen,
         s.ruleId, s.signalType, s.signalId)
  }

  /** Level, order in the level, severity (higher first), confidence (higher first), time, then names. */
  predicate RankLess(a: Rank, b: Rank) {
    if a.level != b.level then a.level < b.level
    else if a.within != b.within then a.within < b.within
    else if a.severity != b.severity then a.severity > b.severity
    else if a.confidence != b.confidence then a.confidence > b.confidence
    else if a.firstSeen != b.firstSeen then a.firstSeen < b.firstSeen
    else if a.ruleId != b.ruleId then StrLess(a.ruleId, b.ruleId)
    else if a.signalType != b.signalType then StrLess(a.signalType, b.signalType)
    else StrLess(a.signalId, b.signalId)
  }

  /** `a` comes before `b` in order of precedence. */
  predicate Precedes(a: Signal, b: Signal) {
    RankLess(RankOf(a), RankOf(b))
  }

  lemma {:induction false} RankLessTransitive(a: Rank, b: Rank, c: Rank)
    requires RankLess(a, b) && RankLess(b, c)
    ensures RankLess(a, c)
  {
    if a.ruleId != b.ruleId && b.ruleId != c.ruleId && a.firstSeen == b.firstSeen == c.firstSeen {
      if StrLess(a.ruleId, b.ruleId) && StrLess(b.ruleId, c.ruleId) {
        StrLessTransitive(a.ruleId, b.ruleId, c.ruleId);
        StrLessIrreflexive(a.ruleId);
      }
    } else if a.signalType != b.signalType && b.signalType != c.signalType {
      if StrLess(a.signalType, b.signalType) && StrLess(b.signalType, c.signalType) {
        StrLessTransitive(a.signalType, b.signalType, c.signalType);
        StrLessIrreflexive(a.signalType);
      }
    } else if StrLess(a.signalId, b.signalId) && StrLess(b.signalId, c.signalId) {
      StrLessTransitive(a.signalId, b.signalId, c.signalId);
    }
  }

  ghost predicate DistinctIds(s: set<Signal>) {
    forall a, b :: a in s && b in s && a.signalId == b.signalId ==> a == b
  }

  /** The final tie-break on the signal id makes precedence a total order. */
  lemma {:induction false} PrecedesIsTotal(s: set<Signal>)
    requires DistinctIds(s)
    ensures StrictOrder(Precedes) && TotalOn(Precedes, s)
  {
    PrecedesIsStrict();
    forall a, b | a in s && b in s && a != b ensures Precedes(a, b) || Precedes(b, a) {
      StrLessTotal(a.signalId, b.signalId);
      if a.ruleId != b.ruleId { StrLessTotal(a.ruleId, b.ruleId); }
      if a.signalType != b.signalType { StrLessTotal(a.signalType, b.signalType); }
    }
  }

  lemma {:induction false} PrecedesIsStrict()
    ensures StrictOrder(Precedes)
  {
    forall a: Signal ensures !Precedes(a, a) { StrLessIrreflexive(a.signalId); }
    forall a, b, c | Precedes(a, b) && Precedes(b, c) ensures Precedes(a, c) {
      RankLessTransitive(RankOf(a), RankOf(b), RankOf(c));
    }
  }

  // ---------------------------------------------------------------- which of two signals comes first

  predicate ListedAt(levels: seq<seq<string>>, signalType: string, i: nat, j: nat) {
    i < |levels| && j < |levels[i]| && levels[i][j] == signalType
  }

  /** `x` is listed in a level, at a place before every place where `y` is. */
  ghost predicate ListedBefore(levels: seq<seq<string>>, x: string, y: string) {
    exists i: nat, j: nat :: ListedAt(levels, x, i, j) && LaterThan(levels, y, i, j)
  }

  ghost predicate LaterThan(levels: seq<seq<string>>, y: string, i: nat, j: nat) {
    forall k: nat, l: nat :: ListedAt(levels, y, k, l) ==> i < k || (i == k && j < l)
  }

  /** The type of `x` belongs to an earlier level than that of `y`, or to an earlier place in its level; types
      that are not listed come last. */
  ghost predicate EarlierType(x: Signal, y: Signal) { ListedBefore(PRECEDENCE_LEVELS, x.signalType, y.signalType) }

  lemma {:induction false} FirstPosition(names: seq<string>, name: string)
    ensures forall k :: 0 <= k < PositionIn(names, name) ==> names[k] != name
  {
    if names != [] && names[0] != name {
      FirstPosition(names[1..], name);
      forall k | 0 <= k < PositionIn(names, name) ensures names[k] != name {
        if k > 0 { assert names[k] == names[1..][k - 1]; }
      }
    }
  }

  /** The level found is the first that lists the type, and the place the first in it. */
  lemma {:induction false} LevelFound(levels: seq<seq<string>>, first: nat, signalType: string)
    ensures var (level, within) := PrecedenceLevel(levels, first, signalType);
      && first <= level <= first + |levels|
      && (level < first + |levels| ==> within < |levels[level - first]| && levels[level - first][within] == signalType)
      && (level == first + |levels| ==> within == 0)
      && forall k, l :: 0 <= k < |levels| && 0 <= l < |levels[k]| && levels[k][l] == signalType ==>
           level - first < k || (level - first == k && within <= l)
  {
    if levels != [] {
      var i := PositionIn(levels[0], signalType);
      FirstPosition(levels[0], signalType);
      if i == |levels[0]| {
        LevelFound(levels[1..], first + 1, signalType);
        assert forall l :: 0 <= l < |levels[0]| ==> levels[0][l] != signalType;
        assert forall k :: 0 < k < |levels| ==> levels[k] == levels[1..][k - 1];
      }
    }
  }

  /** The levels, compared, are the listing. */
  lemma {:induction false} LevelsCompare(levels: seq<seq<string>>, x: string, y: string)
    ensures var (i, j) := PrecedenceLevel(levels, 1, x);
      var (k, l) := PrecedenceLevel(levels, 1, y);
      ListedBefore(levels, x, y) <==> i < k || (i == k && j < l)
  {
    LevelFound(levels, 1, x);
    LevelFound(levels, 1, y);
    var (i, j) := PrecedenceLevel(levels, 1, x);
    var (k, l) := PrecedenceLevel(levels, 1, y);
    if i <= |levels| { assert ListedAt(levels, x, i - 1, j); }
    if k <= |levels| { assert ListedAt(levels, y, k - 1, l); }
    if i < k || (i == k && j < l) { assert LaterThan(levels, y, i - 1, j); }
  }

  /** Severities from the highest down. */
  const SEVERITIES: seq<Severity> := [Critical, High, Medium, Low, Informational]

  ghost predicate MoreSevere(a: Severity, b: Severity) {
    exists i, j :: 0 <= i < j < |SEVERITIES| && SEVERITIES[i] == a && SEVERITIES[j] == b
  }

  lemma {:induction false} SeveritiesCompare(a: Severity, b: Severity)
    ensures MoreSevere(a, b) <==> SeverityRank(a) > SeverityRank(b)
  {
    assert SEVERITIES[0] == Critical && SEVERITIES[1] == High && SEVERITIES[2] == Medium && SEVERITIES[3] == Low
           && SEVERITIES[4] == Informational;
  }

  /** Between signals whose types are listed at the same place or not at all: the more severe first, then the
      more confident, then the earlier, then by the names of rule, type and signal. */
  ghost predicate Outweighs(a: Signal, b: Signal) {
    || MoreSevere(a.severity, b.severity)
    || (a.severity == b.severity && a.confidence > b.confidence)
    || (a.severity == b.severity && a.confidence == b.confidence && a.firstSeen < b.firstSeen)
    || (a.severity == b.severity && a.confidence == b.confidence && a.firstSeen == b.firstSeen && NamedBefore(a, b))
  }

  predicate NamedBefore(a: Signal, b: Signal) {
    || (a.ruleId != b.ruleId && StrLess(a.ruleId, b.ruleId))
    || (a.ruleId == b.ruleId && a.signalType != b.signalType && StrLess(a.signalType, b.signalType))
    || (a.ruleId == b.ruleId && a.signalType == b.signalType && StrLess(a.signalId, b.signalId))
  }

  /** Which of two signals comes first, in terms of the lists of types and the fields of the signals. */
  lemma {:induction false} PrecedesExactly(a: Signal, b: Signal)
    ensures Precedes(a, b) <==>
      || EarlierType(a, b)
      || (!EarlierType(b, a) && Outweighs(a, b))
  {
    LevelsCompare(PRECEDENCE_LEVELS, a.signalType, b.signalType);
    LevelsCompare(PRECEDENCE_LEVELS, b.signalType, a.signalType);
    SeveritiesCompare(a.severity, b.severity);
    SeveritiesCompare(b.severity, a.severity);
  }

  predicate Lists(names: seq<string>, x: string) { exists k :: 0 <= k < |names| && names[k] == x }

  lemma {:induction false} NotListed(names: seq<string>, x: string)
    requires !Lists(names, x)
    ensures PositionIn(names, x) == |names|
  {}

  lemma {:induction false} HeadLevel(levels: seq<seq<string>>, first: nat, n: nat, x: string)
    requires n <= |levels| && forall m :: 0 <= m < n ==> !Lists(levels[m], x)
    requires n < |levels| ==> levels[n] != [] && levels[n][0] == x
    ensures PrecedenceLevel(levels, first, x) == (first + n, 0)
  {
    if n > 0 {
      NotListed(levels[0], x);
      forall m | 0 <= m < n - 1 ensures !Lists(levels[1..][m], x) { assert levels[1..][m] == levels[m + 1]; }
      HeadLevel(levels[1..], first + 1, n - 1, x);
    }
  }

  function LevelOf(x: string): nat { PrecedenceLevel(PRECEDENCE_LEVELS, 1, x).0 }

  /** The first three levels: a sequence that ends in an allowed connection, an exposure, a probe of a
      service. */
  lemma {:induction false} TopLevels()
    ensures LevelOf("scan_followed_by_allowed_connection") == 1
    ensures LevelOf("critical_management_service_exposed") == 2
    ensures LevelOf("rdp_probe") == 3
  {
    HeadLevel(PRECEDENCE_LEVELS, 1, 0, "scan_followed_by_allowed_connection");
    HeadLevel(PRECEDENCE_LEVELS, 1, 1, "critical_management_service_exposed");
    HeadLevel(PRECEDENCE_LEVELS, 1, 2, "rdp_probe");
  }

  // ---------------------------------------------------------------- relatedness of two signals

  /** Shared events over the smaller event set; 0 when either set is empty. */
  function OverlapRatio(a: Signal, b: Signal): (r: real)
    ensures 0.0 <= r <= 1.0
    ensures r > 0.0 <==> a.eventIds * b.eventIds != {}
  {
    SubsetSize(a.eventIds * b.eventIds, a.eventIds);
    SubsetSize(a.eventIds * b.eventIds, b.eventIds);
    OverlapRatioValue(|a.eventIds * b.eventIds|, |a.eventIds|, |b.eventIds|)
  }

  function OverlapRatioValue(shared: nat, left: nat, right: nat): (r: real)
    requires shared <= left && shared <= right
    ensures 0.0 <= r <= 1.0 && (r > 0.0 <==> shared > 0)
  {
    if left == 0 || right == 0 then 0.0
    else
      var smaller := if left < right then left else right;
      assert 0.0 <= shared as real <= smaller as real;
      shared as real / smaller as real
  }

  predicate WindowsCompatible(a: Signal, b: Signal, windowSeconds: int) {
    || (a.firstSeen <= b.lastSeen && b.firstSeen <= a.lastSeen)
    || (var left := b.firstSeen - a.lastSeen;
        var right := a.firstSeen - b.lastSeen;
        (if left > right then left else right) <= windowSeconds * MICROS)
  }

  function EntityScope(s: Signal): set<string> {
    s.targets + if s.primaryEntity != "" then {s.primaryEntity} else {}
  }

  predicate CrossPrimaryAllowed(a: Signal, b: Signal, windowSeconds: int) {
    && a.family in CROSS_PRIMARY_FAMILIES
    && b.family in CROSS_PRIMARY_FAMILIES
    && a.eventIds != {} && a.eventIds == b.eventIds
    && EntityScope(a) * EntityScope(b) != {}
    && WindowsCompatible(a, b, windowSeconds)
  }

  predicate MayCorrelate(a: Signal, b: Signal, p: Params) {
    if a.primaryEntity != "" && b.primaryEntity != "" && a.primaryEntity == b.primaryEntity then
      && WindowsCompatible(a, b, p.windowSeconds)
      && a.eventIds * b.eventIds != {}
      && OverlapRatio(a, b) >= p.threshold
    else
      CrossPrimaryAllowed(a, b, p.windowSeconds)
  }

  /** What clustering needs to know about signals. */
  function CorrelationRules(p: Params): Clustering.Rules<Signal> {
    Clustering.Rules(Precedes, (a, b) => MayCorrelate(a, b, p), OverlapRatio)
  }

  /** Correlation needs shared events, whatever the threshold, and does not depend on which
      signal is asked first. */
  lemma {:induction false} CorrelationIsSymmetricAndEvidenced(a: Signal, b: Signal, p: Params)
    ensures MayCorrelate(a, b, p) <==> MayCorrelate(b, a, p)
    ensures MayCorrelate(a, b, p) ==> a.eventIds * b.eventIds != {}
  {
    assert a.eventIds * b.eventIds == b.eventIds * a.eventIds;
    assert EntityScope(a) * EntityScope(b) == EntityScope(b) * EntityScope(a);
    assert a.eventIds == b.eventIds ==> a.eventIds * b.eventIds == a.eventIds;
  }

  /** A moment of one window and a moment of the other are the same, or at most `reach` apart. */
  ghost predicate WithinReach(first: int, last: int, first': int, last': int, reach: int) {
    exists t, u :: first <= t <= last && first' <= u <= last' && Apart(t, u, reach)
  }

  predicate Apart(t: int, u: int, reach: int) { t == u || -reach <= t - u <= reach }

  /** Windows are compatible when some moments of them are close enough. */
  lemma {:induction false} CompatibleWithinReach(a: Signal, b: Signal, windowSeconds: int)
    requires a.firstSeen <= a.lastSeen && b.firstSeen <= b.lastSeen
    ensures WindowsCompatible(a, b, windowSeconds)
      <==> WithinReach(a.firstSeen, a.lastSeen, b.firstSeen, b.lastSeen, windowSeconds * 1_000_000)
  {
    var t := if a.firstSeen > b.lastSeen then a.firstSeen else if a.lastSeen < b.firstSeen then a.lastSeen
             else if a.firstSeen > b.firstSeen then a.firstSeen else b.firstSeen;
    var u := if a.firstSeen > b.lastSeen then b.lastSeen else if a.lastSeen < b.firstSeen then b.firstSeen else t;
    assert WindowsCompatible(a, b, windowSeconds) ==> Apart(t, u, windowSeconds * 1_000_000);
  }

  predicate Names(s: Signal, entity: string) {
    entity in s.targets || (entity == s.primaryEntity && entity != "")
  }

  /** Two signals about the same entity share the given part of one of their event sets. */
  ghost predicate SharesEnough(a: Signal, b: Signal, threshold: real) {
    var shared := |a.eventIds * b.eventIds| as real;
    && (exists e :: e in a.eventIds && e in b.eventIds)
    && (shared >= threshold * |a.eventIds| as real || shared >= threshold * |b.eventIds| as real)
  }

  /** Two firewall signals about different entities rest on the very same events and name a common entity. */
  ghost predicate SameExposure(a: Signal, b: Signal) {
    && a.family in {"firewall_exposure", "firewall_policy"} && b.family in {"firewall_exposure", "firewall_policy"}
    && (exists e :: e in a.eventIds) && (forall e :: e in a.eventIds <==> e in b.eventIds)
    && exists entity :: Names(a, entity) && Names(b, entity)
  }

  lemma {:induction false} RatioReaches(shared: nat, left: nat, right: nat, threshold: real)
    requires 0 < shared <= left && shared <= right
    ensures OverlapRatioValue(shared, left, right) >= threshold
      <==> shared as real >= threshold * left as real || shared as real >= threshold * right as real
  {
    Quotient(shared as real, left as real, threshold);
    Quotient(shared as real, right as real, threshold);
    if left < right { SmallerPart(shared as real, left as real, right as real, threshold); }
    else { SmallerPart(shared as real, right as real, left as real, threshold); }
  }

  lemma {:induction false} Quotient(x: real, y: real, t: real)
    requires y > 0.0
    ensures x / y >= t <==> x >= t * y
  {
    var q := x / y;
    assert q * y == x;
    Scaled(q, t, y);
    Scaled(t, q, y);
  }

  lemma {:induction false} Scaled(a: real, b: real, y: real)
    requires y > 0.0
    ensures a < b <==> a * y < b * y
  {
    var d := b - a;
    assert b * y == a * y + d * y;
    assert d > 0.0 <==> d * y > 0.0;
  }

  lemma {:induction false} SmallerPart(x: real, small: real, large: real, t: real)
    requires 0.0 < small <= large && x > 0.0
    ensures x >= t * large ==> x >= t * small
  {
    if t >= 0.0 { assert t * (large - small) >= 0.0; } else { assert t * small <= 0.0; }
  }

  /** When two signals with ordered windows belong together. */
  lemma {:induction false} CorrelatesExactly(a: Signal, b: Signal, p: Params)
    requires a.firstSeen <= a.lastSeen && b.firstSeen <= b.lastSeen
    ensures MayCorrelate(a, b, p) <==>
      && WithinReach(a.firstSeen, a.lastSeen, b.firstSeen, b.lastSeen, p.windowSeconds * 1_000_000)
      && if a.primaryEntity == b.primaryEntity != "" then SharesEnough(a, b, p.threshold) else SameExposure(a, b)
  {
    CompatibleWithinReach(a, b, p.windowSeconds);
    if a.primaryEntity == b.primaryEntity != "" {
      var shared := a.eventIds * b.eventIds;
      SubsetSize(shared, a.eventIds);
      SubsetSize(shared, b.eventIds);
      if e :| e in a.eventIds && e in b.eventIds {
        assert e in shared;
        RatioReaches(|shared|, |a.eventIds|, |b.eventIds|, p.threshold);
      } else {
        assert shared == {};
      }
    } else {
      ExposureExactly(a, b);
    }
  }

  lemma {:induction false} ExposureExactly(a: Signal, b: Signal)
    ensures SameExposure(a, b) <==>
      && a.family in CROSS_PRIMARY_FAMILIES && b.family in CROSS_PRIMARY_FAMILIES
      && a.eventIds != {} && a.eventIds == b.eventIds && EntityScope(a) * EntityScope(b) != {}
  {
    if EntityScope(a) * EntityScope(b) != {} {
      var entity :| entity in EntityScope(a) * EntityScope(b);
      assert Names(a, entity) && Names(b, entity);
    }
    if entity :| Names(a, entity) && Names(b, entity) {
      assert entity in EntityScope(a) * EntityScope(b);
    }
  }

  // ---------------------------------------------------------------- clustering of signals

  /** `cluster_signals`. */
  method ClusterSignals(signals: seq<Signal>, p: Params) returns (clusters: seq<Clustering.Cluster<Signal>>)
    requires Distinct(signals) && DistinctIds(Elements(signals))
    ensures Clustering.Canonical(Elements(signals), clusters, CorrelationRules(p))
    ensures forall i, j :: 0 <= i < |clusters| && 0 < j < |clusters[i]| ==> Leads(clusters[i][0], clusters[i][j])
  {
    PrecedesIsTotal(Elements(signals));
    SortByAscending(signals, Precedes);
    clusters := Clustering.ClusterInOrder(SortBy(signals, Precedes), CorrelationRules(p), (s: Signal) => s.signalId);
    forall i, j | 0 <= i < |clusters| && 0 < j < |clusters[i]| ensures Leads(clusters[i][0], clusters[i][j]) {
      Clustering.AnchorFirst(Elements(signals), clusters, CorrelationRules(p), i, j);
      PrecedesLeads(clusters[i][0], clusters[i][j]);
    }
  }

  /** A member belongs with its anchor, which comes before it. Of the other anchors that do, none shares a larger
      part of its events, and those that share as large a part come later. Anchors do not belong together. */
  lemma {:induction false} JoinsBestAnchor(signals: set<Signal>, c: seq<Clustering.Cluster<Signal>>, p: Params,
      i: nat, j: nat, x: Signal)
    requires Clustering.Canonical(signals, c, CorrelationRules(p))
    requires i < |c| && j < |c| && i != j && x in c[i] && x != c[i][0]
    ensures Precedes(c[i][0], x) && MayCorrelate(c[i][0], x, p) && !MayCorrelate(c[i][0], c[j][0], p)
    ensures Precedes(c[j][0], x) && MayCorrelate(c[j][0], x, p) ==>
      || OverlapRatio(c[i][0], x) > OverlapRatio(c[j][0], x)
      || (OverlapRatio(c[i][0], x) == OverlapRatio(c[j][0], x) && Precedes(c[i][0], c[j][0]))
  {
    var r := CorrelationRules(p);
    assert Clustering.Joins(x, i, c, r);
    if i < j {
      assert !r.correlates(c[i][0], c[j][0]);
    } else {
      assert !r.correlates(c[j][0], c[i][0]);
      CorrelationIsSymmetricAndEvidenced(c[i][0], c[j][0], p);
    }
  }

  /** Why one signal is the anchor and not the other: no later level, and at the same type no less severe, or
      as severe and no less confident. */
  ghost predicate Leads(anchor: Signal, member: Signal) {
    && !EarlierType(member, anchor)
    && (member.signalType == anchor.signalType ==>
          && !MoreSevere(member.severity, anchor.severity)
          && (member.severity == anchor.severity ==> anchor.confidence >= member.confidence))
  }

  lemma {:induction false} PrecedesLeads(a: Signal, b: Signal)
    requires Precedes(a, b)
    ensures Leads(a, b)
  {
    PrecedesExactly(a, b);
    LevelsCompare(PRECEDENCE_LEVELS, a.signalType, b.signalType);
    LevelsCompare(PRECEDENCE_LEVELS, b.signalType, a.signalType);
    SeveritiesCompare(a.severity, b.severity);
    SeveritiesCompare(b.severity, a.severity);
  }

  /** The clusters depend only on which signals there are, not on the order they arrive in. */
  lemma {:induction false} ClusterOrderIndependent(signals: seq<Signal>, permuted: seq<Signal>, p: Params,
      c: seq<Clustering.Cluster<Signal>>, d: seq<Clustering.Cluster<Signal>>)
    requires multiset(permuted) == multiset(signals)
    requires Clustering.Canonical(Elements(signals), c, CorrelationRules(p))
    requires Clustering.Canonical(Elements(permuted), d, CorrelationRules(p))
    ensures c == d
  {
    SameMultisetSameElements(permuted, signals);
    PrecedesIsStrict();
    Clustering.CanonicalUnique(Elements(signals), c, d, CorrelationRules(p));
  }
}
