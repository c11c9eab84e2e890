/** Severity and confidence of an incident: both depend only on which events and signals it has. */
module Scoring {
  import opened Ordering
  import opened Signals

  /** What scoring, titles and context selection read of a canonical event; `destination` and `port`
      are the effective ones, after translation. */
  datatype Event = Event(
    eventId: string,
    timestamp: Option<int>,
    srcIp: string,
    destination: string,
    port: Option<int>,
    allowed: bool,
    blocked: bool)

  type EventMap = map<string, Event>

  datatype Asset = Standard | Sensitive | CriticalAsset

  datatype Facts = Facts(
    family: string,
    total: nat,
    allowed: nat,
    blocked: nat,
    destinations: nat,
    asset: Asset,
    targeted: bool,
    maxSensitivePorts: nat)

  const RECON_FAMILIES: set<string> := {"network_scanning", "service_probing"}
  const EVENT_AWARE_FAMILIES: set<string> :=
    RECON_FAMILIES + {"firewall_exposure", "firewall_policy", "network_intrusion_candidate"}
  const SENSITIVE_SERVICE_PORTS: set<int> := {20, 21, 22, 23, 135, 139, 389, 445, 1433, 3306, 3389, 5432, 5900}
  const CRITICAL_MANAGEMENT_PORTS: set<int> := {161, 623, 2375, 5985, 6379, 9200, 10250, 11211, 27017}

  // ---------------------------------------------------------------- facts

  function Destinations(m: EventMap): set<string> {
    set k | k in m && m[k].destination != "" :: m[k].destination
  }

  function AllowedPorts(m: EventMap): set<int> {
    set k | k in m && m[k].allowed && m[k].port.Some? :: m[k].port.value
  }

  /** Allowed sensitive ports of one destination. */
  function SensitivePorts(m: EventMap, ids: set<string>, destination: string): set<int> {
    set k | k in ids && k in m && m[k].allowed && m[k].destination == destination
            && m[k].port.Some? && m[k].port.value in SENSITIVE_SERVICE_PORTS :: m[k].port.value
  }

  ghost predicate IsGreatest(r: nat, s: set<nat>) {
    (forall x :: x in s ==> x <= r) && (r == 0 || r in s)
  }

  lemma {:induction false} GreatestExists(s: set<nat>)
    ensures exists r: nat :: IsGreatest(r, s)
  {
    if s == {} {
      assert IsGreatest(0, s);
    } else {
      var x :| x in s;
      GreatestExists(s - {x});
      var r: nat :| IsGreatest(r, s - {x});
      assert s == (s - {x}) + {x};
      assert IsGreatest(if x > r then x else r, s);
    }
  }

  ghost function Greatest(s: set<nat>): (r: nat)
    ensures IsGreatest(r, s)
  {
    GreatestExists(s);
    var r: nat :| IsGreatest(r, s);
    r
  }

  function AssetValue(allowedPorts: set<int>): Asset {
    if allowedPorts * CRITICAL_MANAGEMENT_PORTS != {} then CriticalAsset
    else if allowedPorts * SENSITIVE_SERVICE_PORTS != {} then Sensitive
    else Standard
  }

  /** The facts of a set of events: how many, how they were treated, and what they reached. */
  ghost function FactsOf(m: EventMap, family: string): Facts {
    Facts(
      family,
      |m|,
      |set k | k in m && m[k].allowed|,
      |set k | k in m && m[k].blocked|,
      |Destinations(m)|,
      AssetValue(AllowedPorts(m)),
      |Destinations(m)| <= 2,
      Greatest(set d | d in Destinations(m) :: |SensitivePorts(m, m.Keys, d)|))
  }

  /** `derive_incident_severity_facts`. */
  method DeriveFacts(m: EventMap, family: string) returns (f: Facts)
    ensures f == FactsOf(m, family)
  {
    var allowed := set k | k in m && m[k].allowed;
    var blocked := set k | k in m && m[k].blocked;
    var destinations := Destinations(m);
    var asset := AssetValue(AllowedPorts(m));
    var byDestination := PortsByDestination(m, allowed);
    var most := MostPorts(byDestination);
    SizesMatch(m, byDestination, most);
    f := Facts(family, |m|, |allowed|, |blocked|, |destinations|, asset, |destinations| <= 2, most);
  }

  /** The dictionary holds exactly the sensitive ports of the allowed events in `done`. */
  ghost predicate Gathered(byDestination: map<string, set<int>>, m: EventMap, done: set<string>) {
    && (forall d :: d in byDestination ==> d in Destinations(m) && byDestination[d] == SensitivePorts(m, done, d))
    && (forall d :: d in Destinations(m) && d !in byDestination ==> SensitivePorts(m, done, d) == {})
  }

  /** The port an allowed event adds to its destination, if any. */
  function Adds(e: Event, d: string): set<int> {
    if e.allowed && e.destination == d && e.port.Some?
      && e.port.value in SENSITIVE_SERVICE_PORTS then {e.port.value} else {}
  }

  lemma {:induction false} PortsStep(m: EventMap, done: set<string>, k: string, d: string)
    requires k in m
    ensures SensitivePorts(m, done + {k}, d) == SensitivePorts(m, done, d) + Adds(m[k], d)
  {
    assert SensitivePorts(m, {k}, d) == Adds(m[k], d) by {
      if m[k].allowed && m[k].destination == d && m[k].port.Some? && m[k].port.value in SENSITIVE_SERVICE_PORTS {
        assert k in {k} && m[k].port.value in SensitivePorts(m, {k}, d);
      }
    }
    assert SensitivePorts(m, done + {k}, d) == SensitivePorts(m, done, d) + SensitivePorts(m, {k}, d);
  }

  function WithEvent(byDestination: map<string, set<int>>, e: Event): map<string, set<int>> {
    if e.destination != "" && e.port.Some? && e.port.value in SENSITIVE_SERVICE_PORTS then
      byDestination[e.destination :=
        (if e.destination in byDestination then byDestination[e.destination] else {}) + {e.port.value}]
    else byDestination
  }

  lemma {:induction false} GatherStep(byDestination: map<string, set<int>>, m: EventMap, done: set<string>, k: string)
    requires Gathered(byDestination, m, done) && k in m && m[k].allowed
    ensures Gathered(WithEvent(byDestination, m[k]), m, done + {k})
  {
    var e := m[k];
    var after := WithEvent(byDestination, e);
    assert e.destination != "" ==> e.destination in Destinations(m);
    forall d | d in Destinations(m)
      ensures d in after ==> after[d] == SensitivePorts(m, done + {k}, d)
      ensures d !in after ==> SensitivePorts(m, done + {k}, d) == {} {
      PortsStep(m, done, k, d);
    }
  }

  /** The dictionary from destination to its allowed sensitive ports. */
  method PortsByDestination(m: EventMap, allowed: set<string>) returns (byDestination: map<string, set<int>>)
    requires allowed == set k | k in m && m[k].allowed
    ensures Gathered(byDestination, m, m.Keys)
  {
    byDestination := map[];
    var todo := allowed;
    ghost var done := {};
    while todo != {}
      invariant done + todo == allowed && Gathered(byDestination, m, done)
      decreases todo
    {
      var k :| k in todo;
      GatherStep(byDestination, m, done, k);
      byDestination := WithEvent(byDestination, m[k]);
      todo, done := todo - {k}, done + {k};
    }
    assert forall d :: SensitivePorts(m, done, d) == SensitivePorts(m, m.Keys, d);
  }

  method MostPorts(byDestination: map<string, set<int>>) returns (most: nat)
    ensures IsGreatest(most, set d | d in byDestination :: |byDestination[d]|)
  {
    most := 0;
    var todo := byDestination.Keys;
    while todo != {}
      invariant todo <= byDestination.Keys
      invariant IsGreatest(most, set d | d in byDestination.Keys - todo :: |byDestination[d]|)
      decreases todo
    {
      var d :| d in todo;
      ghost var seen := set x | x in byDestination.Keys - todo :: |byDestination[x]|;
      todo := todo - {d};
      assert (set x | x in byDestination.Keys - todo :: |byDestination[x]|) == seen + {|byDestination[d]|};
      if |byDestination[d]| > most { most := |byDestination[d]|; }
    }
    assert (set d | d in byDestination.Keys - todo :: |byDestination[d]|) == set d | d in byDestination ::
      |byDestination[d]|;
  }

  lemma {:induction false} SizesMatch(m: EventMap, byDestination: map<string, set<int>>, most: nat)
    requires Gathered(byDestination, m, m.Keys)
    requires IsGreatest(most, set d | d in byDestination :: |byDestination[d]|)
    ensures most == Greatest(set d | d in Destinations(m) :: |SensitivePorts(m, m.Keys, d)|)
  {
    var found := set d | d in byDestination :: |byDestination[d]|;
    var all := set d | d in Destinations(m) :: |SensitivePorts(m, m.Keys, d)|;
    forall n | n in all ensures n in found || n == 0 {
      var d :| d in Destinations(m) && n == |SensitivePorts(m, m.Keys, d)|;
      assert d in byDestination ==> |byDestination[d]| in found;
    }
    forall n | n in found ensures n in all {
      var d :| d in byDestination && n == |byDestination[d]|;
      assert |SensitivePorts(m, m.Keys, d)| in all;
    }
    assert IsGreatest(most, all);
  }

  // ---------------------------------------------------------------- sums and sorted values

  function Map<T, R>(f: T -> R, s: seq<T>): (r: seq<R>)
    ensures |r| == |s|
    ensures forall i :: 0 <= i < |s| ==> r[i] == f(s[i])
  {
    seq(|s|, i requires 0 <= i < |s| => f(s[i]))
  }

  function Sum(s: seq<nat>): nat {
    if s == [] then 0 else s[0] + Sum(s[1..])
  }

  function Without<T>(s: seq<T>, i: nat): (r: seq<T>)
    requires i < |s|
    ensures multiset(s) == multiset(r) + multiset{s[i]}
    ensures |r| == |s| - 1
  {
    assert s == s[..i] + [s[i]] + s[i + 1..];
    s[..i] + s[i + 1..]
  }

  lemma {:induction false} TailMultiset<T>(a: seq<T>)
    requires a != []
    ensures multiset(a) == multiset(a[1..]) + multiset{a[0]}
  {
    assert a == [a[0]] + a[1..];
  }

  lemma {:induction false} Cancel<T>(a: multiset<T>, b: multiset<T>, x: T)
    requires a + multiset{x} == b + multiset{x}
    ensures a == b
  {
    assert a == (a + multiset{x}) - multiset{x};
    assert b == (b + multiset{x}) - multiset{x};
  }

  /** Where the head of `a` is in a permutation of it. */
  lemma {:induction false} HeadPosition<T(!new)>(a: seq<T>, b: seq<T>) returns (i: nat)
    requires multiset(a) == multiset(b) && a != []
    ensures i < |b| && b[i] == a[0] && multiset(a[1..]) == multiset(Without(b, i))
  {
    assert a[0] in multiset(b);
    i :| i < |b| && b[i] == a[0];
    TailMultiset(a);
    Cancel(multiset(a[1..]), multiset(Without(b, i)), a[0]);
  }

  lemma {:induction false} MapWithout<T(!new), R(!new)>(f: T -> R, b: seq<T>, i: nat)
    requires i < |b|
    ensures Map(f, Without(b, i)) == Without(Map(f, b), i)
  {}

  lemma {:induction false} MapPermutation<T(!new), R(!new)>(f: T -> R, a: seq<T>, b: seq<T>)
    requires multiset(a) == multiset(b)
    ensures multiset(Map(f, a)) == multiset(Map(f, b))
  {
    SameMultisetSameElements(a, b);
    if a != [] {
      var i := HeadPosition(a, b);
      MapPermutation(f, a[1..], Without(b, i));
      MapWithout(f, b, i);
      assert Map(f, a)[1..] == Map(f, a[1..]);
      TailMultiset(Map(f, a));
    }
  }

  lemma {:induction false} SumWithout(s: seq<nat>, i: nat)
    requires i < |s|
    ensures Sum(s) == s[i] + Sum(Without(s, i))
  {
    if i > 0 {
      SumWithout(s[1..], i - 1);
      assert Without(s, i) == [s[0]] + Without(s[1..], i - 1);
    } else {
      assert Without(s, 0) == s[1..];
    }
  }

  lemma {:induction false} SumPermutation(a: seq<nat>, b: seq<nat>)
    requires multiset(a) == multiset(b)
    ensures Sum(a) == Sum(b)
  {
    SameMultisetSameElements(a, b);
    if a != [] {
      var i := HeadPosition(a, b);
      SumPermutation(a[1..], Without(b, i));
      SumWithout(b, i);
    }
  }

  ghost predicate Descending(s: seq<real>) {
    forall i, j :: 0 <= i < j < |s| ==> s[i] >= s[j]
  }

  lemma {:induction false} InsertDescending(x: real, s: seq<real>)
    requires Descending(s)
    ensures Descending(Insert(x, s, (a: real, b: real) => a > b))
  {
    var gt := (a: real, b: real) => a > b;
    if s != [] && s[0] > x {
      InsertDescending(x, s[1..]);
      var r := Insert(x, s[1..], gt);
      forall j | 0 <= j < |r| ensures s[0] >= r[j] {
        assert r[j] in multiset(r);
        assert r[j] == x || r[j] in s[1..];
      }
    }
  }

  lemma {:induction false} SortDescending(s: seq<real>)
    ensures Descending(SortBy(s, (a: real, b: real) => a > b))
  {
    if s != [] {
      SortDescending(s[1..]);
      InsertDescending(s[0], SortBy(s[1..], (a: real, b: real) => a > b));
    }
  }

  lemma {:induction false} DescendingUnique(a: seq<real>, b: seq<real>)
    requires Descending(a) && Descending(b) && multiset(a) == multiset(b)
    ensures a == b
  {
    SameMultisetSameElements(a, b);
    if a != [] {
      SameHead(a, b);
      TailMultiset(a);
      TailMultiset(b);
      Cancel(multiset(a[1..]), multiset(b[1..]), a[0]);
      DescendingUnique(a[1..], b[1..]);
      assert a == [a[0]] + a[1..] && b == [b[0]] + b[1..];
    }
  }

  lemma {:induction false} SameHead(a: seq<real>, b: seq<real>)
    requires Descending(a) && Descending(b) && a != [] && b != [] && Elements(a) == Elements(b)
    ensures a[0] == b[0]
  {
    assert a[0] in Elements(b) && b[0] in Elements(a);
    var i :| 0 <= i < |b| && b[i] == a[0];
    var j :| 0 <= j < |a| && a[j] == b[0];
  }

  // ---------------------------------------------------------------- confidence

  function ConfidenceOf(s: Signal): real { s.confidence }

  /** `calculate_incident_confidence`: the mean of the three highest signal confidences. */
  function IncidentConfidence(signals: seq<Signal>): real {
    TopThreeMean(SortBy(Map(ConfidenceOf, signals), (a: real, b: real) => a > b))
  }

  function TopThreeMean(s: seq<real>): real {
    if |s| == 0 then 0.0
    else if |s| == 1 then s[0]
    else if |s| == 2 then (s[0] + s[1]) / 2.0
    else (s[0] + s[1] + s[2]) / 3.0
  }

  lemma {:induction false} ConfidencePermutation(a: seq<Signal>, b: seq<Signal>)
    requires multiset(a) == multiset(b)
    ensures IncidentConfidence(a) == IncidentConfidence(b)
  {
    var gt := (x: real, y: real) => x > y;
    MapPermutation(ConfidenceOf, a, b);
    SortDescending(Map(ConfidenceOf, a));
    SortDescending(Map(ConfidenceOf, b));
    DescendingUnique(SortBy(Map(ConfidenceOf, a), gt), SortBy(Map(ConfidenceOf, b), gt));
  }

  // ---------------------------------------------------------------- severity

  function EventCount(s: Signal): nat { |s.eventIds| }

  function AllTargets(signals: seq<Signal>): set<string> {
    set s, t | s in signals && t in s.targets :: t
  }

  function HighestRank(signals: seq<Signal>): (r: nat)
    ensures IsGreatest(r, set s | s in signals :: SeverityRank(s.severity))
  {
    if signals == [] then 0
    else
      var rest := HighestRank(signals[1..]);
      var rank := SeverityRank(signals[0].severity);
      assert forall s :: s in signals <==> s == signals[0] || s in signals[1..];
      assert (set s | s in signals :: SeverityRank(s.severity))
        == {rank} + set s | s in signals[1..] :: SeverityRank(s.severity);
      if rank > rest then rank else rest
  }

  function SeverityOfRank(rank: nat): Severity {
    match rank
    case 0 => Informational
    case 1 => Low
    case 2 => Medium
    case 3 => High
    case _ => Critical
  }

  function Raised(rank: nat): nat { if rank + 1 <= 4 then rank + 1 else 4 }

  function AssetRank(a: Asset): nat {
    match a
    case Standard => 2
    case Sensitive => 3
    case CriticalAsset => 4
  }

  /** Severity from signals alone, for families without event-aware facts. */
  function LegacySeverity(signals: seq<Signal>): Severity {
    var rank := HighestRank(signals);
    SeverityOfRank(if Sum(Map(EventCount, signals)) > 500 || |AllTargets(signals)| > 50 then Raised(rank) else rank)
  }

  function FactsSeverity(f: Facts): Severity {
    if f.allowed == 0 && f.family in RECON_FAMILIES then
      if f.destinations >= 25 then Medium else Low
    else if f.allowed > 0 then
      var base := AssetRank(f.asset);
      var focused := if f.targeted && f.maxSensitivePorts >= 2 then Raised(base) else base;
      SeverityOfRank(if f.total > 500 || f.destinations > 50 then Raised(focused) else focused)
    else Low
  }

  /** The same activity against more destinations. */
  ghost predicate Broader(g: Facts, f: Facts) {
    && f.targeted == (f.destinations <= 2) && g.targeted == (g.destinations <= 2)
    && f.destinations <= g.destinations && g == f.(destinations := g.destinations, targeted := g.targeted)
  }

  /** Severity is not monotone in the number of destinations: it falls exactly when allowed traffic stops
      being focused on at most two of them, there was something to lose, and breadth does not make up
      for it. */
  lemma {:induction false} BroaderIsMilderExactly(f: Facts, g: Facts)
    requires Broader(g, f)
    ensures SeverityRank(FactsSeverity(g)) < SeverityRank(FactsSeverity(f)) <==>
      && f.allowed > 0 && f.destinations <= 2 < g.destinations && f.maxSensitivePorts >= 2
      && AssetRank(f.asset) + (if f.total > 500 then 1 else 0) < 4
      && (f.total > 500 || g.destinations <= 50)
  {}

  predicate Hits(m: EventMap, k: string, destination: string, port: int) {
    k in m && m[k].allowed && !m[k].blocked && m[k].destination == destination && m[k].port == Some(port)
  }

  /** Four allowed connections: to ports 22 and 23 of `x`, and to port 80 of `y` and `z`. */
  ghost predicate FourHits(m: EventMap, ids: seq<string>, x: string, y: string, z: string) {
    && |ids| == 4 && Distinct(ids) && m.Keys == Elements(ids) && x != "" && y != "" && z != ""
    && Hits(m, ids[0], x, 22) && Hits(m, ids[1], x, 23) && Hits(m, ids[2], y, 80) && Hits(m, ids[3], z, 80)
  }

  lemma {:induction false} FourIds(ids: seq<string>, k: string)
    requires |ids| == 4
    ensures k in Elements(ids) <==> k == ids[0] || k == ids[1] || k == ids[2] || k == ids[3]
  {}

  lemma {:induction false} FourCounted(m: EventMap, ids: seq<string>, x: string, y: string, z: string)
    requires FourHits(m, ids, x, y, z)
    ensures |m| == 4 && |set k | k in m && m[k].allowed| == 4 && |set k | k in m && m[k].blocked| == 0
  {
    DistinctSize(ids);
    assert |m| == |m.Keys|;
    forall k | k in m ensures m[k].allowed && !m[k].blocked { FourIds(ids, k); }
    assert (set k | k in m && m[k].allowed) == m.Keys;
    assert (set k | k in m && m[k].blocked) == {};
  }

  lemma {:induction false} FourReached(m: EventMap, ids: seq<string>, x: string, y: string, z: string)
    requires FourHits(m, ids, x, y, z)
    ensures Destinations(m) == {x, y, z} && AllowedPorts(m) == {22, 23, 80}
  {
    forall k ensures k in m <==> k == ids[0] || k == ids[1] || k == ids[2] || k == ids[3] { FourIds(ids, k); }
    assert m[ids[0]].port.value in AllowedPorts(m) && m[ids[1]].port.value in AllowedPorts(m);
    assert m[ids[2]].port.value in AllowedPorts(m);
  }

  lemma {:induction false} FourSensitive(m: EventMap, ids: seq<string>, x: string, y: string, z: string)
    requires FourHits(m, ids, x, y, z)
    ensures SensitivePorts(m, m.Keys, x) == {22, 23}
    ensures forall d :: d != x ==> SensitivePorts(m, m.Keys, d) == {}
  {
    forall k ensures k in m <==> k == ids[0] || k == ids[1] || k == ids[2] || k == ids[3] { FourIds(ids, k); }
    assert m[ids[0]].port.value in SensitivePorts(m, m.Keys, x) && m[ids[1]].port.value in SensitivePorts(m, m.Keys, x);
  }

  lemma {:induction false} FourFacts(m: EventMap, ids: seq<string>, x: string, y: string, z: string, family: string)
    requires FourHits(m, ids, x, y, z)
    ensures var n := |{x, y, z}|; FactsOf(m, family) == Facts(family, 4, 4, 0, n, Sensitive, n <= 2, 2)
  {
    FourCounted(m, ids, x, y, z);
    FourReached(m, ids, x, y, z);
    FourSensitive(m, ids, x, y, z);
    assert AssetValue({22, 23, 80}) == Sensitive by {
      assert {22, 23, 80} * CRITICAL_MANAGEMENT_PORTS == {};
      assert 22 in {22, 23, 80} * SENSITIVE_SERVICE_PORTS;
    }
    FourMost(m, x, y, z);
  }

  lemma {:induction false} FourMost(m: EventMap, x: string, y: string, z: string)
    requires Destinations(m) == {x, y, z} && SensitivePorts(m, m.Keys, x) == {22, 23}
    requires forall d :: d != x ==> SensitivePorts(m, m.Keys, d) == {}
    ensures Greatest(set d | d in Destinations(m) :: |SensitivePorts(m, m.Keys, d)|) == 2
  {
    var sizes := set d | d in Destinations(m) :: |SensitivePorts(m, m.Keys, d)|;
    assert |{22, 23}| == 2;
    assert |SensitivePorts(m, m.Keys, x)| in sizes;
    forall n | n in sizes ensures n <= 2 {
      var d :| d in Destinations(m) && n == |SensitivePorts(m, m.Keys, d)|;
    }
    assert IsGreatest(2, sizes);
  }

  function Probe(id: string, destination: string, port: int): Event {
    Event(id, None, "", destination, Some(port), true, false)
  }

  /** Two ports of one host, and a third port of two hosts. */
  function Probes(y: string, z: string): EventMap {
    map["a" := Probe("a", "x", 22), "b" := Probe("b", "x", 23), "c" := Probe("c", y, 80), "d" := Probe("d", z, 80)]
  }

  lemma {:induction false} ProbesAreHits(y: string, z: string)
    requires y != "" && z != ""
    ensures FourHits(Probes(y, z), ["a", "b", "c", "d"], "x", y, z)
  {
    var ids := ["a", "b", "c", "d"];
    assert ids[0][0] != ids[1][0] && ids[0][0] != ids[2][0] && ids[0][0] != ids[3][0] && ids[1][0] != ids[2][0];
    assert ids[1][0] != ids[3][0] && ids[2][0] != ids[3][0];
    forall k ensures k in Probes(y, z).Keys <==> k in Elements(ids) { FourIds(ids, k); }
  }

  lemma {:induction false} ProbesFacts(y: string, z: string, n: nat, family: string)
    requires y != "" && z != "" && n == |{"x", y, z}|
    ensures FactsOf(Probes(y, z), family) == Facts(family, 4, 4, 0, n, Sensitive, n <= 2, 2)
  {
    ProbesAreHits(y, z);
    FourFacts(Probes(y, z), ["a", "b", "c", "d"], "x", y, z, family);
  }

  lemma {:induction false} HostCounts()
    ensures |{"x", "x", "x"}| == 1 && |{"x", "y", "z"}| == 3
  {
    assert "x"[0] != "y"[0] && "x"[0] != "z"[0] && "y"[0] != "z"[0];
    assert {"x", "x", "x"} == {"x"};
  }

  const FOCUSED: Facts := Facts("firewall_exposure", 4, 4, 0, 1, Sensitive, true, 2)

  const SPREAD: Facts := Facts("firewall_exposure", 4, 4, 0, 3, Sensitive, false, 2)

  /** It does fall: four allowed connections to one host are critical, and high when two of them go to two
      other hosts. */
  lemma {:induction false} BroaderAndMilder()
    ensures FactsOf(Probes("x", "x"), "firewall_exposure") == FOCUSED
    ensures FactsOf(Probes("y", "z"), "firewall_exposure") == SPREAD
    ensures Broader(SPREAD, FOCUSED) && FactsSeverity(FOCUSED) == Critical && FactsSeverity(SPREAD) == High
  {
    HostCounts();
    ProbesFacts("x", "x", 1, "firewall_exposure");
    ProbesFacts("y", "z", 3, "firewall_exposure");
  }

  /** `calculate_incident_severity`. */
  function IncidentSeverity(signals: seq<Signal>, facts: Option<Facts>): Severity {
    if signals == [] then Informational
    else if facts.None? || facts.value.family !in EVENT_AWARE_FAMILIES then LegacySeverity(signals)
    else FactsSeverity(facts.value)
  }

  lemma {:induction false} SeverityPermutation(a: seq<Signal>, b: seq<Signal>, facts: Option<Facts>)
    requires multiset(a) == multiset(b)
    ensures IncidentSeverity(a, facts) == IncidentSeverity(b, facts)
  {
    SameMultisetSameElements(a, b);
    SameElementsSameScores(a, b);
    MapPermutation(EventCount, a, b);
    SumPermutation(Map(EventCount, a), Map(EventCount, b));
  }

  lemma {:induction false} SameElementsSameScores(a: seq<Signal>, b: seq<Signal>)
    requires Elements(a) == Elements(b)
    ensures AllTargets(a) == AllTargets(b) && HighestRank(a) == HighestRank(b)
  {
    assert forall s :: s in a <==> s in Elements(a);
    assert forall s :: s in b <==> s in Elements(b);
    assert (set s | s in a :: SeverityRank(s.severity)) == (set s | s in b :: SeverityRank(s.severity));
  }

  // ---------------------------------------------------------------- scores in terms of events and signals

  ghost predicate AnyAllowed(m: EventMap) { exists k :: k in m && m[k].allowed }

  /** Some allowed event went to one of the ports. */
  ghost predicate Reaches(m: EventMap, ports: set<int>) {
    exists k :: k in m && m[k].allowed && m[k].port.Some? && m[k].port.value in ports
  }

  predicate SensitiveHit(m: EventMap, k: string) {
    k in m && m[k].allowed && m[k].destination != "" && m[k].port.Some? && m[k].port.value in SENSITIVE_SERVICE_PORTS
  }

  /** At most two destinations, and two sensitive ports of one of them were reached. */
  ghost predicate Focused(m: EventMap) {
    && |Destinations(m)| <= 2
    && exists k, l, d :: TwoHits(m, k, l, d)
  }

  predicate Large(m: EventMap) { |m| > 500 || |Destinations(m)| > 50 }

  lemma {:induction false} AllowedCounted(m: EventMap)
    ensures |set k | k in m && m[k].allowed| > 0 <==> AnyAllowed(m)
  {
    var allowed := set k | k in m && m[k].allowed;
    if k :| k in m && m[k].allowed { assert k in allowed; }
    if |allowed| > 0 { var k :| k in allowed; }
  }

  lemma {:induction false} Member<T>(s: set<T>) returns (x: T)
    requires s != {}
    ensures x in s
  {
    x :| x in s;
  }

  lemma {:induction false} TwoMembers(s: set<int>)
    ensures |s| >= 2 <==> exists x, y :: x in s && y in s && x != y
  {
    if x, y :| x in s && y in s && x != y { SubsetSize({x, y}, s); }
    if |s| >= 2 {
      assert s != {};
      var x := Member(s);
      assert |s - {x}| == |s| - 1;
      var y := Member(s - {x});
    }
  }

  ghost predicate TwoHits(m: EventMap, k: string, l: string, d: string) {
    && SensitiveHit(m, k) && SensitiveHit(m, l) && m[k].destination == d == m[l].destination && m[k].port != m[l].port
  }

  lemma {:induction false} PortHit(m: EventMap, d: string, port: int)
    requires d != ""
    ensures port in SensitivePorts(m, m.Keys, d) <==>
      exists k :: SensitiveHit(m, k) && m[k].destination == d && m[k].port.value == port
  {}

  lemma {:induction false} PortsOfOne(m: EventMap, d: string)
    requires d != ""
    ensures |SensitivePorts(m, m.Keys, d)| >= 2 <==> exists k, l :: TwoHits(m, k, l, d)
  {
    var ports := SensitivePorts(m, m.Keys, d);
    TwoMembers(ports);
    if x, y :| x in ports && y in ports && x != y {
      PortHit(m, d, x);
      PortHit(m, d, y);
      var k :| SensitiveHit(m, k) && m[k].destination == d && m[k].port.value == x;
      var l :| SensitiveHit(m, l) && m[l].destination == d && m[l].port.value == y;
      assert TwoHits(m, k, l, d);
    }
    if k, l :| TwoHits(m, k, l, d) {
      PortHit(m, d, m[k].port.value);
      PortHit(m, d, m[l].port.value);
    }
  }

  lemma {:induction false} FocusedExactly(m: EventMap, family: string)
    ensures FactsOf(m, family).targeted && FactsOf(m, family).maxSensitivePorts >= 2 <==> Focused(m)
  {
    var sizes := set d | d in Destinations(m) :: |SensitivePorts(m, m.Keys, d)|;
    var most := Greatest(sizes);
    if most >= 2 {
      var d :| d in Destinations(m) && |SensitivePorts(m, m.Keys, d)| == most;
      PortsOfOne(m, d);
    }
    if k, l, d :| TwoHits(m, k, l, d) {
      assert d in Destinations(m);
      PortsOfOne(m, d);
      assert |SensitivePorts(m, m.Keys, d)| in sizes;
    }
  }

  lemma {:induction false} AssetExactly(m: EventMap)
    ensures AssetValue(AllowedPorts(m)) == CriticalAsset <==> Reaches(m, CRITICAL_MANAGEMENT_PORTS)
    ensures AssetValue(AllowedPorts(m)) == Standard <==>
      !Reaches(m, CRITICAL_MANAGEMENT_PORTS) && !Reaches(m, SENSITIVE_SERVICE_PORTS)
  {
    ReachesExactly(m, CRITICAL_MANAGEMENT_PORTS);
    ReachesExactly(m, SENSITIVE_SERVICE_PORTS);
  }

  lemma {:induction false} ReachesExactly(m: EventMap, ports: set<int>)
    ensures Reaches(m, ports) <==> AllowedPorts(m) * ports != {}
  {
    if k :| k in m && m[k].allowed && m[k].port.Some? && m[k].port.value in ports {
      assert m[k].port.value in AllowedPorts(m) * ports;
    }
    if AllowedPorts(m) * ports != {} { var p := Member(AllowedPorts(m) * ports); }
  }

  /** What makes an incident of an event-aware family severe, told by its events: critical needs an allowed
      connection to a management port, or to a sensitive one in focused or large activity; blocked
      reconnaissance is at most medium; nothing allowed and nothing broad is low. */
  lemma {:induction false} SeverityExactly(signals: seq<Signal>, m: EventMap, family: string)
    requires signals != [] && family in EVENT_AWARE_FAMILIES
    ensures Explained(IncidentSeverity(signals, Some(FactsOf(m, family))), m, family)
  {
    AllowedCounted(m);
    FocusedExactly(m, family);
    AssetExactly(m);
    var f := FactsOf(m, family);
    FactsTable(f);
    assert f.total == |m| && f.destinations == |Destinations(m)|;
    assert Focused(m) ==> Reaches(m, SENSITIVE_SERVICE_PORTS);
    assert Reaches(m, SENSITIVE_SERVICE_PORTS) ==> AnyAllowed(m);
    assert Reaches(m, CRITICAL_MANAGEMENT_PORTS) ==> AnyAllowed(m);
  }

  ghost predicate Explained(severity: Severity, m: EventMap, family: string) {
    var management, sensitive := Reaches(m, CRITICAL_MANAGEMENT_PORTS), Reaches(m, SENSITIVE_SERVICE_PORTS);
    && severity != Informational
    && (severity == Critical <==> management || (sensitive && (Focused(m) || Large(m))))
    && (severity == High <==>
          !management && if sensitive then !Focused(m) && !Large(m) else AnyAllowed(m) && Large(m))
    && (severity == Medium <==>
          if AnyAllowed(m) then !management && !sensitive && !Large(m)
          else family in {"network_scanning", "service_probing"} && |Destinations(m)| >= 25)
  }

  lemma {:induction false} FactsTable(f: Facts)
    ensures var focused, large := f.targeted && f.maxSensitivePorts >= 2, f.total > 500 || f.destinations > 50;
      FactsSeverity(f) ==
        if f.allowed == 0 then
          if f.family in {"network_scanning", "service_probing"} && f.destinations >= 25 then Medium else Low
        else match f.asset
          case CriticalAsset => Critical
          case Sensitive => if focused || large then Critical else High
          case Standard => if focused && large then Critical else if focused || large then High else Medium
  {}

  /** `above` is the next severity up, or both are the highest. */
  ghost predicate NextAbove(above: Severity, s: Severity) {
    || (above == s && forall x :: !MoreSevere(x, s))
    || (MoreSevere(above, s) && forall x :: MoreSevere(x, s) ==> !MoreSevere(above, x))
  }

  ghost predicate MostSevere(s: Severity, signals: seq<Signal>) {
    && (exists x :: x in signals && x.severity == s)
    && forall x :: x in signals ==> !MoreSevere(x.severity, s)
  }

  /** Of other families an incident is as severe as its worst signal, and one step more if it is large. */
  lemma {:induction false} WorstSignalDecides(signals: seq<Signal>, facts: Option<Facts>)
    requires signals != [] && (facts.Some? ==> facts.value.family !in EVENT_AWARE_FAMILIES)
    ensures exists worst ::
      && MostSevere(worst, signals)
      && if Sum(Map(EventCount, signals)) > 500 || |AllTargets(signals)| > 50
         then NextAbove(IncidentSeverity(signals, facts), worst) else IncidentSeverity(signals, facts) == worst
  {
    var rank := HighestRank(signals);
    HighestIsWorst(signals);
    RaisedIsNext(rank);
    assert MostSevere(SeverityOfRank(rank), signals);
  }

  lemma {:induction false} HighestIsWorst(signals: seq<Signal>)
    requires signals != []
    ensures HighestRank(signals) <= 4 && MostSevere(SeverityOfRank(HighestRank(signals)), signals)
  {
    var rank, ranks := HighestRank(signals), set s | s in signals :: SeverityRank(s.severity);
    assert signals[0] in signals && SeverityRank(signals[0].severity) in ranks;
    assert rank in ranks;
    forall x | x in signals ensures !MoreSevere(x.severity, SeverityOfRank(rank)) {
      SeveritiesCompare(x.severity, SeverityOfRank(rank));
      assert SeverityRank(x.severity) in ranks;
    }
  }

  lemma {:induction false} RaisedIsNext(rank: nat)
    requires rank <= 4
    ensures NextAbove(SeverityOfRank(Raised(rank)), SeverityOfRank(rank))
  {
    forall x, y ensures MoreSevere(x, y) <==> SeverityRank(x) > SeverityRank(y) { SeveritiesCompare(x, y); }
  }

  function Total(s: seq<real>): real { if s == [] then 0.0 else s[0] + Total(s[1..]) }

  /** `top` are the `n` greatest of the values. */
  ghost predicate AreTop(top: seq<real>, rest: seq<real>, values: seq<real>, n: nat) {
    && multiset(top) + multiset(rest) == multiset(values) && |top| == n
    && forall x, y :: x in top && y in rest ==> x >= y
  }

  ghost predicate MeanOfTop(mean: real, values: seq<real>, n: nat) {
    exists top: seq<real>, rest: seq<real> :: AreTop(top, rest, values, n) && mean * n as real == Total(top)
  }

  /** The confidence of an incident is the mean of its three highest confidences, or of all if there are
      fewer. */
  lemma {:induction false} ConfidenceExactly(signals: seq<Signal>)
    requires signals != []
    ensures MeanOfTop(IncidentConfidence(signals), Map(ConfidenceOf, signals), if |signals| < 3 then |signals| else 3)
  {
    var values := Map(ConfidenceOf, signals);
    var sorted := SortBy(values, (a: real, b: real) => a > b);
    SortDescending(values);
    FirstAreTop(sorted, values, if |signals| < 3 then |signals| else 3);
  }

  lemma {:induction false} FirstAreTop(sorted: seq<real>, values: seq<real>, n: nat)
    requires Descending(sorted) && multiset(sorted) == multiset(values) && 1 <= n <= 3
    requires n == if |sorted| < 3 then |sorted| else 3
    ensures MeanOfTop(TopThreeMean(sorted), values, n)
  {
    var top, rest := sorted[..n], sorted[n..];
    assert sorted == top + rest;
    assert AreTop(top, rest, values, n);
    ThreeAdded(top);
    assert TopThreeMean(top) == TopThreeMean(sorted);
  }

  lemma {:induction false} ThreeAdded(s: seq<real>)
    requires 1 <= |s| <= 3
    ensures TopThreeMean(s) * |s| as real == Total(s)
  {
    assert |s| > 1 ==> Total(s[1..]) == s[1] + Total(s[2..]) && Total(s) == s[0] + Total(s[1..]) by {
      if |s| > 1 { assert s[1..][1..] == s[2..]; }
    }
    assert |s| > 2 ==> Total(s[2..]) == s[2] by {
      if |s| > 2 { assert s[2..][1..] == []; }
    }
    assert Total(s[|s|..]) == 0.0;
  }
}
