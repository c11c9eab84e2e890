/** The detection pipeline, from candidate events to incidents, with its counters. */
module Engine {
  import opened Ordering
  import opened Signals
  import opened Scoring
  import opened Incidents
  import opened Overlaps
  import Clustering
  import BundleMerge

  /** A candidate event as it arrives: its time may lack a zone, and it may have failed to parse. */
  datatype Candidate = Candidate(event: Event, rawHash: string, naive: bool, parseStatus: string)

  const REJECTED_STATUSES: set<string> := {"failed", "unsupported_schema", "semantically_invalid"}

  predicate HasId(c: Candidate) { c.event.eventId != "" }

  function KeyOf(c: Candidate): string { c.event.eventId + "|" + c.rawHash }

  predicate Eligible(c: Candidate) {
    c.event.timestamp.Some? && !c.naive && c.parseStatus !in REJECTED_STATUSES
  }

  function Chosen(s: seq<Candidate>): (r: seq<Candidate>)
    ensures |r| <= |s| && forall c :: c in r <==> c in s && Eligible(c)
  {
    if s == [] then []
    else
      var n := |s| - 1;
      assert forall c :: c in s <==> c in s[..n] || c == s[n];
      Chosen(s[..n]) + if Eligible(s[n]) then [s[n]] else []
  }

  /** First occurrence by identifier and raw hash, then the eligibility check; every other candidate is
      counted as skipped. */
  method SelectEligible(candidates: seq<Candidate>) returns (eligible: seq<Candidate>, skipped: nat)
    ensures eligible == Chosen(KeepFirst(candidates, HasId, KeyOf, {}))
    ensures |eligible| + skipped == |candidates|
  {
    var deduped, repeated := Deduplicate(candidates);
    var ineligible;
    eligible, ineligible := KeepEligible(deduped);
    skipped := repeated + ineligible;
  }

  method Deduplicate(candidates: seq<Candidate>) returns (deduped: seq<Candidate>, skipped: nat)
    ensures deduped == KeepFirst(candidates, HasId, KeyOf, {})
    ensures |deduped| + skipped == |candidates|
  {
    var seen: set<string>, i := {}, 0;
    deduped, skipped := [], 0;
    ghost var rest := candidates;
    ghost var all := KeepFirst(candidates, HasId, KeyOf, {});
    while i < |candidates|
      invariant i <= |candidates| && rest == candidates[i..] && |deduped| + skipped == i
      invariant all == deduped + KeepFirst(rest, HasId, KeyOf, seen)
    {
      var c := candidates[i];
      KeepFirstStep(deduped, rest, seen);
      if HasId(c) && KeyOf(c) !in seen {
        deduped := deduped + [c];
        seen := seen + {KeyOf(c)};
      } else {
        skipped := skipped + 1;
      }
      rest := rest[1..];
      i := i + 1;
    }
  }

  lemma {:induction false} KeepFirstStep(taken: seq<Candidate>, pool: seq<Candidate>, seen: set<string>)
    requires pool != []
    ensures var c := pool[0];
      taken + KeepFirst(pool, HasId, KeyOf, seen) ==
      if HasId(c) && KeyOf(c) !in seen then (taken + [c]) + KeepFirst(pool[1..], HasId, KeyOf, seen + {KeyOf(c)})
      else taken + KeepFirst(pool[1..], HasId, KeyOf, seen)
  {}

  method KeepEligible(deduped: seq<Candidate>) returns (eligible: seq<Candidate>, skipped: nat)
    ensures eligible == Chosen(deduped) && |eligible| + skipped == |deduped|
  {
    eligible, skipped := [], 0;
    for k := 0 to |deduped|
      invariant eligible == Chosen(deduped[..k]) && |eligible| + skipped == k
    {
      assert deduped[..k + 1][..k] == deduped[..k];
      if Eligible(deduped[k]) {
        eligible := eligible + [deduped[k]];
      } else {
        skipped := skipped + 1;
      }
    }
    assert deduped[..|deduped|] == deduped;
  }

  /** Candidate `i` is analysed: it has an identifier that came with this raw hash for the first time, a time
      with a zone, and it was parsed. */
  ghost predicate IsAnalysed(s: seq<Candidate>, i: nat)
    requires i < |s|
  {
    FirstOfItsKind(s, i) && Usable(s[i])
  }

  predicate Usable(c: Candidate) {
    c.event.timestamp.Some? && !c.naive && c.parseStatus !in {"failed", "unsupported_schema", "semantically_invalid"}
  }

  lemma {:induction false} EligibleExactly(c: Candidate)
    ensures Eligible(c) <==> Usable(c)
  {}

  ghost predicate FirstOfItsKind(s: seq<Candidate>, i: nat)
    requires i < |s|
  {
    && s[i].event.eventId != ""
    && forall j :: 0 <= j < i && s[j].event.eventId != "" ==>
      s[j].event.eventId + "|" + s[j].rawHash != s[i].event.eventId + "|" + s[i].rawHash
  }

  ghost function Analysed(s: seq<Candidate>): seq<Candidate> {
    if s == [] then []
    else
      var n := |s| - 1;
      Analysed(s[..n]) + if IsAnalysed(s, n) then [s[n]] else []
  }

  lemma {:induction false} KeepFirstOfMore(pool: seq<Candidate>, c: Candidate, seen: set<string>)
    ensures KeepFirst(pool + [c], HasId, KeyOf, seen) == KeepFirst(pool, HasId, KeyOf, seen)
      + if KeyOf(c) !in seen && IsNew(pool, c) then [c] else []
  {
    var r := KeepFirst(pool, HasId, KeyOf, seen);
    if pool != [] {
      var x := pool[0];
      assert (pool + [c])[1..] == pool[1..] + [c];
      assert forall y :: y in pool <==> y == x || y in pool[1..];
      if HasId(x) && KeyOf(x) !in seen {
        KeepFirstOfMore(pool[1..], c, seen + {KeyOf(x)});
      } else {
        KeepFirstOfMore(pool[1..], c, seen);
      }
    } else {
      assert pool + [c] == [c];
    }
  }

  /** The two passes select the analysed candidates, in order. A candidate that repeats another one is left out
      even when that one had no usable time. */
  lemma {:induction false} SelectedExactly(s: seq<Candidate>)
    ensures Chosen(KeepFirst(s, HasId, KeyOf, {})) == Analysed(s)
  {
    if s != [] {
      var n := |s| - 1;
      SelectedExactly(s[..n]);
      assert s == s[..n] + [s[n]];
      OneMoreSelected(s[..n], s[n]);
      FirstAmong(s, n);
      EligibleExactly(s[n]);
    }
  }

  ghost predicate IsNew(pool: seq<Candidate>, c: Candidate) {
    HasId(c) && forall x :: x in pool && HasId(x) ==> KeyOf(x) != KeyOf(c)
  }

  lemma {:induction false} OneMoreSelected(pool: seq<Candidate>, c: Candidate)
    ensures Chosen(KeepFirst(pool + [c], HasId, KeyOf, {}))
      == Chosen(KeepFirst(pool, HasId, KeyOf, {})) + if IsNew(pool, c) && Eligible(c) then [c] else []
  {
    KeepFirstOfMore(pool, c, {});
    ChosenOfMore(KeepFirst(pool, HasId, KeyOf, {}), c);
    assert KeepFirst(pool, HasId, KeyOf, {}) + [] == KeepFirst(pool, HasId, KeyOf, {});
  }

  lemma {:induction false} FirstAmong(s: seq<Candidate>, n: nat)
    requires n < |s|
    ensures FirstOfItsKind(s, n) <==> IsNew(s[..n], s[n])
  {
    if FirstOfItsKind(s, n) {
      forall x | x in s[..n] && HasId(x) ensures KeyOf(x) != KeyOf(s[n]) {
        var j :| 0 <= j < n && s[j] == x;
      }
    }
    if IsNew(s[..n], s[n]) {
      forall j | 0 <= j < n && s[j].event.eventId != "" ensures KeyOf(s[j]) != KeyOf(s[n]) { assert s[j] in s[..n]; }
    }
  }

  lemma {:induction false} ChosenOfMore(kept: seq<Candidate>, c: Candidate)
    ensures Chosen(kept + [c]) == Chosen(kept) + if Eligible(c) then [c] else []
  {
    assert (kept + [c])[..|kept|] == kept;
  }

  /** Identifiers without a bar and their hashes are told apart. */
  lemma {:induction false} KeysTellApart(a: Candidate, b: Candidate)
    requires '|' !in a.event.eventId && '|' !in b.event.eventId
    ensures KeyOf(a) == KeyOf(b) <==> a.event.eventId == b.event.eventId && a.rawHash == b.rawHash
  {
    var k, l, m, n := KeyOf(a), KeyOf(b), |a.event.eventId|, |b.event.eventId|;
    if k == l {
      assert k[m] == '|' && l[n] == '|';
      assert forall i :: 0 <= i < m ==> k[i] == a.event.eventId[i];
      assert forall i :: 0 <= i < n ==> l[i] == b.event.eventId[i];
      assert k[..m] == a.event.eventId && l[..n] == b.event.eventId;
      assert k[m + 1..] == a.rawHash && l[n + 1..] == b.rawHash;
    }
  }

  // ---------------------------------------------------------------- rules and suppression

  /** What a rule gave: nothing (no events for it, or an exception), or signals. */
  datatype RuleOutput = Nothing | Produced(signals: seq<Signal>)

  /** `valid`: the signal meets its rule's contract; `suppressed`: the policy silences it; `rename`: the
      identifier recomputed for a merged signal. */
  datatype Policy = Policy(valid: Signal -> bool, suppressed: Signal -> bool, rename: Signal -> string)

  function Passing(s: seq<Signal>, ok: Signal -> bool): (r: seq<Signal>)
    ensures |r| <= |s|
  {
    if s == [] then [] else Passing(s[..|s| - 1], ok) + if ok(s[|s| - 1]) then [s[|s| - 1]] else []
  }

  lemma {:induction false} PassingExact(s: seq<Signal>, ok: Signal -> bool)
    ensures forall x :: x in Passing(s, ok) <==> x in s && ok(x)
  {
    if s != [] {
      var n := |s| - 1;
      PassingExact(s[..n], ok);
      assert forall x :: x in s <==> x in s[..n] || x == s[n];
    }
  }

  function Collected(outputs: seq<RuleOutput>, ok: Signal -> bool): seq<Signal> {
    if outputs == [] then []
    else
      var n := |outputs| - 1;
      Collected(outputs[..n], ok) + if outputs[n].Produced? then Passing(outputs[n].signals, ok) else []
  }

  method CollectSignals(outputs: seq<RuleOutput>, policy: Policy) returns (all: seq<Signal>)
    ensures all == Collected(outputs, policy.valid)
  {
    all := [];
    for k := 0 to |outputs|
      invariant all == Collected(outputs[..k], policy.valid)
    {
      assert outputs[..k + 1][..k] == outputs[..k];
      if outputs[k].Produced? {
        all := all + Passing(outputs[k].signals, policy.valid);
      }
    }
    assert outputs[..|outputs|] == outputs;
  }

  method Suppress(all: seq<Signal>, policy: Policy) returns (active: seq<Signal>, silenced: seq<Signal>, count: nat)
    ensures active == Passing(all, (s: Signal) => !policy.suppressed(s))
    ensures silenced == Passing(all, policy.suppressed)
    ensures count == |silenced| && |active| + count == |all|
  {
    active, silenced, count := [], [], 0;
    var quiet := (s: Signal) => !policy.suppressed(s);
    for k := 0 to |all|
      invariant active == Passing(all[..k], quiet) && silenced == Passing(all[..k], policy.suppressed)
      invariant count == |silenced| && |active| + count == k
    {
      PassingStep(all, k, quiet);
      PassingStep(all, k, policy.suppressed);
      if policy.suppressed(all[k]) {
        silenced, count := silenced + [all[k]], count + 1;
      } else {
        active := active + [all[k]];
      }
    }
    assert all[..|all|] == all;
  }

  lemma {:induction false} PassingStep(s: seq<Signal>, k: nat, ok: Signal -> bool)
    requires k < |s|
    ensures Passing(s[..k + 1], ok) == Passing(s[..k], ok) + if ok(s[k]) then [s[k]] else []
  {
    assert s[..k + 1][..k] == s[..k];
  }

  // ---------------------------------------------------------------- deduplication

  /** Sliding-window repeats of one rule: shared events, and no later than the window allows. */
  predicate Repeats(previous: Signal, current: Signal, p: Params) {
    previous.eventIds * current.eventIds != {} && current.firstSeen - previous.lastSeen <= p.windowSeconds * MICROS
  }

  function NewEvidence(seen: set<string>, more: seq<Evidence>): seq<Evidence> {
    KeepFirst(more, (e: Evidence) => true, EventOf, seen)
  }

  /** The earlier signal extended by the later one, under a new identifier. */
  function Joined(a: Signal, b: Signal, rename: Signal -> string): Signal {
    var merged := a.(
      eventIds := a.eventIds + b.eventIds,
      lastSeen := if a.lastSeen >= b.lastSeen then a.lastSeen else b.lastSeen,
      targets := a.targets + b.targets,
      evidence := a.evidence + NewEvidence(Elements(Map(EventOf, a.evidence)), b.evidence));
    merged.(signalId := rename(merged))
  }

  type Joiner = (Signal, Signal) -> Signal
  type Repeater = (Signal, Signal) -> bool

  /** One signal joins the last of the list or is appended. */
  function Fold(merged: seq<Signal>, s: Signal, repeats: Repeater, join: Joiner): (r: seq<Signal>)
    ensures |merged| <= |r| <= |merged| + 1
  {
    var n := |merged| - 1;
    if merged != [] && repeats(merged[n], s) then merged[n := join(merged[n], s)] else merged + [s]
  }

  function FoldAll(s: seq<Signal>, repeats: Repeater, join: Joiner): (r: seq<Signal>)
    ensures |r| <= |s|
  {
    if s == [] then [] else Fold(FoldAll(s[..|s| - 1], repeats, join), s[|s| - 1], repeats, join)
  }

  ghost predicate Conserving(join: Joiner) {
    forall a, b :: join(a, b).eventIds == a.eventIds + b.eventIds
                   && (a.firstSeen <= a.lastSeen ==> join(a, b).firstSeen <= join(a, b).lastSeen)
  }

  predicate WindowsRight(s: seq<Signal>) { forall x :: x in s ==> x.firstSeen <= x.lastSeen }

  lemma {:induction false} FoldConserves(merged: seq<Signal>, s: Signal, repeats: Repeater, join: Joiner)
    requires Conserving(join) && WindowsRight(merged) && s.firstSeen <= s.lastSeen
    ensures var r := Fold(merged, s, repeats, join);
      AllEvents(r) == AllEvents(merged) + s.eventIds && WindowsRight(r)
  {
    var n := |merged| - 1;
    var r := Fold(merged, s, repeats, join);
    if merged != [] && repeats(merged[n], s) {
      assert merged == merged[..n] + [merged[n]];
      assert r == merged[..n] + [join(merged[n], s)];
      AllEventsAppend(merged[..n], merged[n]);
      AllEventsAppend(merged[..n], join(merged[n], s));
    } else {
      AllEventsAppend(merged, s);
    }
  }

  lemma {:induction false} AllEventsAppend(s: seq<Signal>, x: Signal)
    ensures AllEvents(s + [x]) == AllEvents(s) + x.eventIds
    ensures forall y :: y in s + [x] <==> y in s || y == x
  {
    assert forall y :: y in s + [x] <==> y in s || y == x;
  }

  lemma {:induction false} FoldAllConserves(s: seq<Signal>, repeats: Repeater, join: Joiner)
    requires Conserving(join) && WindowsRight(s)
    ensures AllEvents(FoldAll(s, repeats, join)) == AllEvents(s) && WindowsRight(FoldAll(s, repeats, join))
  {
    if s != [] {
      var n := |s| - 1;
      assert s == s[..n] + [s[n]];
      AllEventsAppend(s[..n], s[n]);
      FoldAllConserves(s[..n], repeats, join);
      FoldConserves(FoldAll(s[..n], repeats, join), s[n], repeats, join);
    }
  }

  function PrimaryOf(s: Signal): string { s.primaryEntity }
  function RuleIdOf(s: Signal): string { s.ruleId }

  /** The distinct keys, in order of first appearance, as a dictionary keeps them. */
  function KeysInOrder(s: seq<Signal>, key: Signal -> string): seq<string> {
    Map(key, KeepFirst(s, (x: Signal) => true, key, {}))
  }

  function Group(s: seq<Signal>, key: Signal -> string, k: string): (r: seq<Signal>)
    ensures forall x :: x in r <==> x in s && key(x) == k
  {
    var mine := (x: Signal) => key(x) == k;
    PassingExact(s, mine);
    Passing(s, mine)
  }

  predicate Earlier(a: Signal, b: Signal) { a.firstSeen < b.firstSeen }

  function RepeatsWithin(p: Params): Repeater { (a, b) => Repeats(a, b, p) }

  function JoinWith(rename: Signal -> string): Joiner { (a, b) => Joined(a, b, rename) }

  /** What is done to a list of signals: repeats are joined in time order, or the groups of a key are
      treated one after the other. */
  datatype Stage = ByTime(repeats: Repeater, join: Joiner) | ByKey(key: Signal -> string, inner: Stage)

  function Run(stage: Stage, s: seq<Signal>): seq<Signal>
    decreases stage, 0
  {
    match stage
    case ByTime(repeats, join) => FoldAll(SortBy(s, Earlier), repeats, join)
    case ByKey(key, inner) => ByGroup(s, key, KeysInOrder(s, key), |KeysInOrder(s, key)|, inner)
  }

  /** The first `n` groups treated, group after group. */
  function ByGroup(s: seq<Signal>, key: Signal -> string, keys: seq<string>, n: nat, inner: Stage): seq<Signal>
    requires n <= |keys|
    decreases inner, n
  {
    if n == 0 then [] else ByGroup(s, key, keys, n - 1, inner) + Run(inner, Group(s, key, keys[n - 1]))
  }

  /** What is done to the signals of one rule, of one source, and to all. */
  function RuleStage(p: Params, rename: Signal -> string): Stage { ByTime(RepeatsWithin(p), JoinWith(rename)) }

  function SourceStage(p: Params, rename: Signal -> string): Stage { ByKey(RuleIdOf, RuleStage(p, rename)) }

  function Deduplication(p: Params, rename: Signal -> string): Stage { ByKey(PrimaryOf, SourceStage(p, rename)) }

  /** Joining repeats loses no event and keeps windows in order. */
  ghost predicate Careful(stage: Stage)
    decreases stage
  {
    match stage
    case ByTime(repeats, join) => Conserving(join)
    case ByKey(key, inner) => Careful(inner)
  }

  /** No event lost or invented, no more signals than before, windows still in order. */
  ghost predicate FaithfulTo(s: seq<Signal>, r: seq<Signal>) {
    AllEvents(r) == AllEvents(s) && |r| <= |s| && WindowsRight(r)
  }

  /** How many signals the groups of these keys have. */
  function GroupSize(s: seq<Signal>, key: Signal -> string, keys: seq<string>): nat {
    if keys == [] then 0 else GroupSize(s, key, keys[..|keys| - 1]) + |Group(s, key, keys[|keys| - 1])|
  }

  /** The events of the signals with one of these keys. */
  function KeyedEvents(s: seq<Signal>, key: Signal -> string, keys: set<string>): set<string> {
    set x, e | x in s && key(x) in keys && e in x.eventIds :: e
  }

  lemma {:induction false} AllEventsConcat(a: seq<Signal>, b: seq<Signal>)
    ensures AllEvents(a + b) == AllEvents(a) + AllEvents(b)
    ensures WindowsRight(a + b) <==> WindowsRight(a) && WindowsRight(b)
  {
    assert forall y :: y in a + b <==> y in a || y in b;
  }

  lemma {:induction false} ByGroupConserves(s: seq<Signal>, key: Signal -> string, keys: seq<string>, n: nat,
      inner: Stage)
    requires n <= |keys| && Careful(inner) && WindowsRight(s)
    ensures var r := ByGroup(s, key, keys, n, inner);
      AllEvents(r) == KeyedEvents(s, key, Elements(keys[..n])) && |r| <= GroupSize(s, key, keys[..n]) && WindowsRight(r)
    decreases inner, n
  {
    if n > 0 {
      ByGroupConserves(s, key, keys, n - 1, inner);
      var g := Group(s, key, keys[n - 1]);
      StageIsFaithful(inner, g);
      GroupStep(s, key, keys, n, ByGroup(s, key, keys, n - 1, inner), Run(inner, g));
    }
  }

  lemma {:induction false} GroupStep(s: seq<Signal>, key: Signal -> string, keys: seq<string>, n: nat,
      before: seq<Signal>, last: seq<Signal>)
    requires 0 < n <= |keys|
    requires AllEvents(before) == KeyedEvents(s, key, Elements(keys[..n - 1]))
      && |before| <= GroupSize(s, key, keys[..n - 1])
    requires WindowsRight(before) && FaithfulTo(Group(s, key, keys[n - 1]), last)
    ensures AllEvents(before + last) == KeyedEvents(s, key, Elements(keys[..n]))
    ensures |before + last| <= GroupSize(s, key, keys[..n]) && WindowsRight(before + last)
  {
    var g := Group(s, key, keys[n - 1]);
    AllEventsConcat(before, last);
    assert keys[..n] == keys[..n - 1] + [keys[n - 1]];
    assert keys[..n][..n - 1] == keys[..n - 1];
    assert Elements(keys[..n]) == Elements(keys[..n - 1]) + {keys[n - 1]};
    assert KeyedEvents(s, key, Elements(keys[..n])) == KeyedEvents(s, key, Elements(keys[..n - 1])) + AllEvents(g);
  }

  /** Every stage is faithful, however its groups are nested. */
  lemma {:induction false} StageIsFaithful(stage: Stage, s: seq<Signal>)
    requires Careful(stage) && WindowsRight(s)
    ensures FaithfulTo(s, Run(stage, s))
    decreases stage, 0
  {
    match stage
    case ByTime(repeats, join) => JoiningOn(s, repeats, join);
    case ByKey(key, inner) =>
      var keys := KeysInOrder(s, key);
      ByGroupConserves(s, key, keys, |keys|, inner);
      AllGroups(s, key, ByGroup(s, key, keys, |keys|, inner));
  }

  /** Distinct keys count each signal at most once. */
  lemma {:induction false} GroupSizes(s: seq<Signal>, key: Signal -> string, keys: seq<string>)
    requires Distinct(keys)
    ensures GroupSize(s, key, keys) <= |s|
    decreases |s|
  {
    if s == [] {
      GroupSizeOfNone(key, keys);
    } else {
      var n := |s| - 1;
      GroupSizes(s[..n], key, keys);
      GroupSizeExtends(s, key, keys);
    }
  }

  lemma {:induction false} GroupSizeOfNone(key: Signal -> string, keys: seq<string>)
    ensures GroupSize([], key, keys) == 0
  {
    if keys != [] { GroupSizeOfNone(key, keys[..|keys| - 1]); }
  }

  lemma {:induction false} GroupSizeExtends(s: seq<Signal>, key: Signal -> string, keys: seq<string>)
    requires s != [] && Distinct(keys)
    ensures GroupSize(s, key, keys) == GroupSize(s[..|s| - 1], key, keys) + if key(s[|s| - 1]) in keys then 1 else 0
  {
    if keys != [] {
      var n := |keys| - 1;
      GroupSizeExtends(s, key, keys[..n]);
      assert keys == keys[..n] + [keys[n]];
      assert keys[n] !in keys[..n];
    }
  }

  lemma {:induction false} KeysInOrderRight(s: seq<Signal>, key: Signal -> string)
    ensures Distinct(KeysInOrder(s, key)) && Elements(KeysInOrder(s, key)) == set x | x in s :: key(x)
  {
    var always := (x: Signal) => true;
    var first := KeepFirst(s, always, key, {});
    var keys := KeysInOrder(s, key);
    forall x | x in s ensures key(x) in keys {
      KeepFirstComplete(s, always, key, {}, x);
      var i :| 0 <= i < |first| && key(first[i]) == key(x);
      assert keys[i] == key(x);
    }
    forall k | k in keys ensures k in set x | x in s :: key(x) {
      var i :| 0 <= i < |keys| && keys[i] == k;
      assert first[i] in s;
    }
  }

  lemma {:induction false} AllGroups(s: seq<Signal>, key: Signal -> string, r: seq<Signal>)
    requires var keys := KeysInOrder(s, key);
      AllEvents(r) == KeyedEvents(s, key, Elements(keys[..|keys|])) && |r| <= GroupSize(s, key, keys[..|keys|])
    requires WindowsRight(r)
    ensures FaithfulTo(s, r)
  {
    var keys := KeysInOrder(s, key);
    assert keys[..|keys|] == keys;
    KeysInOrderRight(s, key);
    GroupSizes(s, key, keys);
    assert KeyedEvents(s, key, Elements(keys)) == AllEvents(s);
  }

  lemma {:induction false} JoiningOn(s: seq<Signal>, repeats: Repeater, join: Joiner)
    requires Conserving(join) && WindowsRight(s)
    ensures var r := FoldAll(SortBy(s, Earlier), repeats, join);
      AllEvents(r) == AllEvents(s) && |r| <= |s| && WindowsRight(r)
  {
    var sorted := SortBy(s, Earlier);
    SameMultisetSameElements(sorted, s);
    assert forall x :: x in sorted <==> x in Elements(s);
    assert AllEvents(sorted) == AllEvents(s);
    FoldAllConserves(sorted, repeats, join);
  }

  lemma {:induction false} JoinWithConserves(rename: Signal -> string)
    ensures Conserving(JoinWith(rename))
  {}

  lemma {:induction false} DeduplicationIsCareful(p: Params, rename: Signal -> string)
    ensures Careful(Deduplication(p, rename))
  {
    JoinWithConserves(rename);
    assert Careful(RuleStage(p, rename));
    assert Careful(SourceStage(p, rename));
  }

  /** Deduplication neither loses nor invents an event, and never yields more signals. */
  lemma {:induction false} DeduplicationConserves(s: seq<Signal>, p: Params, rename: Signal -> string)
    requires WindowsRight(s)
    ensures FaithfulTo(s, Run(Deduplication(p, rename), s))
  {
    DeduplicationIsCareful(p, rename);
    StageIsFaithful(Deduplication(p, rename), s);
  }

  /** The loop over the signals of one rule, which extends the last signal of the list or appends. */
  method JoinRepeats(s: seq<Signal>, repeats: Repeater, join: Joiner) returns (merged: seq<Signal>)
    ensures merged == FoldAll(s, repeats, join)
  {
    merged := [];
    for k := 0 to |s|
      invariant merged == FoldAll(s[..k], repeats, join)
    {
      assert s[..k + 1][..k] == s[..k];
      var last := |merged| - 1;
      if merged != [] && repeats(merged[last], s[k]) {
        merged := merged[last := join(merged[last], s[k])];
      } else {
        merged := merged + [s[k]];
      }
    }
    assert s[..|s|] == s;
  }

  /** One rule of one source: its signals in time order, then the loop that joins repeats. */
  method DeduplicateRule(s: seq<Signal>, p: Params, rename: Signal -> string) returns (r: seq<Signal>)
    ensures r == Run(RuleStage(p, rename), s)
  {
    r := JoinRepeats(SortBy(s, Earlier), RepeatsWithin(p), JoinWith(rename));
  }

  /** The loop over the rules of one source, in order of first appearance. */
  method DeduplicateSource(s: seq<Signal>, p: Params, rename: Signal -> string) returns (r: seq<Signal>)
    ensures r == Run(SourceStage(p, rename), s)
  {
    var rules := KeysInOrder(s, RuleIdOf);
    r := [];
    for k := 0 to |rules|
      invariant r == ByGroup(s, RuleIdOf, rules, k, RuleStage(p, rename))
    {
      var joined := DeduplicateRule(Group(s, RuleIdOf, rules[k]), p, rename);
      r := r + joined;
    }
  }

  /** `_deduplicate_signals`: the loop over the sources, in order of first appearance. */
  method DeduplicateSignals(s: seq<Signal>, p: Params, rename: Signal -> string) returns (r: seq<Signal>)
    ensures r == Run(Deduplication(p, rename), s)
  {
    var sources := KeysInOrder(s, PrimaryOf);
    r := [];
    for k := 0 to |sources|
      invariant r == ByGroup(s, PrimaryOf, sources, k, SourceStage(p, rename))
    {
      var deduped := DeduplicateSource(Group(s, PrimaryOf, sources[k]), p, rename);
      r := r + deduped;
    }
  }

  // ---------------------------------------------------------------- correlation

  function ById(s: seq<Signal>): SignalMap { BundleMerge.BySignalId(s) }

  function ClusterEvents(c: seq<Clustering.Cluster<Signal>>): set<string> {
    set i, s, e | 0 <= i < |c| && s in c[i] && e in s.eventIds :: e
  }

  type Building = (Incident, seq<Signal>) -> bool

  ghost function BuildingOf(lookup: EventMap, context: seq<Event>, settings: Settings): Building {
    (b, c) => IsBuilt(b, c, lookup, context, settings)
  }

  ghost predicate BuiltFrom(incidents: seq<Incident>, c: seq<Clustering.Cluster<Signal>>, n: nat, built: Building) {
    |incidents| == n <= |c| && forall i :: 0 <= i < n ==> built(incidents[i], c[i])
  }

  ghost predicate HoldsMembers(built: Building) {
    forall b, c :: built(b, c) ==> b.eventIds == AllEvents(c) && b.signalIds == AllSignalIds(c)
  }

  lemma {:induction false} BuildingHolds(lookup: EventMap, context: seq<Event>, settings: Settings)
    ensures HoldsMembers(BuildingOf(lookup, context, settings))
  {}

  method BuildOne(c: Clustering.Cluster<Signal>, lookup: EventMap, context: seq<Event>, settings: Settings,
      ghost built: Building)
    returns (b: Incident)
    requires c != [] && settings.params.windowSeconds > 0 && WindowsRight(c)
    requires built == BuildingOf(lookup, context, settings)
    ensures built(b, c)
  {
    b := BuildIncident(c, lookup, context, settings);
  }

  /** The loop that builds one incident per cluster. */
  method BuildAll(c: seq<Clustering.Cluster<Signal>>, lookup: EventMap, context: seq<Event>, settings: Settings,
      ghost built: Building)
    returns (incidents: seq<Incident>)
    requires settings.params.windowSeconds > 0 && built == BuildingOf(lookup, context, settings)
    requires forall i :: 0 <= i < |c| ==> c[i] != [] && WindowsRight(c[i])
    ensures BuiltFrom(incidents, c, |c|, built)
  {
    incidents := [];
    for k := 0 to |c|
      invariant BuiltFrom(incidents, c, k, built)
    {
      assert WindowsRight(c[k]);
      var b := BuildOne(c[k], lookup, context, settings, built);
      incidents := incidents + [b];
    }
  }

  lemma {:induction false} UnionOfBuilt(incidents: seq<Incident>, c: seq<Clustering.Cluster<Signal>>, built: Building)
    requires BuiltFrom(incidents, c, |c|, built) && HoldsMembers(built)
    ensures EventUnion(incidents) == ClusterEvents(c)
  {
    forall e ensures e in EventUnion(incidents) <==> e in ClusterEvents(c) {
      if e in EventUnion(incidents) {
        var b :| b in incidents && e in b.eventIds;
        var i :| 0 <= i < |incidents| && incidents[i] == b;
        assert e in AllEvents(c[i]);
      }
      if e in ClusterEvents(c) {
        var i, s :| 0 <= i < |c| && s in c[i] && e in s.eventIds;
        assert e in AllEvents(c[i]) && incidents[i] in incidents;
      }
    }
  }

  lemma {:induction false} ClustersCover(s: seq<Signal>, c: seq<Clustering.Cluster<Signal>>)
    requires Clustering.Partition(Elements(s), c)
    ensures ClusterEvents(c) == AllEvents(s)
  {
    forall e ensures e in ClusterEvents(c) <==> e in AllEvents(s) {
      if e in AllEvents(s) {
        var x :| x in s && e in x.eventIds;
        assert Clustering.InSome(x, c);
        var i :| 0 <= i < |c| && x in c[i];
      }
      if e in ClusterEvents(c) {
        var i, x :| 0 <= i < |c| && x in c[i] && e in x.eventIds;
        assert x in Elements(s);
      }
    }
  }

  /** `sum(len(cluster) - 1 for cluster in clusters)`. */
  function Absorbed(c: seq<Clustering.Cluster<Signal>>): int {
    if c == [] then 0 else Absorbed(c[..|c| - 1]) + |c[|c| - 1]| - 1
  }

  lemma {:induction false} AbsorbedIs(c: seq<Clustering.Cluster<Signal>>)
    ensures Absorbed(c) == Clustering.TotalSize(c) - |c|
  {
    if c != [] { AbsorbedIs(c[..|c| - 1]); }
  }

  lemma {:induction false} MembersKnown(s: seq<Signal>, c: seq<Clustering.Cluster<Signal>>, incidents: seq<Incident>,
      built: Building)
    requires Clustering.Partition(Elements(s), c) && BuiltFrom(incidents, c, |c|, built) && HoldsMembers(built)
    ensures Known(incidents, ById(s))
  {
    forall i | 0 <= i < |incidents| ensures incidents[i].signalIds <= ById(s).Keys {
      forall k | k in incidents[i].signalIds ensures k in ById(s) {
        var x :| x in c[i] && x.signalId == k;
        assert x in Elements(s);
        KeyOfMember(s, x);
      }
    }
  }

  lemma {:induction false} KeyOfMember(s: seq<Signal>, x: Signal)
    requires x in s
    ensures x.signalId in ById(s)
  {
    var n := |s| - 1;
    assert s == s[..n] + [s[n]];
    if x != s[n] { KeyOfMember(s[..n], x); }
  }

  lemma {:induction false} ClustersAreRight(s: seq<Signal>, c: seq<Clustering.Cluster<Signal>>,
      r: Clustering.Rules<Signal>)
    requires Clustering.Canonical(Elements(s), c, r) && WindowsRight(s) && Distinct(s) && StrictOrder(r.precedes)
    ensures Clustering.Partition(Elements(s), c)
    ensures forall i :: 0 <= i < |c| ==> c[i] != [] && WindowsRight(c[i])
    ensures Absorbed(c) + |c| == |s|
  {
    forall i | 0 <= i < |c| ensures WindowsRight(c[i]) {
      forall x | x in c[i] ensures x.firstSeen <= x.lastSeen { assert x in Elements(s); }
    }
    AbsorbedIs(c);
    Clustering.ClustersConserve(Elements(s), c, r.precedes);
    DistinctSize(s);
  }

  lemma {:induction false} PassKeepsEvents(incidents: seq<Incident>, score: Scorer, maxContext: nat)
    ensures EventUnion(Remaining(incidents, score, maxContext)) == EventUnion(incidents)
  {
    var ordered := SortBy(incidents, KeeperBefore);
    var merged := MergeAll(ordered, score, maxContext);
    SameMultisetSameElements(ordered, incidents);
    SameMultisetSameElements(SortBy(merged, ShownBefore), merged);
    MergeAllConserves(ordered, score, maxContext);
    EventsOfSame(ordered, incidents);
    EventsOfSame(SortBy(merged, ShownBefore), merged);
  }

  lemma {:induction false} EventsOfSame(a: seq<Incident>, b: seq<Incident>)
    requires Elements(a) == Elements(b)
    ensures EventUnion(a) == EventUnion(b)
  {
    assert forall x :: x in a <==> x in Elements(a);
    assert forall x :: x in b <==> x in Elements(b);
  }

  ghost predicate Countable(s: seq<Signal>) {
    WindowsRight(s) && Distinct(s) && DistinctIds(Elements(s))
  }

  type Clusters = seq<Clustering.Cluster<Signal>>

  ghost function CanonicalFor(s: seq<Signal>, p: Params): Clusters -> bool {
    c => Clustering.Canonical(Elements(s), c, CorrelationRules(p))
  }

  method Cluster(s: seq<Signal>, p: Params) returns (c: Clusters)
    requires WindowsRight(s) && Distinct(s) && DistinctIds(Elements(s))
    ensures CanonicalFor(s, p)(c)
    ensures Clustering.Partition(Elements(s), c)
    ensures forall i :: 0 <= i < |c| ==> c[i] != [] && WindowsRight(c[i])
    ensures Absorbed(c) + |c| == |s|
  {
    PrecedesIsStrict();
    c := ClusterSignals(s, p);
    ClustersAreRight(s, c, CorrelationRules(p));
  }

  method Build(s: seq<Signal>, c: Clusters, lookup: EventMap, context: seq<Event>, settings: Settings)
    returns (built: seq<Incident>)
    requires settings.params.windowSeconds > 0 && Clustering.Partition(Elements(s), c)
    requires forall i :: 0 <= i < |c| ==> c[i] != [] && WindowsRight(c[i])
    ensures BuiltFrom(built, c, |c|, BuildingOf(lookup, context, settings))
    ensures |built| == |c| && EventUnion(built) == AllEvents(s) && Known(built, ById(s))
  {
    ClustersCover(s, c);
    built := BuildAll(c, lookup, context, settings, BuildingOf(lookup, context, settings));
    BuildingHolds(lookup, context, settings);
    UnionOfBuilt(built, c, BuildingOf(lookup, context, settings));
    MembersKnown(s, c, built, BuildingOf(lookup, context, settings));
  }

  method FoldOverlaps(built: seq<Incident>, signals: SignalMap, lookup: EventMap, maxContext: nat)
    returns (incidents: seq<Incident>, absorbed: nat)
    requires Known(built, signals)
    ensures incidents == Remaining(built, ScoreWith(signals, lookup), maxContext)
    ensures EventUnion(incidents) == EventUnion(built) && |incidents| + absorbed == |built|
  {
    incidents, absorbed := MergeOverlapping(built, signals, lookup, maxContext);
    PassKeepsEvents(built, ScoreWith(signals, lookup), maxContext);
  }

  /** The incidents are what the overlap pass leaves of those built from the canonical clusters, one each. */
  ghost predicate ComesFrom(incidents: seq<Incident>, clusters: Clusters, built: seq<Incident>, s: seq<Signal>,
      lookup: EventMap, context: seq<Event>, settings: Settings) {
    && CanonicalFor(s, settings.params)(clusters)
    && BuiltFrom(built, clusters, |clusters|, BuildingOf(lookup, context, settings))
    && incidents == Remaining(built, ScoreWith(ById(s), lookup), settings.maxContext)
  }

  /** `build_correlated_incidents`: the incidents, and how many signals and incidents were absorbed. */
  method BuildCorrelated(s: seq<Signal>, lookup: EventMap, context: seq<Event>, settings: Settings)
    returns (incidents: seq<Incident>, absorbed: nat, ghost clusters: Clusters, ghost built: seq<Incident>)
    requires settings.params.windowSeconds > 0 && Countable(s)
    ensures ComesFrom(incidents, clusters, built, s, lookup, context, settings)
    ensures EventUnion(incidents) == AllEvents(s)
    ensures |incidents| + absorbed == |s|
  {
    if s == [] {
      NothingComesFromNothing(lookup, context, settings);
      return [], 0, [], [];
    }
    var found := Cluster(s, settings.params);
    AbsorbedIs(found);
    TotalAtLeast(found);
    var single := Build(s, found, lookup, context, settings);
    clusters, built := found, single;
    var overlapping;
    incidents, overlapping := FoldOverlaps(single, ById(s), lookup, settings.maxContext);
    absorbed := Absorbed(found) + overlapping;
  }

  lemma {:induction false} NothingComesFromNothing(lookup: EventMap, context: seq<Event>, settings: Settings)
    ensures ComesFrom([], [], [], [], lookup, context, settings)
  {
    assert Elements<Signal>([]) == {};
  }

  lemma {:induction false} TotalAtLeast(c: seq<Clustering.Cluster<Signal>>)
    requires forall i :: 0 <= i < |c| ==> c[i] != []
    ensures Clustering.TotalSize(c) >= |c|
  {
    if c != [] { TotalAtLeast(c[..|c| - 1]); }
  }

  // ---------------------------------------------------------------- the whole pipeline

  datatype Counters = Counters(
    total: nat, eligible: nat, skipped: nat, signals: nat, suppressed: nat, duplicates: nat, merges: nat,
      incidents: nat)

  datatype Detection = Detection(signals: seq<Signal>, incidents: seq<Incident>, suppressed: seq<Signal>,
                                 uncorrelated: seq<string>, counters: Counters)

  predicate Before(a: Candidate, b: Candidate) {
    a.event.timestamp.Some? && b.event.timestamp.Some?
    && (a.event.timestamp.value < b.event.timestamp.value
        || (a.event.timestamp.value == b.event.timestamp.value && StrLess(a.event.eventId, b.event.eventId)))
  }

  function Lookup(s: seq<Candidate>): EventMap {
    if s == [] then map[] else Lookup(s[..|s| - 1])[s[|s| - 1].event.eventId := s[|s| - 1].event]
  }

  /** Each identifier stands for the last of its events. */
  lemma {:induction false} LookupIsLast(s: seq<Candidate>, i: nat)
    requires i < |s| && forall j :: i < j < |s| ==> s[j].event.eventId != s[i].event.eventId
    ensures s[i].event.eventId in Lookup(s) && Lookup(s)[s[i].event.eventId] == s[i].event
  {
    if i < |s| - 1 { LookupIsLast(s[..|s| - 1], i); }
  }

  /** The identifiers of the candidates that are in no incident, in order. */
  function Rest(s: seq<Candidate>, correlated: set<string>): (r: seq<string>)
    ensures forall id :: id in r <==> id !in correlated && exists c :: c in s && c.event.eventId == id
  {
    if s == [] then []
    else
      var n := |s| - 1;
      assert forall c :: c in s <==> c in s[..n] || c == s[n];
      var last := if s[n].event.eventId in correlated then [] else [s[n].event.eventId];
      assert forall id :: id in last ==> exists c :: c in s && c.event.eventId == id;
      Rest(s[..n], correlated) + last
  }

  /** The events come in time order, those of one moment by identifier. */
  lemma {:induction false} EventsInOrder(eligible: seq<Candidate>, i: nat, j: nat)
    requires Timed(eligible) && i < j < |SortBy(eligible, Before)|
    ensures var t := SortBy(eligible, Before);
      && multiset(t) == multiset(eligible) && t[i].event.timestamp.Some? && t[j].event.timestamp.Some?
      && (t[i].event.timestamp.value < t[j].event.timestamp.value
          || (t[i].event.timestamp.value == t[j].event.timestamp.value
              && !StrLess(t[j].event.eventId, t[i].event.eventId)))
  {
    var t := SortBy(eligible, Before);
    TimedInOrder(eligible);
    assert t[i] in t && t[j] in t && !Before(t[j], t[i]);
  }

  ghost predicate Timed(s: seq<Candidate>) { forall c :: c in s ==> c.event.timestamp.Some? }

  lemma {:induction false} TimedInOrder(s: seq<Candidate>)
    requires Timed(s)
    ensures Sorted(SortBy(s, Before), Before) && Timed(SortBy(s, Before))
  {
    var t := SortBy(s, Before);
    forall c | c in t ensures c in s { assert c in multiset(t); }
    if s != [] {
      TimedInOrder(s[1..]);
      InsertCandidate(s[0], SortBy(s[1..], Before));
    }
  }

  /** What is not before `b` is not before anything before `b`. */
  lemma {:induction false} NotBefore(a: Candidate, b: Candidate, c: Candidate)
    requires a.event.timestamp.Some? && b.event.timestamp.Some? && c.event.timestamp.Some?
    requires !Before(a, b) && !Before(b, c)
    ensures !Before(a, c)
  {
    if a.event.timestamp.value == b.event.timestamp.value == c.event.timestamp.value {
      if a.event.eventId != b.event.eventId { StrLessTotal(a.event.eventId, b.event.eventId); }
      if b.event.eventId != c.event.eventId { StrLessTotal(b.event.eventId, c.event.eventId); }
      StrLessIsStrictOrder();
    }
  }

  lemma {:induction false} NotBoth(a: Candidate, b: Candidate)
    requires Before(a, b)
    ensures !Before(b, a)
  {
    StrLessIsStrictOrder();
  }

  lemma {:induction false} InsertCandidate(x: Candidate, s: seq<Candidate>)
    requires Sorted(s, Before) && x.event.timestamp.Some? && Timed(s)
    ensures Sorted(Insert(x, s, Before), Before)
  {
    if s != [] && Before(s[0], x) {
      InsertCandidate(x, s[1..]);
      var r := Insert(x, s[1..], Before);
      NotBoth(s[0], x);
      forall j | 0 <= j < |r| ensures !Before(r[j], s[0]) {
        assert r[j] in multiset(r);
        assert r[j] == x || r[j] in s[1..];
      }
    } else if s != [] {
      forall j | 0 <= j < |s| ensures !Before(s[j], x) {
        if j > 0 { NotBefore(s[j], s[0], x); }
      }
    }
  }

  /** What is in no incident is told event by event. */
  lemma {:induction false} RestOfMore(s: seq<Candidate>, c: Candidate, correlated: set<string>)
    ensures Rest([], correlated) == []
    ensures Rest(s + [c], correlated)
      == Rest(s, correlated) + if c.event.eventId in correlated then [] else [c.event.eventId]
  {
    assert (s + [c])[..|s|] == s;
  }

  method Correlated(incidents: seq<Incident>) returns (ids: set<string>)
    ensures ids == EventUnion(incidents)
  {
    ids := {};
    for k := 0 to |incidents|
      invariant ids == EventUnion(incidents[..k])
    {
      assert incidents[..k + 1] == incidents[..k] + [incidents[k]];
      UnionAppend(incidents[..k], incidents[k]);
      ids := ids + incidents[k].eventIds;
    }
    assert incidents[..|incidents|] == incidents;
  }

  /** The rule outputs there are when there is anything to look at. */
  function Raised(candidates: seq<Candidate>, outputs: seq<RuleOutput>, policy: Policy): seq<Signal> {
    if Chosen(KeepFirst(candidates, HasId, KeyOf, {})) == [] then [] else Collected(outputs, policy.valid)
  }

  function Active(all: seq<Signal>, policy: Policy): seq<Signal> { Passing(all, (s: Signal) => !policy.suppressed(s)) }

  /** Suppression and deduplication, with their counters. */
  method Reduce(all: seq<Signal>, policy: Policy, p: Params, ghost dedupe: Stage)
    returns (deduped: seq<Signal>, silenced: seq<Signal>, suppressed: nat, duplicates: nat)
    requires dedupe == Deduplication(p, policy.rename) && Careful(dedupe) && WindowsRight(all)
    ensures deduped == Run(dedupe, Active(all, policy)) && AllEvents(deduped) == AllEvents(Active(all, policy))
    ensures silenced == Passing(all, policy.suppressed)
    ensures suppressed == |silenced| && |all| == suppressed + duplicates + |deduped|
  {
    var active;
    active, silenced, suppressed := Suppress(all, policy);
    PassingExact(all, (s: Signal) => !policy.suppressed(s));
    StageIsFaithful(dedupe, active);
    deduped := DeduplicateSignals(active, p, policy.rename);
    duplicates := |active| - |deduped|;
  }

  /** The candidates in time order, and those of them that are in no incident. */
  method LeftOver(eligible: seq<Candidate>, incidents: seq<Incident>) returns (rest: seq<string>)
    ensures rest == Rest(SortBy(eligible, Before), EventUnion(incidents))
    ensures forall id :: id in rest <==>
      id !in EventUnion(incidents) && exists c :: c in eligible && c.event.eventId == id
  {
    var ordered := SortBy(eligible, Before);
    SameMultisetSameElements(ordered, eligible);
    assert forall c :: c in ordered <==> c in Elements(eligible);
    var correlated := Correlated(incidents);
    rest := Rest(ordered, correlated);
  }

  /** What the counters say of a detection. */
  ghost predicate Balanced(d: Detection, candidates: seq<Candidate>, raised: seq<Signal>, policy: Policy) {
    && d.counters.total == |candidates| && d.counters.total == d.counters.eligible + d.counters.skipped
    && d.counters.signals == |raised|
    && d.counters.signals == d.counters.suppressed + d.counters.duplicates + d.counters.merges + d.counters.incidents
    && d.counters.incidents == |d.incidents| && d.counters.suppressed == |d.suppressed|
    && EventUnion(d.incidents) == AllEvents(Active(raised, policy))
    && EventUnion(d.incidents) == AllEvents(d.signals)
  }

  /** What a detection reports: the signals after deduplication, the silenced ones, the incidents that come from
      the canonical clusters, and in time order the events that are in none. */
  ghost predicate Reports(d: Detection, eligible: seq<Candidate>, raised: seq<Signal>, clusters: Clusters,
      built: seq<Incident>, context: seq<Event>, policy: Policy, settings: Settings) {
    var ordered := SortBy(eligible, Before);
    && d.signals == Run(Deduplication(settings.params, policy.rename), Active(raised, policy))
    && d.suppressed == Passing(raised, policy.suppressed)
    && ComesFrom(d.incidents, clusters, built, d.signals, Lookup(ordered), context, settings)
    && d.uncorrelated == Rest(ordered, EventUnion(d.incidents))
  }

  ghost predicate RestRight(d: Detection, candidates: seq<Candidate>) {
    forall id :: id in d.uncorrelated <==>
      id !in EventUnion(d.incidents)
      && exists c :: c in Chosen(KeepFirst(candidates, HasId, KeyOf, {})) && c.event.eventId == id
  }

  /** Stages 3 to 5 for a non-empty choice of events. */
  method Correlate(candidates: seq<Candidate>, eligible: seq<Candidate>, skipped: nat, all: seq<Signal>,
      context: seq<Event>, policy: Policy, settings: Settings, ghost dedupe: Stage)
    returns (d: Detection, ghost clusters: Clusters, ghost built: seq<Incident>)
    requires dedupe == Deduplication(settings.params, policy.rename)
    requires settings.params.windowSeconds > 0 && Careful(dedupe) && WindowsRight(all)
      && |eligible| + skipped == |candidates|
    requires Countable(Run(dedupe, Active(all, policy)))
    ensures Balanced(d, candidates, all, policy)
    ensures Reports(d, eligible, all, clusters, built, context, policy, settings)
    ensures forall id :: id in d.uncorrelated <==>
      id !in EventUnion(d.incidents) && exists c :: c in eligible && c.event.eventId == id
  {
    var deduped, silenced, suppressed, duplicates := Reduce(all, policy, settings.params, dedupe);
    var incidents, merges;
    incidents, merges, clusters, built :=
      BuildCorrelated(deduped, Lookup(SortBy(eligible, Before)), context, settings);
    var rest := LeftOver(eligible, incidents);
    d := Detection(deduped, incidents, silenced, rest,
                   Counters(|candidates|, |eligible|, skipped, |all|, suppressed, duplicates, merges, |incidents|));
  }

  /** What is returned when no event is eligible; no rule runs then. */
  function NothingFound(total: nat, skipped: nat): Detection {
    Detection([], [], [], [], Counters(total, 0, skipped, 0, 0, 0, 0, 0))
  }

  lemma {:induction false} NothingFoundIsRight(candidates: seq<Candidate>, skipped: nat, policy: Policy)
    requires Chosen(KeepFirst(candidates, HasId, KeyOf, {})) == [] && skipped == |candidates|
    ensures Balanced(NothingFound(|candidates|, skipped), candidates, [], policy)
    ensures RestRight(NothingFound(|candidates|, skipped), candidates)
  {
    assert EventUnion([]) == {} && AllEvents([]) == {};
    assert Active([], policy) == [];
  }

  lemma {:induction false} NothingReported(total: nat, context: seq<Event>, policy: Policy, settings: Settings)
    ensures Reports(NothingFound(total, total), [], [], [], [], context, policy, settings)
  {
    NothingComesFromNothing(Lookup([]), context, settings);
    assert KeysInOrder([], PrimaryOf) == [];
  }

  /** The pipeline; `dedupe` is what deduplication does. */
  method AnalyzeWith(candidates: seq<Candidate>, outputs: seq<RuleOutput>, context: seq<Event>, policy: Policy,
      settings: Settings, ghost dedupe: Stage)
    returns (d: Detection, ghost clusters: Clusters, ghost built: seq<Incident>)
    requires dedupe == Deduplication(settings.params, policy.rename)
    requires settings.params.windowSeconds > 0 && Careful(dedupe) && WindowsRight(Collected(outputs, policy.valid))
    requires Countable(Run(dedupe, Active(Collected(outputs, policy.valid), policy)))
    ensures Balanced(d, candidates, Raised(candidates, outputs, policy), policy) && RestRight(d, candidates)
    ensures Reports(d, Analysed(candidates), Raised(candidates, outputs, policy), clusters, built, context, policy,
                    settings)
  {
    var eligible, skipped := SelectEligible(candidates);
    SelectedExactly(candidates);
    if eligible == [] {
      NothingFoundIsRight(candidates, skipped, policy);
      NothingReported(|candidates|, context, policy, settings);
      return NothingFound(|candidates|, skipped), [], [];
    }
    var all := CollectSignals(outputs, policy);
    d, clusters, built := Correlate(candidates, eligible, skipped, all, context, policy, settings, dedupe);
  }

  /** `analyze`: `outputs` are what the rules give for the eligible events. Every candidate is eligible
      or skipped; every signal is suppressed, a duplicate, absorbed, or the anchor of an incident;
      incidents hold exactly the events of the unsuppressed signals, and the other eligible events are
      reported as uncorrelated. */
  method Analyze(candidates: seq<Candidate>, outputs: seq<RuleOutput>, context: seq<Event>, policy: Policy,
      settings: Settings)
    returns (d: Detection, ghost clusters: Clusters, ghost built: seq<Incident>)
    requires settings.params.windowSeconds > 0 && WindowsRight(Collected(outputs, policy.valid))
    requires Countable(Run(Deduplication(settings.params, policy.rename),
      Active(Collected(outputs, policy.valid), policy)))
    ensures Balanced(d, candidates, Raised(candidates, outputs, policy), policy) && RestRight(d, candidates)
    ensures Reports(d, Analysed(candidates), Raised(candidates, outputs, policy), clusters, built, context, policy,
                    settings)
  {
    DeduplicationIsCareful(settings.params, policy.rename);
    d, clusters, built := AnalyzeWith(candidates, outputs, context, policy, settings,
                                      Deduplication(settings.params, policy.rename));
  }
}
