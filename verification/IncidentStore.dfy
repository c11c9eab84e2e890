/** The stored incident row and the association rows that go with it, updated in place. */
module IncidentStore {
  import opened Ordering
  import opened Signals

  /** One row of the incident's event associations. */
  datatype EventRow = EventRow(eventId: string, isContext: bool)

  datatype Value = Number(n: int) | Text(s: string)

  datatype Scalars = Scalars(
    title: string, incidentType: string, family: string, severity: Severity, confidence: real,
    firstSeen: int, lastSeen: int, primaryEntity: string, mergeKey: string)

  /** What an incoming incident brings to the row. */
  datatype Incoming = Incoming(
    scalars: Scalars, targets: set<string>, techniques: set<string>, metrics: map<string, Value>,
    eventIds: set<string>, contextIds: set<string>, signalIds: set<string>)

  const CONFIDENCE_TOLERANCE: real := 0.000000001

  // ---------------------------------------------------------------- association rows

  function RealIds(rows: seq<EventRow>): set<string> { set r | r in rows && !r.isContext :: r.eventId }

  function ContextIds(rows: seq<EventRow>): set<string> { set r | r in rows && r.isContext :: r.eventId }

  /** The primary key: no event twice. */
  ghost predicate UniqueRows(rows: seq<EventRow>) {
    forall i, j :: 0 <= i < j < |rows| ==> rows[i].eventId != rows[j].eventId
  }

  lemma {:induction false} KindsDisjoint(rows: seq<EventRow>)
    requires UniqueRows(rows)
    ensures RealIds(rows) !! ContextIds(rows)
  {
    forall r, q | r in rows && q in rows && r.eventId == q.eventId ensures r == q {
      var i, j :| 0 <= i < |rows| && 0 <= j < |rows| && rows[i] == r && rows[j] == q;
      assert i == j;
    }
  }

  function Find(rows: seq<EventRow>, id: string): (i: nat)
    ensures i <= |rows|
    ensures i < |rows| ==> rows[i].eventId == id
    ensures i == |rows| ==> forall r :: r in rows ==> r.eventId != id
  {
    if rows == [] || rows[0].eventId == id then 0
    else
      var i := Find(rows[1..], id);
      assert forall r :: r in rows ==> r == rows[0] || r in rows[1..];
      1 + i
  }

  /** What the row looks like after the first `done` events have been made real. */
  ghost predicate Promoted(rows: seq<EventRow>, before: seq<EventRow>, done: set<string>) {
    && UniqueRows(rows)
    && RealIds(rows) == RealIds(before) + done
    && ContextIds(rows) == ContextIds(before) - done
  }

  lemma {:induction false} AppendRow(rows: seq<EventRow>, id: string, isContext: bool)
    requires UniqueRows(rows) && Find(rows, id) == |rows|
    ensures UniqueRows(rows + [EventRow(id, isContext)])
    ensures RealIds(rows + [EventRow(id, isContext)]) == RealIds(rows) + if isContext then {} else {id}
    ensures ContextIds(rows + [EventRow(id, isContext)]) == ContextIds(rows) + if isContext then {id} else {}
  {
    var more := rows + [EventRow(id, isContext)];
    assert forall r :: r in more <==> r in rows || r == EventRow(id, isContext);
    forall i | 0 <= i < |rows| ensures rows[i].eventId != id { assert rows[i] in rows; }
  }

  lemma {:induction false} PromoteRow(rows: seq<EventRow>, i: nat)
    requires UniqueRows(rows) && i < |rows|
    ensures var n := rows[i := EventRow(rows[i].eventId, false)];
      && UniqueRows(n)
      && RealIds(n) == RealIds(rows) + {rows[i].eventId}
      && ContextIds(n) == ContextIds(rows) - {rows[i].eventId}
  {
    var n := rows[i := EventRow(rows[i].eventId, false)];
    forall r ensures r in n <==> (r in rows && r.eventId != rows[i].eventId) || r == EventRow(rows[i].eventId, false) {
      if r in rows && r.eventId != rows[i].eventId {
        var j :| 0 <= j < |rows| && rows[j] == r;
        assert n[j] == r;
      }
      if r in n {
        var j :| 0 <= j < |n| && n[j] == r;
        assert j != i ==> rows[j] == r;
      }
      assert n[i] == EventRow(rows[i].eventId, false);
    }
    forall j, k | 0 <= j < k < |n| ensures n[j].eventId != n[k].eventId {
      assert n[j].eventId == rows[j].eventId && n[k].eventId == rows[k].eventId;
    }
  }

  function Kept(rows: seq<EventRow>, contextIds: set<string>): (r: seq<EventRow>)
    ensures forall x :: x in r <==> x in rows && (!x.isContext || x.eventId in contextIds)
    ensures |r| <= |rows|
  {
    if rows == [] then []
    else
      var rest := Kept(rows[1..], contextIds);
      assert forall x :: x in rows <==> x == rows[0] || x in rows[1..];
      if !rows[0].isContext || rows[0].eventId in contextIds then [rows[0]] + rest else rest
  }

  lemma {:induction false} KeptUnique(rows: seq<EventRow>, contextIds: set<string>)
    requires UniqueRows(rows)
    ensures UniqueRows(Kept(rows, contextIds))
  {
    if rows != [] {
      KeptUnique(rows[1..], contextIds);
      var rest := Kept(rows[1..], contextIds);
      forall j | 0 <= j < |rest| ensures rest[j].eventId != rows[0].eventId {
        assert rest[j] in rows[1..];
        var k :| 1 <= k < |rows| && rows[k] == rest[j];
      }
    }
  }

  lemma {:induction false} KeptAll(rows: seq<EventRow>, contextIds: set<string>)
    requires ContextIds(rows) <= contextIds
    ensures Kept(rows, contextIds) == rows
  {
    if rows != [] {
      assert forall r :: r in rows[1..] ==> r in rows;
      assert rows[0] in rows && (rows[0].isContext ==> rows[0].eventId in ContextIds(rows));
      KeptAll(rows[1..], contextIds);
    }
  }

  /** `_bounded_context_ids`. */
  ghost function BoundedContext(existing: set<string>, incoming: set<string>, finalEvents: set<string>,
      maxContext: nat): set<string> {
    Least((existing + incoming) - finalEvents, maxContext)
  }

  // ---------------------------------------------------------------- the row

  /** What a row says, leaving out the order of its associations. */
  datatype View = View(
    eventIds: set<string>, contextIds: set<string>, signals: set<string>, jobs: set<string>,
    scalars: Scalars, targets: set<string>, techniques: set<string>, metrics: map<string, Value>)

  /** What is stored of an incident: the row's contents and its version. */
  datatype Stored = Stored(view: View, version: nat)

  /** `max(1, version or 1) + 1`. */
  function Bumped(version: nat): nat { (if version >= 1 then version else 1) + 1 }

  function Distance(a: real, b: real): real { if a >= b then a - b else b - a }

  /** The incoming scalars, except that a confidence within tolerance of the stored one is left alone. */
  function ScalarsAfter(stored: Scalars, incoming: Scalars): Scalars {
    incoming.(confidence := if Distance(stored.confidence, incoming.confidence) > CONFIDENCE_TOLERANCE
      then incoming.confidence
                            else stored.confidence)
  }

  /** What refreshing a row from an incoming incident must leave. */
  ghost function Reconciled(v: View, b: Incoming, job: string, maxContext: nat): View {
    var eventIds := v.eventIds + b.eventIds;
    View(eventIds, BoundedContext(v.contextIds, b.contextIds, eventIds, maxContext), v.signals + b.signalIds, v.jobs
      + {job},
         ScalarsAfter(v.scalars, b.scalars), b.targets, b.techniques, v.metrics + b.metrics)
  }

  class IncidentRow {
    var events: seq<EventRow>
    var signals: seq<string>
    var jobs: seq<string>
    var scalars: Scalars
    var targets: set<string>
    var techniques: set<string>
    var metrics: map<string, Value>
    var version: nat

    constructor (s: Scalars)
      ensures Valid() && events == [] && signals == [] && jobs == [] && scalars == s && version == 1
    {
      events, signals, jobs, scalars, targets, techniques, metrics, version := [], [], [], s, {}, {}, map[], 1;
    }

    ghost predicate Valid()
      reads this
    {
      UniqueRows(events)
    }

    function Contents(): View
      reads this
    {
      View(RealIds(events), ContextIds(events), Elements(signals), Elements(jobs), scalars, targets, techniques,
        metrics)
    }

    function Value(): Stored
      reads this
    {
      Stored(Contents(), version)
    }

    /** First loop of `_reconcile_associations`: every event ends up real, added or promoted. */
    method MakeReal(eventIds: set<string>) returns (changed: bool)
      requires Valid()
      modifies this`events
      ensures Promoted(events, old(events), eventIds)
      ensures changed <==> RealIds(events) != RealIds(old(events))
      ensures !changed ==> events == old(events)
    {
      changed := false;
      KindsDisjoint(events);
      var todo, done: set<string> := eventIds, {};
      while todo != {}
        invariant done + todo == eventIds && done !! todo
        invariant Promoted(events, old(events), done)
        invariant changed <==> RealIds(events) != RealIds(old(events))
        invariant !changed ==> events == old(events)
        decreases todo
      {
        var id :| id in todo;
        todo, done := todo - {id}, done + {id};
        KindsDisjoint(events);
        var i := Find(events, id);
        if i == |events| {
          assert id !in RealIds(events) && id !in ContextIds(events);
          AppendRow(events, id, false);
          events := events + [EventRow(id, false)];
          changed := true;
          assert id in RealIds(events) && id !in RealIds(old(events));
        } else if events[i].isContext {
          assert events[i] in events && id in ContextIds(events);
          assert id !in RealIds(old(events));
          PromoteRow(events, i);
          events := events[i := EventRow(id, false)];
          changed := true;
        } else {
          assert events[i] in events && id in RealIds(events);
        }
      }
    }

    /** Second loop: missing context rows are added. */
    method AddContext(contextIds: set<string>)
      requires Valid()
      modifies this`events
      ensures UniqueRows(events) && RealIds(events) == RealIds(old(events))
      ensures ContextIds(events) == ContextIds(old(events)) + (contextIds - RealIds(old(events)))
      ensures contextIds <= ContextIds(old(events)) + RealIds(old(events)) ==> events == old(events)
    {
      var todo, done: set<string> := contextIds, {};
      while todo != {}
        invariant done + todo == contextIds && done !! todo
        invariant UniqueRows(events) && RealIds(events) == RealIds(old(events))
        invariant ContextIds(events) == ContextIds(old(events)) + (done - RealIds(old(events)))
        invariant contextIds <= ContextIds(old(events)) + RealIds(old(events)) ==> events == old(events)
        decreases todo
      {
        var id :| id in todo;
        todo, done := todo - {id}, done + {id};
        var i := Find(events, id);
        if i == |events| {
          assert id !in RealIds(events) && id !in ContextIds(events);
          AppendRow(events, id, true);
          events := events + [EventRow(id, true)];
        } else {
          assert events[i] in events;
        }
      }
    }

    /** `_reconcile_associations`: afterwards there is one row per event, the real ones are the old real
        ones plus `eventIds`, and the context rows are `contextIds` without the real ones. */
    method ReconcileAssociations(eventIds: set<string>, contextIds: set<string>, signalIds: set<string>)
      returns (changed: bool, contextChanged: bool)
      requires Valid() && eventIds !! contextIds
      modifies this`events, this`signals
      ensures Valid()
      ensures RealIds(events) == RealIds(old(events)) + eventIds
      ensures ContextIds(events) == contextIds - RealIds(events)
      ensures Elements(signals) == Elements(old(signals)) + signalIds
      ensures changed <==> RealIds(events) != RealIds(old(events)) || Elements(signals) != Elements(old(signals))
      ensures contextChanged <==> ContextIds(events) != ContextIds(old(events))
      ensures !changed && !contextChanged ==> events == old(events) && signals == old(signals)
    {
      var before := ContextIds(events);
      changed := MakeReal(eventIds);
      ghost var promoted := events;
      AddContext(contextIds);
      ghost var filled := events;
      KindsDisjoint(events);
      KeptUnique(events, contextIds);
      events := Kept(events, contextIds);
      KeptIds(filled, contextIds);
      contextChanged := before != ContextIds(events);
      if !changed && !contextChanged {
        assert promoted == old(events);
        KindsDisjoint(promoted);
        assert contextIds <= ContextIds(promoted) + RealIds(promoted);
        assert ContextIds(filled) <= contextIds;
        KeptAll(filled, contextIds);
      }
      var added := AddSignals(signalIds);
      changed := changed || added;
    }

    method AddSignals(signalIds: set<string>) returns (added: bool)
      modifies this`signals
      ensures Elements(signals) == Elements(old(signals)) + signalIds
      ensures added <==> Elements(signals) != Elements(old(signals))
      ensures !added ==> signals == old(signals)
    {
      added := false;
      var todo, done: set<string> := signalIds, {};
      while todo != {}
        invariant done + todo == signalIds && done !! todo
        invariant Elements(signals) == Elements(old(signals)) + done
        invariant added <==> Elements(signals) != Elements(old(signals))
        invariant !added ==> signals == old(signals)
        decreases todo
      {
        var id :| id in todo;
        todo, done := todo - {id}, done + {id};
        if id !in signals {
          assert id !in Elements(old(signals));
          ElementsAppend(signals, id);
          signals := signals + [id];
          added := true;
        }
      }
    }

    /** Job and associations of `reconcile_existing_incident`. */
    method ReconcileContents(b: Incoming, job: string, maxContext: nat) returns (changed: bool)
      requires Valid()
      modifies this`events, this`signals, this`jobs
      ensures Valid()
      ensures RealIds(events) == RealIds(old(events)) + b.eventIds
      ensures ContextIds(events) == BoundedContext(ContextIds(old(events)), b.contextIds, RealIds(events), maxContext)
      ensures Elements(signals) == Elements(old(signals)) + b.signalIds && Elements(jobs) == Elements(old(jobs)) + {job}
      ensures changed <==> RealIds(events) != RealIds(old(events)) || ContextIds(events) != ContextIds(old(events))
                           || Elements(signals) != Elements(old(signals)) || Elements(jobs) != Elements(old(jobs))
      ensures !changed ==> events == old(events) && signals == old(signals) && jobs == old(jobs)
    {
      var finalEvents := RealIds(events) + b.eventIds;
      var contextIds := TakeLeast((ContextIds(events) + b.contextIds) - finalEvents, maxContext);
      assert finalEvents !! contextIds;
      var associations, context := ReconcileAssociations(finalEvents, contextIds, b.signalIds + Elements(signals));
      assert RealIds(events) == finalEvents && contextIds - finalEvents == contextIds;
      var joined := AddJob(job);
      changed := joined || associations || context;
    }

    method AddJob(job: string) returns (added: bool)
      modifies this`jobs
      ensures Elements(jobs) == Elements(old(jobs)) + {job}
      ensures added <==> Elements(jobs) != Elements(old(jobs))
      ensures !added ==> jobs == old(jobs)
    {
      added := job !in jobs;
      if added {
        assert job !in Elements(old(jobs));
        ElementsAppend(jobs, job);
        jobs := jobs + [job];
      }
    }

    /** Scalars, targets, techniques and metrics of `reconcile_existing_incident`. */
    method RefreshFields(b: Incoming) returns (changed: bool)
      modifies this`scalars, this`targets, this`techniques, this`metrics
      ensures scalars == ScalarsAfter(old(scalars), b.scalars) && targets == b.targets && techniques == b.techniques
      ensures metrics == old(metrics) + b.metrics
      ensures changed <==> scalars != old(scalars) || targets != old(targets) || techniques != old(techniques)
                           || metrics != old(metrics)
    {
      changed := false;
      var refreshed := ScalarsAfter(scalars, b.scalars);
      if refreshed != scalars {
        scalars, changed := refreshed, true;
      }
      if targets != b.targets {
        targets, changed := b.targets, true;
      }
      if techniques != b.techniques {
        techniques, changed := b.techniques, true;
      }
      var merged := metrics + b.metrics;
      if metrics != merged {
        metrics, changed := merged, true;
      }
    }

    /** `reconcile_existing_incident`: it reports a change exactly when the row says something else
        afterwards, and leaves the row as it was otherwise. */
    method ReconcileExisting(b: Incoming, job: string, maxContext: nat) returns (changed: bool)
      requires Valid()
      modifies this`events, this`signals, this`jobs, this`scalars, this`targets, this`techniques, this`metrics
      ensures Valid()
      ensures Contents() == Reconciled(old(Contents()), b, job, maxContext)
      ensures changed <==> Contents() != old(Contents())
      ensures !changed ==>
        events == old(events) && signals == old(signals) && jobs == old(jobs) && scalars == old(scalars)
                           && targets == old(targets) && techniques == old(techniques) && metrics == old(metrics)
    {
      var contents := ReconcileContents(b, job, maxContext);
      var fields := RefreshFields(b);
      changed := contents || fields;
    }
  }

  lemma {:induction false} ElementsAppend(s: seq<string>, x: string)
    ensures Elements(s + [x]) == Elements(s) + {x}
  {}

  lemma {:induction false} KeptIds(rows: seq<EventRow>, contextIds: set<string>)
    requires UniqueRows(rows)
    ensures RealIds(Kept(rows, contextIds)) == RealIds(rows)
    ensures ContextIds(Kept(rows, contextIds)) == ContextIds(rows) * contextIds
  {}

  // ---------------------------------------------------------------- main results

  /** The bound forgets nothing it would keep: bounding again with the same candidates gives the same
      context, even when the first bounding discarded some of them. */
  lemma {:induction false} BoundedAgain(existing: set<string>, incoming: set<string>, finalEvents: set<string>,
      maxContext: nat)
    ensures var kept := BoundedContext(existing, incoming, finalEvents, maxContext);
      && kept !! finalEvents && |kept| <= maxContext
      && BoundedContext(kept, incoming, finalEvents, maxContext) == kept
  {
    var kept := BoundedContext(existing, incoming, finalEvents, maxContext);
    LeastAbsorbs((existing + incoming) - finalEvents, (kept + incoming) - finalEvents, maxContext);
  }

  /** Refreshing a row a second time from the same incident for the same job leaves it as it is, so
      the second call reports no change. */
  lemma {:induction false} ReconcileIdempotent(v: View, b: Incoming, job: string, maxContext: nat)
    ensures Reconciled(Reconciled(v, b, job, maxContext), b, job, maxContext) == Reconciled(v, b, job, maxContext)
  {
    var once := Reconciled(v, b, job, maxContext);
    BoundedAgain(v.contextIds, b.contextIds, once.eventIds, maxContext);
    assert once.eventIds + b.eventIds == once.eventIds;
    assert once.signals + b.signalIds == once.signals;
    assert once.jobs + {job} == once.jobs;
    assert once.metrics + b.metrics == once.metrics;
  }

  /** `_is_noop`. */
  predicate IsNoop(v: View, b: Incoming, job: string) {
    && job in v.jobs
    && b.eventIds <= v.eventIds
    && b.signalIds <= v.signals
    && b.contextIds <= v.eventIds + v.contextIds
  }

  /** The candidates for the context of a row refreshed from `b`. */
  function Candidates(v: View, b: Incoming): set<string> { (v.contextIds + b.contextIds) - (v.eventIds + b.eventIds) }

  /** Before a refresh: each context event brought along has fewer than the bound of candidates before it. */
  predicate HasRoom(v: View, b: Incoming, maxContext: nat) {
    forall x :: x in b.contextIds - (v.eventIds + b.eventIds) ==> |Lower(Candidates(v, b), x)| < maxContext
  }

  /** Once a row has been refreshed, the quick test recognizes the same incident if and only if there was
      room for its context before the refresh. */
  lemma {:induction false} NoopAfterReconcile(v: View, b: Incoming, job: string, maxContext: nat)
    ensures IsNoop(Reconciled(v, b, job, maxContext), b, job) <==> HasRoom(v, b, maxContext)
  {
    var once := Reconciled(v, b, job, maxContext);
    forall x | x in b.contextIds - (v.eventIds + b.eventIds)
      ensures x in once.contextIds <==> |Lower(Candidates(v, b), x)| < maxContext {
      LeastByRank(Candidates(v, b), maxContext, x);
    }
  }

  /** There is room whenever the candidates do not exceed the bound. */
  lemma {:induction false} FewCandidatesFit(v: View, b: Incoming, job: string, maxContext: nat)
    requires |Candidates(v, b)| <= maxContext
    ensures HasRoom(v, b, maxContext) && Reconciled(v, b, job, maxContext).contextIds == Candidates(v, b)
  {
    LeastKeepsAll(Candidates(v, b), maxContext);
    forall x | x in b.contextIds - (v.eventIds + b.eventIds) ensures |Lower(Candidates(v, b), x)| < maxContext {
      LeastByRank(Candidates(v, b), maxContext, x);
    }
  }

  /** The quick test recognizes an incident exactly when storing it for the job again, bound or no bound, has
      nothing to add. */
  lemma {:induction false} NoopAddsNothing(v: View, b: Incoming, job: string)
    requires v.eventIds !! v.contextIds
    ensures IsNoop(v, b, job) <==>
      && v.jobs + {job} == v.jobs && v.eventIds + b.eventIds == v.eventIds && v.signals + b.signalIds == v.signals
      && (v.contextIds + b.contextIds) - v.eventIds == v.contextIds
  {
    if (v.contextIds + b.contextIds) - v.eventIds == v.contextIds {
      forall x | x in b.contextIds ensures x in v.eventIds + v.contextIds {
        assert x in (v.contextIds + b.contextIds) - v.eventIds || x in v.eventIds;
      }
    }
    if v.jobs + {job} == v.jobs { assert job in v.jobs + {job}; }
    assert v.eventIds + b.eventIds == v.eventIds <==> b.eventIds <= v.eventIds;
    assert v.signals + b.signalIds == v.signals <==> b.signalIds <= v.signals;
  }

  predicate MayStay(x: string, v: View, b: Incoming) {
    (x in v.contextIds || x in b.contextIds) && x !in v.eventIds && x !in b.eventIds
  }

  /** The refreshed row: events, signals and jobs are joined, the first context ids are kept, the rest is as the
      incident says, except a confidence that moved by no more than the tolerance. */
  lemma {:induction false} ReconciledExactly(v: View, b: Incoming, job: string, maxContext: nat)
    ensures var r := Reconciled(v, b, job, maxContext);
      && r.eventIds == v.eventIds + b.eventIds && r.signals == v.signals + b.signalIds && r.jobs == v.jobs + {job}
      && |r.contextIds| <= maxContext && (forall x :: x in r.contextIds ==> MayStay(x, v, b))
      && (forall x :: MayStay(x, v, b) && x !in r.contextIds ==>
            |r.contextIds| == maxContext && forall y :: y in r.contextIds ==> StrLess(y, x))
      && r.targets == b.targets && r.techniques == b.techniques
  {
    var all := Candidates(v, b);
    assert IsLeast(Least(all, maxContext), all, maxContext);
    forall x | MayStay(x, v, b) && x !in Least(all, maxContext) ensures |Least(all, maxContext)| == maxContext {
      if |Least(all, maxContext)| == |all| { SubsetOfSameSize(Least(all, maxContext), all); }
    }
  }

  lemma {:induction false} RefreshedFields(v: View, b: Incoming, job: string, maxContext: nat)
    ensures var r, c := Reconciled(v, b, job, maxContext), b.scalars.confidence;
      && r.scalars == b.scalars.(confidence := r.scalars.confidence)
      && (r.scalars.confidence == c || r.scalars.confidence == v.scalars.confidence)
      && (c - 0.000000001 <= r.scalars.confidence <= c + 0.000000001)
      && (c > v.scalars.confidence + 0.000000001 || c < v.scalars.confidence - 0.000000001 ==>
        r.scalars.confidence == c)
      && (c <= v.scalars.confidence + 0.000000001 && c >= v.scalars.confidence - 0.000000001 ==>
            r.scalars.confidence == v.scalars.confidence)
      && (forall k :: k in r.metrics <==> k in v.metrics || k in b.metrics)
      && (forall k :: k in b.metrics ==> r.metrics[k] == b.metrics[k])
      && (forall k :: k in v.metrics && k !in b.metrics ==> r.metrics[k] == v.metrics[k])
  {}

  /** Versions rise by one, and never stay below two after a change. */
  lemma {:induction false} BumpedRises(version: nat)
    ensures Bumped(version) >= 2 && Bumped(version) > version
    ensures version >= 1 ==> Bumped(version) == version + 1
  {}
}
