/** What cleanup deletes along with a record: which rows go, and what the remaining ones point to. */
module Dependents {
  import opened Ordering
  import opened Archives

  // ---------------------------------------------------------------- rows

  datatype Kind =
    | Triage | Evidence | ReportRow
    | IncidentEventRow | IncidentSignalRow | JobEventRow | JobSignalRow | JobIncidentRow
    | CorrelationRow | AuditRow

  /** A row of one of the dependent tables; `run` is the triage run an evidence item or a report belongs to. */
  datatype Dependent = Dependent(
    kind: Kind, id: nat, name: Option<string>, incident: Option<string>, job: Option<string>,
    event: Option<string>, signal: Option<string>, run: Option<nat>)

  datatype Database = Database(roots: set<Key>, rows: set<Dependent>)

  const INCIDENT_KINDS: set<Kind> := {Triage, Evidence, ReportRow, IncidentEventRow, IncidentSignalRow, JobIncidentRow}
  const JOB_KINDS: set<Kind> := {Triage, Evidence, ReportRow, JobEventRow, JobSignalRow, JobIncidentRow}
  const EVENT_KINDS: set<Kind> := {IncidentEventRow, JobEventRow, Evidence}
  const SIGNAL_KINDS: set<Kind> := {IncidentSignalRow, JobSignalRow}

  /** Which columns each table has. */
  predicate Shaped(d: Dependent) {
    && (d.incident.Some? ==> d.kind in INCIDENT_KINDS || d.kind in {CorrelationRow, AuditRow})
    && (d.job.Some? ==> d.kind in JOB_KINDS)
    && (d.event.Some? ==> d.kind in EVENT_KINDS)
    && (d.signal.Some? ==> d.kind in SIGNAL_KINDS)
    && (d.run.Some? ==> d.kind in {Evidence, ReportRow})
  }

  predicate AllShaped(db: Database) { forall d :: d in db.rows ==> Shaped(d) }

  function Digits(n: nat): string { if n < 10 then [(n + '0' as int) as char] else Digits(n / 10) + Digits(n % 10) }

  function Text(s: Option<string>): string { if s.Some? then s.value else "None" }

  function Named(d: Dependent, prefix: string): string {
    if d.name.Some? && d.name.value != "" then d.name.value else prefix + Digits(d.id)
  }

  /** The key under which the archive holds a row, if it archives such rows. */
  function ArchiveKey(d: Dependent): Option<Key> {
    match d.kind
    case Triage => Some((TriageRun, Named(d, "triage-row-")))
    case Evidence => Some((EvidenceItem, Named(d, "evidence-row-")))
    case ReportRow => Some((ReportRecord, Named(d, "report-row-")))
    case IncidentEventRow => Some((IncidentEventAssociation, Text(d.incident) + ":" + Text(d.event)))
    case IncidentSignalRow => Some((IncidentSignalAssociation, Text(d.incident) + ":" + Text(d.signal)))
    case JobEventRow => Some((JobEventAssociation, Text(d.job) + ":" + Text(d.event)))
    case JobSignalRow => Some((JobSignalAssociation, Text(d.job) + ":" + Text(d.signal)))
    case JobIncidentRow => Some((JobIncidentAssociation, Text(d.job) + ":" + Text(d.incident)))
    case _ => None
  }

  // ---------------------------------------------------------------- reading a root's rows

  function OfKind(rows: set<Dependent>, kind: Kind): set<Dependent> { set d | d in rows && d.kind == kind }

  function OfKinds(rows: set<Dependent>, kinds: seq<Kind>): set<Dependent> { set d | d in rows && d.kind in kinds }

  /** One query per table, each for one row more than the limit. */
  function ReadSizes(rows: set<Dependent>, kinds: seq<Kind>, limit: nat): nat {
    if kinds == [] then 0
    else
      var n := |OfKind(rows, kinds[0])|;
      (if n <= limit then n else limit + 1) + ReadSizes(rows, kinds[1..], limit)
  }

  /** Reading one row too many of each table is enough to tell whether there are too many in all. */
  lemma {:induction false} ReadSizesExact(rows: set<Dependent>, kinds: seq<Kind>, limit: nat)
    requires Distinct(kinds)
    ensures ReadSizes(rows, kinds, limit) > limit <==> |OfKinds(rows, kinds)| > limit
    ensures ReadSizes(rows, kinds, limit) <= limit ==> ReadSizes(rows, kinds, limit) == |OfKinds(rows, kinds)|
  {
    if kinds != [] {
      ReadSizesExact(rows, kinds[1..], limit);
      SizesAdd(rows, kinds);
    } else {
      assert OfKinds(rows, kinds) == {};
    }
  }

  lemma {:induction false} SizesAdd(rows: set<Dependent>, kinds: seq<Kind>)
    requires kinds != [] && Distinct(kinds)
    ensures |OfKinds(rows, kinds)| == |OfKind(rows, kinds[0])| + |OfKinds(rows, kinds[1..])|
  {
    var one, rest := OfKind(rows, kinds[0]), OfKinds(rows, kinds[1..]);
    assert kinds == [kinds[0]] + kinds[1..];
    assert OfKinds(rows, kinds) == one + rest;
    assert one !! rest;
  }

  const INCIDENT_TABLES: seq<Kind> := [Triage, Evidence, ReportRow, IncidentEventRow, IncidentSignalRow, JobIncidentRow]
  const JOB_TABLES: seq<Kind> := [Triage, Evidence, ReportRow, JobEventRow, JobSignalRow, JobIncidentRow]

  function OfIncident(db: Database, id: string): set<Dependent> {
    set d | d in db.rows && d.kind in INCIDENT_KINDS && d.incident == Some(id)
  }

  function OfJob(db: Database, id: string): set<Dependent> {
    set d | d in db.rows && d.kind in JOB_KINDS && d.job == Some(id)
  }

  /** What a deletion may rely on: the keys the archive holds as dependencies, the jobs that are still
      candidates, and how many rows a root may have. */
  datatype Permission = Permission(archived: set<Key>, jobs: set<string>, limit: nat)

  predicate Authorized(rows: set<Dependent>, archived: set<Key>) {
    forall d :: d in rows ==> ArchiveKey(d).Some? && ArchiveKey(d).value in archived
  }

  /** `_safe_incidents`, for one incident. */
  predicate SafeIncident(db: Database, id: string, p: Permission) {
    var rows := OfIncident(db, id);
    && ReadSizes(rows, INCIDENT_TABLES, p.limit) <= p.limit
    && (forall d :: d in rows && d.job.Some? ==> (IngestionJob, d.job.value) in db.roots && d.job.value in p.jobs)
    && Authorized(rows, p.archived)
    && !(exists d :: d in db.rows && d.kind == AuditRow && d.incident == Some(id))
  }

  /** `_safe_jobs`, for one job: rows that belong to an incident protect it. */
  predicate SafeJob(db: Database, id: string, p: Permission) {
    var rows := OfJob(db, id);
    && ReadSizes(rows, JOB_TABLES, p.limit) <= p.limit
    && !(exists d :: d in rows && (d.kind == JobIncidentRow || d.incident.Some?))
    && Authorized(rows, p.archived)
  }

  predicate Refers(d: Dependent, k: Key) {
    match k.0
    case IncidentRecord => d.incident == Some(k.1)
    case IngestionJob => d.job == Some(k.1)
    case CanonicalEvent => d.event == Some(k.1)
    case DetectionSignal => d.signal == Some(k.1)
    case _ => false
  }

  predicate Safe(db: Database, e: EntityType, id: string, p: Permission) {
    match e
    case IncidentRecord => SafeIncident(db, id, p)
    case IngestionJob => SafeJob(db, id, p)
    case CanonicalEvent => !(exists d :: d in db.rows && d.kind in EVENT_KINDS && d.event == Some(id))
    case DetectionSignal => !(exists d :: d in db.rows && d.kind in SIGNAL_KINDS && d.signal == Some(id))
    case _ => true
  }

  /** The loop over the eligible roots of one type. */
  method SafeOnes(db: Database, e: EntityType, eligible: seq<string>, p: Permission) returns (safe: set<string>)
    ensures safe == set id | id in eligible && Safe(db, e, id, p)
  {
    safe := {};
    for n := 0 to |eligible|
      invariant safe == set id | id in eligible[..n] && Safe(db, e, id, p)
    {
      assert eligible[..n + 1] == eligible[..n] + [eligible[n]];
      if Safe(db, e, eligible[n], p) {
        safe := safe + {eligible[n]};
      }
    }
    assert eligible[..|eligible|] == eligible;
  }

  // ---------------------------------------------------------------- deleting

  /** The tables that are cleared of a root's rows, in the order of the statements. */
  function Statements(e: EntityType): seq<Kind> {
    match e
    case IncidentRecord =>
      [ReportRow, Evidence, Triage, IncidentEventRow, IncidentSignalRow, JobIncidentRow, CorrelationRow]
    case IngestionJob => [ReportRow, Evidence, Triage, JobEventRow, JobSignalRow, JobIncidentRow]
    case _ => []
  }

  /** Rows are selected by their own column. */
  predicate Owned(d: Dependent, e: EntityType, safe: set<string>) {
    match e
    case IncidentRecord => d.incident.Some? && d.incident.value in safe
    case IngestionJob => d.job.Some? && d.job.value in safe
    case _ => false
  }

  /** After the first `n` statements. */
  function Cleared(db: Database, e: EntityType, safe: set<string>, n: nat): Database
    requires n <= |Statements(e)|
  {
    db.(rows := set d | d in db.rows && !(d.kind in Statements(e)[..n] && Owned(d, e, safe)))
  }

  /** The rows that go with these roots. */
  predicate Doomed(d: Dependent, e: EntityType, safe: set<string>) {
    || (d.kind in Statements(e) && Owned(d, e, safe))
    || (e == AuditEvent && d.kind == AuditRow && d.name.Some? && d.name.value in safe)
  }

  /** `delete_eligible`: the statements, then the roots themselves. */
  function Delete(db: Database, e: EntityType, safe: set<string>): Database {
    Database(set k | k in db.roots && !(k.0 == e && k.1 in safe), set d | d in db.rows && !Doomed(d, e, safe))
  }

  ghost predicate AllSafe(db: Database, e: EntityType, safe: set<string>, p: Permission) {
    forall id :: id in safe ==> Safe(db, e, id, p)
  }

  /** Every row deleted with a root is in the archive as a dependency. The correlation row of an incident is
      the one exception: it is never archived and always goes with its incident. */
  lemma {:induction false} DependentsWereArchived(db: Database, e: EntityType, safe: set<string>, p: Permission,
      d: Dependent)
    requires AllSafe(db, e, safe, p) && e != AuditEvent && d in db.rows
    ensures d !in Delete(db, e, safe).rows && d.kind != CorrelationRow ==>
      ArchiveKey(d).Some? && ArchiveKey(d).value in p.archived
    ensures d.kind == CorrelationRow ==>
      (d !in Delete(db, e, safe).rows <==> e == IncidentRecord && d.incident.Some? && d.incident.value in safe)
  {
    if Doomed(d, e, safe) && d.kind != CorrelationRow {
      if e == IncidentRecord {
        assert d in OfIncident(db, d.incident.value) && SafeIncident(db, d.incident.value, p);
      } else {
        assert d in OfJob(db, d.job.value) && SafeJob(db, d.job.value, p);
      }
    }
  }

  /** No root with more rows than the limit is deleted, however they are spread over the tables. */
  lemma {:induction false} LimitHolds(db: Database, e: EntityType, safe: set<string>, p: Permission, id: string)
    requires AllSafe(db, e, safe, p) && id in safe && e in {IncidentRecord, IngestionJob}
    ensures |if e == IncidentRecord then OfIncident(db, id) else OfJob(db, id)| <= p.limit
  {
    if e == IncidentRecord {
      ReadSizesExact(OfIncident(db, id), INCIDENT_TABLES, p.limit);
      assert OfKinds(OfIncident(db, id), INCIDENT_TABLES) == OfIncident(db, id);
    } else {
      ReadSizesExact(OfJob(db, id), JOB_TABLES, p.limit);
      assert OfKinds(OfJob(db, id), JOB_TABLES) == OfJob(db, id);
    }
  }

  predicate Archived(d: Dependent, p: Permission) { ArchiveKey(d).Some? && ArchiveKey(d).value in p.archived }

  /** A row that an incident may take with it: archived, and of a job that is there and may go. */
  predicate MayGoWithIncident(db: Database, d: Dependent, p: Permission) {
    && d.kind != AuditRow
    && (d.kind in {Triage, Evidence, ReportRow, IncidentEventRow, IncidentSignalRow, JobIncidentRow} ==>
          Archived(d, p) && (d.job.Some? ==> (IngestionJob, d.job.value) in db.roots && d.job.value in p.jobs))
  }

  predicate MayGoWithJob(d: Dependent, p: Permission) {
    d.kind in {Triage, Evidence, ReportRow, JobEventRow, JobSignalRow, JobIncidentRow} ==>
      d.kind != JobIncidentRow && d.incident.None? && Archived(d, p)
  }

  /** Which roots are safe: an incident or a job with no more rows than the limit, each of which may go with it;
      an event or a signal that no row refers to; and any audit event. */
  lemma {:induction false} SafeExactly(db: Database, e: EntityType, id: string, p: Permission)
    requires AllShaped(db)
    ensures Safe(db, e, id, p) <==>
      match e
      case IncidentRecord =>
        |OfIncident(db, id)| <= p.limit && forall d :: d in db.rows && d.incident == Some(id) ==>
          MayGoWithIncident(db, d, p)
      case IngestionJob =>
        |OfJob(db, id)| <= p.limit && forall d :: d in db.rows && d.job == Some(id) ==> MayGoWithJob(d, p)
      case CanonicalEvent => forall d :: d in db.rows ==> d.event != Some(id)
      case DetectionSignal => forall d :: d in db.rows ==> d.signal != Some(id)
      case _ => true
  {
    if e == IncidentRecord {
      ReadSizesExact(OfIncident(db, id), INCIDENT_TABLES, p.limit);
      assert OfKinds(OfIncident(db, id), INCIDENT_TABLES) == OfIncident(db, id);
      IncidentRowsExactly(db, id, p);
    } else if e == IngestionJob {
      ReadSizesExact(OfJob(db, id), JOB_TABLES, p.limit);
      assert OfKinds(OfJob(db, id), JOB_TABLES) == OfJob(db, id);
      JobRowsExactly(db, id, p);
    } else {
      assert forall d :: d in db.rows ==> Shaped(d);
    }
  }

  lemma {:induction false} IncidentRowsExactly(db: Database, id: string, p: Permission)
    ensures (forall d :: d in db.rows && d.incident == Some(id) ==> MayGoWithIncident(db, d, p)) <==>
      && (forall d :: d in OfIncident(db, id) && d.job.Some? ==>
            (IngestionJob, d.job.value) in db.roots && d.job.value in p.jobs)
      && Authorized(OfIncident(db, id), p.archived)
      && !(exists d :: d in db.rows && d.kind == AuditRow && d.incident == Some(id))
  {
    var rows := OfIncident(db, id);
    if forall d :: d in db.rows && d.incident == Some(id) ==> MayGoWithIncident(db, d, p) {
      forall d | d in rows ensures MayGoWithIncident(db, d, p) { assert d in db.rows; }
    } else {
      var d :| d in db.rows && d.incident == Some(id) && !MayGoWithIncident(db, d, p);
      assert d.kind != AuditRow ==> d in rows;
    }
  }

  lemma {:induction false} JobRowsExactly(db: Database, id: string, p: Permission)
    ensures (forall d :: d in db.rows && d.job == Some(id) ==> MayGoWithJob(d, p)) <==>
      && !(exists d :: d in OfJob(db, id) && (d.kind == JobIncidentRow || d.incident.Some?))
      && Authorized(OfJob(db, id), p.archived)
  {
    var rows := OfJob(db, id);
    if forall d :: d in db.rows && d.job == Some(id) ==> MayGoWithJob(d, p) {
      forall d | d in rows ensures MayGoWithJob(d, p) { assert d in db.rows; }
    } else {
      var d :| d in db.rows && d.job == Some(id) && !MayGoWithJob(d, p);
      assert d in rows;
    }
  }

  /** What is deleted with the roots, table by table, and nothing else. */
  lemma {:induction false} DeletesExactly(db: Database, e: EntityType, safe: set<string>, d: Dependent)
    requires AllShaped(db) && d in db.rows
    ensures d !in Delete(db, e, safe).rows <==>
      match e
      case IncidentRecord => d.kind != AuditRow && d.incident.Some? && d.incident.value in safe
      case IngestionJob => d.job.Some? && d.job.value in safe
      case AuditEvent => d.kind == AuditRow && d.name.Some? && d.name.value in safe
      case _ => false
    ensures forall k :: k in Delete(db, e, safe).roots <==> k in db.roots && (k.0 == e ==> k.1 !in safe)
  {
    assert Shaped(d);
  }

  // ---------------------------------------------------------------- what the remaining rows point to

  /** No remaining row points to a record that was deleted. */
  lemma {:induction false} ReferencesSurvive(db: Database, e: EntityType, safe: set<string>, p: Permission,
      d: Dependent, k: Key)
    requires AllShaped(db) && AllSafe(db, e, safe, p)
    requires d in Delete(db, e, safe).rows && Refers(d, k) && k in db.roots
    ensures k in Delete(db, e, safe).roots
  {
    if k.0 == e && k.1 in safe { RefersSafely(db, e, safe, k.1, p, d); }
  }

  lemma {:induction false} RefersSafely(db: Database, e: EntityType, safe: set<string>, id: string, p: Permission,
      d: Dependent)
    requires Safe(db, e, id, p) && id in safe && d in db.rows && Shaped(d)
    ensures Refers(d, (e, id)) ==> Doomed(d, e, safe)
  {}

  // ---------------------------------------------------------------- foreign keys

  predicate PointsTo(d: Dependent, t: Dependent) { t.kind == Triage && d.run == Some(t.id) }

  /** The references the schema declares as foreign keys; those of an incident's events are not. */
  predicate DeclaredKey(d: Dependent, k: Key) {
    Refers(d, k) && (k.0 == CanonicalEvent ==> d.kind == JobEventRow)
  }

  /** The triage run that a row belongs to is there. */
  ghost predicate RunsHold(rows: set<Dependent>) {
    forall d :: d in rows && d.run.Some? ==> exists t :: t in rows && PointsTo(d, t)
  }

  ghost predicate ForeignKeysHold(db: Database) {
    && (forall d, k :: d in db.rows && DeclaredKey(d, k) ==> k in db.roots)
    && RunsHold(db.rows)
  }

  /** Evidence and reports carry the incident and the job of the run they belong to. */
  ghost predicate RunsOwn(rows: set<Dependent>) {
    forall d, t :: d in rows && t in rows && PointsTo(d, t) ==> d.incident == t.incident && d.job == t.job
  }

  /** What every committed state of the tables satisfies. */
  ghost predicate Good(db: Database) { AllShaped(db) && ForeignKeysHold(db) && RunsOwn(db.rows) }

  lemma {:induction false} RunsComeLast(kind: Kind, e: EntityType, n: nat)
    requires n <= |Statements(e)| && Triage in Statements(e)[..n] && kind in {Evidence, ReportRow}
    ensures kind in Statements(e)[..n]
  {
    assert n >= 3 && Statements(e)[0] == ReportRow && Statements(e)[1] == Evidence;
    assert Statements(e)[..n][0] == ReportRow && Statements(e)[..n][1] == Evidence;
  }

  /** A row that is still there has its run: the run's rows carry its columns and their tables come first. */
  lemma {:induction false} RunsHoldAfter(db: Database, e: EntityType, safe: set<string>, n: nat)
    requires Good(db) && n <= |Statements(e)|
    ensures RunsHold(Cleared(db, e, safe, n).rows)
  {
    var left := Cleared(db, e, safe, n).rows;
    forall d | d in left && d.run.Some? ensures exists t :: t in left && PointsTo(d, t) {
      var t :| t in db.rows && PointsTo(d, t);
      assert Shaped(d);
      if t.kind in Statements(e)[..n] && Owned(t, e, safe) { RunsComeLast(d.kind, e, n); }
      assert t in left;
    }
  }

  lemma {:induction false} ClearedAll(db: Database, e: EntityType, safe: set<string>)
    requires e != AuditEvent
    ensures Cleared(db, e, safe, |Statements(e)|).rows == Delete(db, e, safe).rows
  {
    assert Statements(e)[..|Statements(e)|] == Statements(e);
  }

  /** No statement of a deletion is refused: the foreign keys hold after each of them and after the last, which
      deletes the roots. */
  lemma {:induction false} NothingIsRefused(db: Database, e: EntityType, safe: set<string>, p: Permission)
    requires Good(db) && AllSafe(db, e, safe, p)
    ensures forall n :: 0 <= n <= |Statements(e)| ==> ForeignKeysHold(Cleared(db, e, safe, n))
    ensures ForeignKeysHold(Delete(db, e, safe))
  {
    forall n | 0 <= n <= |Statements(e)| ensures ForeignKeysHold(Cleared(db, e, safe, n)) {
      RunsHoldAfter(db, e, safe, n);
    }
    var after := Delete(db, e, safe);
    forall d, k | d in after.rows && DeclaredKey(d, k) ensures k in after.roots {
      ReferencesSurvive(db, e, safe, p, d, k);
    }
    if e == AuditEvent { AuditsHaveNoRuns(db, safe); } else { ClearedAll(db, e, safe); }
  }

  lemma {:induction false} AuditsHaveNoRuns(db: Database, safe: set<string>)
    requires Good(db)
    ensures RunsHold(Delete(db, AuditEvent, safe).rows)
  {
    var left := Delete(db, AuditEvent, safe).rows;
    forall d | d in left && d.run.Some? ensures exists t :: t in left && PointsTo(d, t) {
      var t :| t in db.rows && PointsTo(d, t);
      assert t in left;
    }
  }

  /** What the shared columns are for: a row of the run of a deleted incident that had another incident, or
      none, would make the database refuse the deletion. */
  lemma {:induction false} ForeignRowRefuses(db: Database, safe: set<string>, d: Dependent, t: Dependent)
    requires d in db.rows && t in db.rows && PointsTo(d, t) && d.kind in {Evidence, ReportRow}
    requires forall u :: u in db.rows && PointsTo(d, u) ==> u == t
    requires t.incident.Some? && t.incident.value in safe && !(d.incident.Some? && d.incident.value in safe)
    ensures !ForeignKeysHold(Cleared(db, IncidentRecord, safe, 3))
  {
    var left := Cleared(db, IncidentRecord, safe, 3).rows;
    assert Statements(IncidentRecord)[..3] == [ReportRow, Evidence, Triage];
    assert d in left && forall u :: u in left && PointsTo(d, u) ==> u in db.rows;
  }

  // ---------------------------------------------------------------- what the program writes

  datatype Finding = Finding(id: nat, name: string, event: Option<string>)

  function RunRow(run: nat, name: string, job: string, incident: string): Dependent {
    Dependent(Triage, run, Some(name), Some(incident), Some(job), None, None, None)
  }

  function FindingRow(f: Finding, run: nat, job: string, incident: string): Dependent {
    Dependent(Evidence, f.id, Some(f.name), Some(incident), Some(job), f.event, None, Some(run))
  }

  function ReportOf(f: Finding, run: nat, job: string, incident: string): Dependent {
    Dependent(ReportRow, f.id, Some(f.name), Some(incident), Some(job), None, None, Some(run))
  }

  /** `_persist_triage_outputs`: a run, its evidence, one row after the other, and its report. */
  method PersistTriage(rows: set<Dependent>, run: nat, name: string, job: string, incident: string,
      findings: seq<Finding>, report: Option<Finding>)
    returns (r: set<Dependent>)
    ensures r == rows + TriageOutputs(run, name, job, incident, findings, report)
  {
    r := rows + {RunRow(run, name, job, incident)};
    for n := 0 to |findings|
      invariant r == rows + TriageOutputs(run, name, job, incident, findings[..n], None)
    {
      assert findings[..n + 1] == findings[..n] + [findings[n]];
      r := r + {FindingRow(findings[n], run, job, incident)};
    }
    assert findings[..|findings|] == findings;
    if report.Some? {
      r := r + {ReportOf(report.value, run, job, incident)};
    }
  }

  function TriageOutputs(run: nat, name: string, job: string, incident: string, findings: seq<Finding>,
      report: Option<Finding>): set<Dependent> {
    {RunRow(run, name, job, incident)}
    + (set f | f in findings :: FindingRow(f, run, job, incident))
    + (if report.Some? then {ReportOf(report.value, run, job, incident)} else {})
  }

  datatype Step =
    | AddRoot(k: Key)
    | Triages(run: nat, name: string, job: string, incident: string, findings: seq<Finding>, report: Option<Finding>)
    | AddRow(d: Dependent)                // any other row: it belongs to no triage run
    | Clean(e: EntityType, safe: set<string>, p: Permission)

  /** A step the program or the database would not let through changes nothing; a run's number is new. */
  ghost function Next(db: Database, s: Step): Database {
    match s
    case AddRoot(k) => db.(roots := db.roots + {k})
    case Triages(run, name, job, incident, findings, report) =>
      if (IngestionJob, job) in db.roots && (IncidentRecord, incident) in db.roots
         && forall t :: t in db.rows && t.kind == Triage ==> t.id != run then
        db.(rows := db.rows + TriageOutputs(run, name, job, incident, findings, report))
      else db
    case AddRow(d) =>
      if Shaped(d) && d.run.None? && d.kind != Triage && forall k :: DeclaredKey(d, k) ==> k in db.roots then
        db.(rows := db.rows + {d})
      else db
    case Clean(e, safe, p) => if AllSafe(db, e, safe, p) then Delete(db, e, safe) else db
  }

  ghost function Reached(db: Database, steps: seq<Step>): Database {
    if steps == [] then db else Next(Reached(db, steps[..|steps| - 1]), steps[|steps| - 1])
  }

  lemma {:induction false} OutputsAreAlike(s: Step, d: Dependent)
    requires s.Triages? && d in TriageOutputs(s.run, s.name, s.job, s.incident, s.findings, s.report)
    ensures Shaped(d) && d.incident == Some(s.incident) && d.job == Some(s.job) && d.signal.None?
    ensures d.kind == Triage ==> d == RunRow(s.run, s.name, s.job, s.incident)
    ensures d.run in {None, Some(s.run)} && (d.run.None? ==> d.kind == Triage)
      && d.kind in {Triage, Evidence, ReportRow}
  {}

  lemma {:induction false} TriagesKeepGood(db: Database, s: Step)
    requires Good(db) && s.Triages?
    ensures Good(Next(db, s))
  {
    var n, run := Next(db, s), RunRow(s.run, s.name, s.job, s.incident);
    if n != db {
      forall d | d in n.rows && d !in db.rows
        ensures Shaped(d) && d.incident == Some(s.incident) && d.job == Some(s.job) && d.kind != JobEventRow
                && d.signal.None? && d.run in {None, Some(s.run)} && (d.kind == Triage ==> d == run) {
        OutputsAreAlike(s, d);
      }
      NewRunsHold(db, n, s, run);
      NewRunsOwn(db, n, s, run);
    }
  }

  lemma {:induction false} NewRunsHold(db: Database, n: Database, s: Step, run: Dependent)
    requires RunsHold(db.rows) && s.Triages? && run == RunRow(s.run, s.name, s.job, s.incident)
    requires db.rows <= n.rows && run in n.rows
    requires forall d :: d in n.rows && d !in db.rows ==> d.run in {None, Some(s.run)}
    ensures RunsHold(n.rows)
  {
    forall d | d in n.rows && d.run.Some? ensures exists t :: t in n.rows && PointsTo(d, t) {
      if d in db.rows {
        var t :| t in db.rows && PointsTo(d, t);
        assert t in n.rows;
      } else {
        assert PointsTo(d, run);
      }
    }
  }

  lemma {:induction false} NewRunsOwn(db: Database, n: Database, s: Step, run: Dependent)
    requires RunsHold(db.rows) && RunsOwn(db.rows) && s.Triages? && run == RunRow(s.run, s.name, s.job, s.incident)
    requires forall t :: t in db.rows && t.kind == Triage ==> t.id != s.run
    requires forall d :: d in n.rows && d !in db.rows ==>
      && d.run in {None, Some(s.run)} && d.incident == run.incident && d.job == run.job
        && (d.kind == Triage ==> d == run)
    ensures RunsOwn(n.rows)
  {
    forall d | d in db.rows && d.run.Some? ensures d.run != Some(s.run) {
      var t :| t in db.rows && PointsTo(d, t);
    }
  }

  lemma {:induction false} StepKeepsGood(db: Database, s: Step)
    requires Good(db)
    ensures Good(Next(db, s))
  {
    match s
    case AddRoot(k) =>
    case Triages(run, name, job, incident, findings, report) => TriagesKeepGood(db, s);
    case AddRow(d) => RowKeepsGood(db, d);
    case Clean(e, safe, p) => if AllSafe(db, e, safe, p) { NothingIsRefused(db, e, safe, p); }
  }

  lemma {:induction false} RowKeepsGood(db: Database, d: Dependent)
    requires Good(db)
    ensures Good(Next(db, AddRow(d)))
  {
    var n := Next(db, AddRow(d));
    forall x | x in n.rows && x.run.Some? ensures exists t :: t in n.rows && PointsTo(x, t) {
      var t :| t in db.rows && PointsTo(x, t);
      assert t in n.rows;
    }
  }

  /** However writing and cleaning alternate: the foreign keys hold, evidence and reports carry the columns of
      their run, and so no statement of a deletion is refused. */
  lemma {:induction false} EveryDeletionGoesThrough(db: Database, steps: seq<Step>, e: EntityType, safe: set<string>,
      p: Permission)
    requires Good(db) && AllSafe(Reached(db, steps), e, safe, p)
    ensures Good(Reached(db, steps)) && ForeignKeysHold(Delete(Reached(db, steps), e, safe))
    ensures forall n :: 0 <= n <= |Statements(e)| ==> ForeignKeysHold(Cleared(Reached(db, steps), e, safe, n))
  {
    StaysGood(db, steps);
    NothingIsRefused(Reached(db, steps), e, safe, p);
  }

  lemma {:induction false} StaysGood(db: Database, steps: seq<Step>)
    requires Good(db)
    ensures Good(Reached(db, steps))
  {
    if steps != [] {
      StaysGood(db, steps[..|steps| - 1]);
      StepKeepsGood(Reached(db, steps[..|steps| - 1]), steps[|steps| - 1]);
    }
  }
}
