/** What a retention archive is made of.

    Records are grouped into compressed payload files, which the manifest describes. Digests are
    constructors, so equal digests mean equal contents. */
module Archives {
  import opened Ordering

  datatype Role = RetentionCandidate | Dependency

  datatype EntityType =
    | CanonicalEvent | DetectionSignal | IngestionJob | IncidentRecord | AuditEvent
    | TriageRun | EvidenceItem | ReportRecord
    | IncidentEventAssociation | IncidentSignalAssociation
    | JobEventAssociation | JobSignalAssociation | JobIncidentAssociation

  datatype Record = Record(entityType: EntityType, entityId: string, role: Role, recordedAt: int, data: string)

  type Key = (EntityType, string)

  function KeyOf(r: Record): Key { (r.entityType, r.entityId) }

  /** A position in a candidate file. */
  datatype Ref = Ref(recordedAt: int, entityId: string)

  function RefOf(r: Record): Ref { Ref(r.recordedAt, r.entityId) }

  predicate RefLess(a: Ref, b: Ref) {
    a.recordedAt < b.recordedAt || (a.recordedAt == b.recordedAt && StrLess(a.entityId, b.entityId))
  }

  lemma {:induction false} RefLessIsStrictOrder()
    ensures StrictOrder(RefLess)
    ensures forall s: set<Ref> :: TotalOn(RefLess, s)
  {
    StrLessIsStrictOrder();
  }

  datatype Filename =
    | CanonicalEvents | DetectionSignals | IngestionJobs | IncidentsFile | AuditEvents | DependentRecords

  const EXPECTED_PAYLOAD_FILES: seq<Filename> :=
    [CanonicalEvents, DetectionSignals, IngestionJobs, IncidentsFile, AuditEvents, DependentRecords]

  const MAX_ARCHIVE_LINE_BYTES: nat := 65_536

  /** The one entity type a candidate file may hold. */
  function CandidateType(f: Filename): Option<EntityType> {
    match f
    case CanonicalEvents => Some(CanonicalEvent)
    case DetectionSignals => Some(DetectionSignal)
    case IngestionJobs => Some(IngestionJob)
    case IncidentsFile => Some(IncidentRecord)
    case AuditEvents => Some(AuditEvent)
    case DependentRecords => None
  }

  /** One line of a decompressed payload; `record` is None when it does not parse or validate. */
  datatype Line = Line(bytes: nat, newline: bool, record: Option<Record>)

  datatype File = File(compressedBytes: nat, gzipOk: bool, lines: seq<Line>)

  datatype PayloadDigest = PayloadDigest(of: File)

  datatype PayloadManifest = PayloadManifest(
    filename: Filename, entityTypes: set<EntityType>,
    recordCount: nat, candidateCount: nat, dependencyCount: nat,
    compressedBytes: nat, uncompressedBytes: nat, digest: PayloadDigest,
    oldest: Option<int>, newest: Option<int>)

  datatype Manifest = Manifest(
    archiveId: string, policyVersion: string, createdAt: int, completedAt: int, archiveAsOf: int,
    payloads: seq<PayloadManifest>, candidateCount: nat, dependencyCount: nat, totalCount: nat)

  /** The bytes of `manifest.json`. */
  datatype ManifestText = Canonical(manifest: Manifest) | Reformatted(manifest: Manifest) | Unparsable(bytes: nat)

  datatype ManifestDigest = ManifestDigest(of: ManifestText)

  /** The text of `manifest.sha256`. */
  datatype Sidecar = NotDigest | Holds(digest: ManifestDigest)

  /** A stored directory; `strays` are files that do not belong there. */
  datatype Archive = Archive(
    files: map<Filename, File>, manifest: Option<ManifestText>, sidecar: Option<Sidecar>, strays: set<string>)

  datatype Fault =
    | FileSetInvalid | ManifestChecksumInvalid | ManifestChecksumMismatch | ManifestInvalid
    | ManifestNotCanonical | ManifestIdMismatch
    | PayloadChecksumMismatch | RecordTooLarge | LineInvalid | RecordInvalid
    | DependencyRoleInvalid | CandidateRoleInvalid | PayloadEntityMismatch | RecordDuplicate
    | CandidateOrderInvalid | GzipInvalid | PayloadMetadataMismatch
    | CandidateCountChanged | ValidationFailed
    | RecordReadFailed | IndexDuplicate | IndexCountMismatch | CursorInvalid | BatchSizeInvalid
    | FileSetChanged | ManifestChanged | PayloadChanged

  // ---------------------------------------------------------------- what the manifest says of a payload

  ghost predicate Readable(lines: seq<Line>) {
    forall i :: 0 <= i < |lines| ==> lines[i].record.Some?
  }

  /** The records of readable lines, in order. */
  function Records(lines: seq<Line>): (r: seq<Record>)
    ensures Readable(lines) ==> |r| == |lines| && forall i :: 0 <= i < |lines| ==> r[i] == lines[i].record.value
  {
    if lines == [] then []
    else
      var n := |lines| - 1;
      Records(lines[..n]) + (if lines[n].record.Some? then [lines[n].record.value] else [])
  }

  function CandidateCount(rs: seq<Record>): (n: nat)
    ensures n <= |rs|
  {
    if rs == [] then 0
    else
      var k := |rs| - 1;
      CandidateCount(rs[..k]) + if rs[k].role == RetentionCandidate then 1 else 0
  }

  lemma {:induction false} AllOrNone(rs: seq<Record>)
    ensures CandidateCount(rs) == |rs| <==> forall i :: 0 <= i < |rs| ==> rs[i].role == RetentionCandidate
    ensures CandidateCount(rs) == 0 <==> forall i :: 0 <= i < |rs| ==> rs[i].role == Dependency
  {
    if rs != [] { AllOrNone(rs[..|rs| - 1]); }
  }

  function TotalBytes(lines: seq<Line>): nat {
    if lines == [] then 0 else TotalBytes(lines[..|lines| - 1]) + lines[|lines| - 1].bytes
  }

  /** `t` is the time of some record, and no record is earlier. */
  ghost predicate IsOldest(t: Option<int>, rs: seq<Record>) {
    && (t.None? <==> rs == [])
    && (t.Some? ==> (forall r :: r in rs ==> t.value <= r.recordedAt) && exists r :: r in rs && r.recordedAt == t.value)
  }

  ghost predicate IsNewest(t: Option<int>, rs: seq<Record>) {
    && (t.None? <==> rs == [])
    && (t.Some? ==> (forall r :: r in rs ==> r.recordedAt <= t.value) && exists r :: r in rs && r.recordedAt == t.value)
  }

  /** Counts, sizes and time range agree with the contents. */
  ghost predicate Describes(p: PayloadManifest, lines: seq<Line>) {
    var rs := Records(lines);
    && p.recordCount == |rs|
    && p.candidateCount == CandidateCount(rs)
    && p.dependencyCount == |rs| - CandidateCount(rs)
    && p.uncompressedBytes == TotalBytes(lines)
    && IsOldest(p.oldest, rs)
    && IsNewest(p.newest, rs)
  }

  /** Running totals over the lines read so far. */
  datatype Tally = Tally(records: nat, candidates: nat, dependencies: nat, bytes: nat, oldest: Option<int>,
    newest: Option<int>)

  function Count(t: Tally, line: Line): Tally
    requires line.record.Some?
  {
    var r := line.record.value;
    Tally(t.records + 1,
          t.candidates + (if r.role == RetentionCandidate then 1 else 0),
          t.dependencies + (if r.role == RetentionCandidate then 0 else 1),
          t.bytes + line.bytes,
          Some(if t.oldest.None? || r.recordedAt < t.oldest.value then r.recordedAt else t.oldest.value),
          Some(if t.newest.None? || r.recordedAt > t.newest.value then r.recordedAt else t.newest.value))
  }

  const EMPTY_TALLY: Tally := Tally(0, 0, 0, 0, None, None)

  ghost function TallyOf(lines: seq<Line>): Tally {
    if lines == [] then EMPTY_TALLY
    else
      var n := |lines| - 1;
      if lines[n].record.None? then TallyOf(lines[..n]) else Count(TallyOf(lines[..n]), lines[n])
  }

  lemma {:induction false} TallyExtends(lines: seq<Line>, n: nat)
    requires n < |lines| && lines[n].record.Some?
    ensures TallyOf(lines[..n + 1]) == Count(TallyOf(lines[..n]), lines[n])
  {
    assert lines[..n + 1][..n] == lines[..n];
  }

  predicate Matches(t: Tally, p: PayloadManifest) {
    && t.records == p.recordCount && t.candidates == p.candidateCount && t.dependencies == p.dependencyCount
    && t.bytes == p.uncompressedBytes && t.oldest == p.oldest && t.newest == p.newest
  }

  lemma {:induction false} TallyCounts(lines: seq<Line>)
    requires Readable(lines)
    ensures TallyOf(lines).records == |Records(lines)|
    ensures TallyOf(lines).candidates == CandidateCount(Records(lines))
    ensures TallyOf(lines).dependencies == |Records(lines)| - CandidateCount(Records(lines))
    ensures TallyOf(lines).bytes == TotalBytes(lines)
  {
    if lines != [] {
      var n := |lines| - 1;
      TallyCounts(lines[..n]);
      assert Records(lines)[..n] == Records(lines[..n]);
    }
  }

  lemma {:induction false} TallyRange(lines: seq<Line>)
    requires Readable(lines)
    ensures IsOldest(TallyOf(lines).oldest, Records(lines)) && IsNewest(TallyOf(lines).newest, Records(lines))
  {
    if lines != [] {
      var n := |lines| - 1;
      TallyRange(lines[..n]);
      var rs, before := Records(lines), Records(lines[..n]);
      assert rs == before + [lines[n].record.value];
      assert forall x :: x in rs <==> x in before || x == lines[n].record.value;
    }
  }

  lemma {:induction false} RangeUnique(t: Option<int>, u: Option<int>, rs: seq<Record>)
    ensures IsOldest(t, rs) && IsOldest(u, rs) ==> t == u
    ensures IsNewest(t, rs) && IsNewest(u, rs) ==> t == u
  {}

  /** The counters agree with the manifest exactly when the manifest describes the file. */
  lemma {:induction false} MatchesDescribes(p: PayloadManifest, lines: seq<Line>)
    requires Readable(lines)
    ensures Matches(TallyOf(lines), p) <==> Describes(p, lines)
  {
    TallyCounts(lines);
    TallyRange(lines);
    RangeUnique(TallyOf(lines).oldest, p.oldest, Records(lines));
    RangeUnique(TallyOf(lines).newest, p.newest, Records(lines));
  }

  // ---------------------------------------------------------------- validators of the manifest

  predicate PayloadValid(p: PayloadManifest) {
    && p.recordCount == p.candidateCount + p.dependencyCount
    && (if p.recordCount == 0 then p.oldest.None? && p.newest.None?
        else p.oldest.Some? && p.newest.Some? && p.oldest.value <= p.newest.value)
  }

  function SumCounts(payloads: seq<PayloadManifest>): (nat, nat, nat) {
    if payloads == [] then (0, 0, 0)
    else
      var n := |payloads| - 1;
      var s := SumCounts(payloads[..n]);
      (s.0 + payloads[n].candidateCount, s.1 + payloads[n].dependencyCount, s.2 + payloads[n].recordCount)
  }

  predicate ManifestValid(m: Manifest) {
    && |m.payloads| == |EXPECTED_PAYLOAD_FILES|
    && (forall i :: 0 <= i < |m.payloads| ==> m.payloads[i].filename == EXPECTED_PAYLOAD_FILES[i])
    && (forall i :: 0 <= i < |m.payloads| ==> PayloadValid(m.payloads[i]))
    && SumCounts(m.payloads) == (m.candidateCount, m.dependencyCount, m.totalCount)
    && m.totalCount == m.candidateCount + m.dependencyCount
    && m.createdAt <= m.completedAt
  }

  lemma {:induction false} DescribedIsValid(p: PayloadManifest, lines: seq<Line>)
    requires Describes(p, lines)
    ensures PayloadValid(p)
  {
    var rs := Records(lines);
    if rs != [] { assert rs[0] in rs; }
  }

  lemma {:induction false} SumsAddUp(payloads: seq<PayloadManifest>)
    requires forall i :: 0 <= i < |payloads| ==>
      payloads[i].recordCount == payloads[i].candidateCount + payloads[i].dependencyCount
    ensures SumCounts(payloads).2 == SumCounts(payloads).0 + SumCounts(payloads).1
  {
    if payloads != [] { SumsAddUp(payloads[..|payloads| - 1]); }
  }
}
