/** The snapshot that pins an archive down, and what cleanup learns from verifying one. */
module ArchiveSnapshots {
  import opened Ordering
  import opened Archives
  import opened ArchiveIo
  import opened ArchiveIndex

  datatype PayloadSnapshot = PayloadSnapshot(filename: Filename, digest: PayloadDigest, compressedBytes: nat)

  datatype Snapshot = Snapshot(manifest: ManifestDigest, payloads: seq<PayloadSnapshot>)

  /** `from_verification`. */
  function SnapshotOf(m: Manifest): Snapshot {
    Snapshot(ManifestDigest(Canonical(m)),
             seq(|m.payloads|, i requires 0 <= i < |m.payloads| =>
               PayloadSnapshot(m.payloads[i].filename, m.payloads[i].digest, m.payloads[i].compressedBytes)))
  }

  /** The payload sizes still agree. */
  predicate SizesKept(a: Archive, s: Snapshot) {
    forall i :: 0 <= i < |s.payloads| ==>
      s.payloads[i].filename in a.files
        && a.files[s.payloads[i].filename].compressedBytes == s.payloads[i].compressedBytes
  }

  /** `assert_stable`: the file set, the manifest and its sidecar, and the payload sizes. */
  function StabilityFault(a: Archive, s: Snapshot): Option<Fault> {
    if !FileSetRight(a) then Some(FileSetChanged)
    else if a.sidecar.value != Holds(s.manifest)
      || ManifestDigest(a.manifest.value) != s.manifest then Some(ManifestChanged)
    else if !SizesKept(a, s) then Some(PayloadChanged)
    else None
  }

  /** A stable archive still has the very manifest the snapshot was taken of. */
  lemma {:induction false} StableKeepsManifest(a: Archive, m: Manifest)
    requires StabilityFault(a, SnapshotOf(m)).None?
    ensures a.manifest == Some(Canonical(m))
    ensures forall i :: 0 <= i < |m.payloads| ==>
              m.payloads[i].filename in a.files
                && a.files[m.payloads[i].filename].compressedBytes == m.payloads[i].compressedBytes
  {
    forall i | 0 <= i < |m.payloads|
      ensures m.payloads[i].filename in a.files
              && a.files[m.payloads[i].filename].compressedBytes == m.payloads[i].compressedBytes {
      assert SnapshotOf(m).payloads[i].filename == m.payloads[i].filename;
    }
  }

  /** An accepted archive is stable with respect to its own snapshot. */
  lemma {:induction false} AcceptedIsStable(a: Archive, id: string)
    requires Accepted(a, id)
    ensures StabilityFault(a, SnapshotOf(a.manifest.value.manifest)).None?
  {
    var m := a.manifest.value.manifest;
    AcceptedFiles(a, id);
    forall i | 0 <= i < |m.payloads|
      ensures m.payloads[i].filename in a.files
        && a.files[m.payloads[i].filename].compressedBytes == m.payloads[i].compressedBytes {
      assert m.payloads[i].filename == EXPECTED_PAYLOAD_FILES[i];
      assert PayloadSound(FilesOf(a)[i], m.payloads[i]);
    }
  }

  // ---------------------------------------------------------------- what cleanup works from

  /** `CLEANUP_ENTITY_ORDER`. */
  const CLEANUP_ENTITY_ORDER: seq<EntityType> :=
    [AuditEvent, IncidentRecord, IngestionJob, DetectionSignal, CanonicalEvent]

  const PHASES: nat := 5

  /** A verification result, with the candidate sequence of each cleanup phase. */
  datatype Verified = Verified(archiveId: string, snapshot: Snapshot, plan: seq<seq<Ref>>, candidates: nat,
    dependencies: nat)

  function SizeOf(plan: seq<seq<Ref>>): nat {
    if plan == [] then 0 else SizeOf(plan[..|plan| - 1]) + |plan[|plan| - 1]|
  }

  ghost predicate IdsDistinct(refs: seq<Ref>) {
    forall i, j :: 0 <= i < j < |refs| ==> refs[i].entityId != refs[j].entityId
  }

  /** Each phase has its candidates in strict order, no identifier twice, and their number is the
      manifest's. */
  ghost predicate Orderly(v: Verified) {
    && |v.plan| == PHASES
    && (forall p :: 0 <= p < PHASES ==> Ascending(v.plan[p], RefLess) && IdsDistinct(v.plan[p]))
    && SizeOf(v.plan) == v.candidates
  }

  function PlanOf(a: Archive): (plan: seq<seq<Ref>>)
    requires FileSetRight(a)
    ensures |plan| == PHASES && forall p :: 0 <= p < PHASES ==> plan[p] == CandidateFile(a, CLEANUP_ENTITY_ORDER[p])
  {
    seq(PHASES, p requires 0 <= p < PHASES =>
      assert p == 0 || p == 1 || p == 2 || p == 3 || p == 4;
      CandidateFile(a, CLEANUP_ENTITY_ORDER[p]))
  }

  function VerifiedOf(a: Archive, id: string): Verified
    requires FileSetRight(a) && ManifestRight(a, id)
  {
    var m := a.manifest.value.manifest;
    Verified(id, SnapshotOf(m), PlanOf(a), m.candidateCount, m.dependencyCount)
  }

  /** The two predicates the cleanup protocol needs of archives. */
  ghost predicate Genuine(v: Verified) {
    exists a :: VerifiesAs(a, v)
  }

  ghost predicate VerifiesAs(a: Archive, v: Verified) {
    Accepted(a, v.archiveId) && VerifiedOf(a, v.archiveId) == v
  }

  lemma {:induction false} SizeOfFive(plan: seq<seq<Ref>>)
    requires |plan| == PHASES
    ensures SizeOf(plan) == |plan[0]| + |plan[1]| + |plan[2]| + |plan[3]| + |plan[4]|
  {
    assert plan[..4][..3] == plan[..3] && plan[..3][..2] == plan[..2] && plan[..2][..1] == plan[..1]
      && plan[..1][..0] == [];
    assert SizeOf(plan[..1]) == |plan[0]|;
    assert SizeOf(plan[..2]) == SizeOf(plan[..1]) + |plan[1]|;
    assert SizeOf(plan[..3]) == SizeOf(plan[..2]) + |plan[2]|;
    assert SizeOf(plan[..4]) == SizeOf(plan[..3]) + |plan[3]|;
  }

  lemma {:induction false} SumOfSix(payloads: seq<PayloadManifest>)
    requires |payloads| == 6
    ensures SumCounts(payloads).0 == payloads[0].candidateCount + payloads[1].candidateCount
      + payloads[2].candidateCount
                                     + payloads[3].candidateCount + payloads[4].candidateCount
                                       + payloads[5].candidateCount
  {
    var p := payloads;
    assert p[..5][..4] == p[..4] && p[..4][..3] == p[..3] && p[..3][..2] == p[..2] && p[..2][..1] == p[..1]
      && p[..1][..0] == [];
    assert SumCounts(p[..1]).0 == p[0].candidateCount;
    assert SumCounts(p[..2]).0 == SumCounts(p[..1]).0 + p[1].candidateCount;
    assert SumCounts(p[..3]).0 == SumCounts(p[..2]).0 + p[2].candidateCount;
    assert SumCounts(p[..4]).0 == SumCounts(p[..3]).0 + p[3].candidateCount;
    assert SumCounts(p[..5]).0 == SumCounts(p[..4]).0 + p[4].candidateCount;
  }

  lemma {:induction false} RolesCount(rs: seq<Record>, f: Filename)
    requires RolesRight(rs, f)
    ensures CandidateCount(rs) == if f == DependentRecords then 0 else |rs|
  {
    forall k | 0 <= k < |rs| ensures rs[k].role == if f == DependentRecords then Dependency else RetentionCandidate {
      assert RoleRight(f, rs[k]);
    }
    AllOrNone(rs);
  }

  lemma {:induction false} LastFileIsDependent(i: nat)
    requires i < |EXPECTED_PAYLOAD_FILES|
    ensures EXPECTED_PAYLOAD_FILES[i] == DependentRecords <==> i == PHASES
  {}

  /** A candidate file counts all its records as candidates, the dependency file none. */
  lemma {:induction false} CandidatesPerFile(a: Archive, id: string, i: nat)
    requires Accepted(a, id) && i < |EXPECTED_PAYLOAD_FILES|
    ensures a.manifest.value.manifest.payloads[i].candidateCount ==
            if i < PHASES then |Contents(FilesOf(a))[i]| else 0
  {
    AcceptedContents(a, id);
    AcceptedRoles(a, id);
    RolesCount(Contents(FilesOf(a))[i], EXPECTED_PAYLOAD_FILES[i]);
    LastFileIsDependent(i);
  }

  lemma {:induction false} PlanSizes(a: Archive, p: nat)
    requires FileSetRight(a) && p < PHASES
    ensures |PlanOf(a)[p]| == |Contents(FilesOf(a))[PHASES - 1 - p]|
  {
    assert p == 0 || p == 1 || p == 2 || p == 3 || p == 4;
  }

  lemma {:induction false} CandidateIdsDistinct(a: Archive, id: string, e: EntityType)
    requires Accepted(a, id) && FileFor(e).Some?
    ensures IdsDistinct(CandidateFile(a, e))
  {
    AcceptedFiles(a, id);
    OwnFile(e);
    var k, payloads := FileFor(e).value, a.manifest.value.manifest.payloads;
    assert payloads[k].filename == EXPECTED_PAYLOAD_FILES[k];
    SoundRecords(FilesOf(a)[k], payloads[k]);
    OneTypeDistinct(Contents(FilesOf(a))[k], EXPECTED_PAYLOAD_FILES[k]);
  }

  lemma {:induction false} OneTypeDistinct(rs: seq<Record>, f: Filename)
    requires f != DependentRecords && forall i :: 0 <= i < |rs| ==> RoleRight(f, rs[i])
    requires forall i, j :: 0 <= i < j < |rs| ==> Follows(rs[i], rs[j], f)
    ensures IdsDistinct(RefsOf(rs))
  {
    forall i, j | 0 <= i < j < |rs| ensures RefsOf(rs)[i].entityId != RefsOf(rs)[j].entityId {
      assert Follows(rs[i], rs[j], f) && RoleRight(f, rs[i]) && RoleRight(f, rs[j]);
    }
  }

  /** What verification hands to cleanup is orderly. */
  lemma {:induction false} GenuineIsOrderly(v: Verified)
    requires Genuine(v)
    ensures Orderly(v)
  {
    var a :| VerifiesAs(a, v);
    forall p | 0 <= p < PHASES ensures Ascending(v.plan[p], RefLess) && IdsDistinct(v.plan[p]) {
      PhaseOrderly(a, v.archiveId, p);
    }
    PlanCountsCandidates(a, v.archiveId);
  }

  /** The candidates of each phase come in the order of their time, those of one moment by name. */
  lemma {:induction false} GenuineInTimeOrder(v: Verified, p: nat, i: nat, j: nat)
    requires Genuine(v) && p < PHASES && i < j < |v.plan[p]|
    ensures var a, b := v.plan[p][i], v.plan[p][j];
      a.recordedAt < b.recordedAt || (a.recordedAt == b.recordedAt && StrLess(a.entityId, b.entityId))
  {
    GenuineIsOrderly(v);
    assert RefLess(v.plan[p][i], v.plan[p][j]);
  }

  lemma {:induction false} PhaseOrderly(a: Archive, id: string, p: nat)
    requires Accepted(a, id) && p < PHASES
    ensures Ascending(PlanOf(a)[p], RefLess) && IdsDistinct(PlanOf(a)[p])
  {
    assert p == 0 || p == 1 || p == 2 || p == 3 || p == 4;
    var e := CLEANUP_ENTITY_ORDER[p];
    assert PlanOf(a)[p] == CandidateFile(a, e);
    IndexHoldsCandidates(a, id, e);
    CandidateIdsDistinct(a, id, e);
  }

  lemma {:induction false} PhaseCount(a: Archive, id: string, p: nat)
    requires Accepted(a, id) && p < PHASES
    ensures |PlanOf(a)[p]| == a.manifest.value.manifest.payloads[PHASES - 1 - p].candidateCount
  {
    PlanSizes(a, p);
    CandidatesPerFile(a, id, PHASES - 1 - p);
  }

  lemma {:induction false} SameSums(plan: seq<seq<Ref>>, payloads: seq<PayloadManifest>)
    requires |plan| == PHASES && |payloads| == PHASES + 1 && payloads[PHASES].candidateCount == 0
    requires forall p :: 0 <= p < PHASES ==> |plan[p]| == payloads[PHASES - 1 - p].candidateCount
    ensures SizeOf(plan) == SumCounts(payloads).0
  {
    SizeOfFive(plan);
    SumOfSix(payloads);
    assert |plan[0]| == payloads[4].candidateCount && |plan[1]| == payloads[3].candidateCount
           && |plan[2]| == payloads[2].candidateCount && |plan[3]| == payloads[1].candidateCount;
  }

  lemma {:induction false} PlanCountsCandidates(a: Archive, id: string)
    requires Accepted(a, id)
    ensures SizeOf(PlanOf(a)) == a.manifest.value.manifest.candidateCount
  {
    var m := a.manifest.value.manifest;
    var plan, payloads := PlanOf(a), m.payloads;
    assert SumCounts(payloads).0 == m.candidateCount;
    forall p | 0 <= p < PHASES ensures |plan[p]| == payloads[PHASES - 1 - p].candidateCount { PhaseCount(a, id, p); }
    CandidatesPerFile(a, id, PHASES);
    SameSums(plan, payloads);
  }

  /** The snapshot determines everything cleanup works from. */
  lemma {:induction false} SnapshotDetermines(v: Verified, w: Verified)
    requires Genuine(v) && Genuine(w) && v.snapshot == w.snapshot
    ensures v == w
  {
    var a :| VerifiesAs(a, v);
    var b :| VerifiesAs(b, w);
    var m := a.manifest.value.manifest;
    assert b.manifest.value.manifest == m;
    AcceptedFiles(a, v.archiveId);
    AcceptedFiles(b, w.archiveId);
    forall i | 0 <= i < |FilesOf(a)| ensures FilesOf(a)[i] == FilesOf(b)[i] {
      assert PayloadSound(FilesOf(a)[i], m.payloads[i]) && PayloadSound(FilesOf(b)[i], m.payloads[i]);
    }
    SamePlans(a, b);
  }

  lemma {:induction false} SamePlans(a: Archive, b: Archive)
    requires FileSetRight(a) && FileSetRight(b) && FilesOf(a) == FilesOf(b)
    ensures PlanOf(a) == PlanOf(b)
  {
    forall p | 0 <= p < PHASES ensures PlanOf(a)[p] == PlanOf(b)[p] {
      assert p == 0 || p == 1 || p == 2 || p == 3 || p == 4;
      assert CandidateFile(a, CLEANUP_ENTITY_ORDER[p]) == CandidateFile(b, CLEANUP_ENTITY_ORDER[p]);
    }
  }

  // ---------------------------------------------------------------- the index cleanup works from

  function ItemsIn(a: Archive): seq<Item>
    requires PayloadsThere(a)
  {
    IterRecords(FilesOf(a))
  }

  predicate ManifestReadable(a: Archive) {
    a.manifest.Some? && !a.manifest.value.Unparsable? && ManifestValid(a.manifest.value.manifest)
  }

  /** The index can be built from the files stored now, with the numbers a verification stated. */
  ghost predicate CanIndex(a: Archive, v: Verified) {
    PayloadsThere(a) && ManifestReadable(a) && Indexable(ItemsIn(a), v.candidates, v.dependencies)
  }

  /** The candidates of each phase, as that index lists them. */
  ghost function IndexedPlan(a: Archive): (plan: seq<seq<Ref>>)
    requires PayloadsThere(a) && KeysDistinct(ItemsIn(a), |ItemsIn(a)|)
    ensures |plan| == PHASES
    ensures forall p :: 0 <= p < PHASES ==>
              plan[p] == CandidatesIn(Rows(GotTo(ItemsIn(a), |ItemsIn(a)|)), CLEANUP_ENTITY_ORDER[p])
  {
    seq(PHASES, p requires 0 <= p < PHASES =>
      CandidatesIn(Rows(GotTo(ItemsIn(a), |ItemsIn(a)|)), CLEANUP_ENTITY_ORDER[p]))
  }

  /** The stored payloads are, byte for byte, those the snapshot was taken of. */
  predicate PayloadsKept(a: Archive, s: Snapshot) {
    forall i :: 0 <= i < |s.payloads| ==>
      s.payloads[i].filename in a.files && PayloadDigest(a.files[s.payloads[i].filename]) == s.payloads[i].digest
  }

  lemma {:induction false} IndexedPhase(a: Archive, id: string, p: nat)
    requires Accepted(a, id) && p < PHASES
    ensures CandidatesIn(Rows(Concat(Contents(FilesOf(a)))), CLEANUP_ENTITY_ORDER[p]) == PlanOf(a)[p]
  {
    assert p == 0 || p == 1 || p == 2 || p == 3 || p == 4;
    IndexHoldsCandidates(a, id, CLEANUP_ENTITY_ORDER[p]);
  }

  lemma {:induction false} PlanFromIndex(a: Archive, items: seq<Item>, rs: seq<Record>)
    requires FileSetRight(a) && items == ItemsIn(a) && KeysDistinct(items, |items|) && GotTo(items, |items|) == rs
    requires forall p :: 0 <= p < PHASES ==> CandidatesIn(Rows(rs), CLEANUP_ENTITY_ORDER[p]) == PlanOf(a)[p]
    ensures IndexedPlan(a) == PlanOf(a)
  {}

  /** The index of an accepted archive is the plan of its verification. */
  lemma {:induction false} AcceptedIndexes(a: Archive, id: string)
    requires Accepted(a, id)
    ensures CanIndex(a, VerifiedOf(a, id)) && IndexedPlan(a) == PlanOf(a)
  {
    AcceptedBuilds(a, id);
    forall p | 0 <= p < PHASES
      ensures CandidatesIn(Rows(Concat(Contents(FilesOf(a)))), CLEANUP_ENTITY_ORDER[p]) == PlanOf(a)[p] {
      IndexedPhase(a, id, p);
    }
    PlanFromIndex(a, ItemsIn(a), Concat(Contents(FilesOf(a))));
  }

  lemma {:induction false} KeptFiles(a: Archive, b: Archive, id: string)
    requires Accepted(a, id) && PayloadsKept(b, VerifiedOf(a, id).snapshot)
    ensures PayloadsThere(b) && FilesOf(b) == FilesOf(a)
  {
    var s, payloads := VerifiedOf(a, id).snapshot, a.manifest.value.manifest.payloads;
    AcceptedFiles(a, id);
    forall i | 0 <= i < |EXPECTED_PAYLOAD_FILES|
      ensures EXPECTED_PAYLOAD_FILES[i] in b.files && b.files[EXPECTED_PAYLOAD_FILES[i]] == FilesOf(a)[i] {
      assert s.payloads[i].filename == EXPECTED_PAYLOAD_FILES[i];
      assert PayloadSound(FilesOf(a)[i], payloads[i]);
    }
  }

  /** An index built from payloads that are still those of the verification is its plan. */
  lemma {:induction false} IndexOfKeptPayloads(b: Archive, v: Verified)
    requires Genuine(v) && PayloadsKept(b, v.snapshot)
    ensures PayloadsThere(b) && Indexable(ItemsIn(b), v.candidates, v.dependencies) && IndexedPlan(b) == v.plan
  {
    var a :| VerifiesAs(a, v);
    KeptFiles(a, b, v.archiveId);
    AcceptedIndexes(a, v.archiveId);
  }
}
