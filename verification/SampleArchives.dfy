/** Archives of a single audit event, for the results about what can happen.

    Such an archive is written out in full, file by file with its manifest, and shown to be accepted, so
    that the runs built on it are runs that can occur. Nothing here is a promise of the program. */
module SampleArchives {
  import opened Ordering
  import opened Archives
  import opened ArchiveIo
  import opened ArchiveIndex
  import opened ArchiveSnapshots

  function Sole(name: string): Record { Record(AuditEvent, name, RetentionCandidate, 0, "") }

  function LinesAt(i: nat, name: string): seq<Line> { if i == 4 then [Line(2, true, Some(Sole(name)))] else [] }

  function FileAt(i: nat, name: string): File { File(2, true, LinesAt(i, name)) }

  function StatedAt(i: nat, name: string): PayloadManifest
    requires i < |EXPECTED_PAYLOAD_FILES|
  {
    var n := |LinesAt(i, name)|;
    var time := if i == 4 then Some(0) else None;
    PayloadManifest(EXPECTED_PAYLOAD_FILES[i], {AuditEvent}, n, n, 0, 2, 2 * n, PayloadDigest(FileAt(i, name)), time,
      time)
  }

  function AllFiles(name: string): seq<File> { seq(|EXPECTED_PAYLOAD_FILES|, i requires i >= 0 => FileAt(i, name)) }

  function AllStated(name: string): seq<PayloadManifest> {
    seq(|EXPECTED_PAYLOAD_FILES|, i requires 0 <= i < |EXPECTED_PAYLOAD_FILES| => StatedAt(i, name))
  }

  function SoleManifest(id: string, name: string): Manifest { Manifest(id, "", 0, 0, 0, AllStated(name), 1, 0, 1) }

  /** The archive `id` of the one audit event `name`. */
  function SoleArchive(id: string, name: string): Archive { Packed(AllFiles(name), SoleManifest(id, name)) }

  lemma {:induction false} SoleRecords(i: nat, name: string)
    ensures Records(LinesAt(i, name)) == if i == 4 then [Sole(name)] else []
    ensures CandidateCount(Records(LinesAt(i, name))) == |LinesAt(i, name)|
    ensures TotalBytes(LinesAt(i, name)) == 2 * |LinesAt(i, name)|
  {
    assert LinesAt(4, name)[..0] == [];
    assert [Sole(name)][..0] == [];
  }

  lemma {:induction false} SoleDescribed(i: nat, name: string)
    requires i < |EXPECTED_PAYLOAD_FILES|
    ensures Describes(StatedAt(i, name), LinesAt(i, name))
  {
    SoleRecords(i, name);
    if i == 4 { assert Sole(name) in Records(LinesAt(i, name)); }
  }

  lemma {:induction false} SoleSound(i: nat, name: string)
    requires i < |EXPECTED_PAYLOAD_FILES|
    ensures PayloadSound(FileAt(i, name), StatedAt(i, name)) && PayloadValid(StatedAt(i, name))
    ensures i != 4 ==> Keys(FileAt(i, name)) == {}
  {
    SoleDescribed(i, name);
    assert EXPECTED_PAYLOAD_FILES[4] == AuditEvents;
  }

  lemma {:induction false} SoleSums(payloads: seq<PayloadManifest>, k: nat)
    requires k < |payloads|
    requires forall i :: 0 <= i < |payloads| ==>
               payloads[i].candidateCount == payloads[i].recordCount == (if i == k then 1 else 0)
                 && payloads[i].dependencyCount == 0
    ensures SumCounts(payloads) == (1, 0, 1)
  {
    var n := |payloads| - 1;
    if k < n { SoleSums(payloads[..n], k); } else { NoSums(payloads[..n]); }
  }

  lemma {:induction false} NoSums(payloads: seq<PayloadManifest>)
    requires forall i :: 0 <= i < |payloads| ==>
               payloads[i].candidateCount == payloads[i].recordCount == payloads[i].dependencyCount == 0
    ensures SumCounts(payloads) == (0, 0, 0)
  {
    if payloads != [] { NoSums(payloads[..|payloads| - 1]); }
  }

  lemma {:induction false} SoleManifestValid(id: string, name: string)
    ensures ManifestValid(SoleManifest(id, name))
  {
    StatedValid(AllStated(name), name);
    SoleSums(AllStated(name), 4);
    ValidSole(SoleManifest(id, name));
  }

  lemma {:induction false} ValidSole(m: Manifest)
    requires |m.payloads| == |EXPECTED_PAYLOAD_FILES|
    requires forall i :: 0 <= i < |m.payloads| ==>
      PayloadValid(m.payloads[i]) && m.payloads[i].filename == EXPECTED_PAYLOAD_FILES[i]
    requires SumCounts(m.payloads) == (1, 0, 1) && (m.candidateCount, m.dependencyCount, m.totalCount) == (1, 0, 1)
    requires m.createdAt <= m.completedAt
    ensures ManifestValid(m)
  {}

  lemma {:induction false} StatedValid(payloads: seq<PayloadManifest>, name: string)
    requires payloads == AllStated(name)
    ensures forall i :: 0 <= i < |payloads| ==>
      PayloadValid(payloads[i]) && payloads[i].filename == EXPECTED_PAYLOAD_FILES[i]
    ensures forall i :: 0 <= i < |payloads| ==>
              payloads[i].candidateCount == payloads[i].recordCount == (if i == 4 then 1 else 0)
                && payloads[i].dependencyCount == 0
  {
    forall i | 0 <= i < |payloads|
      ensures PayloadValid(payloads[i]) && payloads[i].filename == EXPECTED_PAYLOAD_FILES[i] {
      SoleSound(i, name);
    }
  }

  lemma {:induction false} SoleFiles(id: string, name: string)
    ensures FileSetRight(SoleArchive(id, name)) && FilesOf(SoleArchive(id, name)) == AllFiles(name)
  {
    DirectoryOrder(AllFiles(name));
    PackedFiles(AllFiles(name), SoleManifest(id, name));
  }

  lemma {:induction false} SolePasses(name: string)
    ensures PassTo(AllFiles(name), AllStated(name), |EXPECTED_PAYLOAD_FILES|, Sound(), Keys)
  {
    var files, payloads := AllFiles(name), AllStated(name);
    forall i | 0 <= i < |files| ensures Sound()(files[i], payloads[i]) && (i != 4 ==> Keys(files[i]) == {}) {
      SoleSound(i, name);
    }
  }

  lemma {:induction false} PackedAccepted(files: seq<File>, m: Manifest)
    requires |files| == |EXPECTED_PAYLOAD_FILES| && ManifestValid(m)
    requires FileSetRight(Packed(files, m)) && FilesOf(Packed(files, m)) == files
    requires PassTo(files, m.payloads, |EXPECTED_PAYLOAD_FILES|, Sound(), Keys)
    ensures Accepted(Packed(files, m), m.archiveId)
  {}

  /** It is accepted, and its plan is that event. */
  lemma {:induction false} SoleAccepted(id: string, name: string)
    ensures Accepted(SoleArchive(id, name), id)
    ensures var v := VerifiedOf(SoleArchive(id, name), id);
      v.plan[0] == [Ref(0, name)] && v.candidates == 1 && v.dependencies == 0
  {
    SoleManifestValid(id, name);
    SoleFiles(id, name);
    SolePasses(name);
    PackedAccepted(AllFiles(name), SoleManifest(id, name));
    SolePlan(SoleArchive(id, name), name);
  }

  lemma {:induction false} SolePlan(a: Archive, name: string)
    requires FileSetRight(a) && FilesOf(a) == AllFiles(name)
    ensures PlanOf(a)[0] == [Ref(0, name)]
  {
    SoleRefs(a, name, FilesOf(a));
    assert PlanOf(a)[0] == CandidateFile(a, CLEANUP_ENTITY_ORDER[0]);
  }

  lemma {:induction false} SoleRefs(a: Archive, name: string, files: seq<File>)
    requires FileSetRight(a) && FilesOf(a) == files == AllFiles(name)
    ensures CandidateFile(a, AuditEvent) == [Ref(0, name)]
  {
    SoleRecords(4, name);
    assert Contents(files)[4] == Records(files[4].lines);
  }
}
