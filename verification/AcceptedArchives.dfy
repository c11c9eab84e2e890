/** An accepted archive, told by its files and lines: what the verifier's answer means. */
module AcceptedArchives {
  import opened Ordering
  import opened Archives
  import opened ArchiveIo

  const CANDIDATE_TYPES: seq<EntityType> :=
    [CanonicalEvent, DetectionSignal, IngestionJob, IncidentRecord, AuditEvent]

  /** The first five files hold the candidates of one entity type each, the sixth what depends on them. */
  predicate Belongs(k: nat, r: Record) {
    if k < 5 then r.role == RetentionCandidate && r.entityType == CANDIDATE_TYPES[k] else r.role == Dependency
  }

  /** A complete line that is not too long, with a record that belongs there. */
  predicate GoodLine(k: nat, line: Line, declared: set<EntityType>) {
    && line.newline && line.bytes <= 65_536 && line.record.Some?
    && Belongs(k, line.record.value) && line.record.value.entityType in declared
  }

  predicate Earlier(a: Line, b: Line) {
    a.record.Some? && b.record.Some? ==>
      var r, s := a.record.value, b.record.value;
      r.recordedAt < s.recordedAt || (r.recordedAt == s.recordedAt && StrLess(r.entityId, s.entityId))
  }

  predicate InTimeOrder(lines: seq<Line>) { forall i, j :: 0 <= i < j < |lines| ==> Earlier(lines[i], lines[j]) }

  predicate TellsKey(line: Line, key: Key) {
    line.record.Some? && line.record.value.entityType == key.0 && line.record.value.entityId == key.1
  }

  predicate KeyAt(files: seq<File>, k: nat, i: nat, key: Key) {
    k < |files| && i < |files[k].lines| && TellsKey(files[k].lines[i], key)
  }

  /** No record appears twice in the whole archive. */
  ghost predicate EachOnce(files: seq<File>) {
    forall key, k: nat, i: nat, l: nat, j: nat :: KeyAt(files, k, i, key) && KeyAt(files, l, j, key) ==>
      k == l && i == j
  }

  ghost predicate EachOnceIn(f: File) {
    forall key, i: nat, j: nat :: KeyAt([f], 0, i, key) && KeyAt([f], 0, j, key) ==> i == j
  }

  /** The file is the one its entry names, and the entry counts what is in it. */
  ghost predicate GoodFile(k: nat, f: File, p: PayloadManifest) {
    && p.digest == PayloadDigest(f) && p.compressedBytes == f.compressedBytes && f.gzipOk
    && (forall line :: line in f.lines ==> GoodLine(k, line, p.entityTypes))
    && (k < 5 ==> InTimeOrder(f.lines))
    && p.recordCount == |f.lines|
    && p.candidateCount == (if k < 5 then |f.lines| else 0)
    && p.dependencyCount == (if k < 5 then 0 else |f.lines|)
    && p.uncompressedBytes == TotalBytes(f.lines)
    && IsOldest(p.oldest, Records(f.lines)) && IsNewest(p.newest, Records(f.lines))
  }

  type FileTest = (nat, File, PayloadManifest) -> bool

  ghost function GoodTest(): FileTest { (k: nat, f: File, p: PayloadManifest) => GoodFile(k, f, p) }

  predicate Named(payloads: seq<PayloadManifest>) {
    |payloads| == 6 && forall k :: 0 <= k < 6 ==> payloads[k].filename == EXPECTED_PAYLOAD_FILES[k]
  }

  /** Exactly the six payload files and the two that describe them; the manifest in its canonical form, of this
      archive, with its digest beside it; and the files as it says. */
  ghost predicate Sound(a: Archive, id: string) {
    && CanonicalEvents in a.files && DetectionSignals in a.files && IngestionJobs in a.files
    && IncidentsFile in a.files && AuditEvents in a.files && DependentRecords in a.files && a.strays == {}
    && a.manifest.Some? && a.manifest.value.Canonical?
    && a.sidecar == Some(Holds(ManifestDigest(a.manifest.value)))
    && Tells(a.manifest.value.manifest, FilesOf(a), id)
  }

  ghost predicate Tells(m: Manifest, files: seq<File>, id: string)
    requires |files| == 6
  {
    && m.archiveId == id && m.createdAt <= m.completedAt && Named(m.payloads)
    && AllGood(files, m.payloads, GoodTest()) && EachOnce(files) && TotalsRight(m, files)
  }

  ghost predicate AllGood(files: seq<File>, payloads: seq<PayloadManifest>, good: FileTest)
    requires |files| == |payloads| == 6
  {
    forall k :: 0 <= k < 6 ==> good(k, files[k], payloads[k])
  }

  predicate TotalsRight(m: Manifest, files: seq<File>)
    requires |files| == 6
  {
    && m.candidateCount == |files[0].lines| + |files[1].lines| + |files[2].lines| + |files[3].lines| + |files[4].lines|
    && m.dependencyCount == |files[5].lines|
    && m.totalCount == m.candidateCount + m.dependencyCount
  }

  // ---------------------------------------------------------------- one file

  lemma {:induction false} BelongsExactly(k: nat, r: Record)
    requires k < 6
    ensures Belongs(k, r) <==> RoleRight(EXPECTED_PAYLOAD_FILES[k], r)
  {
    assert k == 0 || k == 1 || k == 2 || k == 3 || k == 4 || k == 5;
  }

  lemma {:induction false} LineExactly(k: nat, line: Line, p: PayloadManifest)
    requires k < 6 && p.filename == EXPECTED_PAYLOAD_FILES[k]
    ensures GoodLine(k, line, p.entityTypes) <==> LineSound(line, p)
  {
    if line.record.Some? { BelongsExactly(k, line.record.value); }
  }

  lemma {:induction false} CountsOfGood(k: nat, lines: seq<Line>, declared: set<EntityType>)
    requires forall line :: line in lines ==> GoodLine(k, line, declared)
    ensures |Records(lines)| == |lines| && CandidateCount(Records(lines)) == if k < 5 then |lines| else 0
  {
    if lines != [] {
      var n := |lines| - 1;
      CountsOfGood(k, lines[..n], declared);
      assert lines[n] in lines;
      var rs := Records(lines);
      assert rs[..|rs| - 1] == Records(lines[..n]);
    }
  }

  lemma {:induction false} LinesExactly(k: nat, f: File, p: PayloadManifest)
    requires k < 6 && p.filename == EXPECTED_PAYLOAD_FILES[k]
    ensures LinesRight(f.lines, |f.lines|, p) <==>
      && (forall line :: line in f.lines ==> GoodLine(k, line, p.entityTypes))
      && (k < 5 ==> InTimeOrder(f.lines)) && EachOnceIn(f)
  {
    if LinesRight(f.lines, |f.lines|, p) { RightIsGood(k, f, p); }
    if (forall line :: line in f.lines ==> GoodLine(k, line, p.entityTypes)) && (k < 5 ==> InTimeOrder(f.lines))
       && EachOnceIn(f) {
      GoodIsRight(k, f, p);
    }
  }

  lemma {:induction false} RightIsGood(k: nat, f: File, p: PayloadManifest)
    requires k < 6 && p.filename == EXPECTED_PAYLOAD_FILES[k] && LinesRight(f.lines, |f.lines|, p)
    ensures forall line :: line in f.lines ==> GoodLine(k, line, p.entityTypes)
    ensures k < 5 ==> InTimeOrder(f.lines)
    ensures EachOnceIn(f)
  {
    forall line | line in f.lines ensures GoodLine(k, line, p.entityTypes) {
      var i :| 0 <= i < |f.lines| && f.lines[i] == line;
      assert LineRight(f.lines, i, p);
      LineExactly(k, line, p);
    }
    if k < 5 {
      forall i, j | 0 <= i < j < |f.lines| ensures Earlier(f.lines[i], f.lines[j]) {
        assert LineRight(f.lines, i, p) && LineRight(f.lines, j, p);
        assert Follows(At(f.lines, i), At(f.lines, j), p.filename);
      }
    }
    forall i, j | 0 <= i < j < |f.lines| && f.lines[i].record.Some?
      ensures f.lines[j].record.Some? && KeyOf(At(f.lines, i)) != KeyOf(At(f.lines, j)) {
      assert LineRight(f.lines, j, p);
      assert Follows(At(f.lines, i), At(f.lines, j), p.filename);
    }
    forall key, i: nat, j: nat | KeyAt([f], 0, i, key) && KeyAt([f], 0, j, key) ensures i == j {
      assert KeyOf(At(f.lines, i)) == KeyOf(At(f.lines, j));
    }
  }

  lemma {:induction false} GoodIsRight(k: nat, f: File, p: PayloadManifest)
    requires k < 6 && p.filename == EXPECTED_PAYLOAD_FILES[k]
    requires forall line :: line in f.lines ==> GoodLine(k, line, p.entityTypes)
    requires k < 5 ==> InTimeOrder(f.lines)
    requires EachOnceIn(f)
    ensures LinesRight(f.lines, |f.lines|, p)
  {
    forall i | 0 <= i < |f.lines| ensures LineRight(f.lines, i, p) {
      LineExactly(k, f.lines[i], p);
      forall j | 0 <= j < i && f.lines[j].record.Some? ensures Follows(At(f.lines, j), At(f.lines, i), p.filename) {
        assert f.lines[j] in f.lines;
        if k < 5 { assert Earlier(f.lines[j], f.lines[i]); }
        if KeyOf(At(f.lines, j)) == KeyOf(At(f.lines, i)) {
          assert KeyAt([f], 0, i, KeyOf(At(f.lines, i))) && KeyAt([f], 0, j, KeyOf(At(f.lines, i)));
        }
      }
    }
  }

  lemma {:induction false} FileExactly(k: nat, f: File, p: PayloadManifest)
    requires k < 6 && p.filename == EXPECTED_PAYLOAD_FILES[k]
    ensures PayloadSound(f, p) <==> GoodFile(k, f, p) && EachOnceIn(f)
  {
    LinesExactly(k, f, p);
    if forall line :: line in f.lines ==> GoodLine(k, line, p.entityTypes) { CountsOfGood(k, f.lines, p.entityTypes); }
  }

  // ---------------------------------------------------------------- the whole archive

  lemma {:induction false} KeysApart(files: seq<File>)
    ensures EachOnce(files) <==>
      && (forall k :: 0 <= k < |files| ==> EachOnceIn(files[k]))
      && (forall k, l :: 0 <= k < l < |files| ==> Keys(files[k]) !! Keys(files[l]))
  {
    if EachOnce(files) { OnceApart(files); }
    if (forall k :: 0 <= k < |files| ==> EachOnceIn(files[k]))
       && (forall k, l :: 0 <= k < l < |files| ==> Keys(files[k]) !! Keys(files[l])) {
      ApartOnce(files);
    }
  }

  lemma {:induction false} InKeys(files: seq<File>, k: nat, key: Key)
    requires k < |files|
    ensures key in Keys(files[k]) <==> exists i: nat :: KeyAt(files, k, i, key)
  {
    var f := files[k];
    if key in Keys(f) {
      var i: nat :| i < |f.lines| && f.lines[i].record.Some? && KeyOf(At(f.lines, i)) == key;
      assert KeyAt(files, k, i, key);
    }
    if i: nat :| KeyAt(files, k, i, key) { assert KeyOf(At(f.lines, i)) == key; }
  }

  lemma {:induction false} OnceApart(files: seq<File>)
    requires EachOnce(files)
    ensures forall k :: 0 <= k < |files| ==> EachOnceIn(files[k])
    ensures forall k, l :: 0 <= k < l < |files| ==> Keys(files[k]) !! Keys(files[l])
  {
    forall k | 0 <= k < |files| ensures EachOnceIn(files[k]) {
      forall key, i: nat, j: nat | KeyAt([files[k]], 0, i, key) && KeyAt([files[k]], 0, j, key) ensures i == j {
        assert KeyAt(files, k, i, key) && KeyAt(files, k, j, key);
      }
    }
    forall k, l | 0 <= k < l < |files| ensures Keys(files[k]) !! Keys(files[l]) {
      forall key | key in Keys(files[k]) ensures key !in Keys(files[l]) {
        InKeys(files, k, key);
        InKeys(files, l, key);
      }
    }
  }

  lemma {:induction false} ApartOnce(files: seq<File>)
    requires forall k :: 0 <= k < |files| ==> EachOnceIn(files[k])
    requires forall k, l :: 0 <= k < l < |files| ==> Keys(files[k]) !! Keys(files[l])
    ensures EachOnce(files)
  {
    forall key, k: nat, i: nat, l: nat, j: nat | KeyAt(files, k, i, key) && KeyAt(files, l, j, key)
      ensures k == l && i == j {
      InKeys(files, k, key);
      InKeys(files, l, key);
      if k == l {
        assert EachOnceIn(files[k]);
        assert KeyAt([files[k]], 0, i, key) && KeyAt([files[k]], 0, j, key);
      }
    }
  }

  lemma {:induction false} SumsOfSix(p: seq<PayloadManifest>)
    requires |p| == 6
    ensures SumCounts(p).0 == p[0].candidateCount + p[1].candidateCount + p[2].candidateCount + p[3].candidateCount
      + p[4].candidateCount + p[5].candidateCount
    ensures SumCounts(p).1 == p[0].dependencyCount + p[1].dependencyCount + p[2].dependencyCount + p[3].dependencyCount
      + p[4].dependencyCount + p[5].dependencyCount
    ensures SumCounts(p).2 == p[0].recordCount + p[1].recordCount + p[2].recordCount + p[3].recordCount
      + p[4].recordCount + p[5].recordCount
  {
    SumStep(p, 6);
    SumStep(p, 5);
    SumStep(p, 4);
    SumStep(p, 3);
    SumStep(p, 2);
    SumStep(p, 1);
    assert p[..6] == p;
  }

  lemma {:induction false} SumStep(p: seq<PayloadManifest>, n: nat)
    requires 0 < n <= |p|
    ensures var s, t := SumCounts(p[..n]), SumCounts(p[..n - 1]);
      && s.0 == t.0 + p[n - 1].candidateCount && s.1 == t.1 + p[n - 1].dependencyCount
      && s.2 == t.2 + p[n - 1].recordCount
  {
    assert p[..n][..n - 1] == p[..n - 1];
  }

  lemma {:induction false} FilesExactly(m: Manifest, files: seq<File>)
    requires |files| == 6 && |m.payloads| == 6
    requires forall k :: 0 <= k < 6 ==> m.payloads[k].filename == EXPECTED_PAYLOAD_FILES[k]
    ensures PassTo(files, m.payloads, 6, ArchiveIo.Sound(), Keys) <==>
      EachOnce(files) && AllGood(files, m.payloads, GoodTest())
  {
    KeysApart(files);
    forall k | 0 <= k < 6
      ensures ArchiveIo.Sound()(files[k], m.payloads[k]) <==>
        GoodTest()(k, files[k], m.payloads[k]) && EachOnceIn(files[k]) {
      FileExactly(k, files[k], m.payloads[k]);
    }
  }

  /** The verifier accepts exactly the sound archives. */
  lemma {:induction false} AcceptedExactly(a: Archive, id: string)
    ensures Accepted(a, id) <==> Sound(a, id)
  {
    if PayloadsThere(a) { FilesThere(a); }
    forall k | 0 <= k < 6 && Sound(a, id) ensures EXPECTED_PAYLOAD_FILES[k] in a.files {
      assert k == 0 || k == 1 || k == 2 || k == 3 || k == 4 || k == 5;
    }
    if PayloadsThere(a) && a.manifest.Some? && a.manifest.value.Canonical? {
      ManifestExactly(a.manifest.value.manifest, FilesOf(a), id);
    }
  }

  lemma {:induction false} FilesThere(a: Archive)
    requires PayloadsThere(a)
    ensures CanonicalEvents in a.files && DetectionSignals in a.files && IngestionJobs in a.files
    ensures IncidentsFile in a.files && AuditEvents in a.files && DependentRecords in a.files
  {
    assert EXPECTED_PAYLOAD_FILES[0] in a.files && EXPECTED_PAYLOAD_FILES[1] in a.files;
    assert EXPECTED_PAYLOAD_FILES[2] in a.files && EXPECTED_PAYLOAD_FILES[3] in a.files;
    assert EXPECTED_PAYLOAD_FILES[4] in a.files && EXPECTED_PAYLOAD_FILES[5] in a.files;
  }

  lemma {:induction false} ManifestExactly(m: Manifest, files: seq<File>, id: string)
    requires |files| == 6
    ensures (ManifestValid(m) && m.archiveId == id && PassTo(files, m.payloads, 6, ArchiveIo.Sound(), Keys))
      <==> Tells(m, files, id)
  {
    if Named(m.payloads) {
      FilesExactly(m, files);
      if AllGood(files, m.payloads, GoodTest()) {
        GoodAreCounted(m.payloads, files);
        TotalsExactly(m, files);
      }
      ManifestBy(m, files, id, PassTo(files, m.payloads, 6, ArchiveIo.Sound(), Keys), GoodTest());
    }
  }

  lemma {:induction false} ManifestBy(m: Manifest, files: seq<File>, id: string, pass: bool, good: FileTest)
    requires |files| == 6 && Named(m.payloads) && (pass <==> EachOnce(files) && AllGood(files, m.payloads, good))
    requires AllGood(files, m.payloads, good) ==> forall k :: 0 <= k < 6 ==> PayloadValid(m.payloads[k])
    requires AllGood(files, m.payloads, good) ==>
      (SumCounts(m.payloads) == (m.candidateCount, m.dependencyCount, m.totalCount) <==> TotalsRight(m, files))
    ensures ManifestValid(m) && m.archiveId == id && pass
      <==> m.archiveId == id && m.createdAt <= m.completedAt && AllGood(files, m.payloads, good) && EachOnce(files)
           && TotalsRight(m, files)
  {}

  predicate Counted(k: nat, f: File, p: PayloadManifest) {
    && PayloadValid(p) && p.recordCount == |f.lines|
    && p.candidateCount == (if k < 5 then |f.lines| else 0) && p.dependencyCount == (if k < 5 then 0 else |f.lines|)
  }

  lemma {:induction false} TotalsExactly(m: Manifest, files: seq<File>)
    requires |files| == 6 && |m.payloads| == 6
    requires forall k :: 0 <= k < 6 ==> Counted(k, files[k], m.payloads[k])
    ensures SumCounts(m.payloads) == (m.candidateCount, m.dependencyCount, m.totalCount) <==> TotalsRight(m, files)
  {
    SumsOfSix(m.payloads);
  }

  lemma {:induction false} GoodAreCounted(payloads: seq<PayloadManifest>, files: seq<File>)
    requires |files| == 6 && |payloads| == 6
    requires AllGood(files, payloads, GoodTest())
    ensures forall k :: 0 <= k < 6 ==> Counted(k, files[k], payloads[k])
  {
    forall k | 0 <= k < 6 ensures Counted(k, files[k], payloads[k]) { GoodIsValid(k, files[k], payloads[k]); }
  }

  lemma {:induction false} GoodIsValid(k: nat, f: File, p: PayloadManifest)
    requires GoodFile(k, f, p)
    ensures Counted(k, f, p)
  {
    CountsOfGood(k, f.lines, p.entityTypes);
    DescribedIsValid(p, f.lines);
  }
}
