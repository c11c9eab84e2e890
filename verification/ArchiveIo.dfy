/** Writing an archive and verifying one, and that they agree. */
module ArchiveIo {
  import opened Ordering
  import opened Archives

  // ---------------------------------------------------------------- what the verifier accepts

  predicate RoleRight(f: Filename, r: Record) {
    if f == DependentRecords then r.role == Dependency
    else r.role == RetentionCandidate && CandidateType(f) == Some(r.entityType)
  }

  predicate LineSound(line: Line, p: PayloadManifest) {
    && line.bytes <= MAX_ARCHIVE_LINE_BYTES
    && line.newline
    && line.record.Some?
    && RoleRight(p.filename, line.record.value)
    && line.record.value.entityType in p.entityTypes
  }

  function At(lines: seq<Line>, i: nat): Record
    requires i < |lines| && lines[i].record.Some?
  {
    lines[i].record.value
  }

  /** Line `i` is sound by itself, repeats no earlier key and, in a candidate file, comes after
      every earlier record. */
  ghost predicate LineRight(lines: seq<Line>, i: nat, p: PayloadManifest)
    requires i < |lines|
  {
    && LineSound(lines[i], p)
    && forall j :: 0 <= j < i && lines[j].record.Some? ==> Follows(At(lines, j), At(lines, i), p.filename)
  }

  predicate Follows(a: Record, b: Record, f: Filename) {
    KeyOf(a) != KeyOf(b) && (f != DependentRecords ==> RefLess(RefOf(a), RefOf(b)))
  }

  ghost predicate LinesRight(lines: seq<Line>, n: nat, p: PayloadManifest)
    requires n <= |lines|
  {
    forall i :: 0 <= i < n ==> LineRight(lines, i, p)
  }

  function KeysTo(lines: seq<Line>, n: nat): (k: set<Key>)
    requires n <= |lines|
  {
    set i | 0 <= i < n && lines[i].record.Some? :: KeyOf(At(lines, i))
  }

  function Keys(f: File): set<Key> { KeysTo(f.lines, |f.lines|) }

  predicate ChecksumRight(f: File, p: PayloadManifest) {
    p.digest == PayloadDigest(f) && p.compressedBytes == f.compressedBytes
  }

  ghost predicate PayloadSound(f: File, p: PayloadManifest) {
    && ChecksumRight(f, p)
    && f.gzipOk
    && LinesRight(f.lines, |f.lines|, p)
    && Describes(p, f.lines)
  }

  predicate PayloadsThere(a: Archive) {
    forall i :: 0 <= i < |EXPECTED_PAYLOAD_FILES| ==> EXPECTED_PAYLOAD_FILES[i] in a.files
  }

  predicate FileSetRight(a: Archive) {
    && PayloadsThere(a)
    && a.manifest.Some? && a.sidecar.Some? && a.strays == {}
  }

  /** The payload files in the order of the manifest. */
  function FilesOf(a: Archive): (r: seq<File>)
    requires PayloadsThere(a)
    ensures |r| == |EXPECTED_PAYLOAD_FILES|
    ensures forall i :: 0 <= i < |r| ==> r[i] == a.files[EXPECTED_PAYLOAD_FILES[i]]
  {
    seq(|EXPECTED_PAYLOAD_FILES|, i requires 0 <= i < |EXPECTED_PAYLOAD_FILES| => a.files[EXPECTED_PAYLOAD_FILES[i]])
  }

  type PayloadTest = (File, PayloadManifest) -> bool
  type KeyTable = File -> set<Key>

  ghost function Sound(): PayloadTest { (f, p) => PayloadSound(f, p) }

  /** Each of the first `n` files passes the test, and no two of them share a key. */
  ghost predicate PassTo(files: seq<File>, payloads: seq<PayloadManifest>, n: nat, test: PayloadTest, keys: KeyTable)
    requires n <= |files| == |payloads|
  {
    && (forall i :: 0 <= i < n ==> test(files[i], payloads[i]))
    && (forall i, j :: 0 <= i < j < n ==> keys(files[i]) !! keys(files[j]))
  }

  predicate ManifestRight(a: Archive, id: string)
    requires FileSetRight(a)
  {
    && a.manifest.value.Canonical?
    && a.sidecar.value == Holds(ManifestDigest(a.manifest.value))
    && ManifestValid(a.manifest.value.manifest)
    && a.manifest.value.manifest.archiveId == id
  }

  /** An archive that verifies, said without reading it in any order. */
  ghost predicate Accepted(a: Archive, id: string) {
    && FileSetRight(a)
    && ManifestRight(a, id)
    && PassTo(FilesOf(a), a.manifest.value.manifest.payloads, |EXPECTED_PAYLOAD_FILES|, Sound(), Keys)
  }

  // ---------------------------------------------------------------- verifying one payload

  /** What is wrong with a line, given the keys and the last position read before it. */
  function LineFault(line: Line, p: PayloadManifest, seen: set<Key>, previous: Option<Ref>): (f: Option<Fault>)
    ensures f.None? ==> line.record.Some?
  {
    if line.bytes > MAX_ARCHIVE_LINE_BYTES then Some(RecordTooLarge)
    else if !line.newline then Some(LineInvalid)
    else if line.record.None? then Some(RecordInvalid)
    else
      var r := line.record.value;
      if !RoleRight(p.filename, r) then
        Some(if p.filename == DependentRecords then DependencyRoleInvalid else CandidateRoleInvalid)
      else if r.entityType !in p.entityTypes then Some(PayloadEntityMismatch)
      else if KeyOf(r) in seen then Some(RecordDuplicate)
      else if p.filename != DependentRecords && previous.Some? && !RefLess(previous.value, RefOf(r)) then
        Some(CandidateOrderInvalid)
      else None
  }

  /** A record that the file may not hold. */
  predicate Misplaced(r: Record, p: PayloadManifest) {
    if p.filename == DependentRecords then r.role != Dependency
    else r.role != RetentionCandidate || Some(r.entityType) != CandidateType(p.filename)
  }

  predicate Unordered(r: Record, p: PayloadManifest, previous: Option<Ref>) {
    && p.filename != DependentRecords && previous.Some?
    && (previous.value.recordedAt > r.recordedAt
        || (previous.value.recordedAt == r.recordedAt && !StrLess(previous.value.entityId, r.entityId)))
  }

  /** Which fault a line has: the first of the eight that applies, in this order. */
  lemma {:induction false} LineFaultExactly(line: Line, p: PayloadManifest, seen: set<Key>, previous: Option<Ref>)
    ensures var f := LineFault(line, p, seen, previous);
      && (f == Some(RecordTooLarge) <==> line.bytes > 65_536)
      && (f == Some(LineInvalid) <==> line.bytes <= 65_536 && !line.newline)
      && (f == Some(RecordInvalid) <==> line.bytes <= 65_536 && line.newline && line.record.None?)
      && (line.bytes <= 65_536 && line.newline && line.record.Some? ==>
            var r := line.record.value;
            if Misplaced(r, p) then
              f == Some(if p.filename == DependentRecords then DependencyRoleInvalid else CandidateRoleInvalid)
            else
              && (f == Some(PayloadEntityMismatch) <==> r.entityType !in p.entityTypes)
              && (f == Some(RecordDuplicate) <==> r.entityType in p.entityTypes && (r.entityType, r.entityId) in seen)
              && (f == Some(CandidateOrderInvalid) <==>
                    r.entityType in p.entityTypes && (r.entityType, r.entityId) !in seen && Unordered(r, p, previous))
              && (f.None? <==>
                    r.entityType in p.entityTypes && (r.entityType, r.entityId) !in seen && !Unordered(r, p, previous)))
  {
    if p.filename != DependentRecords { assert CandidateType(p.filename).Some?; }
  }

  /** The first `n` lines are right and their keys are new. */
  ghost predicate CleanTo(lines: seq<Line>, n: nat, p: PayloadManifest, seen: set<Key>)
    requires n <= |lines|
  {
    LinesRight(lines, n, p) && KeysTo(lines, n) !! seen
  }

  function LastRef(lines: seq<Line>, n: nat, p: PayloadManifest): Option<Ref>
    requires n <= |lines| && forall i :: 0 <= i < n ==> lines[i].record.Some?
  {
    if n == 0 || p.filename == DependentRecords then None else Some(RefOf(At(lines, n - 1)))
  }

  /** The last record is the latest of the records so far. */
  lemma {:induction false} FollowsAll(lines: seq<Line>, n: nat, p: PayloadManifest, r: Record)
    requires 0 < n <= |lines| && LinesRight(lines, n, p) && forall i :: 0 <= i < n ==> lines[i].record.Some?
    requires p.filename != DependentRecords && RefLess(RefOf(At(lines, n - 1)), RefOf(r))
    ensures forall j :: 0 <= j < n ==> RefLess(RefOf(At(lines, j)), RefOf(r))
  {
    RefLessIsStrictOrder();
    forall j | 0 <= j < n - 1 ensures RefLess(RefOf(At(lines, j)), RefOf(r)) {
      assert LineRight(lines, n - 1, p) && LineRight(lines, j, p);
      assert Follows(At(lines, j), At(lines, n - 1), p.filename);
    }
  }

  lemma {:induction false} KeysStep(lines: seq<Line>, n: nat)
    requires n < |lines| && lines[n].record.Some?
    ensures KeysTo(lines, n + 1) == KeysTo(lines, n) + {KeyOf(At(lines, n))}
  {}

  /** A line with no fault extends the clean prefix; a faulty one ends it. */
  lemma {:induction false} LineStep(lines: seq<Line>, n: nat, p: PayloadManifest, seen: set<Key>)
    requires n < |lines| && CleanTo(lines, n, p, seen)
    requires forall i :: 0 <= i < n ==> lines[i].record.Some?
    ensures LineFault(lines[n], p, seen + KeysTo(lines, n), LastRef(lines, n, p)).None? <==>
      CleanTo(lines, n + 1, p, seen)
  {
    if lines[n].record.Some? {
      KeysStep(lines, n);
      var r := At(lines, n);
      if LineFault(lines[n], p, seen + KeysTo(lines, n), LastRef(lines, n, p)).None? {
        if p.filename != DependentRecords && n > 0 { FollowsAll(lines, n, p, r); }
        forall j | 0 <= j < n ensures Follows(At(lines, j), r, p.filename) {
          assert KeyOf(At(lines, j)) in KeysTo(lines, n);
        }
        assert LineRight(lines, n, p);
      }
      if CleanTo(lines, n + 1, p, seen) {
        NoFault(lines, n, p, seen);
      }
    } else {
      assert CleanTo(lines, n + 1, p, seen) ==> LineRight(lines, n, p);
    }
  }

  lemma {:induction false} NoFault(lines: seq<Line>, n: nat, p: PayloadManifest, seen: set<Key>)
    requires n < |lines| && CleanTo(lines, n + 1, p, seen)
    requires forall i :: 0 <= i <= n ==> lines[i].record.Some?
    ensures LineFault(lines[n], p, seen + KeysTo(lines, n), LastRef(lines, n, p)).None?
  {
    assert LineRight(lines, n, p);
    var r := At(lines, n);
    assert KeyOf(r) in KeysTo(lines, n + 1);
    forall j | 0 <= j < n ensures KeyOf(At(lines, j)) != KeyOf(r) {
      assert Follows(At(lines, j), r, p.filename);
    }
    if n > 0 { assert Follows(At(lines, n - 1), r, p.filename); }
  }

  lemma {:induction false} CleanPrefix(lines: seq<Line>, n: nat, p: PayloadManifest, seen: set<Key>)
    requires n <= |lines| && CleanTo(lines, |lines|, p, seen)
    ensures CleanTo(lines, n, p, seen)
  {
    assert KeysTo(lines, n) <= KeysTo(lines, |lines|);
  }

  /** Which fault is reported: the first that reading the file from the start runs into. */
  ghost predicate Explains(e: Fault, f: File, p: PayloadManifest, seen: set<Key>) {
    if !ChecksumRight(f, p) then e == PayloadChecksumMismatch
    else
      || (exists n :: 0 <= n < |f.lines| && FirstBad(e, f.lines, n, p, seen))
      || (CleanTo(f.lines, |f.lines|, p, seen) && e == if !f.gzipOk then GzipInvalid else PayloadMetadataMismatch)
  }

  ghost predicate FirstBad(e: Fault, lines: seq<Line>, n: nat, p: PayloadManifest, seen: set<Key>)
    requires n < |lines|
  {
    && CleanTo(lines, n, p, seen)
    && (forall i :: 0 <= i < n ==> lines[i].record.Some?)
    && LineFault(lines[n], p, seen + KeysTo(lines, n), LastRef(lines, n, p)) == Some(e)
  }

  /** The loop over the lines: the running counters, the table of keys, and what stopped it. */
  method ReadLines(lines: seq<Line>, p: PayloadManifest, seen: set<Key>)
    returns (tally: Tally, table: set<Key>, fault: Option<Fault>)
    ensures fault.None? <==> CleanTo(lines, |lines|, p, seen)
    ensures fault.None? ==> Readable(lines) && tally == TallyOf(lines) && table == seen + KeysTo(lines, |lines|)
    ensures fault.Some? ==> exists n :: 0 <= n < |lines| && FirstBad(fault.value, lines, n, p, seen)
  {
    tally, table, fault := EMPTY_TALLY, seen, None;
    var previous: Option<Ref> := None;
    for n := 0 to |lines|
      invariant CleanTo(lines, n, p, seen) && forall i :: 0 <= i < n ==> lines[i].record.Some?
      invariant tally == TallyOf(lines[..n])
      invariant table == seen + KeysTo(lines, n)
      invariant previous == LastRef(lines, n, p)
      invariant fault.None?
    {
      var line := lines[n];
      LineStep(lines, n, p, seen);
      fault := LineFault(line, p, table, previous);
      if fault.Some? {
        assert FirstBad(fault.value, lines, n, p, seen);
        if CleanTo(lines, |lines|, p, seen) { CleanPrefix(lines, n + 1, p, seen); }
        return;
      }
      TallyExtends(lines, n);
      KeysStep(lines, n);
      table := table + {KeyOf(line.record.value)};
      tally := Count(tally, line);
      if p.filename != DependentRecords {
        previous := Some(RefOf(line.record.value));
      }
    }
    assert lines[..|lines|] == lines;
  }

  /** `_verify_payload`; the keys of all payloads are collected in one table. */
  method VerifyPayload(f: File, p: PayloadManifest, seen: set<Key>) returns (r: Result<set<Key>, Fault>)
    ensures r.Success? <==> PayloadSound(f, p) && Keys(f) !! seen
    ensures r.Success? ==> r.value == seen + Keys(f)
    ensures r.Failure? ==> Explains(r.error, f, p, seen)
  {
    if !ChecksumRight(f, p) {
      return Failure(PayloadChecksumMismatch);
    }
    var tally, table, fault := ReadLines(f.lines, p, seen);
    if fault.Some? {
      return Failure(fault.value);
    }
    MatchesDescribes(p, f.lines);
    if !f.gzipOk {
      return Failure(GzipInvalid);
    }
    if !Matches(tally, p) {
      return Failure(PayloadMetadataMismatch);
    }
    return Success(table);
  }

  // ---------------------------------------------------------------- verifying an archive

  ghost predicate InTable(table: set<Key>, files: seq<File>, n: nat, keys: KeyTable)
    requires n <= |files|
  {
    forall k :: k in table <==> exists i :: 0 <= i < n && k in keys(files[i])
  }

  lemma {:induction false} PassStep(files: seq<File>, payloads: seq<PayloadManifest>, n: nat, table: set<Key>,
      test: PayloadTest, keys: KeyTable)
    requires n < |files| == |payloads| && PassTo(files, payloads, n, test, keys) && InTable(table, files, n, keys)
    ensures test(files[n], payloads[n]) && keys(files[n]) !! table <==> PassTo(files, payloads, n + 1, test, keys)
    ensures InTable(table + keys(files[n]), files, n + 1, keys)
  {
    forall k | k in keys(files[n]) && k in table
      ensures exists i :: 0 <= i < n && k in keys(files[i]) * keys(files[n]) {
      var i :| 0 <= i < n && k in keys(files[i]);
      assert k in keys(files[i]) * keys(files[n]);
    }
    if keys(files[n]) !! table {
      forall i | 0 <= i < n ensures keys(files[i]) !! keys(files[n]) {
        assert forall k :: k in keys(files[i]) ==> k in table;
      }
    }
  }

  type Explanation = (Fault, File, PayloadManifest, set<Key>) -> bool

  ghost function Explaining(): Explanation { (e, f, p, seen) => Explains(e, f, p, seen) }

  /** `e` is what is wrong with payload `n`, given the keys of those before it, which pass. */
  ghost predicate StopsAt(e: Fault, files: seq<File>, payloads: seq<PayloadManifest>, n: nat, explains: Explanation)
    requires n < |files| == |payloads|
  {
    && PassTo(files, payloads, n, Sound(), Keys)
    && exists table :: InTable(table, files, n, Keys) && explains(e, files[n], payloads[n], table)
  }

  /** The loop over the payloads of the manifest. */
  method VerifyPayloads(files: seq<File>, payloads: seq<PayloadManifest>) returns (fault: Option<Fault>)
    requires |files| == |payloads|
    ensures fault.None? <==> PassTo(files, payloads, |files|, Sound(), Keys)
    ensures fault.Some? ==> exists n :: 0 <= n < |files| && StopsAt(fault.value, files, payloads, n, Explaining())
  {
    var table: set<Key> := {};
    for n := 0 to |payloads|
      invariant PassTo(files, payloads, n, Sound(), Keys)
      invariant InTable(table, files, n, Keys)
    {
      PassStep(files, payloads, n, table, Sound(), Keys);
      var checked := VerifyPayload(files[n], payloads[n], table);
      assert Sound()(files[n], payloads[n]) == PayloadSound(files[n], payloads[n]);
      if checked.Failure? {
        assert Explaining()(checked.error, files[n], payloads[n], table);
        assert StopsAt(checked.error, files, payloads, n, Explaining());
        return Some(checked.error);
      }
      table := checked.value;
    }
    return None;
  }

  /** Why an archive is refused: the first thing wrong with it. */
  ghost predicate Refuses(e: Fault, a: Archive, id: string) {
    if !FileSetRight(a) then e == FileSetInvalid
    else
      var text := a.manifest.value;
      if a.sidecar.value == NotDigest then e == ManifestChecksumInvalid
      else if a.sidecar.value.digest.of != text then e == ManifestChecksumMismatch
      else if text.Unparsable? || !ManifestValid(text.manifest) then e == ManifestInvalid
      else if text != Canonical(text.manifest) then e == ManifestNotCanonical
      else if text.manifest.archiveId != id then e == ManifestIdMismatch
      else exists n :: 0 <= n < 6 && StopsAt(e, FilesOf(a), text.manifest.payloads, n, Explaining())
  }

  /** `verify`: file set, sidecar, digest, schema, canonical form, identity, then each payload in turn. */
  method Verify(a: Archive, id: string) returns (r: Result<Manifest, Fault>)
    ensures r.Success? <==> Accepted(a, id)
    ensures r.Success? ==> a.manifest == Some(Canonical(r.value))
    ensures r.Failure? ==> Refuses(r.error, a, id)
  {
    if !FileSetRight(a) {
      return Failure(FileSetInvalid);
    }
    var text := a.manifest.value;
    match a.sidecar.value {
      case NotDigest => return Failure(ManifestChecksumInvalid);
      case Holds(digest) =>
        if digest != ManifestDigest(text) { return Failure(ManifestChecksumMismatch); }
    }
    if text.Unparsable? || !ManifestValid(text.manifest) {
      return Failure(ManifestInvalid);
    }
    if text.Reformatted? {
      return Failure(ManifestNotCanonical);
    }
    var m := text.manifest;
    if m.archiveId != id {
      return Failure(ManifestIdMismatch);
    }
    var fault := VerifyPayloads(FilesOf(a), m.payloads);
    return if fault.Some? then Failure(fault.value) else Success(m);
  }

  // ---------------------------------------------------------------- writing

  /** Sizes of the canonical encoding of a record and of a compressed file. */
  datatype Codec = Codec(encoded: Record -> nat, compressed: seq<Line> -> nat)

  function Encode(r: Record, c: Codec): Line { Line(c.encoded(r) + 1, true, Some(r)) }

  predicate Fits(r: Record, c: Codec) { c.encoded(r) + 1 <= MAX_ARCHIVE_LINE_BYTES }

  function EncodeAll(rs: seq<Record>, c: Codec): (lines: seq<Line>)
    ensures |lines| == |rs| && forall i :: 0 <= i < |rs| ==> lines[i] == Encode(rs[i], c)
  {
    seq(|rs|, i requires 0 <= i < |rs| => Encode(rs[i], c))
  }

  lemma {:induction false} RecordsOfEncoded(rs: seq<Record>, c: Codec)
    ensures Records(EncodeAll(rs, c)) == rs
  {
    var lines := EncodeAll(rs, c);
    assert Readable(lines);
  }

  function Types(rs: seq<Record>): set<EntityType> { set r | r in rs :: r.entityType }

  /** A written payload and its description. */
  ghost predicate Written(f: File, p: PayloadManifest, name: Filename, rs: seq<Record>, declared: set<EntityType>,
      c: Codec) {
    && f == File(c.compressed(EncodeAll(rs, c)), true, EncodeAll(rs, c))
    && p.filename == name && p.entityTypes == declared + Types(rs)
    && ChecksumRight(f, p) && Describes(p, f.lines)
  }

  /** `write_payload`. */
  method WritePayload(name: Filename, rs: seq<Record>, declared: set<EntityType>, c: Codec)
    returns (r: Result<(File, PayloadManifest), Fault>)
    ensures r.Success? <==> forall x :: x in rs ==> Fits(x, c)
    ensures r.Success? ==> Written(r.value.0, r.value.1, name, rs, declared, c)
    ensures r.Failure? ==> r.error == RecordTooLarge
  {
    var lines: seq<Line>, tally, types := [], EMPTY_TALLY, declared;
    for n := 0 to |rs|
      invariant lines == EncodeAll(rs[..n], c)
      invariant forall x :: x in rs[..n] ==> Fits(x, c)
      invariant tally == TallyOf(lines)
      invariant types == declared + Types(rs[..n])
    {
      var line := Encode(rs[n], c);
      if line.bytes > MAX_ARCHIVE_LINE_BYTES {
        assert rs[n] in rs;
        return Failure(RecordTooLarge);
      }
      assert (lines + [line])[..n] == lines && (lines + [line])[..n + 1] == lines + [line];
      TallyExtends(lines + [line], n);
      lines := lines + [line];
      tally := Count(tally, line);
      types := types + {rs[n].entityType};
      assert rs[..n + 1] == rs[..n] + [rs[n]];
    }
    assert rs[..|rs|] == rs;
    var f := File(c.compressed(lines), true, lines);
    var p := PayloadManifest(name, types, tally.records, tally.candidates, tally.dependencies,
                             f.compressedBytes, tally.bytes, PayloadDigest(f), tally.oldest, tally.newest);
    MatchesDescribes(p, lines);
    return Success((f, p));
  }

  function Declared(f: Filename): set<EntityType> {
    if CandidateType(f).Some? then {CandidateType(f).value} else {}
  }

  ghost predicate AllFit(contents: seq<seq<Record>>, c: Codec) {
    forall i, x :: 0 <= i < |contents| && x in contents[i] ==> Fits(x, c)
  }

  function TotalCandidates(contents: seq<seq<Record>>): nat {
    if contents == [] then 0
    else TotalCandidates(contents[..|contents| - 1]) + CandidateCount(contents[|contents| - 1])
  }

  type WrittenTest = (File, PayloadManifest, Filename, seq<Record>) -> bool

  ghost function WrittenWith(c: Codec): WrittenTest {
    (f, p, name, rs) => Written(f, p, name, rs, Declared(name), c)
  }

  ghost predicate WrittenTo(n: nat, files: seq<File>, payloads: seq<PayloadManifest>, contents: seq<seq<Record>>,
      test: WrittenTest) {
    && n <= |contents| == |EXPECTED_PAYLOAD_FILES|
    && |files| == |payloads| == n
    && forall i :: 0 <= i < n ==> test(files[i], payloads[i], EXPECTED_PAYLOAD_FILES[i], contents[i])
  }

  /** `a` is the archive written for these contents, one sequence of records per payload file. */
  ghost predicate Exported(a: Archive, id: string, contents: seq<seq<Record>>, c: Codec) {
    && |contents| == |EXPECTED_PAYLOAD_FILES|
    && FileSetRight(a)
    && ManifestRight(a, id)
    && WrittenTo(|contents|, FilesOf(a), a.manifest.value.manifest.payloads, contents, WrittenWith(c))
  }

  lemma {:induction false} WrittenStep(n: nat, files: seq<File>, payloads: seq<PayloadManifest>,
      contents: seq<seq<Record>>, f: File, p: PayloadManifest, test: WrittenTest)
    requires n < |contents| && WrittenTo(n, files, payloads, contents, test)
    requires test(f, p, EXPECTED_PAYLOAD_FILES[n], contents[n])
    ensures WrittenTo(n + 1, files + [f], payloads + [p], contents, test)
  {}

  lemma {:induction false} WrittenApplies(f: File, p: PayloadManifest, name: Filename, rs: seq<Record>, c: Codec)
    ensures WrittenWith(c)(f, p, name, rs) <==> Written(f, p, name, rs, Declared(name), c)
  {}

  method WritePayloads(contents: seq<seq<Record>>, c: Codec)
    returns (r: Result<(seq<File>, seq<PayloadManifest>), Fault>)
    requires |contents| == |EXPECTED_PAYLOAD_FILES|
    ensures r.Success? <==> AllFit(contents, c)
    ensures r.Success? ==> WrittenTo(|contents|, r.value.0, r.value.1, contents, WrittenWith(c))
    ensures r.Failure? ==> r.error == RecordTooLarge
  {
    var files: seq<File>, payloads: seq<PayloadManifest> := [], [];
    ghost var test := WrittenWith(c);
    for n := 0 to |contents|
      invariant WrittenTo(n, files, payloads, contents, test)
      invariant forall i, x :: 0 <= i < n && x in contents[i] ==> Fits(x, c)
    {
      var name := EXPECTED_PAYLOAD_FILES[n];
      var written := WritePayload(name, contents[n], Declared(name), c);
      if written.Failure? {
        return Failure(written.error);
      }
      WrittenApplies(written.value.0, written.value.1, name, contents[n], c);
      WrittenStep(n, files, payloads, contents, written.value.0, written.value.1, test);
      files := files + [written.value.0];
      payloads := payloads + [written.value.1];
    }
    return Success((files, payloads));
  }

  /** Name, validity and candidate count of each payload, as its writer states them. */
  ghost predicate PayloadFacts(payloads: seq<PayloadManifest>, contents: seq<seq<Record>>) {
    && |payloads| == |contents| == |EXPECTED_PAYLOAD_FILES|
    && forall i :: 0 <= i < |payloads| ==>
         && payloads[i].filename == EXPECTED_PAYLOAD_FILES[i]
         && PayloadValid(payloads[i])
         && payloads[i].candidateCount == CandidateCount(contents[i])
  }

  lemma {:induction false} WrittenFacts(files: seq<File>, payloads: seq<PayloadManifest>, contents: seq<seq<Record>>,
      c: Codec)
    requires |contents| == |EXPECTED_PAYLOAD_FILES| && WrittenTo(|contents|, files, payloads, contents, WrittenWith(c))
    ensures PayloadFacts(payloads, contents)
  {
    forall i | 0 <= i < |payloads|
      ensures payloads[i].filename == EXPECTED_PAYLOAD_FILES[i] && PayloadValid(payloads[i])
              && payloads[i].candidateCount == CandidateCount(contents[i]) {
      assert WrittenWith(c)(files[i], payloads[i], EXPECTED_PAYLOAD_FILES[i], contents[i]);
      DescribedIsValid(payloads[i], files[i].lines);
      RecordsOfEncoded(contents[i], c);
    }
  }

  lemma {:induction false} CandidateTotals(payloads: seq<PayloadManifest>, contents: seq<seq<Record>>)
    requires |payloads| == |contents|
    requires forall i :: 0 <= i < |payloads| ==> payloads[i].candidateCount == CandidateCount(contents[i])
    ensures SumCounts(payloads).0 == TotalCandidates(contents)
  {
    if payloads != [] { CandidateTotals(payloads[..|payloads| - 1], contents[..|contents| - 1]); }
  }

  function Directory(files: seq<File>): (m: map<Filename, File>)
    requires |files| == |EXPECTED_PAYLOAD_FILES|
  {
    map[CanonicalEvents := files[0], DetectionSignals := files[1], IngestionJobs := files[2],
        IncidentsFile := files[3], AuditEvents := files[4], DependentRecords := files[5]]
  }

  function Packed(files: seq<File>, m: Manifest): Archive
    requires |files| == |EXPECTED_PAYLOAD_FILES|
  {
    Archive(Directory(files), Some(Canonical(m)), Some(Holds(ManifestDigest(Canonical(m)))), {})
  }

  lemma {:induction false} PackedIsExported(files: seq<File>, m: Manifest, contents: seq<seq<Record>>, c: Codec)
    requires |files| == |contents| == |EXPECTED_PAYLOAD_FILES| && ManifestValid(m)
    requires WrittenTo(|contents|, files, m.payloads, contents, WrittenWith(c))
    ensures Exported(Packed(files, m), m.archiveId, contents, c)
  {
    DirectoryOrder(files);
    PackedFiles(files, m);
  }

  lemma {:induction false} DirectoryOrder(files: seq<File>)
    requires |files| == |EXPECTED_PAYLOAD_FILES|
    ensures forall i :: 0 <= i < |files| ==>
              EXPECTED_PAYLOAD_FILES[i] in Directory(files) && Directory(files)[EXPECTED_PAYLOAD_FILES[i]] == files[i]
  {
    forall i | 0 <= i < |files|
      ensures EXPECTED_PAYLOAD_FILES[i] in Directory(files) && Directory(files)[EXPECTED_PAYLOAD_FILES[i]] == files[i] {
      assert i == 0 || i == 1 || i == 2 || i == 3 || i == 4 || i == 5;
    }
  }

  lemma {:induction false} PackedFiles(files: seq<File>, m: Manifest)
    requires |files| == |EXPECTED_PAYLOAD_FILES| && FileSetRight(Packed(files, m))
    requires forall i :: 0 <= i < |files| ==>
               EXPECTED_PAYLOAD_FILES[i] in Directory(files) && Directory(files)[EXPECTED_PAYLOAD_FILES[i]] == files[i]
    ensures FilesOf(Packed(files, m)) == files
  {
    var a := Packed(files, m);
    assert a.files == Directory(files);
    forall i | 0 <= i < |files| ensures FilesOf(a)[i] == files[i] {
      assert FilesOf(a)[i] == a.files[EXPECTED_PAYLOAD_FILES[i]];
    }
  }

  /** The counts of the plan and the validators of the manifest; `planned` is how many candidates the
      plan counted beforehand. */
  method BuildManifest(id: string, payloads: seq<PayloadManifest>, contents: seq<seq<Record>>, planned: nat,
      policy: string, createdAt: int, completedAt: int)
    returns (r: Result<Manifest, Fault>)
    requires PayloadFacts(payloads, contents)
    ensures r.Success? <==> TotalCandidates(contents) == planned && createdAt <= completedAt
    ensures r.Success? ==> ManifestValid(r.value) && r.value.archiveId == id && r.value.payloads == payloads
    ensures r.Failure? ==>
      r.error == if TotalCandidates(contents) != planned then CandidateCountChanged else ValidationFailed
  {
    CandidateTotals(payloads, contents);
    SumsAddUp(payloads);
    var sums := SumCounts(payloads);
    if sums.0 != planned {
      return Failure(CandidateCountChanged);
    }
    if completedAt < createdAt {
      return Failure(ValidationFailed);
    }
    return Success(Manifest(id, policy, createdAt, completedAt, createdAt, payloads, sums.0, sums.1, sums.0 + sums.1));
  }

  /** `export` and `write_manifest`. */
  method Export(id: string, contents: seq<seq<Record>>, planned: nat, policy: string, createdAt: int,
      completedAt: int, c: Codec)
    returns (r: Result<Archive, Fault>)
    requires |contents| == |EXPECTED_PAYLOAD_FILES|
    ensures r.Success? <==> AllFit(contents, c) && TotalCandidates(contents) == planned && createdAt <= completedAt
    ensures r.Success? ==> Exported(r.value, id, contents, c)
    ensures r.Failure? ==> r.error == if !AllFit(contents, c) then RecordTooLarge
                                      else if TotalCandidates(contents) != planned then CandidateCountChanged
                                      else ValidationFailed
  {
    var written := WritePayloads(contents, c);
    if written.Failure? {
      return Failure(written.error);
    }
    var (files, payloads) := written.value;
    WrittenFacts(files, payloads, contents, c);
    var m := BuildManifest(id, payloads, contents, planned, policy, createdAt, completedAt);
    if m.Failure? {
      return Failure(m.error);
    }
    PackedIsExported(files, m.value, contents, c);
    return Success(Packed(files, m.value));
  }

  // ---------------------------------------------------------------- main result

  function ContentKeys(rs: seq<Record>): set<Key> { set i | 0 <= i < |rs| :: KeyOf(rs[i]) }

  /** The right role in the file, no key twice and, in a candidate file, strict order. */
  ghost predicate FileLawful(name: Filename, rs: seq<Record>) {
    && (forall x :: x in rs ==> RoleRight(name, x))
    && (forall i, j :: 0 <= i < j < |rs| ==> Follows(rs[i], rs[j], name))
  }

  ghost predicate Lawful(contents: seq<seq<Record>>)
    requires |contents| == |EXPECTED_PAYLOAD_FILES|
  {
    && (forall i :: 0 <= i < |contents| ==> FileLawful(EXPECTED_PAYLOAD_FILES[i], contents[i]))
    && (forall i, j :: 0 <= i < j < |contents| ==> ContentKeys(contents[i]) !! ContentKeys(contents[j]))
  }

  ghost predicate LinesHold(lines: seq<Line>, rs: seq<Record>) {
    |lines| == |rs| && forall i :: 0 <= i < |rs| ==> lines[i].record == Some(rs[i])
  }

  lemma {:induction false} RightIsLawful(lines: seq<Line>, p: PayloadManifest, rs: seq<Record>)
    requires LinesHold(lines, rs) && LinesRight(lines, |lines|, p)
    ensures FileLawful(p.filename, rs)
  {
    forall x | x in rs ensures RoleRight(p.filename, x) {
      var i :| 0 <= i < |rs| && rs[i] == x;
      assert LineRight(lines, i, p);
    }
    forall i, j | 0 <= i < j < |rs| ensures Follows(rs[i], rs[j], p.filename) {
      assert LineRight(lines, j, p) && Follows(At(lines, i), At(lines, j), p.filename);
    }
  }

  lemma {:induction false} LawfulIsRight(lines: seq<Line>, p: PayloadManifest, rs: seq<Record>)
    requires LinesHold(lines, rs) && FileLawful(p.filename, rs) && Types(rs) <= p.entityTypes
    requires forall i :: 0 <= i < |lines| ==> lines[i].newline && lines[i].bytes <= MAX_ARCHIVE_LINE_BYTES
    ensures LinesRight(lines, |lines|, p)
  {
    forall i | 0 <= i < |lines| ensures LineRight(lines, i, p) {
      assert rs[i] in rs && rs[i].entityType in Types(rs);
      forall j | 0 <= j < i ensures Follows(At(lines, j), At(lines, i), p.filename) { assert At(lines, j) == rs[j]; }
    }
  }

  lemma {:induction false} SameKeys(lines: seq<Line>, rs: seq<Record>)
    requires LinesHold(lines, rs)
    ensures KeysTo(lines, |lines|) == ContentKeys(rs)
  {
    assert forall i :: 0 <= i < |rs| ==> At(lines, i) == rs[i];
  }

  lemma {:induction false} PayloadLawful(f: File, p: PayloadManifest, name: Filename, rs: seq<Record>, c: Codec)
    requires Written(f, p, name, rs, Declared(name), c) && forall x :: x in rs ==> Fits(x, c)
    ensures Keys(f) == ContentKeys(rs)
    ensures PayloadSound(f, p) <==> FileLawful(name, rs)
  {
    SameKeys(f.lines, rs);
    if LinesRight(f.lines, |f.lines|, p) { RightIsLawful(f.lines, p, rs); }
    if FileLawful(name, rs) {
      forall i | 0 <= i < |rs| ensures f.lines[i].bytes <= MAX_ARCHIVE_LINE_BYTES { assert rs[i] in rs; }
      LawfulIsRight(f.lines, p, rs);
    }
  }

  /** What is written verifies exactly when the contents are lawful. */
  lemma {:induction false} WrittenVerifies(a: Archive, id: string, contents: seq<seq<Record>>, c: Codec)
    requires Exported(a, id, contents, c) && AllFit(contents, c)
    ensures Accepted(a, id) <==> Lawful(contents)
  {
    var files, payloads := FilesOf(a), a.manifest.value.manifest.payloads;
    forall i | 0 <= i < |contents|
      ensures Keys(files[i]) == ContentKeys(contents[i])
      ensures Sound()(files[i], payloads[i]) <==> FileLawful(EXPECTED_PAYLOAD_FILES[i], contents[i]) {
      assert WrittenWith(c)(files[i], payloads[i], EXPECTED_PAYLOAD_FILES[i], contents[i]);
      PayloadLawful(files[i], payloads[i], EXPECTED_PAYLOAD_FILES[i], contents[i], c);
    }
    LawfulPasses(files, payloads, contents, Sound(), Keys, ContentKeys, FileLawful);
  }

  lemma {:induction false} LawfulPasses(files: seq<File>, payloads: seq<PayloadManifest>, contents: seq<seq<Record>>,
      test: PayloadTest, keys: KeyTable, contentKeys: seq<Record> -> set<Key>,
      lawful: (Filename, seq<Record>) -> bool)
    requires |files| == |payloads| == |contents| == |EXPECTED_PAYLOAD_FILES|
    requires forall i :: 0 <= i < |contents| ==> keys(files[i]) == contentKeys(contents[i])
    requires forall i :: 0 <= i < |contents| ==>
               (test(files[i], payloads[i]) <==> lawful(EXPECTED_PAYLOAD_FILES[i], contents[i]))
    ensures PassTo(files, payloads, |files|, test, keys) <==>
      && (forall i :: 0 <= i < |contents| ==> lawful(EXPECTED_PAYLOAD_FILES[i], contents[i]))
      && (forall i, j :: 0 <= i < j < |contents| ==> contentKeys(contents[i]) !! contentKeys(contents[j]))
  {}

  /** Exporting and then verifying the workspace, as creating an archive does. */
  method ExportAndVerify(id: string, contents: seq<seq<Record>>, planned: nat, policy: string, createdAt: int,
      completedAt: int, c: Codec)
    returns (r: Result<Archive, Fault>)
    requires |contents| == |EXPECTED_PAYLOAD_FILES|
    ensures r.Success? <==> AllFit(contents, c) && Lawful(contents)
                            && TotalCandidates(contents) == planned && createdAt <= completedAt
    ensures r.Success? ==> Accepted(r.value, id) && Exported(r.value, id, contents, c)
  {
    var written := Export(id, contents, planned, policy, createdAt, completedAt, c);
    if written.Failure? {
      return written;
    }
    WrittenVerifies(written.value, id, contents, c);
    var checked := Verify(written.value, id);
    return if checked.Success? then written else Failure(checked.error);
  }
}
