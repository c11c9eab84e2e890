/** The membership index of an archive, and paging through its candidates. */
module ArchiveIndex {
  import opened Ordering
  import opened Archives
  import opened ArchiveIo

  // ---------------------------------------------------------------- reading records back

  /** What reading the archive's records yields next: a record, or the error that ends the reading. */
  datatype Item = Got(record: Record) | Broken(fault: Fault)

  function ItemOf(line: Line): Item {
    if line.bytes > MAX_ARCHIVE_LINE_BYTES then Broken(RecordTooLarge)
    else if line.record.None? then Broken(RecordReadFailed)
    else Got(line.record.value)
  }

  function ItemsOf(f: File): seq<Item> {
    seq(|f.lines|, i requires 0 <= i < |f.lines| => ItemOf(f.lines[i]))
    + if f.gzipOk then [] else [Broken(RecordReadFailed)]
  }

  /** `iter_records`. */
  function IterRecords(files: seq<File>): seq<Item> {
    if files == [] then [] else IterRecords(files[..|files| - 1]) + ItemsOf(files[|files| - 1])
  }

  /** The records of each file. */
  function Contents(files: seq<File>): (c: seq<seq<Record>>)
    ensures |c| == |files| && forall i :: 0 <= i < |files| ==> c[i] == Records(files[i].lines)
  {
    seq(|files|, i requires 0 <= i < |files| => Records(files[i].lines))
  }

  function Concat(contents: seq<seq<Record>>): seq<Record> {
    if contents == [] then [] else Concat(contents[..|contents| - 1]) + contents[|contents| - 1]
  }

  ghost predicate Yields(items: seq<Item>, rs: seq<Record>) {
    |items| == |rs| && forall i :: 0 <= i < |items| ==> items[i] == Got(rs[i])
  }

  ghost predicate FileReadable(f: File) {
    f.gzipOk && forall i :: 0 <= i < |f.lines| ==> f.lines[i].bytes <= MAX_ARCHIVE_LINE_BYTES && f.lines[i].record.Some?
  }

  lemma {:induction false} ReadsBack(files: seq<File>)
    requires forall i :: 0 <= i < |files| ==> FileReadable(files[i])
    ensures Yields(IterRecords(files), Concat(Contents(files)))
  {
    if files != [] {
      var n := |files| - 1;
      ReadsBack(files[..n]);
      ItemsYield(files[n]);
      assert Contents(files)[..n] == Contents(files[..n]);
      YieldsMore(IterRecords(files[..n]), Concat(Contents(files[..n])), ItemsOf(files[n]), Records(files[n].lines));
    }
  }

  lemma {:induction false} ItemsYield(f: File)
    requires FileReadable(f)
    ensures Yields(ItemsOf(f), Records(f.lines))
  {}

  lemma {:induction false} YieldsMore(a: seq<Item>, r: seq<Record>, b: seq<Item>, s: seq<Record>)
    requires Yields(a, r) && Yields(b, s)
    ensures Yields(a + b, r + s)
  {}

  predicate Reads(line: Line, r: Record) { line.bytes <= 65_536 && line.record == Some(r) }

  /** What reading yields: the record of every line that has one and is not too long, a fault for every other, and
      one more fault for a file that does not decompress to its end. */
  lemma {:induction false} ReadsExactly(f: File)
    ensures var items, n := ItemsOf(f), |f.lines|;
      && |items| == n + (if f.gzipOk then 0 else 1) && (!f.gzipOk ==> items[n] == Broken(RecordReadFailed))
      && (forall i, r :: 0 <= i < n ==> (items[i] == Got(r) <==> Reads(f.lines[i], r)))
      && (forall i :: 0 <= i < n && items[i].Broken? ==>
            items[i].fault == if f.lines[i].bytes > 65_536 then RecordTooLarge else RecordReadFailed)
  {
    forall i, r | 0 <= i < |f.lines| ensures ItemsOf(f)[i] == Got(r) <==> Reads(f.lines[i], r) {
      assert ItemsOf(f)[i] == ItemOf(f.lines[i]);
    }
  }

  // ---------------------------------------------------------------- building

  datatype Row = Row(entityType: EntityType, entityId: string, role: Role, recordedAt: int)

  function RowOf(r: Record): Row { Row(r.entityType, r.entityId, r.role, r.recordedAt) }

  function Rows(rs: seq<Record>): (rows: seq<Row>)
    ensures |rows| == |rs| && forall i :: 0 <= i < |rs| ==> rows[i] == RowOf(rs[i])
  {
    seq(|rs|, i requires 0 <= i < |rs| => RowOf(rs[i]))
  }

  ghost predicate KeysDistinct(items: seq<Item>, n: nat)
    requires n <= |items|
  {
    && (forall i :: 0 <= i < n ==> items[i].Got?)
    && (forall i, j :: 0 <= i < j < n ==> KeyOf(items[i].record) != KeyOf(items[j].record))
  }

  function GotTo(items: seq<Item>, n: nat): (rs: seq<Record>)
    requires n <= |items| && forall i :: 0 <= i < n ==> items[i].Got?
    ensures |rs| == n && forall i :: 0 <= i < n ==> rs[i] == items[i].record
  {
    seq(n, i requires 0 <= i < n => items[i].record)
  }

  function KeysTo(items: seq<Item>, n: nat): set<Key>
    requires n <= |items| && KeysDistinct(items, n)
  {
    set i | 0 <= i < n :: KeyOf(items[i].record)
  }

  lemma {:induction false} NextKey(items: seq<Item>, n: nat)
    requires n < |items| && KeysDistinct(items, n) && items[n].Got?
    ensures KeysDistinct(items, n + 1) <==> KeyOf(items[n].record) !in KeysTo(items, n)
    ensures KeysDistinct(items, n + 1) ==> KeysTo(items, n + 1) == KeysTo(items, n) + {KeyOf(items[n].record)}
    ensures KeysDistinct(items, |items|) ==> KeysDistinct(items, n + 1)
  {}

  lemma {:induction false} NextItem(items: seq<Item>, n: nat)
    requires n < |items| && forall i :: 0 <= i <= n ==> items[i].Got?
    ensures var r, before := items[n].record, GotTo(items, n);
      && Rows(GotTo(items, n + 1)) == Rows(before) + [RowOf(r)]
      && CandidateCount(GotTo(items, n + 1)) == CandidateCount(before) + if r.role == RetentionCandidate then 1 else 0
  {
    assert GotTo(items, n + 1)[..n] == GotTo(items, n);
  }

  /** Every record can be read, none comes twice, and their numbers are as expected. */
  ghost predicate Indexable(items: seq<Item>, candidates: nat, dependencies: nat) {
    && KeysDistinct(items, |items|)
    && CandidateCount(GotTo(items, |items|)) == candidates
    && |items| - CandidateCount(GotTo(items, |items|)) == dependencies
  }

  /** The first item that cannot be taken in: it was not read, or its key was there already. */
  ghost predicate FailsAt(e: Fault, items: seq<Item>, n: nat)
    requires n < |items|
  {
    && KeysDistinct(items, n) && !KeysDistinct(items, n + 1)
    && e == if items[n].Broken? then items[n].fault else IndexDuplicate
  }

  /** `build`: a table keyed by entity type and identifier, with running counters. */
  method Build(items: seq<Item>, m: Manifest) returns (r: Result<seq<Row>, Fault>)
    ensures r.Success? <==> Indexable(items, m.candidateCount, m.dependencyCount)
    ensures r.Success? ==> r.value == Rows(GotTo(items, |items|))
    ensures r.Failure? ==>
      (exists n :: 0 <= n < |items| && FailsAt(r.error, items, n))
        || (KeysDistinct(items, |items|) && r.error == IndexCountMismatch)
  {
    var rows: seq<Row>, keys: set<Key>, candidates, dependencies := [], {}, 0, 0;
    for n := 0 to |items|
      invariant KeysDistinct(items, n) && keys == KeysTo(items, n)
      invariant rows == Rows(GotTo(items, n))
      invariant candidates == CandidateCount(GotTo(items, n)) && dependencies == n - candidates
    {
      if items[n].Broken? {
        assert FailsAt(items[n].fault, items, n);
        return Failure(items[n].fault);
      }
      var record := items[n].record;
      NextKey(items, n);
      if KeyOf(record) in keys {
        assert FailsAt(IndexDuplicate, items, n);
        return Failure(IndexDuplicate);
      }
      NextItem(items, n);
      rows := rows + [RowOf(record)];
      keys := keys + {KeyOf(record)};
      if record.role == RetentionCandidate {
        candidates := candidates + 1;
      } else {
        dependencies := dependencies + 1;
      }
    }
    if candidates != m.candidateCount || dependencies != m.dependencyCount {
      return Failure(IndexCountMismatch);
    }
    return Success(rows);
  }

  // ---------------------------------------------------------------- queries

  /** The candidates of one type, in the order they were inserted. */
  function CandidatesIn(rows: seq<Row>, e: EntityType): (refs: seq<Ref>) {
    if rows == [] then []
    else
      var n := |rows| - 1;
      CandidatesIn(rows[..n], e)
      + if rows[n].role == RetentionCandidate
        && rows[n].entityType == e then [Ref(rows[n].recordedAt, rows[n].entityId)] else []
  }

  function After(refs: seq<Ref>, cursor: Option<Ref>): (r: seq<Ref>)
    ensures forall x :: x in r <==> x in refs && (cursor.None? || RefLess(cursor.value, x))
  {
    if refs == [] then []
    else
      var rest := After(refs[1..], cursor);
      assert forall x :: x in refs <==> x == refs[0] || x in refs[1..];
      if cursor.None? || RefLess(cursor.value, refs[0]) then [refs[0]] + rest else rest
  }

  const MAX_BATCH: nat := 5_000

  function Page(refs: seq<Ref>, n: nat): seq<Ref> { if |refs| <= n then refs else refs[..n] }

  /** The first `n` of `refs` after the cursor, which must be one of them. */
  function PageFrom(refs: seq<Ref>, cursor: Option<Ref>, n: nat): Result<seq<Ref>, Fault> {
    if cursor.Some? && cursor.value !in refs then Failure(CursorInvalid)
    else Success(Page(SortBy(After(refs, cursor), RefLess), n))
  }

  function PageAfter(refs: seq<Ref>, lastAt: Option<int>, lastId: Option<string>, n: int): Result<seq<Ref>, Fault> {
    if !(1 <= n <= MAX_BATCH) then Failure(BatchSizeInvalid)
    else if lastAt.None? != lastId.None? then Failure(CursorInvalid)
    else PageFrom(refs, if lastAt.None? then None else Some(Ref(lastAt.value, lastId.value)), n)
  }

  /** `candidate_batch`. */
  function CandidateBatch(rows: seq<Row>, e: EntityType, lastAt: Option<int>, lastId: Option<string>, n: int)
    : Result<seq<Ref>, Fault>
  {
    PageAfter(CandidatesIn(rows, e), lastAt, lastId, n)
  }

  // ---------------------------------------------------------------- paging

  /** Where a reader stands after the first `k` candidates. */
  function Cursor(refs: seq<Ref>, k: nat): Option<Ref>
    requires k <= |refs|
  {
    if k == 0 then None else Some(refs[k - 1])
  }

  function CursorAt(c: Option<Ref>): Option<int> { if c.None? then None else Some(c.value.recordedAt) }
  function CursorId(c: Option<Ref>): Option<string> { if c.None? then None else Some(c.value.entityId) }

  function Upto(refs: seq<Ref>, k: nat, n: nat): (m: nat)
    requires k <= |refs|
    ensures k <= m <= |refs|
  {
    if k + n <= |refs| then k + n else |refs|
  }

  lemma {:induction false} AfterCursor(refs: seq<Ref>, k: nat)
    requires Ascending(refs, RefLess) && k <= |refs|
    ensures SortBy(After(refs, Cursor(refs, k)), RefLess) == refs[k..]
  {
    RefLessIsStrictOrder();
    var rest := After(refs, Cursor(refs, k));
    forall i | 0 <= i < |refs| ensures k > 0 ==> (RefLess(refs[k - 1], refs[i]) <==> i >= k) {
      if i < k - 1 { assert RefLess(refs[i], refs[k - 1]); }
    }
    forall x ensures x in Elements(rest) <==> x in Elements(refs[k..]) {
      if x in refs[k..] {
        var i :| k <= i < |refs| && refs[i] == x;
      }
      if x in rest {
        var i :| 0 <= i < |refs| && refs[i] == x;
        assert refs[k..][i - k] == x;
      }
    }
    AfterDistinct(refs, Cursor(refs, k));
    SortByAscending(rest, RefLess);
    AscendingUnique(SortBy(rest, RefLess), refs[k..], RefLess);
  }

  lemma {:induction false} AfterDistinct(refs: seq<Ref>, cursor: Option<Ref>)
    requires Ascending(refs, RefLess)
    ensures Distinct(After(refs, cursor))
  {
    if refs != [] {
      RefLessIsStrictOrder();
      AfterDistinct(refs[1..], cursor);
      var rest := After(refs[1..], cursor);
      forall j | 0 <= j < |rest| ensures rest[j] != refs[0] {
        assert rest[j] in refs[1..];
      }
    }
  }

  /** A page is the next slice of the candidate sequence, and no cursor a reader can hold is refused. */
  lemma {:induction false} PageIsSlice(refs: seq<Ref>, k: nat, n: nat)
    requires Ascending(refs, RefLess) && k <= |refs| && 1 <= n <= MAX_BATCH
    ensures PageAfter(refs, CursorAt(Cursor(refs, k)), CursorId(Cursor(refs, k)), n)
      == Success(refs[k..Upto(refs, k, n)])
  {
    CursorJoins(refs, Cursor(refs, k), n);
    SliceFrom(refs, k, n);
  }

  lemma {:induction false} CursorJoins(refs: seq<Ref>, c: Option<Ref>, n: nat)
    requires 1 <= n <= MAX_BATCH
    ensures PageAfter(refs, CursorAt(c), CursorId(c), n) == PageFrom(refs, c, n)
  {}

  lemma {:induction false} SliceFrom(refs: seq<Ref>, k: nat, n: nat)
    requires Ascending(refs, RefLess) && k <= |refs|
    ensures PageFrom(refs, Cursor(refs, k), n) == Success(refs[k..Upto(refs, k, n)])
  {
    AfterCursor(refs, k);
    SliceOfRest(refs, k, n);
  }

  lemma {:induction false} SliceOfRest(refs: seq<Ref>, k: nat, n: nat)
    requires k <= |refs|
    ensures Page(refs[k..], n) == refs[k..Upto(refs, k, n)]
  {}

  type Pager = (Option<Ref>, nat) -> Result<seq<Ref>, Fault>

  /** Asking the index for the next candidates of one type. */
  function PagerOf(rows: seq<Row>, e: EntityType): Pager {
    (cursor: Option<Ref>, n: nat) => CandidateBatch(rows, e, CursorAt(cursor), CursorId(cursor), n)
  }

  /** All the pages read one after the other, each from where the last one ended. */
  function ReadPages(pager: Pager, cursor: Option<Ref>, sizes: seq<nat>): Result<seq<Ref>, Fault>
    decreases |sizes|
  {
    if sizes == [] then Success([])
    else
      var page := pager(cursor, sizes[0]);
      if page.Failure? then page
      else
        var next := if page.value == [] then cursor else Some(page.value[|page.value| - 1]);
        var rest := ReadPages(pager, next, sizes[1..]);
        if rest.Failure? then rest else Success(page.value + rest.value)
  }

  function TotalSize(sizes: seq<nat>): nat { if sizes == [] then 0 else sizes[0] + TotalSize(sizes[1..]) }

  /** Paging with any batch sizes reproduces the candidate sequence, up to as far as the sizes reach. */
  lemma {:induction false} PagesReproduce(rows: seq<Row>, e: EntityType, sizes: seq<nat>)
    requires Ascending(CandidatesIn(rows, e), RefLess)
    requires forall i :: 0 <= i < |sizes| ==> 1 <= sizes[i] <= MAX_BATCH
    ensures var refs := CandidatesIn(rows, e);
      ReadPages(PagerOf(rows, e), None, sizes) == Success(refs[..Upto(refs, 0, TotalSize(sizes))])
  {
    var refs := CandidatesIn(rows, e);
    forall k: nat, n: nat | k <= |refs| && 1 <= n <= MAX_BATCH
      ensures PagerOf(rows, e)(Cursor(refs, k), n) == Success(refs[k..Upto(refs, k, n)]) {
      PageIsSlice(refs, k, n);
    }
    SlicesConcatenate(refs, 0, sizes, PagerOf(rows, e));
  }

  lemma {:induction false} SlicesConcatenate(refs: seq<Ref>, k: nat, sizes: seq<nat>, pager: Pager)
    requires forall j: nat, n: nat :: j <= |refs| && 1 <= n <= MAX_BATCH ==>
               pager(Cursor(refs, j), n) == Success(refs[j..Upto(refs, j, n)])
    requires k <= |refs| && forall i :: 0 <= i < |sizes| ==> 1 <= sizes[i] <= MAX_BATCH
    ensures ReadPages(pager, Cursor(refs, k), sizes) == Success(refs[k..Upto(refs, k, TotalSize(sizes))])
    decreases |sizes|
  {
    if sizes != [] {
      var m := Upto(refs, k, sizes[0]);
      assert 1 <= sizes[0] <= MAX_BATCH && pager(Cursor(refs, k), sizes[0]) == Success(refs[k..m]);
      NextCursor(refs, k, m);
      SlicesConcatenate(refs, m, sizes[1..], pager);
      var last := Upto(refs, m, TotalSize(sizes[1..]));
      assert last == Upto(refs, k, TotalSize(sizes));
      assert refs[k..m] + refs[m..last] == refs[k..last];
      var rest := ReadPages(pager, Cursor(refs, m), sizes[1..]);
      assert ReadPages(pager, Cursor(refs, k), sizes) == Success(refs[k..m] + rest.value);
    } else {
      assert refs[k..Upto(refs, k, 0)] == [];
    }
  }

  lemma {:induction false} NextCursor(refs: seq<Ref>, k: nat, m: nat)
    requires k <= m <= |refs|
    ensures (if refs[k..m] == [] then Cursor(refs, k) else Some(refs[k..m][|refs[k..m]| - 1])) == Cursor(refs, m)
  {}

  // ---------------------------------------------------------------- an accepted archive

  lemma {:induction false} SoundIsReadable(f: File, p: PayloadManifest)
    requires PayloadSound(f, p)
    ensures FileReadable(f) && |Records(f.lines)| == |f.lines|
  {
    forall i | 0 <= i < |f.lines| ensures f.lines[i].bytes <= MAX_ARCHIVE_LINE_BYTES && f.lines[i].record.Some? {
      assert LineRight(f.lines, i, p);
    }
  }

  /** The records of one sound file: roles, order, and keys. */
  lemma {:induction false} SoundRecords(f: File, p: PayloadManifest)
    requires PayloadSound(f, p)
    ensures var rs := Records(f.lines);
      && (forall i :: 0 <= i < |rs| ==> RoleRight(p.filename, rs[i]))
      && (forall i, j :: 0 <= i < j < |rs| ==> Follows(rs[i], rs[j], p.filename))
      && (forall i :: 0 <= i < |rs| ==> KeyOf(rs[i]) in Keys(f))
      && CandidateCount(rs) == p.candidateCount && |rs| - CandidateCount(rs) == p.dependencyCount
  {
    SoundIsReadable(f, p);
    var lines, rs := f.lines, Records(f.lines);
    forall i | 0 <= i < |rs| ensures RoleRight(p.filename, rs[i]) && KeyOf(rs[i]) in Keys(f) {
      assert LineRight(lines, i, p) && At(lines, i) == rs[i];
    }
    forall i, j | 0 <= i < j < |rs| ensures Follows(rs[i], rs[j], p.filename) {
      assert LineRight(lines, j, p) && Follows(At(lines, i), At(lines, j), p.filename);
    }
  }

  ghost predicate Apart(files: seq<File>, n: nat)
    requires n <= |files|
  {
    forall i, j :: 0 <= i < j < n ==> Keys(files[i]) !! Keys(files[j])
  }

  ghost predicate FilesSound(files: seq<File>, payloads: seq<PayloadManifest>) {
    && |files| == |payloads|
    && forall i :: 0 <= i < |files| ==> PayloadSound(files[i], payloads[i])
  }

  lemma {:induction false} AcceptedFiles(a: Archive, id: string)
    requires Accepted(a, id)
    ensures FilesSound(FilesOf(a), a.manifest.value.manifest.payloads) && Apart(FilesOf(a), |FilesOf(a)|)
  {
    var files, payloads := FilesOf(a), a.manifest.value.manifest.payloads;
    forall i | 0 <= i < |files| ensures PayloadSound(files[i], payloads[i]) { assert Sound()(files[i], payloads[i]); }
  }

  ghost predicate NoRepeats(rs: seq<Record>) {
    forall i, j :: 0 <= i < j < |rs| ==> KeyOf(rs[i]) != KeyOf(rs[j])
  }

  /** Every record's key is in `keys`. */
  ghost predicate KeysWithin(rs: seq<Record>, keys: set<Key>) {
    forall i :: 0 <= i < |rs| ==> KeyOf(rs[i]) in keys
  }

  lemma {:induction false} AppendNoRepeats(a: seq<Record>, b: seq<Record>, k: set<Key>, l: set<Key>)
    requires NoRepeats(a) && NoRepeats(b) && KeysWithin(a, k) && KeysWithin(b, l) && k !! l
    ensures NoRepeats(a + b) && KeysWithin(a + b, k + l)
  {}

  function KeysOfAll(keys: seq<set<Key>>): (u: set<Key>)
    ensures forall k :: k in u ==> exists i :: 0 <= i < |keys| && k in keys[i]
  {
    if keys == [] then {} else KeysOfAll(keys[..|keys| - 1]) + keys[|keys| - 1]
  }

  lemma {:induction false} ConcatNoRepeats(contents: seq<seq<Record>>, keys: seq<set<Key>>)
    requires |contents| == |keys|
    requires forall i :: 0 <= i < |contents| ==> NoRepeats(contents[i]) && KeysWithin(contents[i], keys[i])
    requires forall i, j :: 0 <= i < j < |keys| ==> keys[i] !! keys[j]
    ensures NoRepeats(Concat(contents)) && KeysWithin(Concat(contents), KeysOfAll(keys))
  {
    if contents != [] {
      var n := |contents| - 1;
      ConcatNoRepeats(contents[..n], keys[..n]);
      AppendNoRepeats(Concat(contents[..n]), contents[n], KeysOfAll(keys[..n]), keys[n]);
    }
  }

  lemma {:induction false} CandidateCountAppend(a: seq<Record>, b: seq<Record>)
    ensures CandidateCount(a + b) == CandidateCount(a) + CandidateCount(b)
  {
    if b == [] {
      assert a + b == a;
    } else {
      CandidateCountAppend(a, b[..|b| - 1]);
      assert (a + b)[..|a + b| - 1] == a + b[..|b| - 1];
    }
  }

  ghost predicate CountsRight(contents: seq<seq<Record>>, payloads: seq<PayloadManifest>) {
    && |contents| == |payloads|
    && forall i :: 0 <= i < |contents| ==>
         && CandidateCount(contents[i]) == payloads[i].candidateCount
         && |contents[i]| - CandidateCount(contents[i]) == payloads[i].dependencyCount
  }

  lemma {:induction false} CountsAddUp(contents: seq<seq<Record>>, payloads: seq<PayloadManifest>)
    requires CountsRight(contents, payloads)
    ensures CandidateCount(Concat(contents)) == SumCounts(payloads).0
    ensures |Concat(contents)| - CandidateCount(Concat(contents)) == SumCounts(payloads).1
  {
    if contents != [] {
      var n := |contents| - 1;
      CountsAddUp(contents[..n], payloads[..n]);
      CandidateCountAppend(Concat(contents[..n]), contents[n]);
    }
  }

  /** The files of an accepted archive, as sequences of records. */
  lemma {:induction false} AcceptedContents(a: Archive, id: string)
    requires Accepted(a, id)
    ensures var files, payloads := FilesOf(a), a.manifest.value.manifest.payloads;
      && (forall i :: 0 <= i < |files| ==> FileReadable(files[i]))
      && CountsRight(Contents(files), payloads)
      && NoRepeats(Concat(Contents(files)))
  {
    var files, payloads := FilesOf(a), a.manifest.value.manifest.payloads;
    AcceptedFiles(a, id);
    var keys := seq(|files|, i requires 0 <= i < |files| => Keys(files[i]));
    forall i | 0 <= i < |files|
      ensures FileReadable(files[i]) && NoRepeats(Contents(files)[i]) && KeysWithin(Contents(files)[i], keys[i])
      ensures CandidateCount(Contents(files)[i]) == payloads[i].candidateCount
      ensures |Contents(files)[i]| - CandidateCount(Contents(files)[i]) == payloads[i].dependencyCount {
      SoundIsReadable(files[i], payloads[i]);
      SoundRecords(files[i], payloads[i]);
      FollowsNoRepeats(Records(files[i].lines), payloads[i].filename);
    }
    ConcatNoRepeats(Contents(files), keys);
  }

  lemma {:induction false} FollowsNoRepeats(rs: seq<Record>, f: Filename)
    requires forall i, j :: 0 <= i < j < |rs| ==> Follows(rs[i], rs[j], f)
    ensures NoRepeats(rs)
  {
    forall i, j | 0 <= i < j < |rs| ensures KeyOf(rs[i]) != KeyOf(rs[j]) { assert Follows(rs[i], rs[j], f); }
  }

  lemma {:induction false} YieldsIndex(items: seq<Item>, rs: seq<Record>)
    requires Yields(items, rs) && NoRepeats(rs)
    ensures Indexable(items, CandidateCount(rs), |rs| - CandidateCount(rs)) && GotTo(items, |items|) == rs
  {
    assert GotTo(items, |items|) == rs;
  }

  /** Every archive that verifies builds an index: no duplicate, no miscount, no unreadable record. */
  lemma {:induction false} AcceptedBuilds(a: Archive, id: string)
    requires Accepted(a, id)
    ensures var items, m := IterRecords(FilesOf(a)), a.manifest.value.manifest;
      && Indexable(items, m.candidateCount, m.dependencyCount)
      && GotTo(items, |items|) == Concat(Contents(FilesOf(a)))
  {
    var files, m := FilesOf(a), a.manifest.value.manifest;
    AcceptedContents(a, id);
    ReadsBack(files);
    CountsAddUp(Contents(files), m.payloads);
    YieldsIndex(IterRecords(files), Concat(Contents(files)));
  }

  // ---------------------------------------------------------------- candidate sequences

  lemma {:induction false} CandidatesAppend(a: seq<Row>, b: seq<Row>, e: EntityType)
    ensures CandidatesIn(a + b, e) == CandidatesIn(a, e) + CandidatesIn(b, e)
  {
    if b == [] {
      assert a + b == a;
    } else {
      CandidatesAppend(a, b[..|b| - 1], e);
      assert (a + b)[..|a + b| - 1] == a + b[..|b| - 1];
    }
  }

  function RefsOf(rs: seq<Record>): (refs: seq<Ref>)
    ensures |refs| == |rs| && forall i :: 0 <= i < |rs| ==> refs[i] == RefOf(rs[i])
  {
    seq(|rs|, i requires 0 <= i < |rs| => RefOf(rs[i]))
  }

  ghost predicate RolesRight(rs: seq<Record>, f: Filename) {
    forall i :: 0 <= i < |rs| ==> RoleRight(f, rs[i])
  }

  /** A file contributes all its records to its own type and none to another. */
  lemma {:induction false} FileCandidates(rs: seq<Record>, f: Filename, e: EntityType)
    requires RolesRight(rs, f)
    ensures CandidatesIn(Rows(rs), e) == if CandidateType(f) == Some(e) then RefsOf(rs) else []
  {
    if rs != [] {
      var n := |rs| - 1;
      FileCandidates(rs[..n], f, e);
      assert Rows(rs)[..n] == Rows(rs[..n]);
      assert RoleRight(f, rs[n]);
    }
  }

  function FileFor(e: EntityType): Option<nat> {
    match e
    case CanonicalEvent => Some(0)
    case DetectionSignal => Some(1)
    case IngestionJob => Some(2)
    case IncidentRecord => Some(3)
    case AuditEvent => Some(4)
    case _ => None
  }

  lemma {:induction false} FileForType(i: nat, e: EntityType)
    requires i < |EXPECTED_PAYLOAD_FILES| && FileFor(e).Some?
    ensures CandidateType(EXPECTED_PAYLOAD_FILES[i]) == Some(e) <==> i == FileFor(e).value
  {}

  /** The candidates of the first `n` files are those of the type's own file, if it is among them. */
  lemma {:induction false} CandidatesOfFiles(contents: seq<seq<Record>>, n: nat, e: EntityType)
    requires n <= |contents| == |EXPECTED_PAYLOAD_FILES|
    requires forall i :: 0 <= i < |contents| ==> RolesRight(contents[i], EXPECTED_PAYLOAD_FILES[i])
    requires FileFor(e).Some?
    ensures CandidatesIn(Rows(Concat(contents[..n])), e) ==
            if FileFor(e).value < n then RefsOf(contents[FileFor(e).value]) else []
  {
    if n > 0 {
      CandidatesOfFiles(contents, n - 1, e);
      ConcatStep(contents, n);
      CandidatesWithFile(Concat(contents[..n - 1]), contents[n - 1], EXPECTED_PAYLOAD_FILES[n - 1], e);
      FileForType(n - 1, e);
    }
  }

  lemma {:induction false} ConcatStep(contents: seq<seq<Record>>, n: nat)
    requires 0 < n <= |contents|
    ensures Concat(contents[..n]) == Concat(contents[..n - 1]) + contents[n - 1]
  {
    assert contents[..n][..n - 1] == contents[..n - 1];
  }

  lemma {:induction false} CandidatesWithFile(before: seq<Record>, last: seq<Record>, f: Filename, e: EntityType)
    requires RolesRight(last, f)
    ensures CandidatesIn(Rows(before + last), e) ==
            CandidatesIn(Rows(before), e) + if CandidateType(f) == Some(e) then RefsOf(last) else []
  {
    assert Rows(before + last) == Rows(before) + Rows(last);
    CandidatesAppend(Rows(before), Rows(last), e);
    FileCandidates(last, f, e);
  }

  lemma {:induction false} FileInOrder(rs: seq<Record>, f: Filename)
    requires f != DependentRecords && forall i, j :: 0 <= i < j < |rs| ==> Follows(rs[i], rs[j], f)
    ensures Ascending(RefsOf(rs), RefLess)
  {
    forall i, j | 0 <= i < j < |rs| ensures RefLess(RefsOf(rs)[i], RefsOf(rs)[j]) { assert Follows(rs[i], rs[j], f); }
  }

  lemma {:induction false} AcceptedRoles(a: Archive, id: string)
    requires Accepted(a, id)
    ensures forall i :: 0 <= i < |FilesOf(a)| ==>
              && RolesRight(Contents(FilesOf(a))[i], EXPECTED_PAYLOAD_FILES[i])
              && (EXPECTED_PAYLOAD_FILES[i] != DependentRecords ==> Ascending(RefsOf(Contents(FilesOf(a))[i]), RefLess))
  {
    var files, payloads := FilesOf(a), a.manifest.value.manifest.payloads;
    AcceptedFiles(a, id);
    forall i | 0 <= i < |files|
      ensures RolesRight(Contents(files)[i], EXPECTED_PAYLOAD_FILES[i])
      ensures EXPECTED_PAYLOAD_FILES[i] != DependentRecords ==> Ascending(RefsOf(Contents(files)[i]), RefLess) {
      assert payloads[i].filename == EXPECTED_PAYLOAD_FILES[i];
      SoundRecords(files[i], payloads[i]);
      if EXPECTED_PAYLOAD_FILES[i] != DependentRecords { FileInOrder(Contents(files)[i], EXPECTED_PAYLOAD_FILES[i]); }
    }
  }

  /** The records of one candidate type, in the order of its file. */
  function CandidateFile(a: Archive, e: EntityType): seq<Ref>
    requires FileSetRight(a) && FileFor(e).Some?
  {
    RefsOf(Contents(FilesOf(a))[FileFor(e).value])
  }

  lemma {:induction false} OwnFile(e: EntityType)
    requires FileFor(e).Some?
    ensures FileFor(e).value < |EXPECTED_PAYLOAD_FILES| && EXPECTED_PAYLOAD_FILES[FileFor(e).value] != DependentRecords
  {}

  lemma {:induction false} CandidatesOfAll(contents: seq<seq<Record>>, e: EntityType)
    requires |contents| == |EXPECTED_PAYLOAD_FILES| && FileFor(e).Some?
    requires forall i :: 0 <= i < |contents| ==> RolesRight(contents[i], EXPECTED_PAYLOAD_FILES[i])
    ensures CandidatesIn(Rows(Concat(contents)), e) == RefsOf(contents[FileFor(e).value])
  {
    assert contents[..|contents|] == contents;
    CandidatesOfFiles(contents, |contents|, e);
  }

  /** The index of an accepted archive lists each candidate type exactly as its file does, in strict order. */
  lemma {:induction false} IndexHoldsCandidates(a: Archive, id: string, e: EntityType)
    requires Accepted(a, id) && FileFor(e).Some?
    ensures CandidatesIn(Rows(Concat(Contents(FilesOf(a)))), e) == CandidateFile(a, e)
    ensures Ascending(CandidateFile(a, e), RefLess)
  {
    AcceptedRoles(a, id);
    OwnFile(e);
    CandidatesOfAll(Contents(FilesOf(a)), e);
  }

  /** Reading an accepted archive through its index, in pages of any sizes that suffice, gives each
      candidate file record by record. */
  lemma {:induction false} PagingAnAcceptedArchive(a: Archive, id: string, e: EntityType, sizes: seq<nat>)
    requires Accepted(a, id) && FileFor(e).Some?
    requires forall i :: 0 <= i < |sizes| ==> 1 <= sizes[i] <= MAX_BATCH
    requires TotalSize(sizes) >= |CandidateFile(a, e)|
    ensures var items := IterRecords(FilesOf(a));
      && KeysDistinct(items, |items|)
      && ReadPages(PagerOf(Rows(GotTo(items, |items|)), e), None, sizes) == Success(CandidateFile(a, e))
  {
    var refs := CandidateFile(a, e);
    AcceptedBuilds(a, id);
    IndexHoldsCandidates(a, id, e);
    PagesReproduce(Rows(Concat(Contents(FilesOf(a)))), e, sizes);
    assert refs[..|refs|] == refs;
  }
}
