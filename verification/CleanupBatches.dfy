/** What a batch does to the rows and the counters, and the books a whole cleanup leaves. */
module CleanupBatches {
  import opened Ordering
  import opened Archives
  import opened ArchiveIndex
  import opened ArchiveSnapshots
  import opened CleanupTables
  import opened CleanupProtocol

  /** The database as one worker sees it; `classified` is what has been classified so far by anybody. */
  datatype World = World(tables: Tables, classified: seq<seq<Ref>>, rows: set<(nat, string)>)

  /** What a worker meets at its k-th step: what others have done meanwhile, the time, what is stored, and
      which of the rows of a batch may go. */
  datatype Environment = Environment(
    others: (nat, World) -> World,
    clock: nat -> int,
    stored: nat -> Archive,
    eligible: (nat, set<string>) -> set<string>,
    deletable: (nat, set<string>) -> set<string>)

  ghost predicate Selective(e: Environment) {
    forall k, ids :: e.eligible(k, ids) <= ids && e.deletable(k, e.eligible(k, ids)) <= e.eligible(k, ids)
  }

  /** The counts of a batch and the identifiers to delete. */
  function Judged(rows: set<(nat, string)>, p: nat, batch: seq<Ref>, e: Environment, k: nat): (Counts, set<string>) {
    var existing := Present(rows, p, batch);
    var eligible := e.eligible(k, existing);
    var deleted := e.deletable(k, eligible);
    (Classify(batch, existing, eligible, deleted), deleted)
  }

  /** The row belongs to the batch, is there, is still a candidate, and nothing unarchived depends on it. */
  ghost predicate MayGo(x: World, p: nat, batch: seq<Ref>, e: Environment, k: nat, row: (nat, string)) {
    var there := Present(x.rows, p, batch);
    row.0 == p && row.1 in there && row.1 in e.eligible(k, there) && row.1 in e.deletable(k, e.eligible(k, there))
  }

  /** What a committed batch has done to the rows, and that each counter says just that. */
  ghost predicate TookBatch(x: World, n: World, p: nat, batch: seq<Ref>, e: Environment, k: nat) {
    && batch != [] && p < |x.classified| && n.classified == x.classified[p := x.classified[p] + batch]
    && (forall row :: row in n.rows <==> row in x.rows && !MayGo(x, p, batch, e, k, row))
    && Counted(x.tables, n.tables, |x.rows - n.rows|, |RowsOf(p, Ids(batch)) * n.rows|,
      |RowsOf(p, Ids(batch)) - x.rows|)
    && p < |x.tables.progress| == |n.tables.progress|
    && n.tables.progress == x.tables.progress[p := n.tables.progress[p]]
    && n.tables.progress[p].cursor == Some(batch[|batch| - 1])
  }

  /** The counters of the run have risen by these numbers. */
  predicate Counted(t: Tables, n: Tables, deleted: nat, protected: nat, missing: nat) {
    && DeletedIn(n) == DeletedIn(t) + deleted && ProtectedIn(n) == ProtectedIn(t) + protected
    && MissingIn(n) == MissingIn(t) + missing
  }

  function DeletedIn(t: Tables): nat { if t.run.None? then 0 else t.run.value.deleted }
  function ProtectedIn(t: Tables): nat { if t.run.None? then 0 else t.run.value.protected }
  function MissingIn(t: Tables): nat { if t.run.None? then 0 else t.run.value.missing }

  /** The step of the protocol by which `w` commits this batch, with these rows found, still candidates, and
      deleted. */
  ghost predicate CommitsAs(x: World, n: World, p: nat, batch: seq<Ref>, w: string, version: nat, now: int,
      lease: nat) {
    exists existing, eligible, deleted ::
      AppliesWith(x, n, p, batch, w, version, now, lease, existing, eligible, deleted)
  }

  ghost predicate AppliesWith(x: World, n: World, p: nat, batch: seq<Ref>, w: string, version: nat, now: int,
      lease: nat, existing: set<string>, eligible: set<string>, deleted: set<string>) {
    && batch != [] && p < |x.tables.progress| && p < |x.classified|
    && deleted <= eligible <= existing == Present(x.rows, p, batch)
    && ApplyBatch(x.tables, p, w, version, now, lease, Classify(batch, existing, eligible, deleted),
                  batch[|batch| - 1]) == Success(n.tables)
    && n.rows == CleanupProtocol.Remaining(x.rows, p, deleted)
    && n.classified == x.classified[p := x.classified[p] + batch]
  }

  ghost predicate Mirrors(s: State, x: World) {
    s.tables == x.tables && s.rows == x.rows && s.classified == x.classified
  }

  /** A batch the service commits is a step of the protocol, deleting no more than is found and still
      candidate. */
  lemma {:induction false} CommitIsProtocolStep(s: State, x: World, n: World, p: nat, batch: seq<Ref>, w: string,
      version: nat, now: int, lease: nat, seen: Archive)
    requires Mirrors(s, x) && CommitsAs(x, n, p, batch, w, version, now, lease)
    requires IsActive(s, w) && s.workers[w].tx == Some(BatchTx(p, version, batch, seen))
    ensures exists existing, eligible, deleted ::
      deleted <= eligible <= existing && LeadsTo(s, w, now, lease, existing, eligible, deleted, n)
  {
    var existing, eligible, deleted :|
      AppliesWith(x, n, p, batch, w, version, now, lease, existing, eligible, deleted);
    CommitLeads(s, x, n, p, batch, w, version, now, lease, seen, existing, eligible, deleted);
  }

  ghost predicate LeadsTo(s: State, w: string, now: int, lease: nat, existing: set<string>, eligible: set<string>,
      deleted: set<string>, n: World) {
    Mirrors(Next(s, Action.CommitBatch(w, now, lease, existing, eligible, deleted)), n)
  }

  lemma {:induction false} CommitLeads(s: State, x: World, n: World, p: nat, batch: seq<Ref>, w: string, version: nat,
      now: int, lease: nat, seen: Archive, existing: set<string>, eligible: set<string>, deleted: set<string>)
    requires Mirrors(s, x) && AppliesWith(x, n, p, batch, w, version, now, lease, existing, eligible, deleted)
    requires IsActive(s, w) && s.workers[w].tx == Some(BatchTx(p, version, batch, seen))
    ensures LeadsTo(s, w, now, lease, existing, eligible, deleted, n)
  {
    assert BatchReady(s, w, existing, eligible, deleted);
    CommittedFields(s, w, BatchTx(p, version, batch, seen), n.tables, deleted);
    BatchSucceeds(s, w, BatchTx(p, version, batch, seen), now, lease, existing, eligible, deleted, n.tables);
  }

  ghost predicate Applied(x: World, n: World, p: nat, batch: seq<Ref>, w: string, version: nat, now: int, lease: nat,
      c: Counts, deleted: set<string>) {
    && batch != [] && p < |x.tables.progress| && p < |x.classified|
    && ApplyBatch(x.tables, p, w, version, now, lease, c, batch[|batch| - 1]) == Success(n.tables)
    && n.rows == x.rows - RowsOf(p, deleted)
    && n.classified == x.classified[p := x.classified[p] + batch]
  }

  /** The judgement of a batch, applied, is what the rows and the counters show, and a step of the protocol. */
  lemma {:induction false} JudgedIsTaken(x: World, n: World, p: nat, batch: seq<Ref>, w: string, version: nat,
      now: int, lease: nat, e: Environment, k: nat)
    requires Selective(e)
    requires var (c, deleted) := Judged(x.rows, p, batch, e, k);
      Applied(x, n, p, batch, w, version, now, lease, c, deleted)
    ensures Commits(x, n, p, batch, w, version, now, lease, e, k)
  {
    RowsAsJudged(x, n, p, batch, e, k);
    JudgedIsCounted(x, n, p, batch, w, version, now, lease, e, k);
    JudgedCommits(x, n, p, batch, w, version, now, lease, e, k);
  }

  lemma {:induction false} AppliedCounters(x: World, n: World, p: nat, batch: seq<Ref>, w: string, version: nat,
      now: int, lease: nat, c: Counts, deleted: set<string>)
    requires Applied(x, n, p, batch, w, version, now, lease, c, deleted)
    ensures Counted(x.tables, n.tables, c.deleted, c.protected, c.missing)
    ensures p < |x.tables.progress| == |n.tables.progress|
    ensures n.tables.progress == x.tables.progress[p := n.tables.progress[p]]
    ensures n.tables.progress[p].cursor == Some(batch[|batch| - 1])
  {}

  lemma {:induction false} JudgedIsCounted(x: World, n: World, p: nat, batch: seq<Ref>, w: string, version: nat,
      now: int, lease: nat, e: Environment, k: nat)
    requires Selective(e)
    requires var (c, deleted) := Judged(x.rows, p, batch, e, k);
      Applied(x, n, p, batch, w, version, now, lease, c, deleted)
    ensures Counted(x.tables, n.tables, |x.rows - n.rows|, |RowsOf(p, Ids(batch)) * n.rows|,
      |RowsOf(p, Ids(batch)) - x.rows|)
    ensures p < |x.tables.progress| == |n.tables.progress|
    ensures n.tables.progress == x.tables.progress[p := n.tables.progress[p]]
    ensures n.tables.progress[p].cursor == Some(batch[|batch| - 1])
  {
    var (c, deleted) := Judged(x.rows, p, batch, e, k);
    AppliedCounters(x, n, p, batch, w, version, now, lease, c, deleted);
    CountsAreOutcomes(x.rows, p, batch, e.eligible(k, Present(x.rows, p, batch)), deleted);
  }

  lemma {:induction false} JudgedCommits(x: World, n: World, p: nat, batch: seq<Ref>, w: string, version: nat,
      now: int, lease: nat, e: Environment, k: nat)
    requires Selective(e)
    requires var (c, deleted) := Judged(x.rows, p, batch, e, k);
      Applied(x, n, p, batch, w, version, now, lease, c, deleted)
    ensures CommitsAs(x, n, p, batch, w, version, now, lease)
  {
    var existing := Present(x.rows, p, batch);
    var eligible := e.eligible(k, existing);
    var deleted := e.deletable(k, eligible);
    assert n.rows == CleanupProtocol.Remaining(x.rows, p, deleted);
    assert AppliesWith(x, n, p, batch, w, version, now, lease, existing, eligible, deleted);
  }

  lemma {:induction false} RowsAsJudged(x: World, n: World, p: nat, batch: seq<Ref>, e: Environment, k: nat)
    requires Selective(e) && n.rows == x.rows - RowsOf(p, Judged(x.rows, p, batch, e, k).1)
    ensures forall row :: row in n.rows <==> row in x.rows && !MayGo(x, p, batch, e, k, row)
  {
    var there := Present(x.rows, p, batch);
    assert e.deletable(k, e.eligible(k, there)) <= e.eligible(k, there) <= there;
  }

  ghost predicate IsNext(batch: seq<Ref>, k: nat, refs: seq<Ref>) {
    batch != [] && k + |batch| <= |refs| && batch == refs[k..k + |batch|]
  }

  lemma {:induction false} JudgedCounts(v: Verified, p: nat, k: nat, batch: seq<Ref>, rows: set<(nat, string)>,
      e: Environment, step: nat)
    requires Orderly(v) && p < PHASES && IsNext(batch, k, v.plan[p]) && Selective(e)
    ensures var c := Judged(rows, p, batch, e, step).0;
      c.scanned == |batch| && c.deleted + c.protected + c.missing == c.scanned
  {
    var existing := Present(rows, p, batch);
    var eligible := e.eligible(step, existing);
    SliceDistinct(v.plan[p], k, k + |batch|);
    PresentIsWithin(rows, p, batch);
    ClassifyAddsUp(batch, existing, eligible, e.deletable(step, eligible));
  }

  lemma {:induction false} SliceDistinct(refs: seq<Ref>, k: nat, m: nat)
    requires IdsDistinct(refs) && k <= m <= |refs|
    ensures IdsDistinct(refs[k..m])
  {}

  /** Rows, what is classified, and the counters are as before. */
  ghost predicate SameRows(x: World, n: World) {
    n.rows == x.rows && n.classified == x.classified && Counted(x.tables, n.tables, 0, 0, 0)
  }

  /** The batch is taken, in a step of the protocol; without one, rows, classification and counters stay. */
  ghost predicate Commits(x: World, n: World, p: nat, batch: seq<Ref>, w: string, version: nat, now: int, lease: nat,
      e: Environment, k: nat) {
    if batch == [] then SameRows(x, n)
    else TookBatch(x, n, p, batch, e, k) && CommitsAs(x, n, p, batch, w, version, now, lease)
  }

  type CommitTest = (World, World, nat, seq<Ref>, nat, nat) -> bool

  /** The same as a function of what changes from commit to commit: the states, the phase, the batch, the
      version read and the step. */
  ghost function CommitsFor(w: string, lease: nat, e: Environment): CommitTest {
    (x: World, n: World, p: nat, batch: seq<Ref>, version: nat, k: nat) => Commits(x, n, p, batch, w, version,
      e.clock(k), lease, e, k)
  }

  ghost predicate SomeCommit(test: CommitTest, x: World, n: World, p: nat, version: nat, k: nat) {
    exists batch :: test(x, n, p, batch, version, k)
  }

  // ---------------------------------------------------------------- the books

  /** The rows of everything classified. */
  function Handled(classified: seq<seq<Ref>>): set<(nat, string)> {
    set p, id | 0 <= p < |classified| && id in Ids(classified[p]) :: (p, id)
  }

  /** Some step allowed this identifier to go. */
  ghost predicate Released(e: Environment, id: string) {
    exists k, ids :: id in ids && id in e.eligible(k, ids) && id in e.deletable(k, e.eligible(k, ids))
  }

  /** From `x` to `n` rows have only gone, each of them classified meanwhile and released; the counters say how
      many of what was classified meanwhile have gone, are still there, and were never there. */
  ghost predicate Balanced(x: World, n: World, e: Environment) {
    && Books(Handled(x.classified), Handled(n.classified), x.rows, n.rows, DeletedIn(n.tables) - DeletedIn(x.tables),
             ProtectedIn(n.tables) - ProtectedIn(x.tables), MissingIn(n.tables) - MissingIn(x.tables))
    && forall row :: row in x.rows && row !in n.rows ==> Released(e, row.1)
  }

  predicate Books(before: set<(nat, string)>, after: set<(nat, string)>, rows: set<(nat, string)>,
      left: set<(nat, string)>, deleted: int, protected: int, missing: int) {
    var done := after - before;
    && before <= after && left <= rows && rows - left <= done
    && deleted == |rows - left| && protected == |done * left| && missing == |done - rows|
  }

  lemma {:induction false} BalancedStart(x: World, e: Environment)
    ensures Balanced(x, x, e)
  {
    assert Handled(x.classified) - Handled(x.classified) == {} && x.rows - x.rows == {};
  }

  lemma {:induction false} BalancedSame(x: World, m: World, n: World, e: Environment)
    requires Balanced(x, m, e) && SameRows(m, n)
    ensures Balanced(x, n, e)
  {}

  /** Taking a batch that is new adds to the books what it does itself. */
  lemma {:induction false} BooksAdd(start: set<(nat, string)>, handled: set<(nat, string)>, batch: set<(nat, string)>,
      rows: set<(nat, string)>, before: set<(nat, string)>, after: set<(nat, string)>, deleted: int, protected: int,
      missing: int)
    requires Books(start, handled, rows, before, deleted, protected, missing)
    requires after <= before && before - after <= batch && batch !! handled
    ensures Books(start, handled + batch, rows, after, deleted + |before - after|, protected + |batch * after|,
                  missing + |batch - before|)
  {
    var done := handled - start;
    assert (handled + batch) - start == done + batch;
    assert rows - after == (rows - before) + (before - after);
    assert (done + batch) * after == done * before + batch * after;
    assert (done + batch) - rows == (done - rows) + (batch - before);
  }

  lemma {:induction false} IdsAppend(a: seq<Ref>, b: seq<Ref>)
    ensures Ids(a + b) == Ids(a) + Ids(b)
  {
    assert forall r :: r in a + b <==> r in a || r in b;
  }

  lemma {:induction false} HandledGrows(classified: seq<seq<Ref>>, p: nat, batch: seq<Ref>)
    requires p < |classified|
    ensures Handled(classified[p := classified[p] + batch]) == Handled(classified) + RowsOf(p, Ids(batch))
  {
    IdsAppend(classified[p], batch);
  }

  lemma {:induction false} NewIdsApart(a: seq<Ref>, b: seq<Ref>)
    requires IdsDistinct(a + b)
    ensures Ids(a) !! Ids(b)
  {
    forall r, s | r in a && s in b ensures r.entityId != s.entityId {
      var i :| 0 <= i < |a| && a[i] == r;
      var j :| 0 <= j < |b| && b[j] == s;
      assert (a + b)[i] == r && (a + b)[|a| + j] == s;
    }
  }

  lemma {:induction false} BatchIsNew(x: World, n: World, v: Verified, p: nat, batch: seq<Ref>)
    requires TablesRight(n.tables, n.classified, v) && Orderly(v) && n.tables.run.Some? && p < |x.classified|
    requires n.classified == x.classified[p := x.classified[p] + batch]
    ensures RowsOf(p, Ids(batch)) !! Handled(x.classified)
  {
    assert PhaseRight(n.tables.progress[p], n.classified[p], v.plan[p]);
    SliceDistinct(v.plan[p], 0, n.tables.progress[p].scanned);
    assert v.plan[p][0..n.tables.progress[p].scanned] == n.classified[p];
    NewIdsApart(x.classified[p], batch);
  }

  lemma {:induction false} TakenAreReleased(x: World, n: World, p: nat, batch: seq<Ref>, e: Environment, k: nat)
    requires TookBatch(x, n, p, batch, e, k)
    ensures n.rows <= x.rows && x.rows - n.rows <= RowsOf(p, Ids(batch))
    ensures forall row :: row in x.rows && row !in n.rows ==> Released(e, row.1)
  {
    PresentIsWithin(x.rows, p, batch);
    forall row | row in x.rows && row !in n.rows ensures Released(e, row.1) && row in RowsOf(p, Ids(batch)) {
      assert MayGo(x, p, batch, e, k, row);
    }
  }

  /** Taking a batch keeps the books balanced. */
  lemma {:induction false} BalancedBatch(x: World, m: World, n: World, v: Verified, p: nat, batch: seq<Ref>,
      e: Environment, k: nat)
    requires Balanced(x, m, e) && TookBatch(m, n, p, batch, e, k)
    requires TablesRight(n.tables, n.classified, v) && Orderly(v) && n.tables.run.Some?
    ensures Balanced(x, n, e)
  {
    TakenAreReleased(m, n, p, batch, e, k);
    HandledGrows(m.classified, p, batch);
    BatchIsNew(m, n, v, p, batch);
    BooksAdd(Handled(x.classified), Handled(m.classified), RowsOf(p, Ids(batch)), x.rows, m.rows, n.rows,
             DeletedIn(m.tables) - DeletedIn(x.tables), ProtectedIn(m.tables) - ProtectedIn(x.tables),
             MissingIn(m.tables) - MissingIn(x.tables));
  }

  ghost predicate Alone(e: Environment) { forall k, x :: e.others(k, x) == x }

  /** Left alone, a worker that started from `x` has its books balanced. */
  ghost function BooksFrom(x: World, e: Environment): World -> bool { n => Alone(e) ==> Balanced(x, n, e) }

  lemma {:induction false} BooksOpen(x: World, e: Environment)
    ensures BooksFrom(x, e)(x)
  {
    BalancedStart(x, e);
  }

  /** Nothing is claimed of books that others change too. */
  lemma {:induction false} BooksIgnored(x: World, n: World, e: Environment)
    requires !Alone(e)
    ensures BooksFrom(x, e)(n)
  {}

  lemma {:induction false} BooksSame(x: World, m: World, n: World, e: Environment)
    requires BooksFrom(x, e)(m) && SameRows(m, n)
    ensures BooksFrom(x, e)(n)
  {
    if Alone(e) { BalancedSame(x, m, n, e); }
  }

  lemma {:induction false} BooksKept(x: World, m: World, n: World, v: Verified, w: string, lease: nat, p: nat,
      version: nat, e: Environment, k: nat)
    requires BooksFrom(x, e)(m) && SomeCommit(CommitsFor(w, lease, e), m, n, p, version, k)
    requires TablesRight(n.tables, n.classified, v) && Orderly(v) && n.tables.run.Some?
    ensures BooksFrom(x, e)(n)
  {
    var batch :| CommitsFor(w, lease, e)(m, n, p, batch, version, k);
    assert Commits(m, n, p, batch, w, version, e.clock(k), lease, e, k);
    if batch == [] {
      BooksSame(x, m, n, e);
    } else if Alone(e) {
      BalancedBatch(x, m, n, v, p, batch, e, k);
    }
  }

  /** The books of a cleanup that was the first and has been completed: as many records were deleted as have
      gone, as many protected as candidates are still there, as many missing as candidates never were. */
  lemma {:induction false} FirstCleanup(x: World, n: World, v: Verified, e: Environment)
    requires TablesRight(x.tables, x.classified, v) && x.tables.run.None? && Balanced(x, n, e) && n.classified == v.plan
    ensures DeletedIn(n.tables) == |x.rows - n.rows| && ProtectedIn(n.tables) == |Handled(v.plan) * n.rows|
    ensures MissingIn(n.tables) == |Handled(v.plan) - x.rows| && x.rows - n.rows <= Handled(v.plan)
    ensures forall row :: row in x.rows && !Released(e, row.1) ==> row in n.rows
  {
    NothingDone(x, v);
    FirstBooks(Handled(v.plan), x.rows, n.rows, DeletedIn(n.tables), ProtectedIn(n.tables), MissingIn(n.tables));
  }

  lemma {:induction false} NothingDone(x: World, v: Verified)
    requires TablesRight(x.tables, x.classified, v) && x.tables.run.None?
    ensures Handled(x.classified) == {}
    ensures DeletedIn(x.tables) == 0 && ProtectedIn(x.tables) == 0 && MissingIn(x.tables) == 0
  {
    NothingHandled(x.classified);
  }

  lemma {:induction false} NothingHandled(classified: seq<seq<Ref>>)
    requires forall p :: 0 <= p < |classified| ==> classified[p] == []
    ensures Handled(classified) == {}
  {}

  lemma {:induction false} FirstBooks(after: set<(nat, string)>, rows: set<(nat, string)>, left: set<(nat, string)>,
      deleted: int, protected: int, missing: int)
    requires Books({}, after, rows, left, deleted, protected, missing)
    ensures deleted == |rows - left| && protected == |after * left| && missing == |after - rows| && rows - left <= after
  {
    assert after - {} == after;
  }
}
