/** Archive creation, verification and cleanup by any number of workers, as interleaved steps. */
module CleanupProtocol {
  import opened Ordering
  import opened Archives
  import opened ArchiveIo
  import opened ArchiveIndex
  import opened ArchiveSnapshots
  import opened CleanupTables

  // ---------------------------------------------------------------- state

  datatype ArchiveStatus = Creating | ArchiveCompleted | ArchiveVerified | ArchiveFailed

  datatype ArchiveRun = ArchiveRun(status: ArchiveStatus, checksum: Option<ManifestDigest>)

  /** How far the creating process has got: `Renamed` is within `finalize`, once the directory has its final
      name; `Finalized` is after it has returned. */
  datatype Creator = NotStarted | Started | Exported | Marked | Renamed | Finalized | Ended

  datatype Creation = Creation(run: Option<ArchiveRun>, creator: Creator, partial: Option<Archive>,
    finalized: Option<Archive>)

  /** A transaction between its reads and its commit: the run's version as read, and what it is about
      to write. `seen` is the archive found stable when it began. */
  datatype Tx =
    | BatchTx(phase: nat, version: nat, batch: seq<Ref>, seen: Archive)
    | CloseTx(phase: nat, version: nat)
    | FinishTx(version: nat)

  /** A worker between the reads of the verification gate, past it, past the claim, or on its way to the
      failure handler. From `Gated` on, its plan is what its index holds; `source` is what that was built
      from. */
  datatype Worker =
    | Reading(checksum: Option<ManifestDigest>)   // the archive's run was found marked verified
    | Checking(verified: Verified)                // and the stored archive verified
    | Indexed(verified: Verified, source: Archive, listed: seq<seq<Ref>>)   // and the index was built
    | Gated(verified: Verified)                   // and the archive verified again
    | Active(verified: Verified, phase: nat, tx: Option<Tx>)
    | Failing(verified: Verified)

  datatype State = State(
    id: string,
    creation: Creation,
    tables: Tables,
    rows: set<(nat, string)>,             // (phase, identifier) of the records still in the database
    workers: map<string, Worker>,
    // what has happened so far
    origin: Option<Verified>,             // what the cleanup run was created for
    classified: seq<seq<Ref>>)

  ghost predicate Initial(s: State) {
    && s.creation == Creation(None, NotStarted, None, None)
    && s.tables == NO_TABLES
    && s.workers == map[]
    && s.origin.None? && s.classified == [[], [], [], [], []]
  }

  // ---------------------------------------------------------------- actions

  datatype Action =
    // the creating process
    | CreateRun
    | Export(written: Archive)
    | MarkCompleted
    | Rename                              // the partial directory becomes the archive
    | Finalize                            // and is made durable: `finalize` returns
    | MarkVerified
    | CreateFails                         // the failure handler: abort the workspace, mark the run failed
    | CreatorCrashes
    // anybody
    | VerifyLater
    | Drift(content: Option<Archive>)     // stored files change behind the program's back
    | RowsChange(rows: set<(nat, string)>)
    // cleanup workers
    | GateRead(w: string)
    | GateVerify(w: string)
    | GateIndex(w: string)
    | GateAgain(w: string)
    | Claim(w: string, now: int, lease: nat)
    | SkipPhase(w: string)
    | ReadBatch(w: string, now: int, size: nat)
    | CommitBatch(w: string, now: int, lease: nat, existing: set<string>, eligible: set<string>, deleted: set<string>)
    | CommitClose(w: string, now: int, lease: nat)
    | ReadFinish(w: string, now: int)
    | CommitFinish(w: string, now: int)
    | Fail(w: string)
    | WorkerCrashes(w: string)

  ghost predicate Verifies(a: Option<Archive>, id: string) {
    a.Some? && Accepted(a.value, id)
  }

  ghost function VerifiedFrom(a: Option<Archive>, id: string): Verified
    requires Verifies(a, id)
  {
    VerifiedOf(a.value, id)
  }

  /** The creating process and later verification. A disabled step changes nothing. */
  ghost function Create(c: Creation, id: string, a: Action): Creation {
    match a
    case CreateRun =>
      if c.creator == NotStarted then c.(creator := Started, run := Some(ArchiveRun(Creating, None))) else c
    case Export(written) =>
      if c.creator == Started then c.(creator := Exported, partial := Some(written)) else c
    case MarkCompleted =>
      if c.creator == Exported && Verifies(c.partial, id) && c.run.Some? && c.run.value.status == Creating then
        c.(creator := Marked, run :=
          Some(ArchiveRun(ArchiveCompleted, Some(VerifiedFrom(c.partial, id).snapshot.manifest))))
      else c
    case Rename =>
      if c.creator == Marked && c.finalized.None?
        then c.(creator := Renamed, partial := None, finalized := c.partial) else c
    case Finalize => if c.creator == Renamed then c.(creator := Finalized) else c
    case MarkVerified =>
      if c.creator == Finalized && c.run.Some? && c.run.value.status in {ArchiveCompleted, ArchiveVerified} then
        c.(creator := Ended, run := Some(c.run.value.(status := ArchiveVerified)))
      else c
    case CreateFails =>
      if c.creator in {Started, Exported, Marked, Renamed} && c.run.Some? then
        c.(creator := Ended, partial := None, run := Some(c.run.value.(status := ArchiveFailed)))
      else c
    case CreatorCrashes => c.(creator := Ended)
    case VerifyLater =>
      if Verifies(c.finalized, id) && c.run.Some? && c.run.value.status in {ArchiveCompleted, ArchiveVerified}
         && c.run.value.checksum in {None, Some(VerifiedFrom(c.finalized, id).snapshot.manifest)} then
        c.(run := Some(ArchiveRun(ArchiveVerified, Some(VerifiedFrom(c.finalized, id).snapshot.manifest))))
      else c
    case Drift(content) => if c.finalized.Some? then c.(finalized := content) else c
    case _ => c
  }

  predicate StatusIs(c: Creation, status: ArchiveStatus) { c.run.Some? && c.run.value.status == status }

  /** The stored archive verifies, with this result. */
  ghost predicate VerifiesTo(c: Creation, id: string, v: Verified) {
    Verifies(c.finalized, id) && VerifiedFrom(c.finalized, id) == v
  }

  ghost predicate Stable(c: Creation, s: Snapshot) {
    c.finalized.Some? && StabilityFault(c.finalized.value, s).None?
  }

  predicate IsActive(s: State, w: string) { w in s.workers && s.workers[w].Active? }

  /** The worker still holds the lease on a run of its own archive. */
  predicate MayRead(s: State, w: string, now: int) {
    && IsActive(s, w) && s.workers[w].tx.None?
    && s.tables.run.Some? && LeaseHeld(s.tables.run.value, w, now)
    && s.tables.run.value.snapshot == s.workers[w].verified.snapshot
  }

  function WithTx(s: State, w: string, tx: Option<Tx>): State
    requires IsActive(s, w)
  {
    s.(workers := s.workers[w := s.workers[w].(tx := tx)])
  }

  /** An exception: the transaction is rolled back and only the failure handler is left. */
  function Raise(s: State, w: string): State
    requires IsActive(s, w)
  {
    s.(workers := s.workers[w := Failing(s.workers[w].verified)])
  }

  function Without(s: State, w: string): State {
    s.(workers := map x | x in s.workers && x != w :: s.workers[x])
  }

  /** The gate begins with the status and the checksum of the archive's run. */
  function ReadGate(s: State, w: string): State {
    if StatusIs(s.creation, ArchiveVerified) && w !in s.workers && OwnerFree(s.tables, w) then
      s.(workers := s.workers[w := Reading(s.creation.run.value.checksum)])
    else s
  }

  predicate IsReading(s: State, w: string) { w in s.workers && s.workers[w].Reading? }
  predicate IsChecking(s: State, w: string) { w in s.workers && s.workers[w].Checking? }
  predicate IsIndexed(s: State, w: string) { w in s.workers && s.workers[w].Indexed? }

  /** Then the stored archive is verified, and its manifest compared with that checksum. */
  ghost function VerifyGate(s: State, w: string): State {
    if !IsReading(s, w) then s
    else if Verifies(s.creation.finalized, s.id)
            && s.workers[w].checksum == Some(VerifiedFrom(s.creation.finalized, s.id).snapshot.manifest) then
      s.(workers := s.workers[w := Checking(VerifiedFrom(s.creation.finalized, s.id))])
    else Without(s, w)
  }

  /** The index is built from what is stored by then, and only its counts are compared. */
  ghost function IndexGate(s: State, w: string): State {
    if !IsChecking(s, w) then s
    else if s.creation.finalized.Some? && CanIndex(s.creation.finalized.value, s.workers[w].verified) then
      s.(workers := s.workers[w :=
        Indexed(s.workers[w].verified, s.creation.finalized.value, IndexedPlan(s.creation.finalized.value))])
    else Without(s, w)
  }

  /** The archive is verified again and must have the same snapshot. */
  ghost function AgainGate(s: State, w: string): State {
    if !IsIndexed(s, w) then s
    else if VerifiesAgain(s.creation, s.id, s.workers[w].verified.snapshot) then
      s.(workers := s.workers[w := Gated(s.workers[w].verified.(plan := s.workers[w].listed))])
    else Without(s, w)
  }

  ghost predicate VerifiesAgain(c: Creation, id: string, snapshot: Snapshot) {
    Verifies(c.finalized, id) && VerifiedFrom(c.finalized, id).snapshot == snapshot
  }

  /** The run and its progress rows are created on the first claim; a completed run is left alone. */
  ghost function ClaimRun(s: State, w: string, now: int, lease: nat): State {
    if w in s.workers && s.workers[w].Gated? then
      var v := s.workers[w].verified;
      var claimed := PrepareAndClaim(s.tables, v.snapshot, w, now, lease);
      if claimed.Failure? || (s.tables.run.Some? && s.tables.run.value.status == Completed) then Without(s, w)
      else s.(tables := claimed.value, workers := s.workers[w := Active(v, 0, None)],
              origin := if s.origin.None? then Some(v) else s.origin)
    else s
  }

  predicate AtOpenPhase(s: State, w: string) {
    && IsActive(s, w) && s.workers[w].tx.None?
    && s.workers[w].phase < |s.tables.progress| && s.workers[w].phase < |s.workers[w].verified.plan|
    && s.tables.progress[s.workers[w].phase].status != Done
  }

  /** The lease, the snapshot and the stored files are checked before each page is read. */
  ghost function BeginBatch(s: State, w: string, now: int, size: nat): State {
    if !AtOpenPhase(s, w) then s
    else if !MayRead(s, w, now) || !Stable(s.creation, s.workers[w].verified.snapshot) then Raise(s, w)
    else
      var p, version := s.workers[w].phase, s.tables.run.value.version;
      var g := s.tables.progress[p];
      var page := PageAfter(s.workers[w].verified.plan[p], CursorAt(g.cursor), CursorId(g.cursor), size);
      if page.Failure? then Raise(s, w)
      else if page.value == [] then WithTx(s, w, Some(CloseTx(p, version)))
      else WithTx(s, w, Some(BatchTx(p, version, page.value, s.creation.finalized.value)))
  }

  function Remaining(rows: set<(nat, string)>, p: nat, deleted: set<string>): set<(nat, string)> {
    set r | r in rows && !(r.0 == p && r.1 in deleted)
  }

  predicate HasBatch(s: State, w: string) { IsActive(s, w) && s.workers[w].tx.Some? && s.workers[w].tx.value.BatchTx? }

  predicate BatchReady(s: State, w: string, existing: set<string>, eligible: set<string>, deleted: set<string>) {
    && HasBatch(s, w) && s.workers[w].tx.value.phase < |s.tables.progress|
      && s.workers[w].tx.value.phase < |s.classified|
    && s.workers[w].tx.value.batch != []
    && existing == Present(s.rows, s.workers[w].tx.value.phase, s.workers[w].tx.value.batch)
    && deleted <= eligible <= existing
  }

  function Committed(s: State, w: string, tx: Tx, t: Tables, deleted: set<string>): State
    requires IsActive(s, w) && tx.BatchTx? && tx.phase < |s.classified|
  {
    WithTx(s, w, None).(tables := t, rows := Remaining(s.rows, tx.phase, deleted),
                        classified := s.classified[tx.phase := s.classified[tx.phase] + tx.batch])
  }

  /** The update goes through and the deletions with it, or neither does. */
  function Commit(s: State, w: string, tx: Tx, now: int, lease: nat, c: Counts, deleted: set<string>): State
    requires IsActive(s, w) && tx.BatchTx? && tx.phase < |s.classified| && tx.phase < |s.tables.progress|
      && tx.batch != []
  {
    var applied := ApplyBatch(s.tables, tx.phase, w, tx.version, now, lease, c, tx.batch[|tx.batch| - 1]);
    if applied.Failure? then Raise(s, w) else Committed(s, w, tx, applied.value, deleted)
  }

  /** The batch is classified, its eligible rows deleted and its progress recorded. */
  ghost function EndBatch(s: State, w: string, now: int, lease: nat, existing: set<string>, eligible: set<string>,
      deleted: set<string>): State {
    if BatchReady(s, w, existing, eligible, deleted) then
      var tx := s.workers[w].tx.value;
      Commit(s, w, tx, now, lease, Classify(tx.batch, existing, eligible, deleted), deleted)
    else s
  }

  lemma {:induction false} CommittedFields(s: State, w: string, tx: Tx, t: Tables, deleted: set<string>)
    requires IsActive(s, w) && tx.BatchTx? && tx.phase < |s.classified|
    ensures var n := Committed(s, w, tx, t, deleted);
      && n.tables == t && n.rows == Remaining(s.rows, tx.phase, deleted)
      && n.classified == s.classified[tx.phase := s.classified[tx.phase] + tx.batch]
  {}

  lemma {:induction false} BatchSucceeds(s: State, w: string, tx: Tx, now: int, lease: nat, existing: set<string>,
      eligible: set<string>, deleted: set<string>, t: Tables)
    requires BatchReady(s, w, existing, eligible, deleted) && s.workers[w].tx == Some(tx)
    requires ApplyBatch(s.tables, tx.phase, w, tx.version, now, lease, Classify(tx.batch, existing, eligible, deleted),
                        tx.batch[|tx.batch| - 1]) == Success(t)
    ensures Next(s, CommitBatch(w, now, lease, existing, eligible, deleted)) == Committed(s, w, tx, t, deleted)
  {}

  function EndClose(s: State, w: string, now: int, lease: nat): State {
    if IsActive(s, w) && s.workers[w].tx.Some? && s.workers[w].tx.value.CloseTx?
       && s.workers[w].tx.value.phase < |s.tables.progress| then
      var tx := s.workers[w].tx.value;
      var applied := CompleteProgress(s.tables, tx.phase, w, tx.version, now, lease);
      if applied.Failure? then Raise(s, w) else WithTx(s, w, None).(tables := applied.value)
    else s
  }

  predicate AllDone(t: Tables) {
    |t.progress| == PHASES && forall p :: 0 <= p < PHASES ==> t.progress[p].status == Done
  }

  ghost function BeginFinish(s: State, w: string, now: int): State {
    if !IsActive(s, w) || s.workers[w].tx.Some? || s.workers[w].phase != PHASES then s
    else if !MayRead(s, w, now) || !Stable(s.creation, s.workers[w].verified.snapshot)
      || !AllDone(s.tables) then Raise(s, w)
    else WithTx(s, w, Some(FinishTx(s.tables.run.value.version)))
  }

  function EndFinish(s: State, w: string, now: int): State {
    if IsActive(s, w) && s.workers[w].tx.Some? && s.workers[w].tx.value.FinishTx? then
      var applied := CompleteRun(s.tables, w, s.workers[w].tx.value.version, now);
      if applied.Failure? then Raise(s, w) else Without(s.(tables := applied.value), w)
    else s
  }

  /** A phase that is done is left for the next one. */
  function LeavePhase(s: State, w: string): State {
    if IsActive(s, w) && s.workers[w].tx.None? && s.workers[w].phase < |s.tables.progress|
       && s.tables.progress[s.workers[w].phase].status == Done then
      s.(workers := s.workers[w := s.workers[w].(phase := s.workers[w].phase + 1)])
    else s
  }

  /** The failure handler of a worker past its claim. */
  function FailWorker(s: State, w: string): State {
    if w in s.workers && (s.workers[w].Active? || s.workers[w].Failing?)
      then Without(s.(tables := FailRun(s.tables, w)), w)
    else s
  }

  /** The worker's own conditions for reading: the run is its, running, with a lease beyond `now`, and for the
      archive it verified; and the stored files have not changed since. */
  ghost predicate ReadsOnItsRun(s: State, w: string, now: int)
    requires w in s.workers && s.workers[w].Active?
  {
    var run, v := s.tables.run, s.workers[w].verified;
    && run.Some? && run.value.status == Running && run.value.owner == Some(w)
    && run.value.leaseUntil.Some? && now < run.value.leaseUntil.value && run.value.snapshot == v.snapshot
    && s.creation.finalized.Some? && StabilityFault(s.creation.finalized.value, v.snapshot).None?
  }

  /** What reading comes to for a worker at a phase that is not done: a failure when it may not read or its cursor
      is refused, the end of the phase when nothing is left of it, otherwise the next page. Nothing is written. */
  lemma {:induction false} ReadOutcome(s: State, w: string, now: int, size: nat)
    requires AtOpenPhase(s, w)
    ensures var n, x := Next(s, ReadBatch(w, now, size)), s.workers[w];
      var g := s.tables.progress[x.phase];
      var page := PageAfter(x.verified.plan[x.phase], CursorAt(g.cursor), CursorId(g.cursor), size);
      && n == s.(workers := n.workers) && n.workers == s.workers[w := n.workers[w]]
      && if !ReadsOnItsRun(s, w, now) || page.Failure? then n.workers[w] == Failing(x.verified)
         else
           && n.workers[w] == x.(tx := n.workers[w].tx) && n.workers[w].tx.Some?
           && n.workers[w].tx.value == if page.value == [] then CloseTx(x.phase, s.tables.run.value.version)
                else BatchTx(x.phase, s.tables.run.value.version, page.value, s.creation.finalized.value)
  {}

  /** A worker past the last phase may finish under the same conditions, once every phase is done. */
  lemma {:induction false} FinishOutcome(s: State, w: string, now: int)
    requires IsActive(s, w) && s.workers[w].tx.None? && s.workers[w].phase == PHASES
    ensures var n, x := Next(s, ReadFinish(w, now)), s.workers[w];
      && n == s.(workers := n.workers) && n.workers == s.workers[w := n.workers[w]]
      && if ReadsOnItsRun(s, w, now) && |s.tables.progress| == 5 && DoneTo(s.tables.progress, 5)
         then n.workers[w] == x.(tx := Some(FinishTx(s.tables.run.value.version)))
         else n.workers[w] == Failing(x.verified)
  {}

  /** What a commit comes to: it takes effect with everything it did, exactly when the worker still holds the run
      at the version of its read and the phase is not done; otherwise the worker fails and nothing else changes. */
  lemma {:induction false} CommitOutcome(s: State, w: string, now: int, lease: nat, existing: set<string>,
      eligible: set<string>, deleted: set<string>)
    requires BatchReady(s, w, existing, eligible, deleted)
    ensures var n, x := Next(s, CommitBatch(w, now, lease, existing, eligible, deleted)), s.workers[w];
      var p, batch := x.tx.value.phase, x.tx.value.batch;
      if MayUpdate(s.tables, w, x.tx.value.version, now) && s.tables.progress[p].status != Done then
        && n.workers == s.workers[w := x.(tx := None)] && n.classified == s.classified[p := s.classified[p] + batch]
        && n.rows == Remaining(s.rows, p, deleted) && n.creation == s.creation && n.origin == s.origin
        && Success(n.tables) == ApplyBatch(s.tables, p, w, x.tx.value.version, now, lease,
             Classify(batch, existing, eligible, deleted), batch[|batch| - 1])
      else n == s.(workers := s.workers[w := Failing(x.verified)])
  {}

  lemma {:induction false} CloseOutcome(s: State, w: string, now: int, lease: nat)
    requires IsActive(s, w) && s.workers[w].tx.Some? && s.workers[w].tx.value.CloseTx?
    requires s.workers[w].tx.value.phase < |s.tables.progress|
    ensures var n, x := Next(s, CommitClose(w, now, lease)), s.workers[w];
      var p := x.tx.value.phase;
      if MayUpdate(s.tables, w, x.tx.value.version, now) && s.tables.progress[p].status != Done then
        && n == s.(tables := n.tables, workers := s.workers[w := x.(tx := None)])
        && Success(n.tables) == CompleteProgress(s.tables, p, w, x.tx.value.version, now, lease)
      else n == s.(workers := s.workers[w := Failing(x.verified)])
  {}

  lemma {:induction false} EndOutcome(s: State, w: string, now: int)
    requires IsActive(s, w) && s.workers[w].tx.Some? && s.workers[w].tx.value.FinishTx?
    ensures var n, x := Next(s, CommitFinish(w, now)), s.workers[w];
      if MayUpdate(s.tables, w, x.tx.value.version, now) then
        && n == s.(tables := n.tables, workers := n.workers) && w !in n.workers && Let(s.tables, n.tables)
        && (forall y :: y in s.workers && y != w ==> y in n.workers && n.workers[y] == s.workers[y])
        && n.tables.run.value.status == Completed
      else n == s.(workers := s.workers[w := Failing(x.verified)])
  {
    ReleaseExactly(s.tables, w, s.workers[w].tx.value.version, now);
  }

  /** A worker that fails gives the run up: no one holds it, what was done stays done, and it can be claimed at
      any time. A worker that has lost it to another leaves it alone. */
  lemma {:induction false} FailureFrees(s: State, w: string)
    requires w in s.workers && (s.workers[w].Active? || s.workers[w].Failing?)
    ensures var n := FailWorker(s, w);
      && w !in n.workers && (forall x :: x in s.workers && x != w ==> x in n.workers && n.workers[x] == s.workers[x])
      && n.rows == s.rows && n.classified == s.classified && n.creation == s.creation
      && if s.tables.run.Some? && s.tables.run.value.status == Running && s.tables.run.value.owner == Some(w) then
           Let(s.tables, n.tables) && n.tables.run.value.status == Failed
         else n.tables == s.tables
  {
    ReleaseExactly(s.tables, w, 0, 0);
  }

  ghost function Next(s: State, a: Action): State {
    match a
    case Claim(w, now, lease) => ClaimRun(s, w, now, lease)
    case SkipPhase(w) => LeavePhase(s, w)
    case ReadBatch(w, now, size) => BeginBatch(s, w, now, size)
    case CommitBatch(w, now, lease, existing, eligible, deleted) =>
      EndBatch(s, w, now, lease, existing, eligible, deleted)
    case CommitClose(w, now, lease) => EndClose(s, w, now, lease)
    case ReadFinish(w, now) => BeginFinish(s, w, now)
    case CommitFinish(w, now) => EndFinish(s, w, now)
    case Fail(w) => FailWorker(s, w)
    case WorkerCrashes(w) => Without(s, w)
    case RowsChange(rows) => s.(rows := rows)
    case _ => if IsGate(a) then GateStep(s, a) else CreationStep(s, a)
  }

  ghost function GateStep(s: State, a: Action): State
    requires IsGate(a)
  {
    match a
    case GateRead(w) => ReadGate(s, w)
    case GateVerify(w) => VerifyGate(s, w)
    case GateIndex(w) => IndexGate(s, w)
    case GateAgain(w) => AgainGate(s, w)
  }

  ghost function CreationStep(s: State, a: Action): State {
    s.(creation := Create(s.creation, s.id, a))
  }

  /** Worker identifiers are never reused. */
  predicate OwnerFree(t: Tables, w: string) { t.run.Some? ==> t.run.value.owner != Some(w) }

  ghost function Reached(s: State, actions: seq<Action>): State {
    if actions == [] then s else Next(Reached(s, actions[..|actions| - 1]), actions[|actions| - 1])
  }

  /** A worker passing the gate has built its index from payloads that are those it verified. The code
      does not compare their digests with what the index read. */
  ghost predicate SoundIndex(s: State, a: Action) {
    a.GateAgain? && IsIndexed(s, a.w) && VerifiesAgain(s.creation, s.id, s.workers[a.w].verified.snapshot) ==>
      PayloadsKept(s.workers[a.w].source, s.workers[a.w].verified.snapshot)
  }

  /** So has every worker that passes the gate in the run. */
  ghost predicate SoundIndexes(s: State, actions: seq<Action>) {
    forall n :: 0 <= n < |actions| ==> SoundIndex(Reached(s, actions[..n]), actions[n])
  }

  // ---------------------------------------------------------------- invariant

  /** What the protocol needs of archives: what a verification can yield, what order it guarantees,
      and what stability means. */
  datatype Library = Library(
    genuine: Verified -> bool, orderly: Verified -> bool, stable: (Archive, Snapshot) -> bool,
    indexes: (Archive, Verified, seq<seq<Ref>>) -> bool)

  ghost function StoredArchives(): Library {
    Library(v => Genuine(v), v => Orderly(v), (a, s) => StabilityFault(a, s).None?,
            (a, v, plan) => CanIndex(a, v) && plan == IndexedPlan(a))
  }

  /** Verifications are orderly, and those with equal snapshots are equal. */
  ghost predicate Coherent(l: Library) {
    && (forall v :: l.genuine(v) ==> l.orderly(v))
    && (forall v, w :: l.genuine(v) && l.genuine(w) && v.snapshot == w.snapshot ==> v == w)
  }

  ghost predicate OrderMeant(l: Library) { forall v :: l.orderly(v) ==> Orderly(v) }

  ghost predicate StabilityMeant(l: Library) { forall a, s :: l.stable(a, s) <==> StabilityFault(a, s).None? }

  ghost predicate Verifiable(l: Library) { forall a, v :: VerifiesAs(a, v) ==> l.genuine(v) }

  /** An index of kept payloads holds the plan of the verification. */
  ghost predicate IndexMeant(l: Library) {
    && (forall b, v :: CanIndex(b, v) ==> l.indexes(b, v, IndexedPlan(b)))
    && (forall b, v, plan :: l.genuine(v) && PayloadsKept(b, v.snapshot) && l.indexes(b, v, plan) ==> plan == v.plan)
  }

  lemma {:induction false} StoredArchivesAreCoherent()
    ensures Coherent(StoredArchives()) && OrderMeant(StoredArchives()) && StabilityMeant(StoredArchives())
    ensures Verifiable(StoredArchives()) && IndexMeant(StoredArchives())
  {
    var l := StoredArchives();
    forall v | l.genuine(v) ensures l.orderly(v) { GenuineIsOrderly(v); }
    forall v, w | l.genuine(v) && l.genuine(w) && v.snapshot == w.snapshot ensures v == w { SnapshotDetermines(v, w); }
    forall b, v, plan | l.genuine(v) && PayloadsKept(b, v.snapshot) && l.indexes(b, v, plan) ensures plan == v.plan {
      IndexOfKeptPayloads(b, v);
    }
  }

  lemma {:induction false} PlanOrderly(v: Verified, l: Library)
    requires l.genuine(v) && Coherent(l) && OrderMeant(l)
    ensures Orderly(v)
  {}

  ghost predicate VersionIs(t: Tables, version: nat) { t.run.Some? && t.run.value.version == version }

  /** While the run still has the version a transaction read, what it read is still so. */
  ghost predicate TxRight(tx: Tx, t: Tables, v: Verified, phase: nat, l: Library) {
    && t.run.Some? && tx.version <= t.run.value.version
    && match tx
       case BatchTx(p, version, batch, seen) =>
         p == phase && p < PHASES && l.stable(seen, v.snapshot)
         && (VersionIs(t, version) ==> NextSlice(batch, t, v, p))
       case CloseTx(p, version) =>
         p == phase && p < PHASES && (VersionIs(t, version) ==> Exhausted(t, v, p))
       case FinishTx(version) => phase == PHASES
  }

  ghost predicate NextSlice(batch: seq<Ref>, t: Tables, v: Verified, p: nat) {
    && p < |t.progress| && p < |v.plan| && t.progress[p].status != Done
    && batch != [] && t.progress[p].scanned + |batch| <= |v.plan[p]|
    && batch == v.plan[p][t.progress[p].scanned..t.progress[p].scanned + |batch|]
  }

  ghost predicate Exhausted(t: Tables, v: Verified, p: nat) {
    p < |t.progress| && p < |v.plan| && t.progress[p].status != Done && t.progress[p].scanned == |v.plan[p]|
  }

  ghost predicate WorkerRight(x: Worker, t: Tables, origin: Option<Verified>, l: Library) {
    && (x.Reading? || l.genuine(x.verified))
    && match x
       case Reading(checksum) => true
       case Checking(v) => true
       case Indexed(v, b, listed) => l.indexes(b, v, listed)
       case Gated(v) => true
       case Failing(v) => true
       case Active(v, phase, tx) =>
         && origin == Some(v) && t.run.Some? && phase <= PHASES && DoneTo(t.progress, phase)
         && (tx.Some? ==> TxRight(tx.value, t, v, phase, l))
  }

  ghost predicate WorkersRight(workers: map<string, Worker>, t: Tables, origin: Option<Verified>, l: Library) {
    forall w :: w in workers ==> WorkerRight(workers[w], t, origin, l)
  }

  ghost predicate RunRight(t: Tables, classified: seq<seq<Ref>>, origin: Option<Verified>, l: Library) {
    if origin.None? then t == NO_TABLES && classified == [[], [], [], [], []]
    else t.run.Some? && l.genuine(origin.value) && TablesRight(t, classified, origin.value)
  }

  ghost predicate Inv(s: State, l: Library) {
    && RunRight(s.tables, s.classified, s.origin, l)
    && WorkersRight(s.workers, s.tables, s.origin, l)
  }

  lemma {:induction false} WorkerSurvives(x: Worker, t: Tables, n: Tables, origin: Option<Verified>, l: Library)
    requires WorkerRight(x, t, origin, l) && Evolves(t, n)
    ensures WorkerRight(x, n, origin, l)
  {}

  lemma {:induction false} WorkersSurvive(workers: map<string, Worker>, t: Tables, n: Tables,
      origin: Option<Verified>, l: Library)
    requires WorkersRight(workers, t, origin, l) && Evolves(t, n)
    ensures WorkersRight(workers, n, origin, l)
  {
    forall w | w in workers ensures WorkerRight(workers[w], n, origin, l) {
      WorkerSurvives(workers[w], t, n, origin, l);
    }
  }

  /** The invariant as a function of the state alone. */
  ghost function InvOf(l: Library): State -> bool { s => Inv(s, l) }

  lemma {:induction false} ClaimKeepsInv(s: State, w: string, now: int, lease: nat, l: Library)
    requires InvOf(l)(s) && Coherent(l) && OrderMeant(l)
    ensures InvOf(l)(ClaimRun(s, w, now, lease))
  {
    var n := ClaimRun(s, w, now, lease);
    if w in s.workers && s.workers[w].Gated? && n.tables != s.tables {
      var v := s.workers[w].verified;
      assert WorkerRight(s.workers[w], s.tables, s.origin, l);
      if s.origin.Some? { assert s.origin.value == v; }
      ClaimKeeps(s.tables, s.classified, v, w, now, lease);
      forall x | x in s.workers ensures WorkerRight(n.workers[x], n.tables, n.origin, l) {
        assert WorkerRight(s.workers[x], s.tables, s.origin, l);
        if x != w && s.workers[x].Active? { WorkerSurvives(s.workers[x], s.tables, n.tables, s.origin, l); }
      }
    }
  }

  lemma {:induction false} WithTxKeepsInv(s: State, w: string, tx: Tx, l: Library)
    requires InvOf(l)(s) && IsActive(s, w)
    requires TxRight(tx, s.tables, s.workers[w].verified, s.workers[w].phase, l)
    ensures InvOf(l)(WithTx(s, w, Some(tx)))
  {
    assert WorkerRight(s.workers[w], s.tables, s.origin, l);
  }

  lemma {:induction false} RaiseKeepsInv(s: State, w: string, l: Library)
    requires InvOf(l)(s) && IsActive(s, w)
    ensures InvOf(l)(Raise(s, w))
  {
    assert WorkerRight(s.workers[w], s.tables, s.origin, l);
  }

  /** The page an active worker reads is the next slice of its phase. */
  lemma {:induction false} PageRead(s: State, w: string, size: nat, l: Library)
    requires InvOf(l)(s) && Coherent(l) && OrderMeant(l) && AtOpenPhase(s, w) && 1 <= size <= MAX_BATCH
    ensures s.tables.run.Some? && s.workers[w].phase < PHASES
    ensures var v, p := s.workers[w].verified, s.workers[w].phase;
      var g := s.tables.progress[p];
      && g.scanned <= |v.plan[p]|
      && PageAfter(v.plan[p], CursorAt(g.cursor), CursorId(g.cursor), size)
        == Success(v.plan[p][g.scanned..Upto(v.plan[p], g.scanned, size)])
  {
    assert WorkerRight(s.workers[w], s.tables, s.origin, l);
    CursorAccepted(s.tables, s.classified, s.workers[w].verified, s.workers[w].phase, size);
  }

  ghost predicate ReadAllowed(s: State, w: string, now: int) {
    AtOpenPhase(s, w) && MayRead(s, w, now) && Stable(s.creation, s.workers[w].verified.snapshot)
  }

  lemma {:induction false} BeginKeepsInv(s: State, w: string, now: int, size: nat, l: Library)
    requires InvOf(l)(s) && Coherent(l) && OrderMeant(l) && StabilityMeant(l)
    ensures InvOf(l)(BeginBatch(s, w, now, size))
    ensures ReadAllowed(s, w, now) && 1 <= size <= MAX_BATCH ==> IsActive(BeginBatch(s, w, now, size), w)
  {
    if ReadAllowed(s, w, now) && 1 <= size <= MAX_BATCH {
      var v, p := s.workers[w].verified, s.workers[w].phase;
      var k := s.tables.progress[p].scanned;
      PageRead(s, w, size, l);
      PageBegins(s, w, v.plan[p][k..Upto(v.plan[p], k, size)], l);
    } else if AtOpenPhase(s, w) {
      RaiseKeepsInv(s, w, l);
    }
  }

  lemma {:induction false} PageBegins(s: State, w: string, page: seq<Ref>, l: Library)
    requires InvOf(l)(s) && AtOpenPhase(s, w) && s.tables.run.Some? && s.creation.finalized.Some?
    requires s.workers[w].phase < PHASES && l.stable(s.creation.finalized.value, s.workers[w].verified.snapshot)
    requires var v, p := s.workers[w].verified, s.workers[w].phase;
      var k := s.tables.progress[p].scanned;
      && k + |page| <= |v.plan[p]| && page == v.plan[p][k..k + |page|]
      && (page == [] ==> k == |v.plan[p]|)
    ensures var p, version := s.workers[w].phase, s.tables.run.value.version;
      InvOf(l)(WithTx(s, w, Some(if page == []
        then CloseTx(p, version) else BatchTx(p, version, page, s.creation.finalized.value))))
  {
    var p, version := s.workers[w].phase, s.tables.run.value.version;
    WithTxKeepsInv(s, w, if page == []
      then CloseTx(p, version) else BatchTx(p, version, page, s.creation.finalized.value), l);
  }

  lemma {:induction false} SliceJoins(refs: seq<Ref>, k: nat, m: nat)
    requires k < m <= |refs|
    ensures refs[..k] + refs[k..m] == refs[..m] && refs[k..m][m - k - 1] == refs[m - 1] && |refs[k..m]| == m - k
  {}

  lemma {:induction false} PhaseAt(t: Tables, classified: seq<seq<Ref>>, v: Verified, p: nat)
    requires TablesRight(t, classified, v) && t.run.Some? && p < PHASES
    ensures |t.progress| == |classified| == |v.plan| == PHASES
    ensures t.progress[p].scanned <= |v.plan[p]| && classified[p] == v.plan[p][..t.progress[p].scanned]
  {
    assert PhaseRight(t.progress[p], classified[p], v.plan[p]);
  }

  /** A batch that is the next slice, with counts that add up, commits. */
  lemma {:induction false} EndBatchTables(t: Tables, classified: seq<seq<Ref>>, v: Verified, p: nat, batch: seq<Ref>,
      w: string, version: nat, now: int, lease: nat, c: Counts)
    requires TablesRight(t, classified, v) && t.run.Some? && p < PHASES && DoneTo(t.progress, p)
    requires NextSlice(batch, t, v, p)
    requires c.scanned == |batch| && c.deleted + c.protected + c.missing == c.scanned
    requires |classified| == PHASES && ApplyBatch(t, p, w, version, now, lease, c, batch[|batch| - 1]).Success?
    ensures TablesRight(ApplyBatch(t, p, w, version, now, lease, c, batch[|batch| - 1]).value,
                        classified[p := classified[p] + batch], v)
  {
    var k := t.progress[p].scanned;
    PhaseAt(t, classified, v, p);
    SliceJoins(v.plan[p], k, k + |batch|);
    BatchKeeps(t, classified, v, p, classified[p] + batch, batch[|batch| - 1], w, version, now, lease, c);
  }

  /** If the run still has the version the transaction read, its batch is still the next slice. */
  lemma {:induction false} BatchFits(s: State, w: string, existing: set<string>, eligible: set<string>,
      deleted: set<string>, l: Library)
    requires InvOf(l)(s) && Coherent(l) && OrderMeant(l) && BatchReady(s, w, existing, eligible, deleted)
    requires VersionIs(s.tables, s.workers[w].tx.value.version)
    ensures var v, tx := s.workers[w].verified, s.workers[w].tx.value;
      && s.origin == Some(v) && tx.phase < PHASES && DoneTo(s.tables.progress, tx.phase)
      && NextSlice(tx.batch, s.tables, v, tx.phase) && |s.classified| == PHASES
    ensures var c := Classify(s.workers[w].tx.value.batch, existing, eligible, deleted);
      c.deleted + c.protected + c.missing == c.scanned
  {
    assert WorkerRight(s.workers[w], s.tables, s.origin, l);
    var v, tx := s.workers[w].verified, s.workers[w].tx.value;
    NextSliceDistinct(tx.batch, s.tables, v, tx.phase, l);
    PresentIsWithin(s.rows, tx.phase, tx.batch);
    ClassifyAddsUp(tx.batch, existing, eligible, deleted);
  }

  lemma {:induction false} EndBatchKeepsInv(s: State, w: string, now: int, lease: nat, existing: set<string>,
      eligible: set<string>, deleted: set<string>, l: Library)
    requires InvOf(l)(s) && Coherent(l) && OrderMeant(l)
    ensures InvOf(l)(EndBatch(s, w, now, lease, existing, eligible, deleted))
  {
    if BatchReady(s, w, existing, eligible, deleted) {
      var tx := s.workers[w].tx.value;
      var c := Classify(tx.batch, existing, eligible, deleted);
      if VersionIs(s.tables, tx.version) {
        BatchFits(s, w, existing, eligible, deleted, l);
        CommitKeepsInv(s, w, tx, now, lease, s.workers[w].verified, c, deleted, l);
      } else {
        RaiseKeepsInv(s, w, l);
      }
    }
  }

  lemma {:induction false} CommitKeepsInv(s: State, w: string, tx: Tx, now: int, lease: nat, v: Verified, c: Counts,
      deleted: set<string>, l: Library)
    requires InvOf(l)(s) && IsActive(s, w)
    requires tx.BatchTx? && s.origin == Some(v) && tx.phase < PHASES && DoneTo(s.tables.progress, tx.phase)
    requires NextSlice(tx.batch, s.tables, v, tx.phase)
    requires c.scanned == |tx.batch| && c.deleted + c.protected + c.missing == c.scanned && |s.classified| == PHASES
    ensures InvOf(l)(Commit(s, w, tx, now, lease, c, deleted))
  {
    if ApplyBatch(s.tables, tx.phase, w, tx.version, now, lease, c, tx.batch[|tx.batch| - 1]).Success? {
      BatchCommits(s, w, now, lease, v, tx, c, deleted, l);
    } else {
      RaiseKeepsInv(s, w, l);
    }
  }

  lemma {:induction false} BatchCommits(s: State, w: string, now: int, lease: nat, v: Verified, tx: Tx, c: Counts,
      deleted: set<string>, l: Library)
    requires InvOf(l)(s) && IsActive(s, w)
    requires tx.BatchTx? && s.origin == Some(v) && tx.phase < PHASES && DoneTo(s.tables.progress, tx.phase)
    requires NextSlice(tx.batch, s.tables, v, tx.phase)
    requires c.scanned == |tx.batch| && c.deleted + c.protected + c.missing == c.scanned && |s.classified| == PHASES
    requires ApplyBatch(s.tables, tx.phase, w, tx.version, now, lease, c, tx.batch[|tx.batch| - 1]).Success?
    ensures InvOf(l)(Committed(s, w, tx,
      ApplyBatch(s.tables, tx.phase, w, tx.version, now, lease, c, tx.batch[|tx.batch| - 1]).value,
                               deleted))
  {
    var last := tx.batch[|tx.batch| - 1];
    var n := ApplyBatch(s.tables, tx.phase, w, tx.version, now, lease, c, last).value;
    EndBatchTables(s.tables, s.classified, v, tx.phase, tx.batch, w, tx.version, now, lease, c);
    BatchEvolves(s.tables, tx.phase, w, tx.version, now, lease, c, last);
    WorkersSurvive(s.workers, s.tables, n, s.origin, l);
    WorkerWithoutTx(s.workers, w, n, s.origin, l);
  }

  lemma {:induction false} WorkerWithoutTx(workers: map<string, Worker>, w: string, t: Tables,
      origin: Option<Verified>, l: Library)
    requires WorkersRight(workers, t, origin, l) && w in workers && workers[w].Active?
    ensures WorkersRight(workers[w := workers[w].(tx := None)], t, origin, l)
  {
    assert WorkerRight(workers[w], t, origin, l);
  }

  lemma {:induction false} NextSliceDistinct(batch: seq<Ref>, t: Tables, v: Verified, p: nat, l: Library)
    requires l.genuine(v) && Coherent(l) && OrderMeant(l) && NextSlice(batch, t, v, p) && p < PHASES
    ensures IdsDistinct(batch)
  {
    PlanOrderly(v, l);
    SliceIdsDistinct(v.plan[p], t.progress[p].scanned, t.progress[p].scanned + |batch|);
  }

  lemma {:induction false} SliceIdsDistinct(refs: seq<Ref>, k: nat, m: nat)
    requires IdsDistinct(refs) && k <= m <= |refs|
    ensures IdsDistinct(refs[k..m])
  {}

  lemma {:induction false} EndCloseKeepsInv(s: State, w: string, now: int, lease: nat, l: Library)
    requires InvOf(l)(s) && Coherent(l)
    ensures InvOf(l)(EndClose(s, w, now, lease))
  {
    if IsActive(s, w) && s.workers[w].tx.Some? && s.workers[w].tx.value.CloseTx?
       && s.workers[w].tx.value.phase < |s.tables.progress| {
      var tx := s.workers[w].tx.value;
      if CompleteProgress(s.tables, tx.phase, w, tx.version, now, lease).Success? {
        PhaseCloses(s, w, tx, now, lease, l);
      } else {
        RaiseKeepsInv(s, w, l);
      }
    }
  }

  lemma {:induction false} PhaseCloses(s: State, w: string, tx: Tx, now: int, lease: nat, l: Library)
    requires InvOf(l)(s) && IsActive(s, w) && s.workers[w].tx == Some(tx) && tx.CloseTx?
      && tx.phase < |s.tables.progress|
    requires CompleteProgress(s.tables, tx.phase, w, tx.version, now, lease).Success?
    ensures InvOf(l)(WithTx(s, w,
      None).(tables := CompleteProgress(s.tables, tx.phase, w, tx.version, now, lease).value))
  {
    var n := CompleteProgress(s.tables, tx.phase, w, tx.version, now, lease).value;
    assert WorkerRight(s.workers[w], s.tables, s.origin, l);
    CloseKeeps(s.tables, s.classified, s.workers[w].verified, tx.phase, w, tx.version, now, lease);
    WorkersSurvive(s.workers, s.tables, n, s.origin, l);
    WorkerWithoutTx(s.workers, w, n, s.origin, l);
  }

  lemma {:induction false} FinishKeepsInv(s: State, w: string, now: int, l: Library)
    requires InvOf(l)(s) && Coherent(l)
    ensures InvOf(l)(BeginFinish(s, w, now)) && InvOf(l)(EndFinish(s, w, now))
  {
    if IsActive(s, w) { assert WorkerRight(s.workers[w], s.tables, s.origin, l); }
    var n := EndFinish(s, w, now);
    if n.tables != s.tables {
      CompleteRunKeeps(s.tables, s.classified, s.origin.value, w, s.workers[w].tx.value.version, now);
      WorkersSurvive(s.workers, s.tables, n.tables, s.origin, l);
    }
  }

  lemma {:induction false} FailedRunKeepsInv(s: State, w: string, l: Library)
    requires InvOf(l)(s)
    ensures InvOf(l)(s.(tables := FailRun(s.tables, w)))
  {
    if s.origin.Some? { FailRunKeeps(s.tables, s.classified, s.origin.value, w); }
    FailRunEvolves(s.tables, w);
    WorkersSurvive(s.workers, s.tables, FailRun(s.tables, w), s.origin, l);
  }

  lemma {:induction false} FailKeepsInv(s: State, w: string, l: Library)
    requires InvOf(l)(s)
    ensures InvOf(l)(FailWorker(s, w))
  {
    FailedRunKeepsInv(s, w, l);
    WithoutKeepsInv(s.(tables := FailRun(s.tables, w)), w, l);
  }

  lemma {:induction false} ReadGateKeepsInv(s: State, w: string, l: Library)
    requires InvOf(l)(s)
    ensures InvOf(l)(ReadGate(s, w))
  {}

  lemma {:induction false} VerifyGateKeepsInv(s: State, w: string, l: Library)
    requires InvOf(l)(s) && Verifiable(l)
    ensures InvOf(l)(VerifyGate(s, w))
  {
    if IsReading(s, w) && Verifies(s.creation.finalized, s.id) {
      assert VerifiesAs(s.creation.finalized.value, VerifiedFrom(s.creation.finalized, s.id));
    }
    WithoutKeepsInv(s, w, l);
  }

  lemma {:induction false} IndexGateKeepsInv(s: State, w: string, l: Library)
    requires InvOf(l)(s) && IndexMeant(l)
    ensures InvOf(l)(IndexGate(s, w))
  {
    if IsChecking(s, w) { assert WorkerRight(s.workers[w], s.tables, s.origin, l); }
    WithoutKeepsInv(s, w, l);
  }

  lemma {:induction false} AgainGateKeepsInv(s: State, w: string, l: Library)
    requires InvOf(l)(s) && IndexMeant(l) && SoundIndex(s, GateAgain(w))
    ensures InvOf(l)(AgainGate(s, w))
  {
    if IsIndexed(s, w) && VerifiesAgain(s.creation, s.id, s.workers[w].verified.snapshot) {
      var x := s.workers[w];
      assert WorkerRight(x, s.tables, s.origin, l);
      assert x.listed == x.verified.plan && x.verified.(plan := x.listed) == x.verified;
    }
    WithoutKeepsInv(s, w, l);
  }

  lemma {:induction false} GateKeepsInv(s: State, a: Action, l: Library)
    requires InvOf(l)(s) && Verifiable(l) && IndexMeant(l) && IsGate(a) && SoundIndex(s, a)
    ensures InvOf(l)(GateStep(s, a))
  {
    match a
    case GateRead(w) => ReadGateKeepsInv(s, w, l);
    case GateVerify(w) => VerifyGateKeepsInv(s, w, l);
    case GateIndex(w) => IndexGateKeepsInv(s, w, l);
    case GateAgain(w) => AgainGateKeepsInv(s, w, l);
  }

  lemma {:induction false} SkipKeepsInv(s: State, w: string, l: Library)
    requires InvOf(l)(s)
    ensures InvOf(l)(LeavePhase(s, w))
  {
    if IsActive(s, w) {
      assert WorkerRight(s.workers[w], s.tables, s.origin, l);
      if s.origin.Some? { assert TablesRight(s.tables, s.classified, s.origin.value); }
    }
  }

  lemma {:induction false} WithoutKeepsInv(s: State, w: string, l: Library)
    requires InvOf(l)(s)
    ensures InvOf(l)(Without(s, w))
  {
    forall x | x in Without(s, w).workers ensures WorkerRight(Without(s, w).workers[x], s.tables, s.origin, l) {
      assert WorkerRight(s.workers[x], s.tables, s.origin, l);
    }
  }

  predicate IsGate(a: Action) { a.GateRead? || a.GateVerify? || a.GateIndex? || a.GateAgain? }

  predicate IsCreation(a: Action) {
    a.CreateRun? || a.Export? || a.MarkCompleted? || a.Rename? || a.Finalize? || a.MarkVerified? || a.CreateFails?
      || a.CreatorCrashes?
    || a.VerifyLater? || a.Drift?
  }

  lemma {:induction false} CreationKeepsInv(s: State, a: Action, l: Library)
    requires InvOf(l)(s) && IsCreation(a)
    ensures InvOf(l)(CreationStep(s, a))
  {
    var n := CreationStep(s, a);
    assert n.tables == s.tables && n.workers == s.workers && n.origin == s.origin && n.classified == s.classified;
  }

  lemma {:induction false} GateTables(s: State, a: Action)
    requires IsGate(a)
    ensures GateStep(s, a).tables == s.tables && GateStep(s, a).creation == s.creation
  {
    match a
    case GateRead(w) =>
    case GateVerify(w) =>
    case GateIndex(w) =>
    case GateAgain(w) =>
  }

  lemma {:induction false} SameTables(s: State, a: Action)
    requires IsCreation(a) || IsGate(a) || a.SkipPhase? || a.ReadBatch? || a.ReadFinish? || a.WorkerCrashes?
      || a.RowsChange?
    ensures Next(s, a).tables == s.tables
  {
    match a
    case ReadBatch(w, now, size) =>
    case ReadFinish(w, now) =>
    case _ => if IsGate(a) { GateTables(s, a); }
  }

  lemma {:induction false} EndCloseEvolves(s: State, w: string, now: int, lease: nat)
    requires s.tables.run.Some?
    ensures Evolves(s.tables, EndClose(s, w, now, lease).tables)
  {
    if IsActive(s, w) && s.workers[w].tx.Some? && s.workers[w].tx.value.CloseTx?
       && s.workers[w].tx.value.phase < |s.tables.progress| {
      CloseEvolves(s.tables, s.workers[w].tx.value.phase, w, s.workers[w].tx.value.version, now, lease);
    }
  }

  lemma {:induction false} EndFinishEvolves(s: State, w: string, now: int)
    requires s.tables.run.Some?
    ensures Evolves(s.tables, EndFinish(s, w, now).tables)
  {
    if IsActive(s, w) && s.workers[w].tx.Some? && s.workers[w].tx.value.FinishTx? {
      CompleteRunEvolves(s.tables, w, s.workers[w].tx.value.version, now);
    }
  }

  lemma {:induction false} EndBatchEvolves(s: State, w: string, now: int, lease: nat, existing: set<string>,
      eligible: set<string>, deleted: set<string>)
    requires s.tables.run.Some?
    ensures Evolves(s.tables, EndBatch(s, w, now, lease, existing, eligible, deleted).tables)
  {
    if BatchReady(s, w, existing, eligible, deleted) {
      var tx := s.workers[w].tx.value;
      var c, last := Classify(tx.batch, existing, eligible, deleted), tx.batch[|tx.batch| - 1];
      BatchEvolves(s.tables, tx.phase, w, tx.version, now, lease, c, last);
    }
  }

  /** Nobody's step takes anything back: versions rise, positions move on, what is done stays done. */
  lemma {:induction false} StepEvolves(s: State, a: Action)
    requires s.tables.run.Some?
    ensures Evolves(s.tables, Next(s, a).tables)
  {
    match a
    case Claim(w, now, lease) =>
      if w in s.workers && s.workers[w].Gated? {
        ClaimEvolves(s.tables, s.workers[w].verified.snapshot, w, now, lease);
      }
    case CommitBatch(w, now, lease, existing, eligible, deleted) =>
      EndBatchEvolves(s, w, now, lease, existing, eligible, deleted);
    case CommitClose(w, now, lease) => EndCloseEvolves(s, w, now, lease);
    case CommitFinish(w, now) => EndFinishEvolves(s, w, now);
    case Fail(w) => FailRunEvolves(s.tables, w);
    case _ => SameTables(s, a);
  }

  /** Every step keeps the invariant, if a worker passing the gate in it has a sound index. */
  lemma {:induction false} StepKeepsInv(s: State, a: Action, l: Library)
    requires InvOf(l)(s) && SoundIndex(s, a)
    requires Coherent(l) && OrderMeant(l) && StabilityMeant(l) && Verifiable(l) && IndexMeant(l)
    ensures InvOf(l)(Next(s, a))
  {
    match a
    case Claim(w, now, lease) => ClaimKeepsInv(s, w, now, lease, l);
    case SkipPhase(w) => SkipKeepsInv(s, w, l);
    case ReadBatch(w, now, size) => BeginKeepsInv(s, w, now, size, l);
    case CommitBatch(w, now, lease, existing, eligible, deleted) =>
      EndBatchKeepsInv(s, w, now, lease, existing, eligible, deleted, l);
    case CommitClose(w, now, lease) => EndCloseKeepsInv(s, w, now, lease, l);
    case ReadFinish(w, now) => FinishKeepsInv(s, w, now, l);
    case CommitFinish(w, now) => FinishKeepsInv(s, w, now, l);
    case Fail(w) => FailKeepsInv(s, w, l);
    case WorkerCrashes(w) => WithoutKeepsInv(s, w, l);
    case RowsChange(rows) => RowsKeepInv(s, rows, l);
    case _ => if IsGate(a) { GateKeepsInv(s, a, l); } else { CreationKeepsInv(s, a, l); }
  }

  lemma {:induction false} RowsKeepInv(s: State, rows: set<(nat, string)>, l: Library)
    requires InvOf(l)(s)
    ensures InvOf(l)(s.(rows := rows))
  {}

  lemma {:induction false} InitialInv(s: State, l: Library)
    requires Initial(s)
    ensures InvOf(l)(s)
  {}

  lemma {:induction false} SoundPrefix(s: State, actions: seq<Action>)
    requires actions != [] && SoundIndexes(s, actions)
    ensures SoundIndexes(s, actions[..|actions| - 1])
    ensures SoundIndex(Reached(s, actions[..|actions| - 1]), actions[|actions| - 1])
  {
    var m := |actions| - 1;
    forall n | 0 <= n < m ensures SoundIndex(Reached(s, actions[..m][..n]), actions[..m][n]) {
      assert actions[..m][..n] == actions[..n];
    }
  }

  /** Whatever the order of steps, the invariant holds. */
  lemma {:induction false} RunKeepsInv(s: State, actions: seq<Action>)
    requires Initial(s) && SoundIndexes(s, actions)
    ensures InvOf(StoredArchives())(Reached(s, actions))
  {
    if actions == [] {
      InitialInv(s, StoredArchives());
    } else {
      var n := |actions| - 1;
      SoundPrefix(s, actions);
      RunKeepsInv(s, actions[..n]);
      StoredArchivesAreCoherent();
      StepKeepsInv(Reached(s, actions[..n]), actions[n], StoredArchives());
    }
  }
}
