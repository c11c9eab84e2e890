/** What every run of the protocol guarantees. */
module CleanupSafety {
  import opened Ordering
  import opened Archives
  import opened ArchiveIndex
  import opened ArchiveSnapshots
  import opened CleanupTables
  import opened CleanupProtocol

  // ---------------------------------------------------------------- completeness and order

  lemma {:induction false} RunFacts(s: State, actions: seq<Action>)
    requires Initial(s) && SoundIndexes(s, actions)
    ensures var n := Reached(s, actions);
      && RunRight(n.tables, n.classified, n.origin, StoredArchives())
      && (n.origin.Some? ==> Genuine(n.origin.value))
  {
    RunKeepsInv(s, actions);
  }

  /** However claims, commits, crashes and lost leases interleave, a completed run has classified every
      candidate of every type exactly once, in the order of its file, and deleted, protected and
      missing add up to the candidates of the manifest. */
  lemma {:induction false} CompletedRunIsComplete(s: State, actions: seq<Action>)
    requires Initial(s) && SoundIndexes(s, actions)
    requires Reached(s, actions).tables.run.Some? && Reached(s, actions).tables.run.value.status == Completed
    ensures var n := Reached(s, actions);
      && n.origin.Some? && Genuine(n.origin.value)
      && n.classified == n.origin.value.plan
      && n.tables.run.value.snapshot == n.origin.value.snapshot
      && n.tables.run.value.deleted + n.tables.run.value.protected
        + n.tables.run.value.missing == n.origin.value.candidates
  {
    RunFacts(s, actions);
    var n := Reached(s, actions);
    GenuineIsOrderly(n.origin.value);
    CompletedIsComplete(n.tables, n.classified, n.origin.value);
  }

  /** At every moment what has been classified of each type is a prefix of its candidates. */
  lemma {:induction false} ClassifiedIsPrefix(s: State, actions: seq<Action>, p: nat)
    requires Initial(s) && SoundIndexes(s, actions) && p < PHASES
    ensures var n := Reached(s, actions);
      && |n.classified| == PHASES
      && (n.origin.Some? ==> p < |n.origin.value.plan| && n.classified[p] <= n.origin.value.plan[p])
      && (n.origin.None? ==> n.classified[p] == [])
  {
    RunFacts(s, actions);
    var n := Reached(s, actions);
    PrefixAt(n.tables, n.classified, n.origin, p);
  }

  lemma {:induction false} PrefixAt(t: Tables, classified: seq<seq<Ref>>, origin: Option<Verified>, p: nat)
    requires RunRight(t, classified, origin, StoredArchives()) && p < PHASES
    ensures |classified| == PHASES
    ensures origin.Some? ==> p < |origin.value.plan| && classified[p] <= origin.value.plan[p]
    ensures origin.None? ==> classified[p] == []
  {
    if origin.Some? { PhaseAt(t, classified, origin.value, p); }
  }

  /** Across all resumes, nothing of a later type is scanned before every earlier type is finished. */
  lemma {:induction false} TypesInOrder(s: State, actions: seq<Action>, p: nat, q: nat)
    requires Initial(s) && SoundIndexes(s, actions) && p < q < PHASES
    ensures var n := Reached(s, actions);
      && |n.classified| == PHASES
      && (n.classified[q] != [] ==>
        n.origin.Some? && p < |n.origin.value.plan| && n.classified[p] == n.origin.value.plan[p])
  {
    RunFacts(s, actions);
    ClassifiedIsPrefix(s, actions, q);
    var n := Reached(s, actions);
    if n.classified[q] != [] { PhasesInOrder(n.tables, n.classified, n.origin.value, p, q); }
  }

  lemma {:induction false} ReadIsBegin(n: State, w: string, now: int, size: nat)
    ensures Next(n, ReadBatch(w, now, size)) == BeginBatch(n, w, now, size)
  {}

  /** A worker that may read is never stopped by its cursor: its stored position is always one the
      index knows. */
  lemma {:induction false} CursorNeverRefused(s: State, actions: seq<Action>, w: string, now: int, size: nat)
    requires Initial(s) && SoundIndexes(s, actions) && ReadAllowed(Reached(s, actions), w, now)
      && 1 <= size <= MAX_BATCH
    ensures IsActive(Next(Reached(s, actions), ReadBatch(w, now, size)), w)
  {
    RunKeepsInv(s, actions);
    StoredArchivesAreCoherent();
    BeginKeepsInv(Reached(s, actions), w, now, size, StoredArchives());
    ReadIsBegin(Reached(s, actions), w, now, size);
  }

  // ---------------------------------------------------------------- where a worker's knowledge comes from

  /** The test held at some moment of the run. */
  ghost predicate Ever(actions: seq<Action>, test: seq<Action> -> bool) {
    exists n :: 0 <= n <= |actions| && test(actions[..n])
  }

  lemma {:induction false} EverNow(actions: seq<Action>, test: seq<Action> -> bool)
    requires test(actions)
    ensures Ever(actions, test)
  {
    assert actions[..|actions|] == actions;
  }

  lemma {:induction false} EverLater(actions: seq<Action>, n: nat, test: seq<Action> -> bool)
    requires n <= |actions| && Ever(actions[..n], test)
    ensures Ever(actions, test)
  {
    var k :| 0 <= k <= n && test(actions[..n][..k]);
    assert actions[..n][..k] == actions[..k];
  }

  /** The archive's run is marked verified, with this checksum. */
  ghost function Marking(s: State, checksum: Option<ManifestDigest>): seq<Action> -> bool {
    actions => Marks(Reached(s, actions), checksum)
  }

  predicate Marks(s: State, checksum: Option<ManifestDigest>) {
    StatusIs(s.creation, ArchiveVerified) && s.creation.run.value.checksum == checksum
  }

  /** The stored archive verifies, with a checksum the run was marked verified with before. */
  ghost function Checked(s: State, v: Verified): seq<Action> -> bool {
    actions => VerifiesTo(Reached(s, actions).creation, s.id, v) && Ever(actions, Marking(s, Some(v.snapshot.manifest)))
  }

  /** After such a verification, an index listing these candidates is built from what is stored. */
  ghost function IndexedFrom(s: State, v: Verified, b: Archive, listed: seq<seq<Ref>>): seq<Action> -> bool {
    actions => Indexes(Reached(s, actions), v, b, listed) && Ever(actions, Checked(s, v))
  }

  ghost predicate Indexes(s: State, v: Verified, b: Archive, listed: seq<seq<Ref>>) {
    s.creation.finalized == Some(b) && CanIndex(b, v) && listed == IndexedPlan(b)
  }

  /** After that, the archive verifies again, with the same snapshot. */
  ghost function GatePassed(s: State, v: Verified, b: Archive, listed: seq<seq<Ref>>): seq<Action> -> bool {
    actions => VerifiesAgain(Reached(s, actions).creation, s.id, v.snapshot)
      && Ever(actions, IndexedFrom(s, v, b, listed))
  }

  /** `x` came through the gate: verified, indexed, and verified again, in this order. */
  ghost predicate PassedGate(s: State, actions: seq<Action>, x: Verified) {
    exists v: Verified, b: Archive :: x == v.(plan := x.plan) && Ever(actions, GatePassed(s, v, b, x.plan))
  }

  /** The transaction that `w` opens now: the lease is held, the stored files agree with the snapshot, and
      the page is the one after the stored cursor. */
  ghost predicate Opens(s: State, w: string, now: int, size: nat, v: Verified, tx: Tx) {
    && ReadAllowed(s, w, now) && s.workers[w].verified == v && s.creation.finalized.Some?
    && tx.BatchTx? && tx == BatchTx(s.workers[w].phase, s.tables.run.value.version, tx.batch,
      s.creation.finalized.value)
    && StabilityFault(tx.seen, v.snapshot).None?
    && tx.phase < |v.plan| && tx.batch != []
    && var g := s.tables.progress[tx.phase];
       PageAfter(v.plan[tx.phase], CursorAt(g.cursor), CursorId(g.cursor), size) == Success(tx.batch)
  }

  /** The last step of `actions` is the read by which `w` opens this transaction. */
  ghost function Opening(s: State, w: string, v: Verified, tx: Tx): seq<Action> -> bool {
    (actions: seq<Action>) =>
      && actions != []
      && var a := actions[|actions| - 1];
         a.ReadBatch? && a.w == w && Opens(Reached(s, actions[..|actions| - 1]), w, a.now, a.size, v, tx)
  }

  /** What a worker knows after a step, from what it knew and what the step shows it. */
  ghost predicate LearnsNow(s: State, w: string, x: Worker) {
    match x
    case Reading(checksum) => Marks(s, checksum)
    case Checking(v) =>
      w in s.workers && s.workers[w] == Reading(Some(v.snapshot.manifest)) && VerifiesTo(s.creation, s.id, v)
    case Indexed(v, b, listed) => w in s.workers && s.workers[w] == Checking(v) && Indexes(s, v, b, listed)
    case Gated(v) =>
      IsIndexed(s, w) && v == s.workers[w].verified.(plan := s.workers[w].listed)
        && VerifiesAgain(s.creation, s.id, v.snapshot)
    case Active(v, phase, tx) =>
      w in s.workers && (s.workers[w] == Gated(v) || (s.workers[w].Active? && s.workers[w].verified == v))
    case Failing(v) => IsActive(s, w) && s.workers[w].verified == v
  }

  ghost predicate Learns(s: State, a: Action, n: State, w: string) {
    && n.id == s.id
    && (w in n.workers ==>
          && ((w in s.workers && s.workers[w] == n.workers[w]) || LearnsNow(s, w, n.workers[w]))
          && (HasBatch(n, w) ==> (HasBatch(s, w) && s.workers[w].tx == n.workers[w].tx) || OpensBy(s, a, n, w)))
  }

  ghost predicate OpensBy(s: State, a: Action, n: State, w: string)
    requires HasBatch(n, w)
  {
    a.ReadBatch? && a.w == w && Opens(s, w, a.now, a.size, n.workers[w].verified, n.workers[w].tx.value)
  }

  lemma {:induction false} ClaimLearns(s: State, a: Action, w: string)
    requires a.Claim?
    ensures Learns(s, a, ClaimRun(s, a.w, a.now, a.lease), w)
  {}

  lemma {:induction false} ReadLearns(s: State, a: Action, w: string)
    requires a.ReadBatch?
    ensures Learns(s, a, BeginBatch(s, a.w, a.now, a.size), w)
  {
    if ReadAllowed(s, a.w, a.now) {
      var p, version, v := s.workers[a.w].phase, s.tables.run.value.version, s.workers[a.w].verified;
      var g := s.tables.progress[p];
      var page := PageAfter(v.plan[p], CursorAt(g.cursor), CursorId(g.cursor), a.size);
      if page.Success? {
        TxOpens(s, a, if page.value == []
          then CloseTx(p, version) else BatchTx(p, version, page.value, s.creation.finalized.value), w);
      } else {
        RaiseLearns(s, a, w);
      }
    } else if AtOpenPhase(s, a.w) {
      RaiseLearns(s, a, w);
    }
  }

  lemma {:induction false} TxOpens(s: State, a: Action, tx: Tx, w: string)
    requires a.ReadBatch? && IsActive(s, a.w)
      && (tx.BatchTx? ==> Opens(s, a.w, a.now, a.size, s.workers[a.w].verified, tx))
    ensures Learns(s, a, WithTx(s, a.w, Some(tx)), w)
  {}

  lemma {:induction false} CommitLearns(s: State, a: Action, w: string)
    requires a.CommitBatch?
    ensures Learns(s, a, EndBatch(s, a.w, a.now, a.lease, a.existing, a.eligible, a.deleted), w)
  {
    if BatchReady(s, a.w, a.existing, a.eligible, a.deleted) {
      var tx := s.workers[a.w].tx.value;
      TxLearns(s, a, tx, Classify(tx.batch, a.existing, a.eligible, a.deleted), w);
    }
  }

  lemma {:induction false} TxLearns(s: State, a: Action, tx: Tx, c: Counts, w: string)
    requires a.CommitBatch? && IsActive(s, a.w) && tx.BatchTx? && tx.phase < |s.classified|
      && tx.phase < |s.tables.progress|
    requires tx.batch != []
    ensures Learns(s, a, Commit(s, a.w, tx, a.now, a.lease, c, a.deleted), w)
  {
    var applied := ApplyBatch(s.tables, tx.phase, a.w, tx.version, a.now, a.lease, c, tx.batch[|tx.batch| - 1]);
    if applied.Success? { CommittedLearns(s, a, tx, applied.value, w); } else { RaiseLearns(s, a, w); }
  }

  lemma {:induction false} CommittedLearns(s: State, a: Action, tx: Tx, t: Tables, w: string)
    requires a.CommitBatch? && IsActive(s, a.w) && tx.BatchTx? && tx.phase < |s.classified|
    ensures Learns(s, a, Committed(s, a.w, tx, t, a.deleted), w)
  {}

  lemma {:induction false} RaiseLearns(s: State, a: Action, w: string)
    requires (a.ReadBatch? || a.CommitBatch?) && IsActive(s, a.w)
    ensures Learns(s, a, Raise(s, a.w), w)
  {}

  lemma {:induction false} CloseLearns(s: State, a: Action, w: string)
    requires a.CommitClose?
    ensures Learns(s, a, EndClose(s, a.w, a.now, a.lease), w)
  {}

  lemma {:induction false} FinishLearns(s: State, a: Action, w: string)
    requires a.ReadFinish? || a.CommitFinish?
    ensures Learns(s, a, if a.ReadFinish? then BeginFinish(s, a.w, a.now) else EndFinish(s, a.w, a.now), w)
  {}

  lemma {:induction false} PutLearns(s: State, a: Action, y: string, x: Worker, w: string)
    requires LearnsNow(s, y, x) && !x.Active?
    ensures Learns(s, a, s.(workers := s.workers[y := x]), w)
  {}

  lemma {:induction false} WithoutLearns(s: State, a: Action, y: string, w: string)
    ensures Learns(s, a, Without(s, y), w)
  {}

  lemma {:induction false} GateLearns(s: State, a: Action, w: string)
    requires IsGate(a)
    ensures Learns(s, a, GateStep(s, a), w)
  {
    var n := GateStep(s, a);
    WithoutLearns(s, a, a.w, w);
    if n != s && n != Without(s, a.w) {
      LearnsAtGate(s, a);
      PutLearns(s, a, a.w, n.workers[a.w], w);
    }
  }

  lemma {:induction false} LearnsAtGate(s: State, a: Action)
    requires IsGate(a) && GateStep(s, a) != s && GateStep(s, a) != Without(s, a.w)
    ensures var n := GateStep(s, a);
      && a.w in n.workers && n == s.(workers := s.workers[a.w := n.workers[a.w]])
      && LearnsNow(s, a.w, n.workers[a.w]) && !n.workers[a.w].Active?
  {
    match a
    case GateRead(w) =>
    case GateVerify(w) =>
    case GateIndex(w) =>
    case GateAgain(w) =>
  }

  lemma {:induction false} OtherLearns(s: State, a: Action, w: string)
    requires IsCreation(a) || a.SkipPhase? || a.Fail? || a.WorkerCrashes? || a.RowsChange?
    ensures Learns(s, a, Next(s, a), w)
  {}

  lemma {:induction false} StepLearns(s: State, a: Action, w: string)
    ensures Learns(s, a, Next(s, a), w)
  {
    match a
    case Claim(x, now, lease) => ClaimLearns(s, a, w);
    case ReadBatch(x, now, size) => ReadLearns(s, a, w);
    case CommitBatch(x, now, lease, existing, eligible, deleted) => CommitLearns(s, a, w);
    case CommitClose(x, now, lease) => CloseLearns(s, a, w);
    case ReadFinish(x, now) => FinishLearns(s, a, w);
    case CommitFinish(x, now) => FinishLearns(s, a, w);
    case _ => if IsGate(a) { GateLearns(s, a, w); } else { OtherLearns(s, a, w); }
  }

  /** What a worker rests on. */
  ghost predicate RestsOn(s: State, actions: seq<Action>, x: Worker) {
    match x
    case Reading(checksum) => Ever(actions, Marking(s, checksum))
    case Checking(v) => Ever(actions, Checked(s, v))
    case Indexed(v, b, listed) => Ever(actions, IndexedFrom(s, v, b, listed))
    case Gated(v) => PassedGate(s, actions, v)
    case Active(v, phase, tx) => PassedGate(s, actions, v)
    case Failing(v) => PassedGate(s, actions, v)
  }

  lemma {:induction false} PassedLater(s: State, actions: seq<Action>, n: nat, x: Verified)
    requires n <= |actions| && PassedGate(s, actions[..n], x)
    ensures PassedGate(s, actions, x)
  {
    var v: Verified, b: Archive :| x == v.(plan := x.plan) && Ever(actions[..n], GatePassed(s, v, b, x.plan));
    EverLater(actions, n, GatePassed(s, v, b, x.plan));
  }

  lemma {:induction false} RestsLater(s: State, actions: seq<Action>, n: nat, x: Worker)
    requires n <= |actions| && RestsOn(s, actions[..n], x)
    ensures RestsOn(s, actions, x)
  {
    match x
    case Reading(checksum) => EverLater(actions, n, Marking(s, checksum));
    case Checking(v) => EverLater(actions, n, Checked(s, v));
    case Indexed(v, b, listed) => EverLater(actions, n, IndexedFrom(s, v, b, listed));
    case _ => PassedLater(s, actions, n, x.verified);
  }

  lemma {:induction false} RestsNow(s: State, actions: seq<Action>, w: string, x: Worker)
    requires LearnsNow(Reached(s, actions), w, x) && Reached(s, actions).id == s.id
    requires w in Reached(s, actions).workers ==> RestsOn(s, actions, Reached(s, actions).workers[w])
    ensures RestsOn(s, actions, x)
  {
    match x
    case Reading(checksum) => EverNow(actions, Marking(s, checksum));
    case Checking(v) => EverNow(actions, Checked(s, v));
    case Indexed(v, b, listed) => EverNow(actions, IndexedFrom(s, v, b, listed));
    case Gated(v) =>
      var y := Reached(s, actions).workers[w];
      EverNow(actions, GatePassed(s, y.verified, y.source, y.listed));
      assert v == y.verified.(plan := v.plan);
    case _ =>
  }

  ghost predicate Knowledge(s: State, actions: seq<Action>, w: string) {
    var n := Reached(s, actions);
    && n.id == s.id
    && (w in n.workers ==> RestsOn(s, actions, n.workers[w]))
    && (HasBatch(n, w) ==> Ever(actions, Opening(s, w, n.workers[w].verified, n.workers[w].tx.value)))
  }

  /** In any run, whatever happens to the stored files: a worker past the gate has seen the run marked
      verified, then its archive verify with that run's checksum, then built its index from what was
      stored, then seen the archive verify again; and its open transaction began with a lease it held and
      with stored files that agreed with the snapshot. */
  lemma {:induction false} KnowledgeHolds(s: State, actions: seq<Action>, w: string)
    requires Initial(s)
    ensures Knowledge(s, actions, w)
  {
    if actions != [] {
      var n := |actions| - 1;
      KnowledgeHolds(s, actions[..n], w);
      StepLearns(Reached(s, actions[..n]), actions[n], w);
      if w in Reached(s, actions).workers { RestsGrow(s, actions, w, Reached(s, actions)); }
      if HasBatch(Reached(s, actions), w) { OpensGrow(s, actions, w, Reached(s, actions)); }
    }
  }

  lemma {:induction false} RestsGrow(s: State, actions: seq<Action>, w: string, now: State)
    requires actions != [] && w in now.workers
    requires var m := |actions| - 1;
      Knowledge(s, actions[..m], w) && Learns(Reached(s, actions[..m]), actions[m], now, w)
    ensures RestsOn(s, actions, now.workers[w])
  {
    var m := |actions| - 1;
    if LearnsNow(Reached(s, actions[..m]), w, now.workers[w]) { RestsNow(s, actions[..m], w, now.workers[w]); }
    RestsLater(s, actions, m, now.workers[w]);
  }

  lemma {:induction false} OpensGrow(s: State, actions: seq<Action>, w: string, now: State)
    requires actions != [] && HasBatch(now, w)
    requires var m := |actions| - 1;
      Knowledge(s, actions[..m], w) && Learns(Reached(s, actions[..m]), actions[m], now, w)
    ensures Ever(actions, Opening(s, w, now.workers[w].verified, now.workers[w].tx.value))
  {
    var m, test := |actions| - 1, Opening(s, w, now.workers[w].verified, now.workers[w].tx.value);
    if OpensBy(Reached(s, actions[..m]), actions[m], now, w) {
      EverNow(actions, test);
    } else {
      EverLater(actions, m, test);
    }
  }

  // ---------------------------------------------------------------- deletions

  /** A row disappears in this step, and it is a worker's commit that takes it. */
  predicate Deletes(s: State, a: Action, p: nat, id: string)
  {
    a.CommitBatch? && BatchReady(s, a.w, a.existing, a.eligible, a.deleted) && a.existing != {}
    && (p, id) in s.rows && p == s.workers[a.w].tx.value.phase && id in a.deleted
  }

  ghost predicate IsCandidate(v: Verified, p: nat, id: string) {
    p < |v.plan| && exists i :: 0 <= i < |v.plan[p]| && v.plan[p][i].entityId == id
  }

  /** The cleanup takes a row in this step. */
  ghost predicate DeletesRow(s: State, a: Action, p: nat, id: string) {
    !a.RowsChange? && (p, id) in s.rows && (p, id) !in Next(s, a).rows
  }

  /** Only commits of batches delete rows, and only while the run is as their transaction read it. */
  lemma {:induction false} OnlyCommitsDelete(s: State, a: Action, p: nat, id: string)
    requires DeletesRow(s, a, p, id)
    ensures Deletes(s, a, p, id)
    ensures id in Ids(s.workers[a.w].tx.value.batch)
    ensures VersionIs(s.tables, s.workers[a.w].tx.value.version) && LeaseHeld(s.tables.run.value, a.w, a.now)
  {
    match a
    case Claim(x, now, lease) =>
    case ReadBatch(x, now, size) =>
    case CommitBatch(x, now, lease, existing, eligible, deleted) =>
    case CommitClose(x, now, lease) =>
    case ReadFinish(x, now) =>
    case CommitFinish(x, now) =>
    case _ =>
  }

  lemma {:induction false} PageWithin(refs: seq<Ref>, at: Option<int>, id: Option<string>, n: int)
    ensures PageAfter(refs, at, id, n).Success? ==> forall x :: x in PageAfter(refs, at, id, n).value ==> x in refs
  {
    if PageAfter(refs, at, id, n).Success? {
      var rest := After(refs, if at.None? then None else Some(Ref(at.value, id.value)));
      SameMultisetSameElements(SortBy(rest, RefLess), rest);
      assert forall x :: x in SortBy(rest, RefLess) ==> x in Elements(SortBy(rest, RefLess));
    }
  }

  /** In any run, whatever happens to the stored files: a record is deleted only by a worker whose open
      transaction read it as a candidate of its index, while it held the lease and the stored files agreed
      with its snapshot, and only if no one has written to the run since. That worker passed the gate: the
      archive's run was marked verified, the archive verified with that run's checksum, the index was
      built, and the archive verified again. */
  lemma {:induction false} DeletionsAreAuthorized(s: State, actions: seq<Action>, a: Action, p: nat, id: string)
    requires Initial(s) && DeletesRow(Reached(s, actions), a, p, id)
    ensures var n := Reached(s, actions);
      && a.CommitBatch? && HasBatch(n, a.w)
      && var v, tx := n.workers[a.w].verified, n.workers[a.w].tx.value;
         && p == tx.phase && id in Ids(tx.batch)
         && Ever(actions, Opening(s, a.w, v, tx))
         && VersionIs(n.tables, tx.version) && LeaseHeld(n.tables.run.value, a.w, a.now)
         && PassedGate(s, actions, v)
         && IsCandidate(v, p, id)
  {
    var n := Reached(s, actions);
    OnlyCommitsDelete(n, a, p, id);
    KnowledgeHolds(s, actions, a.w);
    var v, tx := n.workers[a.w].verified, n.workers[a.w].tx.value;
    OpenedWithin(s, actions, a.w, v, tx);
    BatchIsCandidate(v, p, tx.batch, id);
  }

  lemma {:induction false} BatchIsCandidate(v: Verified, p: nat, batch: seq<Ref>, id: string)
    requires id in Ids(batch) && p < |v.plan| && forall x :: x in batch ==> x in v.plan[p]
    ensures IsCandidate(v, p, id)
  {
    var i :| 0 <= i < |batch| && batch[i].entityId == id;
    assert batch[i] in batch;
  }

  lemma {:induction false} OpenedWithin(s: State, actions: seq<Action>, w: string, v: Verified, tx: Tx)
    requires Ever(actions, Opening(s, w, v, tx))
    ensures tx.BatchTx? && tx.phase < |v.plan| && forall x :: x in tx.batch ==> x in v.plan[tx.phase]
  {
    var n :| 0 <= n <= |actions| && Opening(s, w, v, tx)(actions[..n]);
    var a := actions[..n][n - 1];
    OpensWithin(Reached(s, actions[..n][..n - 1]), w, a.now, a.size, v, tx);
  }

  lemma {:induction false} OpensWithin(s: State, w: string, now: int, size: nat, v: Verified, tx: Tx)
    requires Opens(s, w, now, size, v, tx)
    ensures tx.BatchTx? && tx.phase < |v.plan| && forall x :: x in tx.batch ==> x in v.plan[tx.phase]
  {
    var g := s.tables.progress[tx.phase];
    PageWithin(v.plan[tx.phase], CursorAt(g.cursor), CursorId(g.cursor), size);
  }

  /** When the indexes are sound, what is deleted is a retention candidate of the archive itself, and the
      cleanup run was created for exactly that archive's snapshot. */
  lemma {:induction false} DeletionsAreCandidates(s: State, actions: seq<Action>, a: Action, p: nat, id: string)
    requires Initial(s) && SoundIndexes(s, actions) && DeletesRow(Reached(s, actions), a, p, id)
    ensures var n := Reached(s, actions);
      && n.origin.Some? && n.tables.run.Some? && Genuine(n.origin.value)
      && IsCandidate(n.origin.value, p, id)
      && Ever(actions, Checked(s, n.origin.value))
      && n.tables.run.value.snapshot == n.origin.value.snapshot
  {
    var n := Reached(s, actions);
    DeletionsAreAuthorized(s, actions, a, p, id);
    RunKeepsInv(s, actions);
    WorkerTx(n, a.w);
    GateWasChecked(s, actions, n.origin.value);
  }

  lemma {:induction false} WorkerTx(n: State, w: string)
    requires InvOf(StoredArchives())(n) && HasBatch(n, w)
    ensures n.origin == Some(n.workers[w].verified) && n.tables.run.Some? && Genuine(n.origin.value)
    ensures n.tables.run.value.snapshot == n.workers[w].verified.snapshot
  {
    assert WorkerRight(n.workers[w], n.tables, n.origin, StoredArchives());
  }

  lemma {:induction false} EverChecked(s: State, actions: seq<Action>, v: Verified)
    requires Ever(actions, Checked(s, v))
    ensures Genuine(v)
  {
    var n :| 0 <= n <= |actions| && Checked(s, v)(actions[..n]);
    assert VerifiesAs(Reached(s, actions[..n]).creation.finalized.value, v);
  }

  lemma {:induction false} EverIndexed(s: State, actions: seq<Action>, v: Verified, b: Archive, listed: seq<seq<Ref>>)
    requires Ever(actions, IndexedFrom(s, v, b, listed))
    ensures Ever(actions, Checked(s, v))
  {
    var n :| 0 <= n <= |actions| && IndexedFrom(s, v, b, listed)(actions[..n]);
    EverLater(actions, n, Checked(s, v));
  }

  lemma {:induction false} EverPassed(s: State, actions: seq<Action>, v: Verified, b: Archive, listed: seq<seq<Ref>>)
    requires Ever(actions, GatePassed(s, v, b, listed))
    ensures Ever(actions, Checked(s, v))
  {
    var n :| 0 <= n <= |actions| && GatePassed(s, v, b, listed)(actions[..n]);
    EverLater(actions, n, IndexedFrom(s, v, b, listed));
    EverIndexed(s, actions, v, b, listed);
  }

  /** A genuine plan is that of the verification at the gate. */
  lemma {:induction false} GateWasChecked(s: State, actions: seq<Action>, x: Verified)
    requires PassedGate(s, actions, x) && Genuine(x)
    ensures Ever(actions, Checked(s, x))
  {
    var v: Verified, b: Archive :| x == v.(plan := x.plan) && Ever(actions, GatePassed(s, v, b, x.plan));
    EverPassed(s, actions, v, b, x.plan);
    EverChecked(s, actions, v);
    SnapshotDetermines(v, x);
  }
}
