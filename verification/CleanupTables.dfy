/** The cleanup run, its progress rows in cleanup order, and the guarded updates that alone change them. */
module CleanupTables {
  import opened Ordering
  import opened Archives
  import opened ArchiveIndex
  import opened ArchiveSnapshots

  datatype RunStatus = Pending | Running | Completed | Failed

  datatype Run = Run(
    snapshot: Snapshot, status: RunStatus, owner: Option<string>, leaseUntil: Option<int>, attempts: nat,
    current: Option<nat>, deleted: nat, protected: nat, missing: nat, version: nat)

  datatype Phase = Waiting | Scanning | Done

  datatype Progress = Progress(
    status: Phase, cursor: Option<Ref>, scanned: nat, deleted: nat, protected: nat, missing: nat)

  datatype Tables = Tables(run: Option<Run>, progress: seq<Progress>)

  /** What became of one batch of candidates. */
  datatype Counts = Counts(scanned: nat, deleted: nat, protected: nat, missing: nat)

  datatype Refusal = LeaseLost | ProgressConflict | ProgressIncomplete | LeaseActive | ArchiveMismatch | RunMissing

  const NO_TABLES: Tables := Tables(None, [])

  function NewRun(s: Snapshot): Run {
    Run(s, Pending, None, None, 0, Some(0), 0, 0, 0, 1)
  }

  function NewProgress(): seq<Progress> { seq(PHASES, _ => Progress(Waiting, None, 0, 0, 0, 0)) }

  // ---------------------------------------------------------------- guarded updates

  /** The lease is `owner`'s and has not expired. */
  predicate LeaseHeld(run: Run, owner: string, now: int) {
    run.status == Running && run.owner == Some(owner) && run.leaseUntil.Some? && run.leaseUntil.value > now
  }

  predicate Claimable(run: Run, now: int) {
    || run.status == Pending || run.status == Failed
    || (run.status == Running && (run.leaseUntil.None? || run.leaseUntil.value <= now))
  }

  function Claimed(run: Run, owner: string, now: int, lease: nat): Run {
    run.(status := Running, owner := Some(owner), leaseUntil := Some(now + lease),
         attempts := run.attempts + 1, version := run.version + 1)
  }

  /** `apply_batch`: the progress row moves on and the run is updated, or neither. */
  function ApplyBatch(t: Tables, p: nat, owner: string, version: nat, now: int, lease: nat, c: Counts, last: Ref)
    : Result<Tables, Refusal>
    requires p < |t.progress|
  {
    var g := t.progress[p];
    if g.status == Done then Failure(ProgressConflict)
    else if t.run.None? || !LeaseHeld(t.run.value, owner, now) || t.run.value.version != version then Failure(LeaseLost)
    else
      var run := t.run.value;
      Success(Tables(
        Some(run.(current := Some(p), leaseUntil := Some(now + lease), deleted := run.deleted + c.deleted,
                  protected := run.protected + c.protected, missing := run.missing + c.missing, version := run.version
                    + 1)),
        t.progress[p := Progress(Scanning, Some(last), g.scanned + c.scanned, g.deleted + c.deleted,
                                 g.protected + c.protected, g.missing + c.missing)]))
  }

  /** `complete_progress`. */
  function CompleteProgress(t: Tables, p: nat, owner: string, version: nat, now: int,
      lease: nat): Result<Tables, Refusal>
    requires p < |t.progress|
  {
    var g := t.progress[p];
    if g.status == Done then Failure(ProgressConflict)
    else if t.run.None? || !LeaseHeld(t.run.value, owner, now) || t.run.value.version != version then Failure(LeaseLost)
    else
      var run := t.run.value;
      Success(Tables(
        Some(run.(current := if p + 1 < PHASES
          then Some(p + 1) else None, leaseUntil := Some(now + lease), version := run.version + 1)),
        t.progress[p := g.(status := Done)]))
  }

  /** `complete_run`. */
  function CompleteRun(t: Tables, owner: string, version: nat, now: int): Result<Tables, Refusal> {
    if t.run.None? || !LeaseHeld(t.run.value, owner, now) || t.run.value.version != version then Failure(LeaseLost)
    else
      var run := t.run.value;
      Success(t.(run := Some(run.(status := Completed, owner := None, leaseUntil := None, current := None,
        version := run.version + 1))))
  }

  /** `fail_run`: needs neither an unexpired lease nor a version. */
  function FailRun(t: Tables, owner: string): Tables {
    if t.run.Some? && t.run.value.status == Running && t.run.value.owner == Some(owner) then
      t.(run := Some(t.run.value.(status := Failed, owner := None, leaseUntil := None, version := t.run.value.version
        + 1)))
    else t
  }

  /** `_prepare_and_claim`: creates the run and its progress rows if there are none, checks that it
      belongs to the same archive contents, and takes the lease. */
  function PrepareAndClaim(t: Tables, s: Snapshot, owner: string, now: int, lease: nat): Result<Tables, Refusal> {
    if t.run.None? then Success(Tables(Some(Claimed(NewRun(s), owner, now, lease)), NewProgress()))
    else if t.run.value.snapshot != s then Failure(ArchiveMismatch)
    else if t.run.value.status == Completed then Success(t)
    else if !Claimable(t.run.value, now) then Failure(LeaseActive)
    else Success(t.(run := Some(Claimed(t.run.value, owner, now, lease))))
  }

  // ---------------------------------------------------------------- invariant

  /** One phase: its cursor and counters account for exactly the candidates classified so far, which
      are the first ones of its sequence. */
  ghost predicate PhaseRight(g: Progress, classified: seq<Ref>, refs: seq<Ref>) {
    && g.scanned <= |refs|
    && g.cursor == Cursor(refs, g.scanned)
    && classified == refs[..g.scanned]
    && g.deleted + g.protected + g.missing == g.scanned
    && (g.status == Waiting ==> g.scanned == 0)
    && (g.status == Done ==> g.scanned == |refs|)
  }

  ghost predicate PhasesRight(t: Tables, classified: seq<seq<Ref>>, plan: seq<seq<Ref>>) {
    && |t.progress| == |classified| == |plan| == PHASES
    && forall p :: 0 <= p < PHASES ==> PhaseRight(t.progress[p], classified[p], plan[p])
  }

  /** No phase has begun before every earlier one is done. */
  ghost predicate InOrder(progress: seq<Progress>) {
    forall p, q :: 0 <= p < q < |progress| && progress[q].status != Waiting ==> progress[p].status == Done
  }

  /** The run's counters are the sums of the phases'. */
  ghost predicate SumsRight(run: Run, g: seq<Progress>)
    requires |g| == PHASES
  {
    && run.deleted == g[0].deleted + g[1].deleted + g[2].deleted + g[3].deleted + g[4].deleted
    && run.protected == g[0].protected + g[1].protected + g[2].protected + g[3].protected + g[4].protected
    && run.missing == g[0].missing + g[1].missing + g[2].missing + g[3].missing + g[4].missing
  }

  ghost predicate DoneTo(progress: seq<Progress>, n: nat) {
    n <= |progress| && forall p :: 0 <= p < n ==> progress[p].status == Done
  }

  /** What every committed state of the tables satisfies; `classified` is what has been classified in
      each phase, in the order it was, over all workers. */
  ghost predicate TablesRight(t: Tables, classified: seq<seq<Ref>>, v: Verified) {
    if t.run.None? then t.progress == [] && classified == [[], [], [], [], []]
    else
      && t.run.value.snapshot == v.snapshot
      && PhasesRight(t, classified, v.plan)
      && InOrder(t.progress)
      && SumsRight(t.run.value, t.progress)
      && (t.run.value.status == Completed ==> DoneTo(t.progress, PHASES))
  }

  // ---------------------------------------------------------------- what each update does to a lease

  ghost predicate HeldBySome(run: Run, now: int) { exists o :: LeaseHeld(run, o, now) }

  /** The run is held, by `owner` alone, at every moment before `until` and at none after. */
  ghost predicate HeldUntil(run: Run, owner: string, until: int) {
    forall o, now :: LeaseHeld(run, o, now) <==> o == owner && now < until
  }

  ghost predicate HeldByNone(run: Run) { forall o, now :: !LeaseHeld(run, o, now) }

  predicate SameWork(run: Run, n: Run) {
    && n.snapshot == run.snapshot && n.deleted == run.deleted && n.protected == run.protected
    && n.missing == run.missing
  }

  predicate Untouched(g: Progress) {
    g.status == Waiting && g.cursor.None? && g.scanned == 0 && g.deleted == 0 && g.protected == 0 && g.missing == 0
  }

  /** A claimed run goes on where the last worker stopped; a new one begins with nothing done. */
  predicate TakesUp(t: Tables, n: Tables)
    requires n.run.Some?
  {
    if t.run.None? then
      && |n.progress| == 5 && (forall g :: g in n.progress ==> Untouched(g))
      && n.run.value.deleted == 0 && n.run.value.protected == 0 && n.run.value.missing == 0 && n.run.value.attempts == 1
    else
      && n.progress == t.progress && SameWork(t.run.value, n.run.value) && n.run.value.current == t.run.value.current
      && n.run.value.attempts == t.run.value.attempts + 1 && n.run.value.version == t.run.value.version + 1
  }

  /** What a claim comes to: refused for another archive, or while someone holds the run; left as it is when
      completed; otherwise held by the claimant for just the lease. */
  lemma {:induction false} ClaimExactly(t: Tables, s: Snapshot, owner: string, now: int, lease: nat)
    requires t.run.Some? && t.run.value.status == Running ==> t.run.value.owner.Some?
    ensures match PrepareAndClaim(t, s, owner, now, lease)
      case Failure(why) =>
        && t.run.Some? && why == (if t.run.value.snapshot != s then ArchiveMismatch else LeaseActive)
        && (t.run.value.snapshot == s ==> HeldBySome(t.run.value, now))
      case Success(n) =>
        && n.run.Some? && n.run.value.snapshot == s
        && (t.run.Some? ==> t.run.value.snapshot == s && !HeldBySome(t.run.value, now))
        && if t.run.Some? && t.run.value.status == Completed then n == t
           else HeldUntil(n.run.value, owner, now + lease) && TakesUp(t, n)
  {
    if t.run.Some? && t.run.value.owner.Some? {
      assert LeaseHeld(t.run.value, t.run.value.owner.value, now) <==> HeldBySome(t.run.value, now);
    }
  }

  /** A guarded update is refused exactly when the phase is over, or the worker does not hold the run at the
      version it read. */
  predicate MayUpdate(t: Tables, owner: string, version: nat, now: int) {
    t.run.Some? && LeaseHeld(t.run.value, owner, now) && t.run.value.version == version
  }

  ghost predicate Renewed(t: Tables, n: Tables, owner: string, until: int)
    requires t.run.Some?
  {
    && n.run.Some? && HeldUntil(n.run.value, owner, until) && n.run.value.version == t.run.value.version + 1
    && n.run.value.snapshot == t.run.value.snapshot && n.run.value.attempts == t.run.value.attempts
  }

  predicate OthersKept(t: Tables, n: Tables, p: nat) {
    |n.progress| == |t.progress| && forall q :: 0 <= q < |t.progress| && q != p ==> n.progress[q] == t.progress[q]
  }

  /** A committed batch renews the lease, moves the cursor of its phase and adds to both counts. */
  lemma {:induction false} BatchExactly(t: Tables, p: nat, owner: string, version: nat, now: int, lease: nat,
      c: Counts, last: Ref)
    requires p < |t.progress|
    ensures match ApplyBatch(t, p, owner, version, now, lease, c, last)
      case Failure(why) =>
        if t.progress[p].status == Done then why == ProgressConflict
        else why == LeaseLost && !MayUpdate(t, owner, version, now)
      case Success(n) =>
        && MayUpdate(t, owner, version, now) && t.progress[p].status != Done
        && Renewed(t, n, owner, now + lease) && OthersKept(t, n, p)
        && var g, h, r, m := t.progress[p], n.progress[p], t.run.value, n.run.value;
           && h.status == Scanning && h.cursor == Some(last) && m.current == Some(p)
           && h.scanned == g.scanned + c.scanned && h.deleted == g.deleted + c.deleted
           && h.protected == g.protected + c.protected && h.missing == g.missing + c.missing
           && m.deleted == r.deleted + c.deleted && m.protected == r.protected + c.protected
           && m.missing == r.missing + c.missing
  {}

  /** A finished phase is marked, the lease renewed, and the next phase named. */
  lemma {:induction false} CloseExactly(t: Tables, p: nat, owner: string, version: nat, now: int, lease: nat)
    requires p < |t.progress|
    ensures match CompleteProgress(t, p, owner, version, now, lease)
      case Failure(why) =>
        if t.progress[p].status == Done then why == ProgressConflict
        else why == LeaseLost && !MayUpdate(t, owner, version, now)
      case Success(n) =>
        && MayUpdate(t, owner, version, now) && t.progress[p].status != Done
        && Renewed(t, n, owner, now + lease) && OthersKept(t, n, p) && SameWork(t.run.value, n.run.value)
        && n.progress[p] == t.progress[p].(status := n.progress[p].status) && n.progress[p].status == Done
        && n.run.value.current == (if p < 4 then Some(p + 1) else None)
  {}

  /** A completed run is nobody's and keeps its counts; so is and does a failed one. */
  lemma {:induction false} ReleaseExactly(t: Tables, owner: string, version: nat, now: int)
    ensures match CompleteRun(t, owner, version, now)
      case Failure(why) => why == LeaseLost && !MayUpdate(t, owner, version, now)
      case Success(n) =>
        MayUpdate(t, owner, version, now) && Let(t, n) && n.run.value.status == Completed && n.run.value.current.None?
    ensures var n := FailRun(t, owner);
      if t.run.Some? && t.run.value.status == Running && t.run.value.owner == Some(owner) then
        Let(t, n) && n.run.value.status == Failed && n.run.value.current == t.run.value.current
      else n == t
  {}

  /** The run is let go: no one holds it, the next claim succeeds at any time unless it is completed. */
  ghost predicate Let(t: Tables, n: Tables) {
    && t.run.Some? && n.run.Some? && n.progress == t.progress && SameWork(t.run.value, n.run.value)
    && HeldByNone(n.run.value) && n.run.value.owner.None? && n.run.value.leaseUntil.None?
    && n.run.value.version == t.run.value.version + 1 && n.run.value.attempts == t.run.value.attempts
    && forall now :: Claimable(n.run.value, now) <==> n.run.value.status != Completed
  }

  // ---------------------------------------------------------------- each update keeps it

  lemma {:induction false} ClaimKeeps(t: Tables, classified: seq<seq<Ref>>, v: Verified, owner: string, now: int,
      lease: nat)
    requires TablesRight(t, classified, v) && Orderly(v)
    requires PrepareAndClaim(t, v.snapshot, owner, now, lease).Success?
    ensures TablesRight(PrepareAndClaim(t, v.snapshot, owner, now, lease).value, classified, v)
  {
    if t.run.None? {
      var n := PrepareAndClaim(t, v.snapshot, owner, now, lease).value;
      forall p | 0 <= p < PHASES ensures PhaseRight(n.progress[p], classified[p], v.plan[p]) {
        assert classified[p] == [];
      }
    }
  }

  /** A worker whose version is still current commits the next slice of its phase: with it, `done` is
      what has been classified, and `last` is its last candidate. */
  lemma {:induction false} BatchKeeps(t: Tables, classified: seq<seq<Ref>>, v: Verified, p: nat, done: seq<Ref>,
      last: Ref, owner: string, version: nat, now: int, lease: nat, c: Counts)
    requires TablesRight(t, classified, v) && t.run.Some? && p < PHASES && DoneTo(t.progress, p)
    requires t.progress[p].scanned < |done| <= |v.plan[p]| && done == v.plan[p][..|done|]
      && last == v.plan[p][|done| - 1]
    requires c.scanned == |done| - t.progress[p].scanned && c.deleted + c.protected + c.missing == c.scanned
    requires ApplyBatch(t, p, owner, version, now, lease, c, last).Success?
    ensures TablesRight(ApplyBatch(t, p, owner, version, now, lease, c, last).value, classified[p := done], v)
  {
    var n := ApplyBatch(t, p, owner, version, now, lease, c, last).value;
    assert PhaseRight(t.progress[p], classified[p], v.plan[p]);
    PhaseUpdates(t.progress, n.progress, classified, v.plan, p, done);
    OrderUpdates(t.progress, p, n.progress[p]);
    SumsUpdate(t.run.value, t.progress, p, n.run.value, n.progress[p], c);
  }

  lemma {:induction false} PhaseUpdates(g: seq<Progress>, h: seq<Progress>, classified: seq<seq<Ref>>,
      plan: seq<seq<Ref>>, p: nat, done: seq<Ref>)
    requires |g| == |h| == |classified| == |plan| == PHASES && p < PHASES && h == g[p := h[p]]
    requires forall q :: 0 <= q < PHASES ==> PhaseRight(g[q], classified[q], plan[q])
    requires PhaseRight(h[p], done, plan[p])
    ensures forall q :: 0 <= q < PHASES ==> PhaseRight(h[q], classified[p := done][q], plan[q])
  {}

  lemma {:induction false} OrderUpdates(g: seq<Progress>, p: nat, n: Progress)
    requires |g| == PHASES && p < PHASES && InOrder(g) && DoneTo(g, p) && g[p].status != Done
    ensures InOrder(g[p := n])
  {}

  lemma {:induction false} SumsUpdate(run: Run, g: seq<Progress>, p: nat, after: Run, n: Progress, c: Counts)
    requires |g| == PHASES && p < PHASES && SumsRight(run, g)
    requires n.deleted == g[p].deleted + c.deleted && after.deleted == run.deleted + c.deleted
    requires n.protected == g[p].protected + c.protected && after.protected == run.protected + c.protected
    requires n.missing == g[p].missing + c.missing && after.missing == run.missing + c.missing
    ensures SumsRight(after, g[p := n])
  {}

  lemma {:induction false} CloseKeeps(t: Tables, classified: seq<seq<Ref>>, v: Verified, p: nat, owner: string,
      version: nat, now: int, lease: nat)
    requires TablesRight(t, classified, v) && t.run.Some? && p < PHASES && DoneTo(t.progress, p)
    requires t.progress[p].scanned == |v.plan[p]|
    requires CompleteProgress(t, p, owner, version, now, lease).Success?
    ensures TablesRight(CompleteProgress(t, p, owner, version, now, lease).value, classified, v)
    ensures DoneTo(CompleteProgress(t, p, owner, version, now, lease).value.progress, p + 1)
  {
    var n := CompleteProgress(t, p, owner, version, now, lease).value;
    assert PhaseRight(t.progress[p], classified[p], v.plan[p]);
    PhaseUpdates(t.progress, n.progress, classified, v.plan, p, classified[p]);
    assert classified[p := classified[p]] == classified;
    OrderUpdates(t.progress, p, n.progress[p]);
    SumsUpdate(t.run.value, t.progress, p, n.run.value, n.progress[p], Counts(0, 0, 0, 0));
  }

  lemma {:induction false} CompleteRunKeeps(t: Tables, classified: seq<seq<Ref>>, v: Verified, owner: string,
      version: nat, now: int)
    requires TablesRight(t, classified, v) && t.run.Some? && DoneTo(t.progress, PHASES)
    requires CompleteRun(t, owner, version, now).Success?
    ensures TablesRight(CompleteRun(t, owner, version, now).value, classified, v)
  {}

  lemma {:induction false} FailRunKeeps(t: Tables, classified: seq<seq<Ref>>, v: Verified, owner: string)
    requires TablesRight(t, classified, v)
    ensures TablesRight(FailRun(t, owner), classified, v)
  {}

  // ---------------------------------------------------------------- what no update takes back

  predicate MovesOn(g: Progress, h: Progress) {
    g.scanned <= h.scanned && (g.status == Done ==> h.status == Done)
  }

  /** Every change to the tables raises the version, and what is done stays done. */
  ghost predicate Evolves(t: Tables, n: Tables) {
    t.run.Some? ==>
      && n.run.Some? && n.run.value.snapshot == t.run.value.snapshot
      && |n.progress| == |t.progress|
      && (forall p :: 0 <= p < |t.progress| ==> MovesOn(t.progress[p], n.progress[p]))
      && (n == t || n.run.value.version > t.run.value.version)
  }

  lemma {:induction false} BatchEvolves(t: Tables, p: nat, w: string, version: nat, now: int, lease: nat, c: Counts,
      last: Ref)
    requires p < |t.progress|
    ensures ApplyBatch(t, p, w, version, now, lease, c, last).Success? ==>
      Evolves(t, ApplyBatch(t, p, w, version, now, lease, c, last).value)
  {}

  lemma {:induction false} ClaimEvolves(t: Tables, s: Snapshot, owner: string, now: int, lease: nat)
    requires t.run.Some?
    ensures PrepareAndClaim(t, s, owner, now, lease).Success? ==>
      Evolves(t, PrepareAndClaim(t, s, owner, now, lease).value)
  {}

  lemma {:induction false} CloseEvolves(t: Tables, p: nat, w: string, version: nat, now: int, lease: nat)
    requires p < |t.progress|
    ensures CompleteProgress(t, p, w, version, now, lease).Success? ==>
      Evolves(t, CompleteProgress(t, p, w, version, now, lease).value)
  {}

  lemma {:induction false} CompleteRunEvolves(t: Tables, w: string, version: nat, now: int)
    ensures CompleteRun(t, w, version, now).Success? ==> Evolves(t, CompleteRun(t, w, version, now).value)
  {}

  lemma {:induction false} FailRunEvolves(t: Tables, w: string)
    ensures Evolves(t, FailRun(t, w))
  {}

  // ---------------------------------------------------------------- consequences

  lemma {:induction false} AllClassified(t: Tables, classified: seq<seq<Ref>>, plan: seq<seq<Ref>>, n: nat)
    requires PhasesRight(t, classified, plan) && n <= PHASES && DoneTo(t.progress, n)
    ensures forall p :: 0 <= p < n ==> classified[p] == plan[p]
  {
    forall p | 0 <= p < n ensures classified[p] == plan[p] {
      assert PhaseRight(t.progress[p], classified[p], plan[p]);
      assert plan[p][..|plan[p]|] == plan[p];
    }
  }

  /** A completed run has classified every candidate of every phase, each once and in order, and its
      counters add up to the number of candidates in the manifest. */
  lemma {:induction false} CompletedIsComplete(t: Tables, classified: seq<seq<Ref>>, v: Verified)
    requires TablesRight(t, classified, v) && Orderly(v) && t.run.Some? && t.run.value.status == Completed
    ensures classified == v.plan
    ensures t.run.value.deleted + t.run.value.protected + t.run.value.missing == v.candidates
  {
    AllClassified(t, classified, v.plan, PHASES);
    assert classified == v.plan;
    SizeOfFive(v.plan);
    forall p | 0 <= p < PHASES ensures t.progress[p].scanned == |v.plan[p]|
                                       && t.progress[p].deleted + t.progress[p].protected
                                         + t.progress[p].missing == |v.plan[p]| {
      assert PhaseRight(t.progress[p], classified[p], v.plan[p]);
    }
  }

  /** Nothing of a later type is classified before every earlier type is finished. */
  lemma {:induction false} PhasesInOrder(t: Tables, classified: seq<seq<Ref>>, v: Verified, p: nat, q: nat)
    requires TablesRight(t, classified, v) && p < q < PHASES && t.run.Some? && classified[q] != []
    ensures t.progress[p].status == Done && classified[p] == v.plan[p]
  {
    assert PhaseRight(t.progress[q], classified[q], v.plan[q]);
    assert PhaseRight(t.progress[p], classified[p], v.plan[p]);
    assert v.plan[p][..|v.plan[p]|] == v.plan[p];
  }

  /** The cursor of a progress row is never refused: the next page is the next slice. */
  lemma {:induction false} CursorAccepted(t: Tables, classified: seq<seq<Ref>>, v: Verified, p: nat, n: nat)
    requires TablesRight(t, classified, v) && Orderly(v) && t.run.Some? && p < PHASES && 1 <= n <= MAX_BATCH
    ensures var g := t.progress[p];
      && g.scanned <= |v.plan[p]|
      && PageAfter(v.plan[p], CursorAt(g.cursor), CursorId(g.cursor), n)
         == Success(v.plan[p][g.scanned..Upto(v.plan[p], g.scanned, n)])
  {
    assert PhaseRight(t.progress[p], classified[p], v.plan[p]);
    PageIsSlice(v.plan[p], t.progress[p].scanned, n);
  }

  // ---------------------------------------------------------------- classification of a batch

  function Ids(batch: seq<Ref>): set<string> { set r | r in batch :: r.entityId }

  lemma {:induction false} DistinctIdsSize(batch: seq<Ref>)
    requires IdsDistinct(batch)
    ensures |Ids(batch)| == |batch|
  {
    if batch != [] {
      var n := |batch| - 1;
      DistinctIdsSize(batch[..n]);
      assert batch == batch[..n] + [batch[n]];
      assert Ids(batch) == Ids(batch[..n]) + {batch[n].entityId};
    }
  }

  /** The identifiers of a batch that are still in the database. */
  function Present(rows: set<(nat, string)>, p: nat, batch: seq<Ref>): set<string> {
    set r | r in rows && r.0 == p && r.1 in Ids(batch) :: r.1
  }

  lemma {:induction false} PresentIsWithin(rows: set<(nat, string)>, p: nat, batch: seq<Ref>)
    ensures Present(rows, p, batch) <= Ids(batch)
  {}

  /** `existing` are the rows still there, `eligible` those that are still candidates, and `deleted`
      those whose dependents are all archived too. */
  function Classify(batch: seq<Ref>, existing: set<string>, eligible: set<string>, deleted: set<string>): Counts {
    Counts(|batch|, |deleted|, |existing - eligible| + |eligible - deleted|, |Ids(batch) - existing|)
  }

  /** Every candidate of a batch is counted once, so the check on the counts never fails. */
  lemma {:induction false} ClassifyAddsUp(batch: seq<Ref>, existing: set<string>, eligible: set<string>,
      deleted: set<string>)
    requires IdsDistinct(batch) && deleted <= eligible <= existing <= Ids(batch)
    ensures var c := Classify(batch, existing, eligible, deleted); c.deleted + c.protected + c.missing == c.scanned
  {
    DistinctIdsSize(batch);
    var ids := Ids(batch);
    assert existing == (existing - eligible) + eligible;
    assert eligible == (eligible - deleted) + deleted;
    assert ids == (ids - existing) + existing;
  }

  lemma {:induction false} PresentExactly(rows: set<(nat, string)>, p: nat, batch: seq<Ref>, id: string)
    ensures id in Present(rows, p, batch) <==>
      (p, id) in rows && exists i :: 0 <= i < |batch| && batch[i].entityId == id
  {
    if id in Ids(batch) {
      var r :| r in batch && r.entityId == id;
      var i :| 0 <= i < |batch| && batch[i] == r;
    }
    if i :| 0 <= i < |batch| && batch[i].entityId == id { assert batch[i] in batch; }
  }

  /** The rows of one phase with these identifiers. */
  function RowsOf(p: nat, ids: set<string>): (rows: set<(nat, string)>)
    ensures forall r :: r in rows <==> r.0 == p && r.1 in ids
  {
    set id | id in ids :: (p, id)
  }

  lemma {:induction false} RowsOfSize(p: nat, ids: set<string>)
    ensures |RowsOf(p, ids)| == |ids|
  {
    if ids != {} {
      var id :| id in ids;
      RowsOfSize(p, ids - {id});
      assert RowsOf(p, ids) == RowsOf(p, ids - {id}) + {(p, id)};
    }
  }

  lemma {:induction false} OutcomeSets(rows: set<(nat, string)>, p: nat, batch: seq<Ref>, deleted: set<string>)
    requires deleted <= Present(rows, p, batch)
    ensures var there, all, after := Present(rows, p, batch), RowsOf(p, Ids(batch)), rows - RowsOf(p, deleted);
      && rows - after == RowsOf(p, deleted)
      && all * after == RowsOf(p, there - deleted)
      && all - rows == RowsOf(p, Ids(batch) - there)
  {}

  lemma {:induction false} DifferenceInSteps(a: set<string>, b: set<string>, c: set<string>)
    requires c <= b <= a
    ensures |a - c| == |a - b| + |b - c|
  {
    assert a - c == (a - b) + (b - c);
  }

  /** What each counter means: the rows that go, the rows of the batch that stay, and the candidates of the
      batch that were not there. */
  lemma {:induction false} CountsAreOutcomes(rows: set<(nat, string)>, p: nat, batch: seq<Ref>, eligible: set<string>,
      deleted: set<string>)
    requires deleted <= eligible <= Present(rows, p, batch)
    ensures var c := Classify(batch, Present(rows, p, batch), eligible, deleted);
      var after, all := rows - RowsOf(p, deleted), RowsOf(p, Ids(batch));
      && c.scanned == |batch|
      && c.deleted == |rows - after| && c.protected == |all * after| && c.missing == |all - rows|
  {
    var there := Present(rows, p, batch);
    OutcomeSets(rows, p, batch, deleted);
    RowsOfSize(p, deleted);
    RowsOfSize(p, there - deleted);
    RowsOfSize(p, Ids(batch) - there);
    DifferenceInSteps(there, eligible, deleted);
  }
}
