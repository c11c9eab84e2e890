/** The cleanup worker itself: its gate, the tables it updates in place and its loop over phases and batches,
    while other workers may run, and stored files may change, between any two of its steps. */
module CleanupService {
  import opened Ordering
  import opened Archives
  import opened ArchiveIo
  import opened ArchiveIndex
  import opened ArchiveSnapshots
  import opened CleanupTables
  import opened CleanupProtocol
  import opened CleanupBatches

  ghost predicate RespectsAt(e: Environment, v: Verified, k: nat, x: World) {
    TablesRight(x.tables, x.classified, v) ==>
      && TablesRight(e.others(k, x).tables, e.others(k, x).classified, v)
      && Evolves(x.tables, e.others(k, x).tables)
  }

  /** Others keep the tables right and take nothing back, as every step of the protocol does. */
  ghost predicate Respectful(e: Environment, v: Verified) {
    forall k, x :: RespectsAt(e, v, k, x)
  }

  datatype Outcome = Finished | Refused(reason: Refusal) | Unstable | GateClosed

  predicate StableAt(e: Environment, v: Verified, k: nat) { StabilityFault(e.stored(k), v.snapshot).None? }

  // ---------------------------------------------------------------- left alone

  /** Nobody else commits, the stored archive stays as it is, and eight steps take less than a lease. */
  ghost predicate Calm(e: Environment, v: Verified, lease: nat) {
    && Alone(e)
    && (forall k :: StableAt(e, v, k))
    && (forall j, k :: 0 <= j <= k <= j + PHASES + 2 ==> e.clock(k) < e.clock(j) + lease)
  }

  /** `w` has the lease of the run, until this time. */
  predicate LeasedUntil(t: Tables, v: Verified, w: string, until: int) {
    && t.run.Some? && t.run.value.status == Running && t.run.value.owner == Some(w)
    && t.run.value.leaseUntil == Some(until) && t.run.value.snapshot == v.snapshot
  }

  /** It took or renewed its lease at step `k`. */
  predicate RenewedAt(t: Tables, v: Verified, w: string, e: Environment, k: nat, lease: nat) {
    LeasedUntil(t, v, w, e.clock(k) + lease)
  }

  /** It did so not long before step `k`. */
  ghost predicate Fresh(t: Tables, v: Verified, w: string, e: Environment, k: nat, lease: nat, steps: nat) {
    exists j :: 0 <= j <= k <= j + steps && RenewedAt(t, v, w, e, j, lease)
  }

  lemma {:induction false} FreshIsHeld(t: Tables, v: Verified, w: string, e: Environment, k: nat, lease: nat,
      steps: nat)
    requires Calm(e, v, lease) && steps <= PHASES + 1 && Fresh(t, v, w, e, k, lease, steps)
    ensures t.run.Some? && LeaseHeld(t.run.value, w, e.clock(k)) && LeaseHeld(t.run.value, w, e.clock(k + 1))
    ensures t.run.value.snapshot == v.snapshot && t.run.value.status == Running
    ensures Fresh(t, v, w, e, k + 1, lease, steps + 1)
  {
    var j :| 0 <= j <= k <= j + steps && RenewedAt(t, v, w, e, j, lease);
    assert e.clock(k) < e.clock(j) + lease && e.clock(k + 1) < e.clock(j) + lease;
  }

  // ---------------------------------------------------------------- the repository

  class Repository {
    var run: Option<Run>
    var progress: seq<Progress>
    var classified: seq<seq<Ref>>
    var rows: set<(nat, string)>

    constructor (x: World)
      ensures State() == x
    {
      run, progress, classified, rows := x.tables.run, x.tables.progress, x.classified, x.rows;
    }

    function Current(): Tables
      reads this
    {
      Tables(run, progress)
    }

    function State(): World
      reads this
    {
      World(Current(), classified, rows)
    }

    /** Other sessions commit. */
    method Yield(e: Environment, k: nat)
      modifies this
      ensures State() == old(e.others(k, State()))
    {
      var x := e.others(k, State());
      run, progress, classified, rows := x.tables.run, x.tables.progress, x.classified, x.rows;
    }

    /** `_guarded_run_update`: takes effect only for the holder of the lease and the version it read. */
    method GuardedRunUpdate(owner: string, version: nat, now: int, after: Run) returns (ok: bool)
      modifies this`run
      ensures ok <==> old(run).Some? && LeaseHeld(old(run).value, owner, now) && old(run).value.version == version
      ensures run == if ok then Some(after) else old(run)
    {
      ok := run.Some? && LeaseHeld(run.value, owner, now) && run.value.version == version;
      if ok {
        run := Some(after);
      }
    }

    /** `apply_batch` with the deletions of the same transaction: the progress row first, then the run;
        a refused run update rolls everything back. */
    method ApplyBatchInPlace(p: nat, owner: string, version: nat, now: int, lease: nat, c: Counts, batch: seq<Ref>,
        deleted: set<string>)
      returns (refusal: Option<Refusal>)
      requires p < |progress| && p < |classified| && batch != []
      modifies this
      ensures var applied := ApplyBatch(old(Current()), p, owner, version, now, lease, c, batch[|batch| - 1]);
        if applied.Success? then
          && refusal.None? && Current() == applied.value
          && classified == old(classified)[p := old(classified)[p] + batch]
          && rows == old(rows) - RowsOf(p, deleted)
        else refusal == Some(applied.error) && State() == old(State())
    {
      var before := progress;
      var g := progress[p];
      if g.status == Done {
        return Some(ProgressConflict);
      }
      progress := progress[p :=
        Progress(Scanning, Some(batch[|batch| - 1]), g.scanned + c.scanned, g.deleted + c.deleted,
                                         g.protected + c.protected, g.missing + c.missing)];
      if run.None? {
        progress := before;
        return Some(LeaseLost);
      }
      var r := run.value;
      var ok := GuardedRunUpdate(owner, version, now,
        r.(current := Some(p), leaseUntil := Some(now + lease), deleted := r.deleted + c.deleted,
           protected := r.protected + c.protected, missing := r.missing + c.missing, version := r.version + 1));
      if !ok {
        progress := before;
        return Some(LeaseLost);
      }
      classified := classified[p := classified[p] + batch];
      rows := rows - RowsOf(p, deleted);
      return None;
    }

    /** `complete_progress`. */
    method CompleteProgressInPlace(p: nat, owner: string, version: nat, now: int, lease: nat)
      returns (refusal: Option<Refusal>)
      requires p < |progress|
      modifies this`run, this`progress
      ensures classified == old(classified) && rows == old(rows)
      ensures var applied := CompleteProgress(old(Current()), p, owner, version, now, lease);
        if applied.Success? then refusal.None? && Current() == applied.value
        else refusal == Some(applied.error) && Current() == old(Current())
    {
      var before := progress;
      if progress[p].status == Done {
        return Some(ProgressConflict);
      }
      progress := progress[p := progress[p].(status := Done)];
      if run.None? {
        progress := before;
        return Some(LeaseLost);
      }
      var ok := GuardedRunUpdate(owner, version, now,
        run.value.(current := if p + 1 < PHASES then Some(p + 1) else None, leaseUntil := Some(now + lease),
                   version := run.value.version + 1));
      if !ok {
        progress := before;
        return Some(LeaseLost);
      }
      return None;
    }

    /** `complete_run`. */
    method CompleteRunInPlace(owner: string, version: nat, now: int) returns (refusal: Option<Refusal>)
      modifies this`run
      ensures classified == old(classified) && rows == old(rows)
      ensures var applied := CompleteRun(old(Current()), owner, version, now);
        if applied.Success? then refusal.None? && Current() == applied.value
        else refusal == Some(applied.error) && Current() == old(Current())
    {
      if run.None? {
        return Some(LeaseLost);
      }
      var ok := GuardedRunUpdate(owner, version, now,
        run.value.(status := Completed, owner := None, leaseUntil := None, current := None,
          version := run.value.version + 1));
      return if ok then None else Some(LeaseLost);
    }

    /** `fail_run`. */
    method FailRunInPlace(owner: string)
      modifies this`run
      ensures Current() == FailRun(old(Current()), owner) && classified == old(classified) && rows == old(rows)
    {
      if run.Some? && run.value.status == Running && run.value.owner == Some(owner) {
        run := Some(run.value.(status := Failed, owner := None, leaseUntil := None, version := run.value.version + 1));
      }
    }

    /** `_prepare_and_claim_once`. */
    method PrepareAndClaimInPlace(s: Snapshot, owner: string, now: int, lease: nat) returns (refusal: Option<Refusal>)
      modifies this`run, this`progress
      ensures classified == old(classified) && rows == old(rows)
      ensures var claimed := PrepareAndClaim(old(Current()), s, owner, now, lease);
        if claimed.Success? then refusal.None? && Current() == claimed.value
        else refusal == Some(claimed.error) && Current() == old(Current())
    {
      if run.None? {
        run, progress := Some(NewRun(s)), NewProgress();
      } else if run.value.snapshot != s {
        return Some(ArchiveMismatch);
      } else if run.value.status == Completed {
        return None;
      }
      if !Claimable(run.value, now) {
        return Some(LeaseActive);
      }
      run := Some(Claimed(run.value, owner, now, lease));
      return None;
    }
  }


  // ---------------------------------------------------------------- termination

  /** What is left to do: unclassified candidates and unfinished phases. */
  function Left(g: Progress, refs: seq<Ref>): int { |refs| - g.scanned + if g.status == Done then 0 else 1 }

  function Remaining(g: seq<Progress>, plan: seq<seq<Ref>>): int
    requires |g| == |plan| == PHASES
  {
    Left(g[0], plan[0]) + Left(g[1], plan[1]) + Left(g[2], plan[2]) + Left(g[3], plan[3]) + Left(g[4], plan[4])
  }

  lemma {:induction false} RemainingIsNatural(t: Tables, classified: seq<seq<Ref>>, v: Verified)
    requires TablesRight(t, classified, v) && t.run.Some?
    ensures |t.progress| == |classified| == |v.plan| == PHASES && Remaining(t.progress, v.plan) >= 0
  {
    forall p | 0 <= p < PHASES ensures Left(t.progress[p], v.plan[p]) >= 0 {
      assert PhaseRight(t.progress[p], classified[p], v.plan[p]);
    }
  }

  lemma {:induction false} RemainingFalls(t: Tables, n: Tables, plan: seq<seq<Ref>>)
    requires |t.progress| == |n.progress| == |plan| == PHASES && t.run.Some? && Evolves(t, n)
    ensures Remaining(n.progress, plan) <= Remaining(t.progress, plan)
    ensures forall p :: 0 <= p < PHASES && t.progress[p].scanned < n.progress[p].scanned ==>
              Remaining(n.progress, plan) < Remaining(t.progress, plan)
    ensures forall p :: 0 <= p < PHASES && t.progress[p].status != Done && n.progress[p].status == Done ==>
              Remaining(n.progress, plan) < Remaining(t.progress, plan)
  {
    forall p | 0 <= p < PHASES ensures Left(n.progress[p], plan[p]) <= Left(t.progress[p], plan[p]) {
      assert MovesOn(t.progress[p], n.progress[p]);
    }
  }

  lemma {:induction false} EvolvesFurther(a: Tables, b: Tables, c: Tables)
    requires Evolves(a, b) && Evolves(b, c)
    ensures Evolves(a, c)
  {
    if a.run.Some? {
      forall p | 0 <= p < |a.progress| ensures MovesOn(a.progress[p], c.progress[p]) {
        assert MovesOn(a.progress[p], b.progress[p]) && MovesOn(b.progress[p], c.progress[p]);
      }
    }
  }

  lemma {:induction false} DoneStays(t: Tables, n: Tables, p: nat)
    requires t.run.Some? && Evolves(t, n) && DoneTo(t.progress, p)
    ensures DoneTo(n.progress, p)
  {
    forall q | 0 <= q < p ensures n.progress[q].status == Done { assert MovesOn(t.progress[q], n.progress[q]); }
  }

  // ---------------------------------------------------------------- one turn of the loop

  datatype Turned = PhaseDone | Advanced | Stopped(outcome: Outcome)

  /** The tables are right and the run exists. */
  ghost predicate Ready(x: World, v: Verified) {
    TablesRight(x.tables, x.classified, v) && x.tables.run.Some?
  }

  /** The tables are as they were read, the phase is open and the lease still held. */
  predicate StillAs(seen: Tables, t: Tables, w: string, p: nat, now: int) {
    t == seen && t.run.Some? && LeaseHeld(t.run.value, w, now) && p < |t.progress| && t.progress[p].status != Done
  }

  /** If the version still stands, nothing has changed since the read and the batch fits. */
  lemma {:induction false} BatchRight(t: Tables, classified: seq<seq<Ref>>, v: Verified, p: nat, seen: Tables,
      batch: seq<Ref>, w: string, now: int, lease: nat, c: Counts)
    requires TablesRight(t, classified, v) && t.run.Some? && p < PHASES
    requires seen.run.Some? && Evolves(seen, t) && |seen.progress| == |v.plan| == PHASES && DoneTo(seen.progress, p)
    requires IsNext(batch, seen.progress[p].scanned, v.plan[p])
    requires c.scanned == |batch| && c.deleted + c.protected + c.missing == c.scanned
    ensures |t.progress| == |classified| == PHASES
    ensures var applied := ApplyBatch(t, p, w, seen.run.value.version, now, lease, c, batch[|batch| - 1]);
      applied.Success? ==> TablesRight(applied.value, classified[p := classified[p] + batch], v)
                           && seen.progress[p].scanned < applied.value.progress[p].scanned
  {
    SlotsRight(t, classified, v);
    if ApplyBatch(t, p, w, seen.run.value.version, now, lease, c, batch[|batch| - 1]).Success? {
      assert t == seen;
      NextBatchRight(t, classified, v, p, batch, w, t.run.value.version, now, lease, c);
    }
  }

  lemma {:induction false} SlotsRight(t: Tables, classified: seq<seq<Ref>>, v: Verified)
    requires TablesRight(t, classified, v) && t.run.Some?
    ensures |t.progress| == |classified| == |v.plan| == PHASES
  {}

  lemma {:induction false} NextBatchRight(t: Tables, classified: seq<seq<Ref>>, v: Verified, p: nat, batch: seq<Ref>,
      w: string, version: nat, now: int, lease: nat, c: Counts)
    requires TablesRight(t, classified, v) && t.run.Some? && p < PHASES && DoneTo(t.progress, p)
    requires |t.progress| == |classified| == |v.plan| == PHASES && IsNext(batch, t.progress[p].scanned, v.plan[p])
    requires c.scanned == |batch| && c.deleted + c.protected + c.missing == c.scanned
    requires ApplyBatch(t, p, w, version, now, lease, c, batch[|batch| - 1]).Success?
    ensures var applied := ApplyBatch(t, p, w, version, now, lease, c, batch[|batch| - 1]).value;
      TablesRight(applied, classified[p := classified[p] + batch], v)
        && t.progress[p].scanned < applied.progress[p].scanned
  {
    var k := t.progress[p].scanned;
    assert PhaseRight(t.progress[p], classified[p], v.plan[p]);
    SlicesJoin(v.plan[p], k, k + |batch|);
    BatchKeeps(t, classified, v, p, classified[p] + batch, batch[|batch| - 1], w, version, now, lease, c);
  }

  lemma {:induction false} SlicesJoin(refs: seq<Ref>, k: nat, m: nat)
    requires k < m <= |refs|
    ensures refs[..k] + refs[k..m] == refs[..m] && refs[k..m][m - k - 1] == refs[m - 1]
  {}

  /** The page after the row's cursor; the index never refuses the cursor. */
  method NextPage(seen: Tables, classified: seq<seq<Ref>>, v: Verified, p: nat, size: nat) returns (batch: seq<Ref>)
    requires TablesRight(seen, classified, v) && Orderly(v) && seen.run.Some? && p < PHASES && 1 <= size <= MAX_BATCH
    ensures |seen.progress| == |v.plan| == PHASES
    ensures if batch == [] then seen.progress[p].scanned == |v.plan[p]|
      else IsNext(batch, seen.progress[p].scanned, v.plan[p])
  {
    CursorAccepted(seen, classified, v, p, size);
    var g := seen.progress[p];
    var page := PageAfter(v.plan[p], CursorAt(g.cursor), CursorId(g.cursor), size);
    batch := page.value;
  }

  lemma {:induction false} Taken(t: Tables, n: Tables, p: nat)
    requires t.run.Some? && Evolves(t, n) && p < |t.progress|
    requires p < |n.progress| ==>
      t.progress[p].scanned < n.progress[p].scanned || (t.progress[p].status != Done && n.progress[p].status == Done)
    ensures StepTaken(t, n, p)
  {}

  /** What a commit reports: refused, nothing has changed; otherwise the phase has moved on, the lease is
      renewed, and rows and counters are as they must be. Undisturbed, it is not refused. */
  ghost predicate Settles(refusal: Option<Refusal>, x: World, n: World, w: string, v: Verified, p: nat,
      batch: seq<Ref>, seen: Tables, lease: nat, e: Environment, k: nat) {
    && seen.run.Some? && Ready(n, v) && Evolves(x.tables, n.tables)
    && (StillAs(seen, x.tables, w, p, e.clock(k)) ==> refusal.None?)
    && if refusal.Some? then n == x
       else
         && p < |n.tables.progress| && p < |seen.progress|
         && (seen.progress[p].scanned < n.tables.progress[p].scanned || n.tables.progress[p].status == Done)
         && RenewedAt(n.tables, v, w, e, k, lease)
         && CommitsFor(w, lease, e)(x, n, p, batch, seen.run.value.version, k)
  }

  type Report = (Option<Refusal>, World, World) -> bool

  ghost function ReportOf(w: string, v: Verified, p: nat, batch: seq<Ref>, seen: Tables, lease: nat, e: Environment,
      k: nat): Report {
    (refusal, x, n) => Settles(refusal, x, n, w, v, p, batch, seen, lease, e, k)
  }

  lemma {:induction false} ClosedSettles(refusal: Option<Refusal>, x: World, n: World, w: string, v: Verified, p: nat,
      seen: Tables, lease: nat, e: Environment, k: nat)
    requires Ready(x, v) && p < PHASES
    requires seen.run.Some? && Evolves(seen, x.tables) && |seen.progress| == |v.plan| == PHASES
    requires DoneTo(seen.progress, p) && seen.progress[p].scanned == |v.plan[p]| && p < |x.tables.progress|
    requires var closed := CompleteProgress(x.tables, p, w, seen.run.value.version, e.clock(k), lease);
      if closed.Success? then refusal.None? && n == x.(tables := closed.value) else refusal.Some? && n == x
    ensures ReportOf(w, v, p, [], seen, lease, e, k)(refusal, x, n)
  {
    if refusal.None? {
      CloseIsRight(x, n, w, v, p, seen, lease, e, k);
      ProgressSettles(x, n, w, v, p, [], seen, lease, e, k);
    } else {
      StillCloses(seen, x.tables, w, p, e.clock(k), lease);
      RefusedSettles(refusal, x, w, v, p, [], seen, lease, e, k);
    }
  }

  lemma {:induction false} StillCloses(seen: Tables, t: Tables, w: string, p: nat, now: int, lease: nat)
    requires seen.run.Some? && p < |t.progress|
    ensures StillAs(seen, t, w, p, now) ==> CompleteProgress(t, p, w, seen.run.value.version, now, lease).Success?
  {}

  lemma {:induction false} CloseIsRight(x: World, n: World, w: string, v: Verified, p: nat, seen: Tables, lease: nat,
      e: Environment, k: nat)
    requires Ready(x, v) && p < PHASES
    requires seen.run.Some? && Evolves(seen, x.tables) && |seen.progress| == |v.plan| == PHASES
    requires DoneTo(seen.progress, p) && seen.progress[p].scanned == |v.plan[p]| && p < |x.tables.progress|
    requires CompleteProgress(x.tables, p, w, seen.run.value.version, e.clock(k), lease) == Success(n.tables)
    requires n == x.(tables := n.tables)
    ensures Ready(n, v) && Evolves(x.tables, n.tables) && p < |n.tables.progress| && n.tables.progress[p].status == Done
    ensures RenewedAt(n.tables, v, w, e, k, lease)
    ensures CommitsFor(w, lease, e)(x, n, p, [], seen.run.value.version, k)
  {
    var version, now := seen.run.value.version, e.clock(k);
    CloseEvolves(x.tables, p, w, version, now, lease);
    assert x.tables == seen;
    CloseKeeps(seen, x.classified, v, p, w, version, now, lease);
    assert SameRows(x, n);
    assert Commits(x, n, p, [], w, version, now, lease, e, k);
  }

  /** Closing a phase whose candidates were found exhausted while the run had this version. */
  method CommitClose(db: Repository, w: string, v: Verified, p: nat, seen: Tables, lease: nat, e: Environment, k: nat)
    returns (refusal: Option<Refusal>)
    requires Ready(db.State(), v) && p < PHASES
    requires seen.run.Some? && Evolves(seen, db.Current()) && |seen.progress| == |v.plan| == PHASES
    requires DoneTo(seen.progress, p) && seen.progress[p].scanned == |v.plan[p]|
    modifies db
    ensures ReportOf(w, v, p, [], seen, lease, e, k)(refusal, old(db.State()), db.State())
  {
    ghost var before := db.State();
    SlotsRight(db.Current(), db.classified, v);
    refusal := db.CompleteProgressInPlace(p, w, seen.run.value.version, e.clock(k), lease);
    ClosedSettles(refusal, before, db.State(), w, v, p, seen, lease, e, k);
  }

  lemma {:induction false} RefusedSettles(refusal: Option<Refusal>, x: World, w: string, v: Verified, p: nat,
      batch: seq<Ref>, seen: Tables, lease: nat, e: Environment, k: nat)
    requires Ready(x, v) && seen.run.Some? && refusal.Some? && !StillAs(seen, x.tables, w, p, e.clock(k))
    ensures Settles(refusal, x, x, w, v, p, batch, seen, lease, e, k)
  {}

  lemma {:induction false} TakenSettles(x: World, n: World, w: string, v: Verified, p: nat, batch: seq<Ref>,
      seen: Tables, lease: nat, e: Environment, k: nat, c: Counts, deleted: set<string>)
    requires Ready(x, v) && p < PHASES && seen.run.Some? && Evolves(seen, x.tables)
    requires |seen.progress| == |v.plan| == PHASES
    requires DoneTo(seen.progress, p) && IsNext(batch, seen.progress[p].scanned, v.plan[p])
    requires c.scanned == |batch| && c.deleted + c.protected + c.missing == c.scanned
    requires Applied(x, n, p, batch, w, seen.run.value.version, e.clock(k), lease, c, deleted)
    requires CommitsFor(w, lease, e)(x, n, p, batch, seen.run.value.version, k)
    ensures ReportOf(w, v, p, batch, seen, lease, e, k)(None, x, n)
  {
    AppliedKeeps(x, n, v, p, batch, w, seen, e.clock(k), lease, c, deleted);
    ProgressSettles(x, n, w, v, p, batch, seen, lease, e, k);
  }

  lemma {:induction false} ProgressSettles(x: World, n: World, w: string, v: Verified, p: nat, batch: seq<Ref>,
      seen: Tables, lease: nat, e: Environment, k: nat)
    requires Ready(n, v) && seen.run.Some? && Evolves(x.tables, n.tables) && p < |n.tables.progress|
      && p < |seen.progress|
    requires seen.progress[p].scanned < n.tables.progress[p].scanned || n.tables.progress[p].status == Done
    requires LeasedUntil(n.tables, v, w, e.clock(k) + lease)
    requires CommitsFor(w, lease, e)(x, n, p, batch, seen.run.value.version, k)
    ensures ReportOf(w, v, p, batch, seen, lease, e, k)(None, x, n)
  {
    assert Settles(None, x, n, w, v, p, batch, seen, lease, e, k);
  }

  lemma {:induction false} StillApplies(seen: Tables, t: Tables, w: string, p: nat, now: int, lease: nat, c: Counts,
      last: Ref)
    requires seen.run.Some? && p < |t.progress|
    ensures StillAs(seen, t, w, p, now) ==> ApplyBatch(t, p, w, seen.run.value.version, now, lease, c, last).Success?
  {}

  lemma {:induction false} AppliedKeeps(x: World, n: World, v: Verified, p: nat, batch: seq<Ref>, w: string,
      seen: Tables, now: int, lease: nat, c: Counts, deleted: set<string>)
    requires Ready(x, v) && p < PHASES && seen.run.Some? && Evolves(seen, x.tables)
    requires |seen.progress| == |v.plan| == PHASES
    requires DoneTo(seen.progress, p) && IsNext(batch, seen.progress[p].scanned, v.plan[p])
    requires c.scanned == |batch| && c.deleted + c.protected + c.missing == c.scanned
    requires Applied(x, n, p, batch, w, seen.run.value.version, now, lease, c, deleted)
    ensures Ready(n, v) && Evolves(x.tables, n.tables) && p < |n.tables.progress|
    ensures seen.progress[p].scanned < n.tables.progress[p].scanned && LeasedUntil(n.tables, v, w, now + lease)
  {
    var version, last := seen.run.value.version, batch[|batch| - 1];
    BatchEvolves(x.tables, p, w, version, now, lease, c, last);
    BatchRight(x.tables, x.classified, v, p, seen, batch, w, now, lease, c);
    AppliedIsRenewed(x, n, p, batch, w, version, now, lease, c, deleted);
    SlotsRight(n.tables, n.classified, v);
  }

  lemma {:induction false} AppliedIsRenewed(x: World, n: World, p: nat, batch: seq<Ref>, w: string, version: nat,
      now: int, lease: nat, c: Counts, deleted: set<string>)
    requires Applied(x, n, p, batch, w, version, now, lease, c, deleted)
    ensures x.tables.run.Some? && n.tables.run.Some? && n.tables.run.value.status == Running
    ensures n.tables.run.value.owner == Some(w) && n.tables.run.value.leaseUntil == Some(now + lease)
    ensures n.tables.run.value.snapshot == x.tables.run.value.snapshot
  {}

  /** Judging a batch and committing what was decided. */
  method CommitJudged(db: Repository, w: string, v: Verified, p: nat, seen: Tables, batch: seq<Ref>, lease: nat,
      e: Environment, k: nat)
    returns (refusal: Option<Refusal>)
    requires Ready(db.State(), v) && Orderly(v) && Selective(e) && p < PHASES
    requires seen.run.Some? && Evolves(seen, db.Current()) && |seen.progress| == |v.plan| == PHASES
    requires DoneTo(seen.progress, p) && IsNext(batch, seen.progress[p].scanned, v.plan[p])
    modifies db
    ensures ReportOf(w, v, p, batch, seen, lease, e, k)(refusal, old(db.State()), db.State())
  {
    ghost var before := db.State();
    SlotsRight(db.Current(), db.classified, v);
    var (c, deleted) := Judged(db.rows, p, batch, e, k);
    JudgedCounts(v, p, seen.progress[p].scanned, batch, db.rows, e, k);
    refusal := db.ApplyBatchInPlace(p, w, seen.run.value.version, e.clock(k), lease, c, batch, deleted);
    StillApplies(seen, before.tables, w, p, e.clock(k), lease, c, batch[|batch| - 1]);
    if refusal.None? {
      JudgedIsTaken(before, db.State(), p, batch, w, seen.run.value.version, e.clock(k), lease, e, k);
      TakenSettles(before, db.State(), w, v, p, batch, seen, lease, e, k, c, deleted);
    } else {
      RefusedSettles(refusal, before, w, v, p, batch, seen, lease, e, k);
    }
  }

  method Commit(db: Repository, w: string, v: Verified, p: nat, seen: Tables, batch: seq<Ref>, lease: nat,
      e: Environment, k: nat)
    returns (refusal: Option<Refusal>)
    requires Ready(db.State(), v) && Orderly(v) && Selective(e) && p < PHASES
    requires seen.run.Some? && Evolves(seen, db.Current()) && |seen.progress| == |v.plan| == PHASES
    requires DoneTo(seen.progress, p)
    requires if batch == [] then seen.progress[p].scanned == |v.plan[p]|
      else IsNext(batch, seen.progress[p].scanned, v.plan[p])
    modifies db
    ensures ReportOf(w, v, p, batch, seen, lease, e, k)(refusal, old(db.State()), db.State())
  {
    if batch == [] {
      refusal := CommitClose(db, w, v, p, seen, lease, e, k);
    } else {
      refusal := CommitJudged(db, w, v, p, seen, batch, lease, e, k);
    }
  }

  lemma {:induction false} ReportMeans(refusal: Option<Refusal>, x: World, n: World, w: string, v: Verified, p: nat,
      batch: seq<Ref>, seen: Tables, lease: nat, e: Environment, k: nat)
    requires ReportOf(w, v, p, batch, seen, lease, e, k)(refusal, x, n)
    requires Evolves(seen, x.tables) && p < |seen.progress| && seen.progress[p].status != Done
    ensures Ready(n, v) && Evolves(x.tables, n.tables) && (StillAs(seen, x.tables, w, p, e.clock(k)) ==> refusal.None?)
    ensures refusal.Some? ==> n == x
    ensures refusal.None? ==> seen.run.Some? && StepTaken(seen, n.tables, p) && RenewedAt(n.tables, v, w, e, k, lease)
    ensures refusal.None? ==> SomeCommit(CommitsFor(w, lease, e), x, n, p, seen.run.value.version, k)
  {
    EvolvesFurther(seen, x.tables, n.tables);
    if refusal.None? { Taken(seen, n.tables, p); }
  }

  /** The read of a turn: the phase may be done, the worker may have to stop, or there is a page to commit. */
  method Look(seen: Tables, classified: seq<seq<Ref>>, w: string, v: Verified, p: nat, size: nat, e: Environment,
      k: nat)
    returns (ended: Option<Turned>, batch: seq<Ref>)
    requires TablesRight(seen, classified, v) && Orderly(v) && seen.run.Some? && p < PHASES && 1 <= size <= MAX_BATCH
    ensures |seen.progress| == |v.plan| == PHASES
    ensures match ended
      case Some(PhaseDone) => seen.progress[p].status == Done
      case Some(Stopped(why)) =>
        && seen.progress[p].status != Done && !why.Finished?
        && !(LeaseHeld(seen.run.value, w, e.clock(k)) && seen.run.value.snapshot == v.snapshot && StableAt(e, v, k))
      case Some(Advanced) => false
      case None =>
        && seen.progress[p].status != Done && LeaseHeld(seen.run.value, w, e.clock(k)) && StableAt(e, v, k)
        && if batch == [] then seen.progress[p].scanned == |v.plan[p]|
           else IsNext(batch, seen.progress[p].scanned, v.plan[p])
  {
    var run, g := seen.run.value, seen.progress[p];
    batch := [];
    if g.status == Done {
      ended := Some(PhaseDone);
    } else if !LeaseHeld(run, w, e.clock(k)) || run.snapshot != v.snapshot || !StableAt(e, v, k) {
      ended := Some(Stopped(if LeaseHeld(run, w, e.clock(k)) then Unstable else Refused(LeaseLost)));
    } else {
      ended := None;
      batch := NextPage(seen, classified, v, p, size);
    }
  }

  /** One turn: read, then commit a batch or close the phase. Others may commit before the read and
      between the read and the commit. A turn advances only if the lease was held and the stored files
      agreed with the snapshot at its read; left alone, with a fresh lease, it does not stop. */
  method Turn(db: Repository, w: string, v: Verified, p: nat, size: nat, lease: nat, e: Environment, k: nat)
    returns (r: Turned)
    requires Ready(db.State(), v) && Orderly(v) && Respectful(e, v) && Selective(e)
    requires p < PHASES && DoneTo(db.progress, p) && 1 <= size <= MAX_BATCH
    modifies db
    ensures Ready(db.State(), v) && Evolves(old(db.Current()), db.Current())
    ensures r.PhaseDone? ==> DoneTo(db.progress, p + 1)
    ensures r.Stopped? ==> !r.outcome.Finished?
    ensures r.Advanced? ==> exists seen :: Evolves(old(db.Current()), seen) && StepTaken(seen, db.Current(), p)
    ensures r.Advanced? ==> StableAt(e, v, k) && HeldAtRead(e, k, old(db.State()), w)
    ensures r.Advanced? ==> RenewedAt(db.Current(), v, w, e, k + 1, lease)
    ensures Calm(e, v, lease) && Fresh(old(db.Current()), v, w, e, k, lease, p + 1) ==>
      !r.Stopped? && (r.PhaseDone? ==> db.Current() == old(db.Current()))
    ensures TurnLeaves(old(db.State()), db.State(), r, p, e, k, CommitsFor(w, lease, e))
  {
    assert RespectsAt(e, v, k, db.State());
    db.Yield(e, k);
    var seen := db.Current();
    DoneStays(old(db.Current()), seen, p);
    CalmTurn(old(db.Current()), v, w, e, k, lease, p + 1);
    var ended, batch := Look(seen, db.classified, w, v, p, size, e, k);
    if ended.Some? {
      return ended.value;
    }
    assert RespectsAt(e, v, k + 1, db.State());
    db.Yield(e, k + 1);
    EvolvesFurther(old(db.Current()), seen, db.Current());
    ghost var met := db.State();
    var refusal := Commit(db, w, v, p, seen, batch, lease, e, k + 1);
    ReportMeans(refusal, met, db.State(), w, v, p, batch, seen, lease, e, k + 1);
    EvolvesFurther(old(db.Current()), met.tables, db.Current());
    return if refusal.Some? then Stopped(Refused(refusal.value)) else Advanced;
  }

  /** What a turn left, in terms of what it met; `test` tells a commit. */
  ghost predicate TurnLeaves(x: World, n: World, r: Turned, p: nat, e: Environment, k: nat, test: CommitTest) {
    var read := e.others(k, x);
    var met := e.others(k + 1, read);
    match r
    case PhaseDone => n == read
    case Stopped(_) => n in {read, met}
    case Advanced => read.tables.run.Some? && SomeCommit(test, met, n, p, read.tables.run.value.version, k + 1)
  }

  lemma {:induction false} AloneLeaves(x: World, n: World, r: Turned, p: nat, e: Environment, k: nat, test: CommitTest)
    requires TurnLeaves(x, n, r, p, e, k, test) && e.others(k, x) == x && e.others(k + 1, x) == x
    ensures if r.Advanced?
      then x.tables.run.Some? && SomeCommit(test, x, n, p, x.tables.run.value.version, k + 1) else n == x
  {}

  /** What a turn does to the books of a worker that is left alone. */
  lemma {:induction false} TurnKeepsBooks(start: World, x: World, n: World, r: Turned, v: Verified, w: string,
      lease: nat, p: nat, e: Environment, k: nat)
    requires BooksFrom(start, e)(x) && Ready(n, v) && Orderly(v)
    requires TurnLeaves(x, n, r, p, e, k, CommitsFor(w, lease, e))
    ensures BooksFrom(start, e)(n)
  {
    if !Alone(e) {
      BooksIgnored(start, n, e);
    } else {
      NoOthers(e, k, x);
      AloneLeaves(x, n, r, p, e, k, CommitsFor(w, lease, e));
      if r.Advanced? { BooksKept(start, x, n, v, w, lease, p, x.tables.run.value.version, e, k + 1); }
    }
  }

  lemma {:induction false} NoOthers(e: Environment, k: nat, x: World)
    requires Alone(e)
    ensures e.others(k, x) == x && e.others(k + 1, x) == x
  {}

  /** What the turn reads at step `k` shows the lease held. */
  predicate HeldAtRead(e: Environment, k: nat, before: World, w: string) {
    e.others(k, before).tables.run.Some? && LeaseHeld(e.others(k, before).tables.run.value, w, e.clock(k))
  }

  lemma {:induction false} CalmTurn(t: Tables, v: Verified, w: string, e: Environment, k: nat, lease: nat, steps: nat)
    ensures Calm(e, v, lease) && steps <= PHASES + 1 && Fresh(t, v, w, e, k, lease, steps) ==>
      && t.run.Some? && LeaseHeld(t.run.value, w, e.clock(k)) && LeaseHeld(t.run.value, w, e.clock(k + 1))
      && t.run.value.snapshot == v.snapshot && StableAt(e, v, k)
      && forall x :: e.others(k, x) == x && e.others(k + 1, x) == x
  {
    if Calm(e, v, lease) && steps <= PHASES + 1 && Fresh(t, v, w, e, k, lease, steps) {
      FreshIsHeld(t, v, w, e, k, lease, steps);
    }
  }

  /** The phase has advanced, or is done now and was not before. */
  ghost predicate StepTaken(t: Tables, n: Tables, p: nat) {
    && t.run.Some? && Evolves(t, n) && p < |t.progress| && p < |n.progress|
    && (t.progress[p].scanned < n.progress[p].scanned || (t.progress[p].status != Done && n.progress[p].status == Done))
  }

  // ---------------------------------------------------------------- the loop

  /** The loop of one phase: turn after turn until it is done, or a turn stops. */
  method ExecutePhase(db: Repository, w: string, v: Verified, p: nat, size: nat, lease: nat, e: Environment,
      start: nat, ghost books: World -> bool, ghost from: World)
    returns (outcome: Outcome, k: nat)
    requires books == BooksFrom(from, e) && books(db.State())
    requires Ready(db.State(), v) && Orderly(v) && Respectful(e, v) && Selective(e) && 1 <= size <= MAX_BATCH
    requires p < PHASES && DoneTo(db.progress, p)
    modifies db
    ensures Ready(db.State(), v) && Evolves(old(db.Current()), db.Current())
    ensures outcome.Finished? ==> DoneTo(db.progress, p + 1)
    ensures books(db.State())
    ensures Calm(e, v, lease) && Fresh(old(db.Current()), v, w, e, start, lease, p + 1) ==>
      outcome.Finished? && Fresh(db.Current(), v, w, e, k, lease, p + 2)
  {
    k := start;
    ghost var calm := Calm(e, v, lease) && Fresh(db.Current(), v, w, e, start, lease, p + 1);
    while true
      invariant Ready(db.State(), v) && Evolves(old(db.Current()), db.Current()) && DoneTo(db.progress, p)
      invariant |db.progress| == |v.plan| == PHASES && books(db.State())
      invariant calm ==> Fresh(db.Current(), v, w, e, k, lease, p + 1)
      decreases Remaining(db.progress, v.plan)
    {
      RemainingIsNatural(db.Current(), db.classified, v);
      ghost var before, met := db.Current(), db.State();
      var turn := Turn(db, w, v, p, size, lease, e, k);
      EvolvesFurther(old(db.Current()), before, db.Current());
      DoneStays(before, db.Current(), p);
      TurnKeepsBooks(from, met, db.State(), turn, v, w, lease, p, e, k);
      match turn {
        case PhaseDone =>
          NotYetStale(before, v, w, e, k, lease, p + 1);
          return Finished, k + 1;
        case Stopped(reason) =>
          return reason, k;
        case Advanced =>
          TurnAdvances(before, db.Current(), p, v.plan);
          k := k + 2;
      }
    }
  }

  lemma {:induction false} NotYetStale(t: Tables, v: Verified, w: string, e: Environment, k: nat, lease: nat,
      steps: nat)
    ensures Fresh(t, v, w, e, k, lease, steps) ==> Fresh(t, v, w, e, k + 1, lease, steps + 1)
  {}

  /** `_execute_phases`: phase by phase in the fixed order, batch by batch in each phase. It stops, with
      every phase done or with the reason why not, whatever others do meanwhile; left alone, it finishes. */
  method ExecutePhases(db: Repository, w: string, v: Verified, size: nat, lease: nat, e: Environment, start: nat,
      ghost books: World -> bool, ghost from: World)
    returns (outcome: Outcome, k: nat)
    requires books == BooksFrom(from, e) && books(db.State())
    requires Ready(db.State(), v) && Orderly(v) && Respectful(e, v) && Selective(e) && 1 <= size <= MAX_BATCH
    modifies db
    ensures Ready(db.State(), v) && Evolves(old(db.Current()), db.Current())
    ensures outcome.Finished? ==> DoneTo(db.progress, PHASES)
    ensures books(db.State())
    ensures Calm(e, v, lease) && Fresh(old(db.Current()), v, w, e, start, lease, 1) ==>
      outcome.Finished? && Fresh(db.Current(), v, w, e, k, lease, PHASES + 1)
  {
    outcome, k := Finished, start;
    ghost var calm := Calm(e, v, lease) && Fresh(db.Current(), v, w, e, start, lease, 1);
    for p := 0 to PHASES
      invariant Ready(db.State(), v) && Evolves(old(db.Current()), db.Current()) && DoneTo(db.progress, p)
      invariant outcome.Finished? && books(db.State())
      invariant calm ==> Fresh(db.Current(), v, w, e, k, lease, p + 1)
    {
      ghost var before := db.Current();
      outcome, k := ExecutePhase(db, w, v, p, size, lease, e, k, books, from);
      EvolvesFurther(old(db.Current()), before, db.Current());
      if !outcome.Finished? {
        return;
      }
    }
  }

  /** A turn that advances leaves less to do, whatever others did. */
  lemma {:induction false} TurnAdvances(t: Tables, n: Tables, p: nat, plan: seq<seq<Ref>>)
    requires |t.progress| == |n.progress| == |plan| == PHASES && p < PHASES && t.run.Some? && n.run.Some?
    requires exists seen :: Evolves(t, seen) && StepTaken(seen, n, p)
    ensures Remaining(n.progress, plan) < Remaining(t.progress, plan)
  {
    var seen :| Evolves(t, seen) && StepTaken(seen, n, p);
    RemainingFalls(t, seen, plan);
    RemainingFalls(seen, n, plan);
  }

  // ---------------------------------------------------------------- the whole operation

  datatype Summary = Summary(deleted: nat, protected: nat, missing: nat, alreadyCompleted: bool)

  /** `_complete`: the lease must be held, the stored files agree with the snapshot and every phase be
      done. */
  method Complete(db: Repository, w: string, v: Verified, lease: nat, e: Environment, k: nat) returns (outcome: Outcome)
    requires Ready(db.State(), v) && Respectful(e, v)
    modifies db
    ensures Ready(db.State(), v) && Evolves(old(db.Current()), db.Current())
    ensures outcome.Finished? ==>
      db.run.value.status == Completed && StableAt(e, v, k) && HeldAtRead(e, k, old(db.State()), w)
    ensures
      && Calm(e, v, lease) && Fresh(old(db.Current()), v, w, e, k, lease, PHASES + 1)
      && DoneTo(old(db.progress), PHASES)
      ==> outcome.Finished?
    ensures var read := old(e.others(k, db.State()));
      db.State() == read || SameRows(e.others(k + 1, read), db.State())
  {
    CalmTurn(db.Current(), v, w, e, k, lease, PHASES + 1);
    assert RespectsAt(e, v, k, db.State());
    db.Yield(e, k);
    var seen := db.Current();
    if !LeaseHeld(seen.run.value, w, e.clock(k)) {
      return Refused(LeaseLost);
    }
    if !StableAt(e, v, k) {
      return Unstable;
    }
    if exists p :: 0 <= p < |seen.progress| && seen.progress[p].status != Done {
      return Refused(ProgressIncomplete);
    }
    assert RespectsAt(e, v, k + 1, db.State());
    db.Yield(e, k + 1);
    ghost var meanwhile := db.Current();
    DoneStays(seen, meanwhile, PHASES);
    EvolvesFurther(old(db.Current()), seen, meanwhile);
    var refusal := CommitRun(db, w, v, seen.run.value.version, e.clock(k + 1));
    EvolvesFurther(old(db.Current()), meanwhile, db.Current());
    return if refusal.Some? then Refused(refusal.value) else Finished;
  }

  lemma {:induction false} CompleteKeepsBooks(start: World, x: World, n: World, e: Environment, k: nat)
    requires BooksFrom(start, e)(x)
    requires n == e.others(k, x) || SameRows(e.others(k + 1, e.others(k, x)), n)
    ensures BooksFrom(start, e)(n)
  {
    if Alone(e) {
      assert e.others(k, x) == x && e.others(k + 1, x) == x;
      if n != x { BooksSame(start, x, n, e); }
    }
  }

  method CommitRun(db: Repository, w: string, v: Verified, version: nat, now: int) returns (refusal: Option<Refusal>)
    requires Ready(db.State(), v) && DoneTo(db.progress, PHASES)
    modifies db
    ensures Ready(db.State(), v) && Evolves(old(db.Current()), db.Current())
    ensures refusal.None? ==> db.run.value.status == Completed
    ensures LeaseHeld(old(db.run).value, w, now) && old(db.run).value.version == version ==> refusal.None?
    ensures SameRows(old(db.State()), db.State())
  {
    CompleteRunEvolves(db.Current(), w, version, now);
    if CompleteRun(db.Current(), w, version, now).Success? {
      CompleteRunKeeps(db.Current(), db.classified, v, w, version, now);
    }
    refusal := db.CompleteRunInPlace(w, version, now);
  }

  /** The run, if there is one, is of another snapshot, or the tables are right for this verification. */
  ghost predicate Fits(x: World, v: Verified) {
    (x.tables.run.Some? && x.tables.run.value.snapshot != v.snapshot) || TablesRight(x.tables, x.classified, v)
  }

  predicate CanClaim(t: Tables, s: Snapshot, now: int) {
    t.run.None? || (t.run.value.snapshot == s && (t.run.value.status == Completed || Claimable(t.run.value, now)))
  }

  /** `execute`, past the verification gate: claim, run the phases, complete; on any failure mark the run
      failed if it is still this worker's. It always ends, and when it reports success every candidate
      has been classified, each once and in order. When it fails past its claim it leaves no run behind
      that is still running in its name. Left alone, it succeeds whenever the run can be claimed. */
  method Clean(db: Repository, w: string, v: Verified, size: nat, lease: nat, e: Environment, k: nat)
    returns (r: Result<Summary, Outcome>)
    requires Fits(db.State(), v) && Orderly(v) && Respectful(e, v) && Selective(e)
    requires 1 <= size <= MAX_BATCH
    modifies db
    ensures Fits(db.State(), v)
    ensures r.Success? ==> Accounted(db.State(), v, r.value)
    ensures Alone(e) ==> Balanced(old(db.State()), db.State(), e)
    ensures r.Failure? && r.error !in {Refused(LeaseActive), Refused(ArchiveMismatch)} ==> !RunsFor(db.State(), w)
    ensures !CanClaim(old(db.Current()), v.snapshot, e.clock(k)) ==> r.Failure? && db.State() == old(db.State())
    ensures Calm(e, v, lease) && CanClaim(old(db.Current()), v.snapshot, e.clock(k)) ==> r.Success?
  {
    ghost var start, books := db.State(), BooksFrom(db.State(), e);
    BooksOpen(start, e);
    var claimed := ClaimFirst(db, v, w, e.clock(k), lease);
    if claimed.Some? {
      return Failure(Refused(claimed.value));
    }
    BooksSame(start, start, db.State(), e);
    var outcome := Finished;
    var already := db.run.value.status == Completed;
    if !already {
      assert RenewedAt(db.Current(), v, w, e, k, lease);
      outcome := RunToEnd(db, w, v, size, lease, e, k + 1, books, start);
    }
    if !outcome.Finished? {
      ghost var before := db.State();
      GiveUp(db, w, v);
      BooksSame(start, before, db.State(), e);
      return Failure(outcome);
    }
    CompletedIsComplete(db.Current(), db.classified, v);
    return Success(Summary(db.run.value.deleted, db.run.value.protected, db.run.value.missing, already));
  }

  /** The run is completed, every candidate classified once and in order, and the counters add up. */
  ghost predicate Accounted(x: World, v: Verified, s: Summary) {
    && x.tables.run.Some? && x.tables.run.value.status == Completed && x.tables.run.value.snapshot == v.snapshot
    && x.classified == v.plan
    && s.deleted == DeletedIn(x.tables) && s.protected == ProtectedIn(x.tables) && s.missing == MissingIn(x.tables)
    && s.deleted + s.protected + s.missing == v.candidates
  }

  predicate RunsFor(x: World, w: string) {
    x.tables.run.Some? && x.tables.run.value.status == Running && x.tables.run.value.owner == Some(w)
  }

  method RunToEnd(db: Repository, w: string, v: Verified, size: nat, lease: nat, e: Environment, k: nat,
      ghost books: World -> bool, ghost from: World)
    returns (outcome: Outcome)
    requires books == BooksFrom(from, e) && books(db.State())
    requires Ready(db.State(), v) && Orderly(v) && Respectful(e, v) && Selective(e) && 1 <= size <= MAX_BATCH
    modifies db
    ensures Ready(db.State(), v) && books(db.State())
    ensures outcome.Finished? ==> db.run.value.status == Completed
    ensures Calm(e, v, lease) && Fresh(old(db.Current()), v, w, e, k, lease, 1) ==> outcome.Finished?
  {
    var last;
    outcome, last := ExecutePhases(db, w, v, size, lease, e, k, books, from);
    if outcome.Finished? {
      ghost var before := db.State();
      outcome := Complete(db, w, v, lease, e, last);
      CompleteKeepsBooks(from, before, db.State(), e, last);
    }
  }

  /** `_mark_failed`. */
  method GiveUp(db: Repository, w: string, v: Verified)
    requires TablesRight(db.Current(), db.classified, v)
    modifies db
    ensures TablesRight(db.Current(), db.classified, v) && !RunsFor(db.State(), w)
    ensures SameRows(old(db.State()), db.State())
  {
    FailRunKeeps(db.Current(), db.classified, v, w);
    db.FailRunInPlace(w);
  }

  method ClaimFirst(db: Repository, v: Verified, w: string, now: int, lease: nat) returns (refusal: Option<Refusal>)
    requires Fits(db.State(), v) && Orderly(v)
    modifies db
    ensures refusal.None? <==> CanClaim(old(db.Current()), v.snapshot, now)
    ensures refusal.None? ==> Ready(db.State(), v) && SameRows(old(db.State()), db.State())
    ensures refusal.None? && db.run.value.status != Completed ==> LeasedUntil(db.Current(), v, w, now + lease)
    ensures refusal.Some? ==> refusal.value in {LeaseActive, ArchiveMismatch} && db.State() == old(db.State())
  {
    if PrepareAndClaim(db.Current(), v.snapshot, w, now, lease).Success? {
      ClaimKeeps(db.Current(), db.classified, v, w, now, lease);
    }
    refusal := db.PrepareAndClaimInPlace(v.snapshot, w, now, lease);
  }

  // ---------------------------------------------------------------- with the gate

  /** The archive's run is marked verified, the stored archive verifies with its checksum, its index can be
      built, and it verifies again with the same snapshot; each is read at its own step. */
  ghost predicate Opens(run: Option<ArchiveRun>, id: string, e: Environment) {
    && run.Some? && run.value.status == ArchiveVerified
    && Accepted(e.stored(0), id) && Accepted(e.stored(2), id)
    && var v := VerifiedOf(e.stored(0), id);
       && run.value.checksum == Some(v.snapshot.manifest)
       && CanIndex(e.stored(1), v)
       && VerifiedOf(e.stored(2), id).snapshot == v.snapshot
  }

  /** What the worker takes through the gate. */
  ghost function Through(id: string, e: Environment): Verified
    requires Accepted(e.stored(0), id) && CanIndex(e.stored(1), VerifiedOf(e.stored(0), id))
  {
    VerifiedOf(e.stored(0), id).(plan := IndexedPlan(e.stored(1)))
  }

  /** The candidates of each phase, read from the index. */
  function Listing(rows: seq<Row>): (plan: seq<seq<Ref>>)
    ensures |plan| == PHASES && forall p :: 0 <= p < PHASES ==> plan[p] == CandidatesIn(rows, CLEANUP_ENTITY_ORDER[p])
  {
    seq(PHASES, p requires 0 <= p < PHASES => CandidatesIn(rows, CLEANUP_ENTITY_ORDER[p]))
  }

  /** The index of what is stored now. */
  method BuildIndex(a: Archive, m: Manifest) returns (r: Result<seq<seq<Ref>>, Fault>)
    ensures r.Success? <==>
      PayloadsThere(a) && ManifestReadable(a) && Indexable(ItemsIn(a), m.candidateCount, m.dependencyCount)
    ensures r.Success? ==> r.value == IndexedPlan(a)
  {
    if !ManifestReadable(a) {
      return Failure(ManifestInvalid);
    }
    if !PayloadsThere(a) {
      return Failure(RecordReadFailed);
    }
    var rows := Build(ItemsIn(a), m);
    if rows.Failure? {
      return Failure(rows.error);
    }
    return Success(Listing(rows.value));
  }

  /** `_verify_gate`, the index, and the second verification. */
  method Gate(run: Option<ArchiveRun>, id: string, e: Environment) returns (r: Option<Verified>)
    ensures r.Some? <==> Opens(run, id, e)
    ensures r.Some? ==> r.value == Through(id, e)
  {
    if run.None? || run.value.status != ArchiveVerified {
      return None;
    }
    var first := Verify(e.stored(0), id);
    if first.Failure? || run.value.checksum != Some(ManifestDigest(Canonical(first.value))) {
      return None;
    }
    var m := first.value;
    var plan := BuildIndex(e.stored(1), m);
    if plan.Failure? {
      return None;
    }
    var again := Verify(e.stored(2), id);
    if again.Failure? || SnapshotOf(again.value) != SnapshotOf(m) {
      return None;
    }
    return Some(Verified(id, SnapshotOf(m), plan.value, m.candidateCount, m.dependencyCount));
  }

  /** The tables record at most one cleanup, of an archive that once verified. */
  ghost predicate Recorded(x: World) {
    exists origin: Option<Verified> :: RunRight(x.tables, x.classified, origin, StoredArchives())
  }

  /** If the gate opens, the payloads its index was built from are those it verified. */
  ghost predicate SoundGate(run: Option<ArchiveRun>, id: string, e: Environment) {
    Opens(run, id, e) ==> PayloadsKept(e.stored(1), VerifiedOf(e.stored(0), id).snapshot)
  }

  lemma {:induction false} SoundPlan(run: Option<ArchiveRun>, id: string, e: Environment)
    requires Opens(run, id, e) && SoundGate(run, id, e)
    ensures Through(id, e) == VerifiedOf(e.stored(0), id) && Genuine(Through(id, e)) && Orderly(Through(id, e))
  {
    var v := VerifiedOf(e.stored(0), id);
    assert VerifiesAs(e.stored(0), v);
    IndexOfKeptPayloads(e.stored(1), v);
    GenuineIsOrderly(v);
  }

  lemma {:induction false} RecordFits(x: World, v: Verified)
    requires Recorded(x) && Genuine(v)
    ensures Fits(x, v)
  {
    var origin: Option<Verified> :| RunRight(x.tables, x.classified, origin, StoredArchives());
    if origin.Some? && v.snapshot == origin.value.snapshot { SnapshotDetermines(v, origin.value); }
  }

  /** `execute`: the gate, then cleaning. When it reports success the run is completed for an archive that
      was verified at the gate, with every candidate of that archive classified once and in order. Left
      alone, it succeeds exactly when the gate opens and the run can be claimed. */
  method Execute(db: Repository, run: Option<ArchiveRun>, id: string, w: string, size: nat, lease: nat, e: Environment)
    returns (r: Result<Summary, Outcome>)
    requires Recorded(db.State()) && SoundGate(run, id, e) && Selective(e) && 1 <= size <= MAX_BATCH
    requires forall v :: Genuine(v) ==> Respectful(e, v)
    modifies db
    ensures r.Success? ==> Opens(run, id, e) && Accounted(db.State(), VerifiedOf(e.stored(0), id), r.value)
    ensures Alone(e) ==> Balanced(old(db.State()), db.State(), e)
    ensures r.Failure? && r.error !in {Refused(LeaseActive), Refused(ArchiveMismatch), GateClosed} ==>
      !RunsFor(db.State(), w)
    ensures !Opens(run, id, e) ==> r == Failure(GateClosed) && db.State() == old(db.State())
    ensures Opens(run, id, e) && Calm(e, VerifiedOf(e.stored(0), id), lease) ==>
      (r.Success? <==> CanClaim(old(db.Current()), VerifiedOf(e.stored(0), id).snapshot, e.clock(3)))
  {
    var v := Gate(run, id, e);
    if v.None? {
      BalancedStart(db.State(), e);
      return Failure(GateClosed);
    }
    SoundPlan(run, id, e);
    RecordFits(db.State(), v.value);
    r := Clean(db, w, v.value, size, lease, e, 3);
  }

}
