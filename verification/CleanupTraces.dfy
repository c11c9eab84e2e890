/** Runs of the protocol built step by step, for the results about what can happen.

    A run in parts is the run of its parts; from an open gate a worker can claim the run, pass the phases
    that have no candidates, and delete the first candidate there is. Nothing here is a promise of the
    program. */
module CleanupTraces {
  import opened Ordering
  import opened Archives
  import opened ArchiveIo
  import opened ArchiveIndex
  import opened ArchiveSnapshots
  import opened CleanupTables
  import opened CleanupProtocol

  // ---------------------------------------------------------------- runs in parts

  lemma {:induction false} ReachedOne(s: State, actions: seq<Action>, a: Action)
    ensures Reached(s, actions + [a]) == Next(Reached(s, actions), a)
  {
    assert (actions + [a])[..|actions|] == actions;
  }

  lemma {:induction false} ReachedJoin(s: State, before: seq<Action>, after: seq<Action>)
    ensures Reached(s, before + after) == Reached(Reached(s, before), after)
  {
    if after == [] {
      assert before + after == before;
    } else {
      var m := |after| - 1;
      ReachedJoin(s, before, after[..m]);
      assert before + after == (before + after[..m]) + [after[m]];
      ReachedOne(s, before + after[..m], after[m]);
    }
  }

  lemma {:induction false} SameCreation(s: State, a: Action)
    requires !IsCreation(a)
    ensures Next(s, a).creation == s.creation
  {
    match a
    case Claim(x, now, lease) =>
    case ReadBatch(x, now, size) =>
    case CommitBatch(x, now, lease, existing, eligible, deleted) =>
    case CommitClose(x, now, lease) =>
    case ReadFinish(x, now) =>
    case CommitFinish(x, now) =>
    case _ => if IsGate(a) { GateTables(s, a); }
  }

  lemma {:induction false} CreationSteps(s: State, actions: seq<Action>)
    requires forall k :: 0 <= k < |actions| ==> IsCreation(actions[k])
    ensures Reached(s, actions).creation == CreateAll(s.creation, s.id, actions) && OnlyCreation(s, Reached(s, actions))
  {
    if actions != [] { CreationSteps(s, actions[..|actions| - 1]); }
  }

  ghost function CreateAll(c: Creation, id: string, actions: seq<Action>): Creation {
    if actions == [] then c else Create(CreateAll(c, id, actions[..|actions| - 1]), id, actions[|actions| - 1])
  }

  ghost predicate OnlyCreation(s: State, n: State) {
    && n.tables == s.tables && n.rows == s.rows && n.workers == s.workers && n.origin == s.origin
    && n.classified == s.classified && n.id == s.id
  }

  function ToItsName(a: Archive): seq<Action> { [CreateRun, Action.Export(a), MarkCompleted, Rename] }

  /** An archive is created and its run marked verified, by the process that creates it or, earlier, by a later
      verification while that process is still within `finalize` or just past it. */
  function Creates(a: Archive, creator: Creator): seq<Action> {
    match creator
    case Ended => ToItsName(a) + [Finalize] + [MarkVerified]
    case Finalized => ToItsName(a) + [Finalize] + [VerifyLater]
    case _ => ToItsName(a) + [VerifyLater]
  }

  function InPlaceAs(a: Archive, creator: Creator, status: ArchiveStatus, m: ManifestDigest): Creation {
    Creation(Some(ArchiveRun(status, Some(m))), creator, None, Some(a))
  }

  lemma {:induction false} CreateOne(c: Creation, id: string, steps: seq<Action>, a: Action)
    ensures CreateAll(c, id, steps + [a]) == Create(CreateAll(c, id, steps), id, a)
  {
    assert (steps + [a])[..|steps|] == steps;
  }

  lemma {:induction false} FourInRow(id: string, a: Archive)
    requires Accepted(a, id)
    ensures var c1 := Create(Creation(None, NotStarted, None, None), id, CreateRun);
      var c2 := Create(c1, id, Action.Export(a));
      var c3 := Create(c2, id, MarkCompleted);
      Create(c3, id, Rename) == InPlaceAs(a, Renamed, ArchiveCompleted, VerifiedOf(a, id).snapshot.manifest)
  {}

  lemma {:induction false} FourSteps(c: Creation, id: string, a: Archive)
    requires c == Creation(None, NotStarted, None, None) && Accepted(a, id)
    ensures CreateAll(c, id, ToItsName(a))
      == InPlaceAs(a, Renamed, ArchiveCompleted, VerifiedOf(a, id).snapshot.manifest)
  {
    var t := ToItsName(a);
    assert t[..3][..2] == t[..2] && t[..2][..1] == t[..1] && t[..1][..0] == [];
    assert CreateAll(c, id, t[..1]) == Create(c, id, t[0]);
    assert CreateAll(c, id, t[..2]) == Create(CreateAll(c, id, t[..1]), id, t[1]);
    assert CreateAll(c, id, t[..3]) == Create(CreateAll(c, id, t[..2]), id, t[2]);
    FourInRow(id, a);
  }

  lemma {:induction false} LastSteps(id: string, a: Archive, m: ManifestDigest)
    requires Accepted(a, id) && m == VerifiedOf(a, id).snapshot.manifest
    ensures Create(InPlaceAs(a, Renamed, ArchiveCompleted, m), id, VerifyLater)
      == InPlaceAs(a, Renamed, ArchiveVerified, m)
    ensures Create(InPlaceAs(a, Renamed, ArchiveCompleted, m), id, Finalize)
      == InPlaceAs(a, Finalized, ArchiveCompleted, m)
    ensures Create(InPlaceAs(a, Finalized, ArchiveCompleted, m), id, VerifyLater)
      == InPlaceAs(a, Finalized, ArchiveVerified, m)
    ensures Create(InPlaceAs(a, Finalized, ArchiveCompleted, m), id, MarkVerified)
      == InPlaceAs(a, Ended, ArchiveVerified, m)
  {}

  lemma {:induction false} AllSteps(c: Creation, id: string, a: Archive, creator: Creator)
    requires c == Creation(None, NotStarted, None, None) && Accepted(a, id) && creator in {Renamed, Finalized, Ended}
    ensures CreateAll(c, id, Creates(a, creator))
      == InPlaceAs(a, creator, ArchiveVerified, VerifiedOf(a, id).snapshot.manifest)
  {
    FourSteps(c, id, a);
    LastSteps(id, a, VerifiedOf(a, id).snapshot.manifest);
    CreateOne(c, id, ToItsName(a), VerifyLater);
    CreateOne(c, id, ToItsName(a), Finalize);
    CreateOne(c, id, ToItsName(a) + [Finalize], VerifyLater);
    CreateOne(c, id, ToItsName(a) + [Finalize], MarkVerified);
  }

  lemma {:induction false} AfterCreation(s: State, a: Archive, creator: Creator)
    requires Initial(s) && Accepted(a, s.id) && creator in {Renamed, Finalized, Ended}
    ensures var n := Reached(s, Creates(a, creator));
      && OnlyCreation(s, n)
      && n.creation == InPlaceAs(a, creator, ArchiveVerified, VerifiedOf(a, s.id).snapshot.manifest)
  {
    CreationSteps(s, Creates(a, creator));
    AllSteps(s.creation, s.id, a, creator);
  }

  lemma {:induction false} FiveClassified(s: State, actions: seq<Action>)
    requires Initial(s)
    ensures |Reached(s, actions).classified| == PHASES && Reached(s, actions).id == s.id
  {
    if actions != [] {
      var n := |actions| - 1;
      FiveClassified(s, actions[..n]);
      SameShape(Reached(s, actions[..n]), actions[n]);
    }
  }

  predicate SameShapes(s: State, n: State) { |n.classified| == |s.classified| && n.id == s.id }

  lemma {:induction false} BatchShape(s: State, w: string, now: int, lease: nat, existing: set<string>,
      eligible: set<string>, deleted: set<string>)
    ensures SameShapes(s, EndBatch(s, w, now, lease, existing, eligible, deleted))
  {}

  lemma {:induction false} ReadShape(s: State, w: string, now: int, size: nat, lease: nat)
    ensures SameShapes(s, BeginBatch(s, w, now, size)) && SameShapes(s, ClaimRun(s, w, now, lease))
  {}

  lemma {:induction false} SameShape(s: State, a: Action)
    ensures SameShapes(s, Next(s, a))
  {
    match a
    case Claim(x, now, lease) => ReadShape(s, x, now, 0, lease);
    case ReadBatch(x, now, size) => ReadShape(s, x, now, size, 0);
    case CommitBatch(x, now, lease, existing, eligible, deleted) =>
      BatchShape(s, x, now, lease, existing, eligible, deleted);
    case CommitClose(x, now, lease) =>
    case ReadFinish(x, now) =>
    case CommitFinish(x, now) =>
    case _ => if IsGate(a) { GateShape(s, a); }
  }

  lemma {:induction false} GateShape(s: State, a: Action)
    requires IsGate(a)
    ensures var n := GateStep(s, a); n == s.(workers := n.workers)
  {
    match a
    case GateRead(w) =>
    case GateVerify(w) =>
    case GateIndex(w) =>
    case GateAgain(w) =>
  }

  // ---------------------------------------------------------------- from the claim to a deletion

  /** `w`, working from `x`, is about to read the first page of phase `q`, and the row `id` of phase `p`
      is still there. */
  ghost predicate Poised(n: State, w: string, x: Verified, q: nat, p: nat, id: string) {
    && w in n.workers && n.workers[w] == Active(x, q, None)
    && n.tables.run.Some? && LeaseHeld(n.tables.run.value, w, 0) && n.tables.run.value.snapshot == x.snapshot
    && |n.tables.progress| == |n.classified| == |x.plan| == PHASES
    && (forall r :: q <= r < PHASES ==> n.tables.progress[r] == Progress(Waiting, None, 0, 0, 0, 0))
    && Stable(n.creation, x.snapshot)
    && (p, id) in n.rows
  }

  function Skip(w: string): seq<Action> { [ReadBatch(w, 0, 1), CommitClose(w, 0, 10), SkipPhase(w)] }

  function Skips(w: string, q: nat): seq<Action> { if q == 0 then [] else Skips(w, q - 1) + Skip(w) }

  lemma {:induction false} ThreeSteps(s: State, a: Action, b: Action, c: Action)
    ensures Reached(s, [a, b, c]) == Next(Next(Next(s, a), b), c)
  {
    var t := [a, b, c];
    assert t[..2][..1] == t[..1] && t[..1][..0] == [];
    assert Reached(s, t[..1]) == Next(s, a);
    assert Reached(s, t[..2]) == Next(Reached(s, t[..1]), b);
  }

  lemma {:induction false} EmptyPage(n: State, w: string, x: Verified, q: nat, p: nat, id: string)
    requires Poised(n, w, x, q, p, id) && q < PHASES && x.plan[q] == []
    ensures Next(n, ReadBatch(w, 0, 1)) == WithTx(n, w, Some(CloseTx(q, n.tables.run.value.version)))
  {
    PageIsSlice([], 0, 1);
    assert AtOpenPhase(n, w) && MayRead(n, w, 0);
  }

  lemma {:induction false} ClosesPhase(n: State, w: string, x: Verified, q: nat, p: nat, id: string)
    requires Poised(n, w, x, q, p, id) && q < PHASES
    ensures var r := WithTx(n, w, Some(CloseTx(q, n.tables.run.value.version)));
      && Poised(LeavePhase(EndClose(r, w, 0, 10), w), w, x, q + 1, p, id)
      && LeavePhase(EndClose(r, w, 0, 10), w).creation == n.creation
  {}

  lemma {:induction false} CloseAndLeave(r: State, w: string)
    ensures Next(Next(r, CommitClose(w, 0, 10)), SkipPhase(w)) == LeavePhase(EndClose(r, w, 0, 10), w)
  {}

  lemma {:induction false} EmptyPhase(n: State, w: string, x: Verified, q: nat, p: nat, id: string)
    requires Poised(n, w, x, q, p, id) && q < PHASES && x.plan[q] == []
    ensures Poised(Reached(n, Skip(w)), w, x, q + 1, p, id) && Reached(n, Skip(w)).creation == n.creation
  {
    ThreeSteps(n, ReadBatch(w, 0, 1), CommitClose(w, 0, 10), SkipPhase(w));
    EmptyPage(n, w, x, q, p, id);
    CloseAndLeave(WithTx(n, w, Some(CloseTx(q, n.tables.run.value.version))), w);
    ClosesPhase(n, w, x, q, p, id);
  }

  lemma {:induction false} EmptyPhases(n: State, w: string, x: Verified, q: nat, p: nat, id: string)
    requires Poised(n, w, x, 0, p, id) && q < PHASES && forall r :: 0 <= r < q ==> x.plan[r] == []
    ensures Poised(Reached(n, Skips(w, q)), w, x, q, p, id) && Reached(n, Skips(w, q)).creation == n.creation
  {
    if q > 0 {
      EmptyPhases(n, w, x, q - 1, p, id);
      ReachedJoin(n, Skips(w, q - 1), Skip(w));
      EmptyPhase(Reached(n, Skips(w, q - 1)), w, x, q - 1, p, id);
    }
  }

  /** `first` is what the first page of `refs` begins with. */
  predicate Leads(refs: seq<Ref>, first: Ref) { PageAfter(refs, None, None, 1) == Success([first]) }

  lemma {:induction false} AscendingLeads(refs: seq<Ref>)
    requires refs != [] && Ascending(refs, RefLess)
    ensures Leads(refs, refs[0])
  {
    PageIsSlice(refs, 0, 1);
    assert refs[0..1] == [refs[0]];
  }

  lemma {:induction false} FirstPage(n: State, w: string, x: Verified, p: nat, first: Ref)
    requires Poised(n, w, x, p, p, first.entityId) && p < PHASES && Leads(x.plan[p], first)
    ensures Next(n, ReadBatch(w, 0, 1))
            == WithTx(n, w, Some(BatchTx(p, n.tables.run.value.version, [first], n.creation.finalized.value)))
  {
    assert AtOpenPhase(n, w) && MayRead(n, w, 0);
  }

  lemma {:induction false} FirstDeletion(n: State, w: string, x: Verified, p: nat, first: Ref, seen: Archive)
    requires Poised(n, w, x, p, p, first.entityId) && p < PHASES
    ensures var r, id := WithTx(n, w, Some(BatchTx(p, n.tables.run.value.version, [first], seen))), first.entityId;
      (p, id) !in EndBatch(r, w, 0, 10, {id}, {id}, {id}).rows
  {
    var batch := [first];
    assert batch[0] in batch;
    assert Ids(batch) == {first.entityId};
    assert Present(n.rows, p, batch) == {first.entityId};
  }

  /** The deletion at the end. */
  function LastCommit(w: string, id: string): Action { CommitBatch(w, 0, 10, {id}, {id}, {id}) }

  ghost predicate Loses(r: State, w: string, p: nat, id: string) {
    (p, id) in r.rows && (p, id) !in Next(r, LastCommit(w, id)).rows
  }

  lemma {:induction false} ReadThenLost(n: State, w: string, x: Verified, p: nat, first: Ref)
    requires Poised(n, w, x, p, p, first.entityId) && p < PHASES && Leads(x.plan[p], first)
    ensures Loses(Next(n, ReadBatch(w, 0, 1)), w, p, first.entityId)
    ensures Next(n, ReadBatch(w, 0, 1)).creation == n.creation
  {
    FirstPage(n, w, x, p, first);
    FirstDeletion(n, w, x, p, first, n.creation.finalized.value);
  }

  function Entry(w: string, p: nat, id: string): seq<Action> { [RowsChange({(p, id)}), Claim(w, 0, 10)] }

  /** From the gate to the deletion of the first candidate there is. */
  function Trail(w: string, p: nat, id: string): seq<Action> { Entry(w, p, id) + Skips(w, p) + [ReadBatch(w, 0, 1)] }

  lemma {:induction false} TwoSteps(s: State, a: Action, b: Action)
    ensures Reached(s, [a, b]) == Next(Next(s, a), b)
  {
    var t := [a, b];
    assert t[..1][..0] == [] && Reached(s, t[..1]) == Next(s, a);
  }

  lemma {:induction false} ClaimPoises(n: State, w: string, x: Verified, p: nat, id: string)
    requires w in n.workers && n.workers[w] == Gated(x) && n.tables == NO_TABLES && |n.classified| == |x.plan| == PHASES
    requires Stable(n.creation, x.snapshot)
    ensures var c := Reached(n, Entry(w, p, id));
      Poised(c, w, x, 0, p, id) && c.creation == n.creation
  {
    TwoSteps(n, RowsChange({(p, id)}), Claim(w, 0, 10));
  }

  lemma {:induction false} TrailParts(n: State, w: string, p: nat, id: string)
    ensures Reached(n, Trail(w, p, id)) == Next(Reached(Reached(n, Entry(w, p, id)), Skips(w, p)), ReadBatch(w, 0, 1))
  {
    ReachedOne(n, Entry(w, p, id) + Skips(w, p), ReadBatch(w, 0, 1));
    ReachedJoin(n, Entry(w, p, id), Skips(w, p));
  }

  /** A worker past the gate can go on to delete the first candidate there is. */
  lemma {:induction false} TrailDeletes(n: State, w: string, x: Verified, p: nat, first: Ref)
    requires w in n.workers && n.workers[w] == Gated(x) && n.tables == NO_TABLES && |n.classified| == |x.plan| == PHASES
    requires Stable(n.creation, x.snapshot)
    requires p < PHASES && Leads(x.plan[p], first) && forall r :: 0 <= r < p ==> x.plan[r] == []
    ensures var r := Reached(n, Trail(w, p, first.entityId));
      Loses(r, w, p, first.entityId) && r.creation == n.creation
  {
    var id := first.entityId;
    ClaimPoises(n, w, x, p, id);
    EmptyPhases(Reached(n, Entry(w, p, id)), w, x, p, p, id);
    ReadThenLost(Reached(Reached(n, Entry(w, p, id)), Skips(w, p)), w, x, p, first);
    TrailParts(n, w, p, id);
  }
}
