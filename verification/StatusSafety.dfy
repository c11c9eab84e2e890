/** The status of the archive's run, and when a deletion finds it verified. */
module StatusSafety {
  import opened Ordering
  import opened Archives
  import opened ArchiveIo
  import opened ArchiveSnapshots
  import opened CleanupTables
  import opened CleanupProtocol
  import opened CleanupSafety
  import opened CleanupTraces
  import opened GateSafety

  // ---------------------------------------------------------------- what changes the status

  /** The failure handler runs while the creating process is still at work. */
  predicate Fails(c: Creation, a: Action) {
    a == CreateFails && c.creator in {Started, Exported, Marked, Renamed} && c.run.Some?
  }

  ghost predicate FailureHandled(s: State, actions: seq<Action>) {
    exists n :: 0 <= n < |actions| && Fails(Reached(s, actions[..n]).creation, actions[n])
  }

  predicate CreationRight(c: Creation) {
    (c.run.None? ==> c.creator in {NotStarted, Ended}) && (c.creator == NotStarted ==> c.run.None?)
  }

  lemma {:induction false} CreationStatus(c: Creation, id: string, a: Action)
    requires CreationRight(c)
    ensures CreationRight(Create(c, id, a))
    ensures StatusIs(Create(c, id, a), ArchiveFailed) <==> StatusIs(c, ArchiveFailed) || Fails(c, a)
  {}

  lemma {:induction false} StatusStep(s: State, a: Action)
    requires CreationRight(s.creation)
    ensures CreationRight(Next(s, a).creation)
    ensures StatusIs(Next(s, a).creation, ArchiveFailed) <==>
      StatusIs(s.creation, ArchiveFailed) || Fails(s.creation, a)
  {
    if IsCreation(a) { CreationStatus(s.creation, s.id, a); } else { SameCreation(s, a); }
  }

  /** An archive's run is marked failed exactly when the failure handler of its creating process has run. */
  lemma {:induction false} StatusHistory(s: State, actions: seq<Action>)
    requires Initial(s)
    ensures CreationRight(Reached(s, actions).creation)
    ensures StatusIs(Reached(s, actions).creation, ArchiveFailed) <==> FailureHandled(s, actions)
  {
    if actions != [] {
      var n := |actions| - 1;
      StatusHistory(s, actions[..n]);
      StatusStep(Reached(s, actions[..n]), actions[n]);
      FailureSoFar(s, actions);
    }
  }

  lemma {:induction false} FailureSoFar(s: State, actions: seq<Action>)
    requires actions != []
    ensures var n := |actions| - 1;
      FailureHandled(s, actions) <==>
        FailureHandled(s, actions[..n]) || Fails(Reached(s, actions[..n]).creation, actions[n])
  {
    var n := |actions| - 1;
    if FailureHandled(s, actions[..n]) {
      var k :| 0 <= k < n && Fails(Reached(s, actions[..n][..k]).creation, actions[..n][k]);
      assert actions[..n][..k] == actions[..k];
    }
    if FailureHandled(s, actions) {
      var k :| 0 <= k <= n && Fails(Reached(s, actions[..k]).creation, actions[k]);
      if k < n { assert actions[..n][..k] == actions[..k]; }
    }
  }

  // ---------------------------------------------------------------- when verified is final

  predicate Settled(c: Creation) { StatusIs(c, ArchiveVerified) && c.creator in {Finalized, Ended} }

  lemma {:induction false} SettledStep(s: State, a: Action)
    requires Settled(s.creation)
    ensures Settled(Next(s, a).creation)
  {
    if !IsCreation(a) { SameCreation(s, a); }
  }

  lemma {:induction false} StaysSettled(s: State, actions: seq<Action>)
    requires Settled(s.creation)
    ensures Settled(Reached(s, actions).creation)
  {
    if actions != [] {
      StaysSettled(s, actions[..|actions| - 1]);
      SettledStep(Reached(s, actions[..|actions| - 1]), actions[|actions| - 1]);
    }
  }

  ghost predicate StaysVerified(s: State) {
    forall actions :: StatusIs(Reached(s, actions).creation, ArchiveVerified)
  }

  lemma {:induction false} OneFailure(s: State)
    requires StatusIs(s.creation, ArchiveVerified) && s.creation.creator == Renamed
    ensures StatusIs(Reached(s, [CreateFails]).creation, ArchiveFailed)
  {
    ReachedOne(s, [], CreateFails);
    assert [] + [CreateFails] == [CreateFails];
  }

  /** Whatever has happened so far: a run marked verified stays so in every continuation exactly when
      `finalize` is over, by returning or with the process that created the archive. */
  lemma {:induction false} VerifiedIsFinalExactly(s: State, before: seq<Action>)
    requires Initial(s) && StatusIs(Reached(s, before).creation, ArchiveVerified)
    ensures StaysVerified(Reached(s, before)) <==> Reached(s, before).creation.creator in {Finalized, Ended}
  {
    var b := Reached(s, before);
    AlwaysInPlace(s, before);
    if b.creation.creator in {Finalized, Ended} {
      forall actions ensures StatusIs(Reached(b, actions).creation, ArchiveVerified) { StaysSettled(b, actions); }
    } else {
      OneFailure(b);
    }
  }

  // ---------------------------------------------------------------- deletions of a failed archive

  /** Every deletion from here on finds the archive's run verified. */
  ghost predicate DeletesOnlyVerified(s: State) {
    forall actions, a, p, id :: DeletesRow(Reached(s, actions), a, p, id) ==>
      StatusIs(Reached(s, actions).creation, ArchiveVerified)
  }

  /** `w` passes the gate, then the failure handler runs, then `w` deletes its first candidate. */
  function LateFailure(w: string, p: nat, id: string): seq<Action> { Gates(w) + [CreateFails] + Trail(w, p, id) }

  lemma {:induction false} GateThenFailure(s: State, w: string, a: Archive, v: Verified)
    requires Open(s, w, a) && v == VerifiedOf(a, s.id) && s.creation.creator == Renamed
    ensures var n := Reached(s, Gates(w) + [CreateFails]);
      && w in n.workers && n.workers[w] == Gated(v) && n.tables == s.tables && n.classified == s.classified
      && StatusIs(n.creation, ArchiveFailed) && n.creation.finalized == Some(a)
  {
    ThroughGate(s, w, a, v);
    ReachedOne(s, Gates(w), CreateFails);
  }

  /** From an open gate while `finalize` has not returned, cleanup can go on to delete a record after the
      archive's run has been marked failed. */
  lemma {:induction false} LateFailureDeletes(s: State, w: string, a: Archive, v: Verified, p: nat)
    requires Open(s, w, a) && v == VerifiedOf(a, s.id) && s.creation.creator == Renamed
    requires s.tables == NO_TABLES && |s.classified| == PHASES
    requires p < PHASES && v.plan[p] != [] && forall r :: 0 <= r < p ==> v.plan[r] == []
    ensures var id := v.plan[p][0].entityId;
      && Loses(Reached(s, LateFailure(w, p, id)), w, p, id)
      && StatusIs(Reached(s, LateFailure(w, p, id)).creation, ArchiveFailed)
  {
    var id := v.plan[p][0].entityId;
    GateThenFailure(s, w, a, v);
    AcceptedIsStable(a, s.id);
    PhaseOrderly(a, s.id, p);
    AscendingLeads(v.plan[p]);
    ReachedJoin(s, Gates(w) + [CreateFails], Trail(w, p, id));
    TrailDeletes(Reached(s, Gates(w) + [CreateFails]), w, v, p, v.plan[p][0]);
  }

  lemma {:induction false} FirstNonEmpty(plan: seq<seq<Ref>>, p: nat) returns (q: nat)
    requires p < |plan| && plan[p] != []
    ensures q <= p && plan[q] != [] && forall r :: 0 <= r < q ==> plan[r] == []
  {
    q := 0;
    while plan[q] == []
      invariant q <= p && forall r :: 0 <= r < q ==> plan[r] == []
      decreases p - q
    {
      q := q + 1;
    }
  }

  /** The gate is open to `w`, cleanup of the archive has not begun, and there is something to delete. */
  ghost predicate BeforeCleanup(s: State, w: string, a: Archive) {
    Open(s, w, a) && s.tables == NO_TABLES && exists p :: 0 <= p < PHASES && PlanOf(a)[p] != []
  }

  /** Seen from an open gate, before cleanup has begun: every deletion to come finds the archive's run still
      verified exactly when `finalize` is over. */
  lemma {:induction false} VerifiedWhenDeleting(s: State, before: seq<Action>, w: string, a: Archive)
    requires Initial(s) && BeforeCleanup(Reached(s, before), w, a)
    ensures DeletesOnlyVerified(Reached(s, before)) <==> Reached(s, before).creation.creator in {Finalized, Ended}
  {
    var b := Reached(s, before);
    if b.creation.creator in {Finalized, Ended} {
      forall actions, x, p, id | DeletesRow(Reached(b, actions), x, p, id)
        ensures StatusIs(Reached(b, actions).creation, ArchiveVerified) { StaysSettled(b, actions); }
    } else {
      AlwaysInPlace(s, before);
      FiveClassified(s, before);
      SomeLateDeletion(b, w, a);
    }
  }

  lemma {:induction false} SomeLateDeletion(b: State, w: string, a: Archive)
    requires BeforeCleanup(b, w, a) && b.creation.creator == Renamed && |b.classified| == PHASES
    ensures !DeletesOnlyVerified(b)
  {
    var some :| 0 <= some < PHASES && PlanOf(a)[some] != [];
    var p := FirstNonEmpty(PlanOf(a), some);
    var id := PlanOf(a)[p][0].entityId;
    LateFailureDeletes(b, w, a, VerifiedOf(a, b.id), p);
    LossIsDeletion(b, LateFailure(w, p, id), w, p, id);
  }

  lemma {:induction false} LossIsDeletion(b: State, actions: seq<Action>, w: string, p: nat, id: string)
    requires Loses(Reached(b, actions), w, p, id) && StatusIs(Reached(b, actions).creation, ArchiveFailed)
    ensures !DeletesOnlyVerified(b)
  {
    assert DeletesRow(Reached(b, actions), LastCommit(w, id), p, id);
  }

  /** All three occur: a later verification can open the gate while the creating process is within `finalize`
      or past it, and the creating process itself opens it at its end. */
  lemma {:induction false} GateOpensEarly(s: State, w: string, a: Archive, creator: Creator)
    requires Initial(s) && Accepted(a, s.id) && creator in {Renamed, Finalized, Ended}
    ensures var n := Reached(s, Creates(a, creator)); Open(n, w, a) && n.creation.creator == creator
  {
    AfterCreation(s, a, creator);
  }
}
