/** When the index a worker takes through the gate is the plan of the archive it verified. */
module GateSafety {
  import opened Ordering
  import opened Archives
  import opened ArchiveIo
  import opened ArchiveIndex
  import opened ArchiveSnapshots
  import opened CleanupTables
  import opened CleanupProtocol
  import opened CleanupSafety
  import opened CleanupTraces
  import opened SampleArchives

  // ---------------------------------------------------------------- it takes two changes to be wrong

  type Stage = Worker -> bool

  function BeforeIndex(): Stage { (x: Worker) => x.Checking? }
  function AfterIndex(): Stage { (x: Worker) => x.Indexed? }

  /** The stored files changed while `w` was at this stage. */
  ghost function Changing(s: State, w: string, stage: Stage): seq<Action> -> bool {
    (actions: seq<Action>) =>
      && actions != [] && actions[|actions| - 1].Drift?
      && var n := Reached(s, actions[..|actions| - 1]);
         w in n.workers && stage(n.workers[w])
  }

  ghost predicate IsKept(b: Archive, v: Verified) { PayloadsKept(b, v.snapshot) }

  /** What has not changed since the verification, and since the index was built. */
  ghost predicate Quiet(n: State, x: Worker, before: bool, after: bool) {
    match x
    case Checking(v) => before || (n.creation.finalized.Some? && IsKept(n.creation.finalized.value, v))
    case Indexed(v, b, listed) => (before || IsKept(b, v)) && (after || n.creation.finalized == Some(b))
    case _ => true
  }

  /** The directory is in place: only changes from outside can touch it. */
  ghost predicate InPlace(s: State) {
    && (s.creation.finalized.Some? ==> s.creation.creator in {Renamed, Finalized, Ended})
    && (StatusIs(s.creation, ArchiveVerified) ==> s.creation.creator in {Renamed, Finalized, Ended})
    && (s.workers != map[] ==> s.creation.creator in {Renamed, Finalized, Ended})
  }

  lemma {:induction false} AcceptedIsKept(a: Archive, id: string, v: Verified)
    requires Accepted(a, id) && VerifiedOf(a, id).snapshot == v.snapshot
    ensures IsKept(a, v)
  {
    var m := a.manifest.value.manifest;
    AcceptedFiles(a, id);
    forall i | 0 <= i < |v.snapshot.payloads|
      ensures v.snapshot.payloads[i].filename in a.files
              && PayloadDigest(a.files[v.snapshot.payloads[i].filename]) == v.snapshot.payloads[i].digest {
      assert m.payloads[i].filename == EXPECTED_PAYLOAD_FILES[i];
      assert PayloadSound(FilesOf(a)[i], m.payloads[i]);
    }
  }

  lemma {:induction false} CreationInPlace(c: Creation, id: string, a: Action)
    requires IsCreation(a) && c.creator in {Renamed, Finalized, Ended}
    ensures Create(c, id, a).creator in {Renamed, Finalized, Ended}
    ensures !a.Drift? ==> Create(c, id, a).finalized == c.finalized
  {}

  lemma {:induction false} EarlyCreation(c: Creation, id: string, a: Action)
    requires IsCreation(a) && c.creator !in {Renamed, Finalized, Ended} && c.finalized.None?
      && !StatusIs(c, ArchiveVerified)
    ensures var n := Create(c, id, a);
      n.creator in {Renamed, Finalized, Ended} || (n.finalized.None? && !StatusIs(n, ArchiveVerified))
  {}

  /** No step but the first gate read brings a new worker in. */
  lemma {:induction false} NewWorkers(s: State, a: Action)
    requires !IsCreation(a) && s.workers == map[] && !StatusIs(s.creation, ArchiveVerified)
    ensures Next(s, a).workers == map[]
  {
    match a
    case Claim(x, now, lease) =>
    case ReadBatch(x, now, size) =>
    case CommitBatch(x, now, lease, existing, eligible, deleted) =>
    case CommitClose(x, now, lease) =>
    case ReadFinish(x, now) =>
    case CommitFinish(x, now) =>
    case _ => if IsGate(a) { NoGate(s, a); }
  }

  lemma {:induction false} NoGate(s: State, a: Action)
    requires IsGate(a) && s.workers == map[] && !StatusIs(s.creation, ArchiveVerified)
    ensures GateStep(s, a).workers == map[]
  {
    match a
    case GateRead(w) =>
    case GateVerify(w) =>
    case GateIndex(w) =>
    case GateAgain(w) =>
  }

  lemma {:induction false} StepInPlace(s: State, a: Action)
    requires InPlace(s)
    ensures InPlace(Next(s, a))
  {
    if IsCreation(a) {
      if s.creation.creator in {Renamed, Finalized, Ended} {
        CreationInPlace(s.creation, s.id, a);
      } else {
        EarlyCreation(s.creation, s.id, a);
      }
    } else {
      SameCreation(s, a);
      if s.creation.creator !in {Renamed, Finalized, Ended} { NewWorkers(s, a); }
    }
  }

  lemma {:induction false} AlwaysInPlace(s: State, actions: seq<Action>)
    requires Initial(s)
    ensures InPlace(Reached(s, actions))
  {
    if actions != [] {
      AlwaysInPlace(s, actions[..|actions| - 1]);
      StepInPlace(Reached(s, actions[..|actions| - 1]), actions[|actions| - 1]);
    }
  }

  /** Only changes from outside touch the stored files, and they touch nothing else. */
  lemma {:induction false} StepFrame(s: State, a: Action, w: string)
    requires InPlace(s)
    ensures w in s.workers && !a.Drift? ==> Next(s, a).creation.finalized == s.creation.finalized
    ensures IsCreation(a) ==> Next(s, a).workers == s.workers
    ensures !IsCreation(a) ==> Next(s, a).creation == s.creation
  {
    if w in s.workers { assert s.creation.creator in {Renamed, Finalized, Ended}; }
    if IsCreation(a) {
      if s.creation.creator in {Renamed, Finalized, Ended} { CreationInPlace(s.creation, s.id, a); }
    } else {
      SameCreation(s, a);
    }
  }

  /** A worker that reaches the next stage finds the files as they are. */
  lemma {:induction false} StageQuiet(s: State, w: string, x: Worker, before: bool, after: bool)
    requires LearnsNow(s, w, x)
    requires w in s.workers ==> Quiet(s, s.workers[w], before, after)
    ensures Quiet(s, x, before, after)
  {
    if x.Checking? { AcceptedIsKept(s.creation.finalized.value, s.id, x.verified); }
  }

  lemma {:induction false} QuietStays(s: State, n: State, x: Worker, before: bool, after: bool, later: bool, last: bool)
    requires Quiet(s, x, before, after) && (before ==> later) && (after ==> last)
    requires n.creation.finalized != s.creation.finalized ==> (x.Checking? ==> later) && (x.Indexed? ==> last)
    ensures Quiet(n, x, later, last)
  {}

  ghost predicate Changed(s: State, actions: seq<Action>, w: string, stage: Stage) {
    Ever(actions, Changing(s, w, stage))
  }

  lemma {:induction false} ChangedLater(s: State, actions: seq<Action>, w: string, stage: Stage)
    requires actions != []
    ensures Changed(s, actions[..|actions| - 1], w, stage) ==> Changed(s, actions, w, stage)
    ensures var n, a := Reached(s, actions[..|actions| - 1]), actions[|actions| - 1];
      a.Drift? && w in n.workers && stage(n.workers[w]) ==> Changed(s, actions, w, stage)
  {
    var m, n, a := |actions| - 1, Reached(s, actions[..|actions| - 1]), actions[|actions| - 1];
    if Changed(s, actions[..m], w, stage) { EverLater(actions, m, Changing(s, w, stage)); }
    if a.Drift? && w in n.workers && stage(n.workers[w]) { EverNow(actions, Changing(s, w, stage)); }
  }

  ghost predicate QuietNow(s: State, actions: seq<Action>, w: string) {
    var n := Reached(s, actions);
    w in n.workers ==>
      Quiet(n, n.workers[w], Changed(s, actions, w, BeforeIndex()), Changed(s, actions, w, AfterIndex()))
  }

  lemma {:induction false} QuietStep(r: State, a: Action, n: State, w: string, before: bool, after: bool, later: bool,
      last: bool)
    requires Learns(r, a, n, w) && w in n.workers && (before ==> later) && (after ==> last)
    requires w in r.workers ==> Quiet(r, r.workers[w], before, after)
    requires w in r.workers && a.Drift? ==> (r.workers[w].Checking? ==> later) && (r.workers[w].Indexed? ==> last)
    requires w in r.workers && !a.Drift? ==> n.creation.finalized == r.creation.finalized
    requires IsCreation(a) ==> n.workers == r.workers
    requires !IsCreation(a) ==> n.creation == r.creation
    ensures Quiet(n, n.workers[w], later, last)
  {
    var x := n.workers[w];
    if !(w in r.workers && r.workers[w] == x) { StageQuiet(r, w, x, before, after); }
    QuietStays(r, n, x, before, after, later, last);
  }

  lemma {:induction false} AlwaysQuiet(s: State, actions: seq<Action>, w: string)
    requires Initial(s)
    ensures QuietNow(s, actions, w)
  {
    if actions != [] && w in Reached(s, actions).workers {
      var m := |actions| - 1;
      var r, a, n := Reached(s, actions[..m]), actions[m], Reached(s, actions);
      AlwaysQuiet(s, actions[..m], w);
      AlwaysInPlace(s, actions[..m]);
      StepLearns(r, a, w);
      StepFrame(r, a, w);
      ChangedLater(s, actions, w, BeforeIndex());
      ChangedLater(s, actions, w, AfterIndex());
      QuietStep(r, a, n, w, Changed(s, actions[..m], w, BeforeIndex()), Changed(s, actions[..m], w, AfterIndex()),
                Changed(s, actions, w, BeforeIndex()), Changed(s, actions, w, AfterIndex()));
    }
  }

  /** For a wrong index to pass the gate, the stored files must change twice under one worker: between its
      verification and its index, and back between its index and its second verification. */
  lemma {:induction false} WrongIndexTakesTwoChanges(s: State, actions: seq<Action>)
    requires Initial(s) && !SoundIndexes(s, actions)
    ensures exists w :: Changed(s, actions, w, BeforeIndex()) && Changed(s, actions, w, AfterIndex())
  {
    var n :| 0 <= n < |actions| && !SoundIndex(Reached(s, actions[..n]), actions[n]);
    WrongAt(s, actions, n, actions[n].w);
  }

  lemma {:induction false} WrongAt(s: State, actions: seq<Action>, n: nat, w: string)
    requires Initial(s) && n < |actions| && !SoundIndex(Reached(s, actions[..n]), actions[n]) && actions[n].w == w
    ensures Changed(s, actions, w, BeforeIndex()) && Changed(s, actions, w, AfterIndex())
  {
    AlwaysQuiet(s, actions[..n], w);
    TwoChanges(Reached(s, actions[..n]), actions[n],
               Changed(s, actions[..n], w, BeforeIndex()), Changed(s, actions[..n], w, AfterIndex()));
    EverLater(actions, n, Changing(s, w, BeforeIndex()));
    EverLater(actions, n, Changing(s, w, AfterIndex()));
  }

  lemma {:induction false} TwoChanges(r: State, a: Action, before: bool, after: bool)
    requires !SoundIndex(r, a) && (a.w in r.workers ==> Quiet(r, r.workers[a.w], before, after))
    ensures before && after
  {
    AcceptedIsKept(r.creation.finalized.value, r.id, r.workers[a.w].verified);
  }

  // ---------------------------------------------------------------- through the gate

  function Put(s: State, w: string, x: Worker): State { s.(workers := s.workers[w := x]) }

  lemma {:induction false} PutTwice(s: State, w: string, x: Worker, y: Worker)
    ensures Put(Put(s, w, x), w, y) == Put(s, w, y)
  {
    assert s.workers[w := x][w := y] == s.workers[w := y];
  }

  /** Everything the gate asks for is there: the archive `a` is stored, accepted and marked verified. */
  ghost predicate Open(s: State, w: string, a: Archive) {
    && Accepted(a, s.id) && s.creation.finalized == Some(a)
    && s.creation.run == Some(ArchiveRun(ArchiveVerified, Some(VerifiedOf(a, s.id).snapshot.manifest)))
    && w !in s.workers && OwnerFree(s.tables, w)
  }

  ghost predicate Stores(s: State, a: Archive) { Accepted(a, s.id) && s.creation.finalized == Some(a) }

  lemma {:induction false} ReadStep(s: State, w: string, a: Archive)
    requires Open(s, w, a)
    ensures Next(s, GateRead(w)) == Put(s, w, Reading(Some(VerifiedOf(a, s.id).snapshot.manifest)))
  {}

  lemma {:induction false} VerifyStep(s: State, w: string, a: Archive, v: Verified)
    requires Stores(s, a) && v == VerifiedOf(a, s.id)
    ensures var n := Put(s, w, Reading(Some(v.snapshot.manifest)));
      Next(n, GateVerify(w)) == Put(s, w, Checking(v))
  {
    var n := Put(s, w, Reading(Some(v.snapshot.manifest)));
    assert VerifyGate(n, w) == Put(n, w, Checking(v));
    PutTwice(s, w, Reading(Some(v.snapshot.manifest)), Checking(v));
  }

  lemma {:induction false} IndexStep(s: State, w: string, b: Archive, v: Verified)
    requires s.creation.finalized == Some(b) && CanIndex(b, v)
    ensures Next(Put(s, w, Checking(v)), GateIndex(w)) == Put(s, w, Indexed(v, b, IndexedPlan(b)))
  {
    var n := Put(s, w, Checking(v));
    assert IndexGate(n, w) == Put(n, w, Indexed(v, b, IndexedPlan(b)));
    PutTwice(s, w, Checking(v), Indexed(v, b, IndexedPlan(b)));
  }

  lemma {:induction false} AgainStep(s: State, w: string, a: Archive, v: Verified, b: Archive, listed: seq<seq<Ref>>)
    requires Stores(s, a) && v == VerifiedOf(a, s.id)
    ensures Next(Put(s, w, Indexed(v, b, listed)), GateAgain(w)) == Put(s, w, Gated(v.(plan := listed)))
  {
    var n := Put(s, w, Indexed(v, b, listed));
    assert AgainGate(n, w) == Put(n, w, Gated(v.(plan := listed)));
    PutTwice(s, w, Indexed(v, b, listed), Gated(v.(plan := listed)));
  }

  function FirstHalf(w: string): seq<Action> { [GateRead(w), GateVerify(w)] }

  lemma {:induction false} HalfWay(s: State, w: string, a: Archive, v: Verified)
    requires Open(s, w, a) && v == VerifiedOf(a, s.id)
    ensures Reached(s, FirstHalf(w)) == Put(s, w, Checking(v))
  {
    TwoSteps(s, GateRead(w), GateVerify(w));
    ReadStep(s, w, a);
    VerifyStep(s, w, a, v);
  }

  function SecondHalf(w: string): seq<Action> { [GateIndex(w), GateAgain(w)] }

  /** The gate, with nothing happening in between. */
  function Gates(w: string): seq<Action> { FirstHalf(w) + SecondHalf(w) }

  lemma {:induction false} OtherHalf(s: State, w: string, a: Archive, v: Verified)
    requires Stores(s, a) && v == VerifiedOf(a, s.id)
    ensures Reached(Put(s, w, Checking(v)), SecondHalf(w)) == Put(s, w, Gated(v))
  {
    AcceptedIndexes(a, s.id);
    assert v.(plan := IndexedPlan(a)) == v;
    TwoSteps(Put(s, w, Checking(v)), GateIndex(w), GateAgain(w));
    IndexStep(s, w, a, v);
    AgainStep(s, w, a, v, a, IndexedPlan(a));
  }

  lemma {:induction false} ThroughGate(s: State, w: string, a: Archive, v: Verified)
    requires Open(s, w, a) && v == VerifiedOf(a, s.id)
    ensures Reached(s, Gates(w)) == Put(s, w, Gated(v))
  {
    HalfWay(s, w, a, v);
    OtherHalf(s, w, a, v);
    ReachedJoin(s, FirstHalf(w), SecondHalf(w));
  }

  // ---------------------------------------------------------------- two changes are enough

  /** The stored files are changed to `b`, the index is built, and they are changed back to `a`. */
  function SwapHalf(w: string, a: Archive, b: Archive): seq<Action> { [Drift(Some(b)), GateIndex(w), Drift(Some(a))] }

  function SwappedGates(w: string, a: Archive, b: Archive): seq<Action> {
    FirstHalf(w) + SwapHalf(w, a, b) + [GateAgain(w)]
  }

  function Storing(s: State, a: Archive): State { s.(creation := s.creation.(finalized := Some(a))) }

  lemma {:induction false} DriftStep(s: State, w: string, x: Worker, b: Archive)
    requires s.creation.finalized.Some?
    ensures Next(Put(s, w, x), Drift(Some(b))) == Put(Storing(s, b), w, x)
  {}

  lemma {:induction false} SwapSteps(s: State, w: string, a: Archive, b: Archive, v: Verified)
    requires Stores(s, a) && v == VerifiedOf(a, s.id) && CanIndex(b, v)
    ensures Reached(Put(s, w, Checking(v)), SwapHalf(w, a, b)) == Put(s, w, Indexed(v, b, IndexedPlan(b)))
  {
    ThreeSteps(Put(s, w, Checking(v)), Drift(Some(b)), GateIndex(w), Drift(Some(a)));
    DriftStep(s, w, Checking(v), b);
    IndexStep(Storing(s, b), w, b, v);
    DriftStep(Storing(s, b), w, Indexed(v, b, IndexedPlan(b)), a);
  }

  lemma {:induction false} ThroughSwappedGate(s: State, w: string, a: Archive, b: Archive, v: Verified)
    requires Open(s, w, a) && v == VerifiedOf(a, s.id) && CanIndex(b, v)
    ensures Reached(s, SwappedGates(w, a, b)) == Put(s, w, Gated(v.(plan := IndexedPlan(b))))
  {
    HalfWay(s, w, a, v);
    ReachedJoin(s, FirstHalf(w), SwapHalf(w, a, b));
    SwapSteps(s, w, a, b, v);
    ReachedOne(s, FirstHalf(w) + SwapHalf(w, a, b), GateAgain(w));
    AgainStep(s, w, a, v, b, IndexedPlan(b));
  }

  /** The run of `SwappedIndexDeletes`: an archive is created, and `w` goes through the gate during two
      changes. */
  function Swapped(w: string, a: Archive, b: Archive, p: nat, id: string): seq<Action> {
    Creates(a, Ended) + (SwappedGates(w, a, b) + Trail(w, p, id))
  }

  /** The index of `b` can be built after `a` has verified, and its first record is no candidate of `a`. */
  ghost predicate Misleads(a: Archive, b: Archive, id: string, p: nat, first: Ref) {
    && Accepted(a, id) && p < PHASES
    && var v := VerifiedOf(a, id);
       && CanIndex(b, v) && Leads(IndexedPlan(b)[p], first) && (forall r :: 0 <= r < p ==> IndexedPlan(b)[r] == [])
       && !IsCandidate(v, p, first.entityId)
  }

  /** The other half of `WrongIndexTakesTwoChanges`: with any such `b`, two changes under one worker are
      enough for cleanup to delete a record that is no candidate of the archive. */
  lemma {:induction false} SwappedIndexDeletes(s: State, w: string, a: Archive, b: Archive, p: nat, first: Ref)
    requires Initial(s) && Misleads(a, b, s.id, p, first)
    ensures var n := Reached(s, Swapped(w, a, b, p, first.entityId));
      n.creation.finalized == Some(a) && Loses(n, w, p, first.entityId)
    ensures !IsCandidate(VerifiedOf(a, s.id), p, first.entityId)
  {
    var id := first.entityId;
    AcceptedIsStable(a, s.id);
    AfterCreation(s, a, Ended);
    ReachedJoin(s, Creates(a, Ended), SwappedGates(w, a, b) + Trail(w, p, id));
    SwapThenTrail(Reached(s, Creates(a, Ended)), w, a, b, VerifiedOf(a, s.id), IndexedPlan(b), p, first);
  }

  lemma {:induction false} SwapThenTrail(s: State, w: string, a: Archive, b: Archive, v: Verified,
      listed: seq<seq<Ref>>, p: nat, first: Ref)
    requires Open(s, w, a) && v == VerifiedOf(a, s.id) && CanIndex(b, v) && listed == IndexedPlan(b)
    requires s.tables == NO_TABLES && |s.classified| == PHASES && Stable(s.creation, v.snapshot)
    requires p < PHASES && Leads(listed[p], first) && forall r :: 0 <= r < p ==> listed[r] == []
    ensures var r := Reached(s, SwappedGates(w, a, b) + Trail(w, p, first.entityId));
      Loses(r, w, p, first.entityId) && r.creation == s.creation
  {
    ThroughSwappedGate(s, w, a, b, v);
    ReachedJoin(s, SwappedGates(w, a, b), Trail(w, p, first.entityId));
    TrailDeletes(Put(s, w, Gated(v.(plan := listed))), w, v.(plan := listed), p, first);
  }

  /** There are such archives, under every identifier. */
  lemma {:induction false} MisleadingArchives(id: string)
    ensures Misleads(SoleArchive(id, "a"), SoleArchive(id, "b"), id, 0, Ref(0, "b"))
  {
    SoleAccepted(id, "a");
    SoleAccepted(id, "b");
    SwapFacts(SoleArchive(id, "a"), SoleArchive(id, "b"), id);
  }

  lemma {:induction false} SwapFacts(a: Archive, b: Archive, id: string)
    requires Accepted(a, id) && Accepted(b, id)
    requires VerifiedOf(a, id).plan[0] == [Ref(0, "a")] && VerifiedOf(b, id).plan[0] == [Ref(0, "b")]
    requires VerifiedOf(a, id).candidates == VerifiedOf(b, id).candidates
    requires VerifiedOf(a, id).dependencies == VerifiedOf(b, id).dependencies
    ensures Misleads(a, b, id, 0, Ref(0, "b"))
  {
    AcceptedIndexes(b, id);
    AscendingLeads([Ref(0, "b")]);
  }
}
