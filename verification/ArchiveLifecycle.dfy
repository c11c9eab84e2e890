/** Creating an archive and verifying it later, with an exception or a crash at any step. */
module ArchiveLifecycle {
  import opened Ordering
  import opened Archives
  import opened ArchiveIo
  import opened CleanupProtocol
  import CleanupTraces

  /** Where `create` raises, if it does. `AfterReplace` is after the directory got its final name and
      before `finalize` returned. */
  datatype Mishap = NoMishap | AtRun | AtExport | AtCompletion | BeforeReplace | AfterReplace | AtVerification

  /** What the caller of `create` is told; `MetadataPending` is `archive_metadata_finalize_pending`. */
  datatype Report = Created | MetadataPending | CreationFailed

  // ---------------------------------------------------------------- as steps of the protocol

  /** The furthest step taken. */
  function ReachedStep(mishap: Mishap, accepted: bool): Creator {
    match mishap
    case AtRun => NotStarted
    case AtExport => Started
    case _ =>
      if !accepted || mishap == AtCompletion then Exported
      else if mishap == BeforeReplace then Marked
      else if mishap == NoMishap then Ended
      else if mishap == AfterReplace then Renamed
      else Finalized
  }

  /** The steps taken on the way there. */
  ghost function StepsTo(p: Creator, written: Archive): seq<Action> {
    match p
    case NotStarted => []
    case Started => [CreateRun]
    case Exported => [CreateRun, Action.Export(written)]
    case Marked => [CreateRun, Action.Export(written), MarkCompleted]
    case Renamed => [CreateRun, Action.Export(written), MarkCompleted, Rename]
    case Finalized => [CreateRun, Action.Export(written), MarkCompleted, Rename, Finalize]
    case Ended => [CreateRun, Action.Export(written), MarkCompleted, Rename, Finalize, MarkVerified]
  }

  const NOTHING: Creation := Creation(None, NotStarted, None, None)

  /** The state of a new archive after those steps; `digest` is that of its manifest. */
  function StateAt(p: Creator, written: Archive, digest: ManifestDigest): Creation {
    match p
    case NotStarted => NOTHING
    case Started => Creation(Some(ArchiveRun(Creating, None)), Started, None, None)
    case Exported => Creation(Some(ArchiveRun(Creating, None)), Exported, Some(written), None)
    case Marked => Creation(Some(ArchiveRun(ArchiveCompleted, Some(digest))), Marked, Some(written), None)
    case Renamed => Creation(Some(ArchiveRun(ArchiveCompleted, Some(digest))), Renamed, None, Some(written))
    case Finalized => Creation(Some(ArchiveRun(ArchiveCompleted, Some(digest))), Finalized, None, Some(written))
    case Ended => Creation(Some(ArchiveRun(ArchiveVerified, Some(digest))), Ended, None, Some(written))
  }

  function DigestOf(a: Archive): ManifestDigest {
    ManifestDigest(if a.manifest.Some? then a.manifest.value else Unparsable(0))
  }

  lemma {:induction false} DigestIsSnapshot(a: Archive, id: string)
    requires Accepted(a, id)
    ensures Verifies(Some(a), id) && VerifiedFrom(Some(a), id).snapshot.manifest == DigestOf(a)
  {}

  function Before(p: Creator): Creator {
    match p
    case Exported => Started
    case Marked => Exported
    case Renamed => Marked
    case Finalized => Renamed
    case Ended => Finalized
    case _ => NotStarted
  }

  function LastStep(p: Creator, written: Archive): Action {
    match p
    case Started => CreateRun
    case Exported => Action.Export(written)
    case Marked => MarkCompleted
    case Renamed => Rename
    case Finalized => Finalize
    case _ => MarkVerified
  }

  lemma {:induction false} OneMore(p: Creator, written: Archive)
    requires p != NotStarted
    ensures StepsTo(p, written) == StepsTo(Before(p), written) + [LastStep(p, written)]
  {}

  lemma {:induction false} OneStep(p: Creator, written: Archive, id: string)
    requires p != NotStarted && (p in {Marked, Renamed, Finalized, Ended} ==> Accepted(written, id))
    ensures Create(StateAt(Before(p), written, DigestOf(written)), id, LastStep(p, written))
      == StateAt(p, written, DigestOf(written))
  {
    if p == Marked { DigestIsSnapshot(written, id); }
  }

  function Rank(p: Creator): nat {
    match p
    case NotStarted => 0
    case Started => 1
    case Exported => 2
    case Marked => 3
    case Renamed => 4
    case Finalized => 5
    case Ended => 6
  }

  /** The states of `create` are those of the protocol's creating process. */
  lemma {:induction false} StepsLead(p: Creator, written: Archive, id: string)
    requires p in {Marked, Renamed, Finalized, Ended} ==> Accepted(written, id)
    ensures CleanupTraces.CreateAll(NOTHING, id, StepsTo(p, written)) == StateAt(p, written, DigestOf(written))
    decreases Rank(p)
  {
    if p != NotStarted {
      StepsLead(Before(p), written, id);
      OneStep(p, written, id);
      OneMore(p, written);
      CleanupTraces.CreateOne(NOTHING, id, StepsTo(Before(p), written), LastStep(p, written));
    }
  }

  // ---------------------------------------------------------------- the service

  class Service {
    const id: string
    var run: Option<ArchiveRun>
    var partial: Option<Archive>
    var finalized: Option<Archive>

    constructor (archiveId: string)
      ensures id == archiveId && At(NotStarted) == NOTHING
    {
      id := archiveId;
      run, partial, finalized := None, None, None;
    }

    function At(p: Creator): Creation
      reads this
    {
      Creation(run, p, partial, finalized)
    }

    /** First half of the guarded part of `create`: run row, workspace, verification. */
    method Prepare(written: Archive, mishap: Mishap) returns (ready: bool)
      requires At(NotStarted) == NOTHING && mishap != AtRun
      modifies this
      ensures ready <==> mishap !in {AtExport, AtCompletion} && Accepted(written, id)
      ensures var p := if mishap == AtExport then Started else Exported; At(p) == StateAt(p, written, DigestOf(written))
    {
      run := Some(ArchiveRun(Creating, None));
      if mishap == AtExport {
        return false;
      }
      partial := Some(written);
      var verification := Verify(written, id);
      ready := verification.Success? && mishap != AtCompletion;
    }

    /** Second half: the run is completed, the directory renamed, the run marked verified. */
    method Publish(written: Archive, digest: ManifestDigest, mishap: Mishap) returns (done: bool, moved: bool)
      requires At(Exported) == StateAt(Exported, written, digest) && mishap !in {AtRun, AtExport, AtCompletion}
      modifies this
      ensures var p := ReachedStep(mishap, true); At(p) == StateAt(p, written, digest)
      ensures done <==> mishap == NoMishap
      ensures moved <==> mishap in {NoMishap, AtVerification}
    {
      done, moved := false, false;
      run := Some(ArchiveRun(ArchiveCompleted, Some(digest)));
      if mishap == BeforeReplace {
        return;
      }
      partial, finalized := None, partial;
      if mishap == AfterReplace {
        return;
      }
      moved := true;
      if mishap == AtVerification {
        return;
      }
      run := Some(run.value.(status := ArchiveVerified));
      done := true;
    }

    /** Both halves. */
    method Attempt(written: Archive, mishap: Mishap) returns (done: bool, runCreated: bool, moved: bool)
      requires At(NotStarted) == NOTHING
      modifies this
      ensures var p := ReachedStep(mishap, Accepted(written, id)); At(p) == StateAt(p, written, DigestOf(written))
      ensures done <==> mishap == NoMishap && Accepted(written, id)
      ensures runCreated <==> mishap != AtRun
      ensures moved <==> mishap in {NoMishap, AtVerification} && Accepted(written, id)
    {
      done, runCreated, moved := false, mishap != AtRun, false;
      if runCreated {
        var ready := Prepare(written, mishap);
        if ready {
          done, moved := Publish(written, DigestOf(written), mishap);
        }
      }
    }

    /** `create`, with its handler: when the renaming had returned, nothing is undone; otherwise the
        workspace is removed and the run, if there is one, marked failed. A process that does not
        survive the mishap does not get to its handler. */
    method CreateArchive(written: Archive, mishap: Mishap, survives: bool) returns (report: Report)
      requires At(NotStarted) == NOTHING
      modifies this
      ensures report == Created <==> mishap == NoMishap && Accepted(written, id)
      ensures report == MetadataPending <==> mishap == AtVerification && Accepted(written, id)
      ensures At(Ended) == AfterCreate(written, id, mishap, survives)
    {
      var done, runCreated, moved := Attempt(written, mishap);
      if done {
        return Created;
      }
      if moved {
        return MetadataPending;
      }
      if survives && runCreated {
        partial := None;
        run := Some(run.value.(status := ArchiveFailed));
      }
      return CreationFailed;
    }

    /** `verify` of an archive that exists: only a completed or verified run can become verified, and only
        for the contents it was completed with. */
    method VerifyArchive() returns (verified: bool)
      modifies this`run
      ensures forall p :: At(p) == old(Create(At(p), id, VerifyLater))
      ensures verified <==> old(Recoverable(At(Ended), id))
      ensures verified ==> RunIs(run, ArchiveVerified)
    {
      if run.None? || finalized.None? {
        return false;
      }
      var verification := Verify(finalized.value, id);
      if verification.Failure? {
        return false;
      }
      var digest := ManifestDigest(finalized.value.manifest.value);
      if run.value.checksum.Some? && run.value.checksum.value != digest {
        return false;
      }
      if run.value.status !in {ArchiveCompleted, ArchiveVerified} {
        return false;
      }
      run := Some(ArchiveRun(ArchiveVerified, Some(digest)));
      return true;
    }
  }

  predicate RunIs(run: Option<ArchiveRun>, status: ArchiveStatus) { run.Some? && run.value.status == status }

  /** What the failure handler, or the lack of one, leaves of a creation that got so far. */
  ghost function AfterCreate(written: Archive, id: string, mishap: Mishap, survives: bool): Creation {
    LeftBehind(written, DigestOf(written), mishap, survives, Accepted(written, id))
  }

  predicate Handled(mishap: Mishap, survives: bool, accepted: bool) {
    survives && mishap != AtRun && !(mishap in {NoMishap, AtVerification} && accepted)
  }

  function LeftBehind(written: Archive, digest: ManifestDigest, mishap: Mishap, survives: bool,
      accepted: bool): Creation {
    var c := StateAt(ReachedStep(mishap, accepted), written, digest);
    if Handled(mishap, survives, accepted) && c.run.Some? then
      c.(creator := Ended, partial := None, run := Some(c.run.value.(status := ArchiveFailed)))
    else c.(creator := Ended)
  }

  ghost predicate Recoverable(c: Creation, id: string) {
    && Verifies(c.finalized, id) && c.run.Some? && c.run.value.status in {ArchiveCompleted, ArchiveVerified}
    && c.run.value.checksum in {None, Some(VerifiedFrom(c.finalized, id).snapshot.manifest)}
  }

  // ---------------------------------------------------------------- main results

  lemma {:induction false} HandlerIsStep(c: Creation, id: string)
    requires c.creator in {Started, Exported, Marked, Renamed} && c.run.Some?
    ensures Create(c, id, CreateFails)
      == c.(creator := Ended, partial := None, run := Some(c.run.value.(status := ArchiveFailed)))
  {}

  /** Whatever goes wrong, creating an archive is a run of the creating process of the protocol. */
  lemma {:induction false} CreateIsProtocolRun(written: Archive, id: string, mishap: Mishap, survives: bool)
    ensures exists steps :: CleanupTraces.CreateAll(NOTHING, id, steps) == AfterCreate(written, id, mishap, survives)
  {
    var accepted := Accepted(written, id);
    var p := ReachedStep(mishap, accepted);
    var c := StateAt(p, written, DigestOf(written));
    var last := if Handled(mishap, survives, accepted) then CreateFails else CreatorCrashes;
    StepsLead(p, written, id);
    CleanupTraces.CreateOne(NOTHING, id, StepsTo(p, written), last);
    if Handled(mishap, survives, accepted) { HandlerIsStep(c, id); }
    assert CleanupTraces.CreateAll(NOTHING, id, StepsTo(p, written) + [last])
      == AfterCreate(written, id, mishap, survives);
  }

  lemma {:induction false} RecoverableIs(c: Creation, written: Archive, id: string)
    requires c.finalized in {None, Some(written)}
    ensures Recoverable(c, id) <==>
      && c.finalized.Some? && Accepted(written, id) && c.run.Some?
        && c.run.value.status in {ArchiveCompleted, ArchiveVerified}
      && c.run.value.checksum in {None, Some(DigestOf(written))}
  {
    if Accepted(written, id) { DigestIsSnapshot(written, id); }
  }

  lemma {:induction false} LeftStanding(written: Archive, digest: ManifestDigest, mishap: Mishap, survives: bool,
      accepted: bool)
    ensures var c := LeftBehind(written, digest, mishap, survives, accepted);
      && c.finalized == (if accepted && mishap in {NoMishap, AtVerification, AfterReplace} then Some(written) else None)
      && (c.finalized.Some? ==> c.run.Some? && c.run.value.checksum == Some(digest))
      && (c.finalized.Some? ==>
        (c.run.value.status in {ArchiveCompleted, ArchiveVerified} <==> !(mishap == AfterReplace && survives)))
  {}

  /** Verifying later repairs exactly the creations that left the archive in place without their handler:
      those interrupted after the renaming had returned, and those interrupted within it by a crash. An
      exception within it leaves an archive that is in place and can never be marked verified. */
  lemma {:induction false} RecoveredExactly(written: Archive, id: string, mishap: Mishap, survives: bool)
    ensures Recoverable(AfterCreate(written, id, mishap, survives), id) <==>
      Accepted(written, id) && (mishap in {NoMishap, AtVerification} || (mishap == AfterReplace && !survives))
    ensures AfterCreate(written, id, mishap, survives).finalized == Some(written) <==>
      Accepted(written, id) && mishap in {NoMishap, AtVerification, AfterReplace}
  {
    LeftStanding(written, DigestOf(written), mishap, survives, Accepted(written, id));
    RecoverableIs(AfterCreate(written, id, mishap, survives), written, id);
  }

  predicate InPlace(mishap: Mishap, accepted: bool) { accepted && mishap in {NoMishap, AtVerification, AfterReplace} }

  /** What every mishap leaves: the status of the run, its checksum, and the workspace. */
  lemma {:induction false} LeftBehindExactly(written: Archive, id: string, mishap: Mishap, survives: bool)
    ensures var c, accepted := AfterCreate(written, id, mishap, survives), Accepted(written, id);
      && (c.run.None? <==> mishap == AtRun)
      && (RunIs(c.run, ArchiveVerified) <==> accepted && mishap == NoMishap)
      && (RunIs(c.run, ArchiveCompleted) <==>
            accepted && (mishap == AtVerification || (!survives && mishap in {BeforeReplace, AfterReplace})))
      && (RunIs(c.run, Creating) <==> !survives && mishap != AtRun && (mishap in {AtExport, AtCompletion} || !accepted))
      && (c.run.Some? ==>
            if accepted && mishap !in {AtExport, AtCompletion} then c.run.value.checksum == Some(DigestOf(written))
            else c.run.value.checksum.None?)
      && (if survives || mishap in {AtRun, AtExport} || InPlace(mishap, accepted) then c.partial.None?
          else c.partial == Some(written))
      && c.finalized == (if InPlace(mishap, accepted) then Some(written) else None)
      && c.creator == Ended
  {}
}
