/** The life of one ingestion job, with its conditional and its unconditional status updates. */
module Jobs {
  import opened Ordering

  datatype Status = Queued | Processing | CancelRequested | Cancelled | Completed | JobFailed

  datatype AuditType = CancellationRequested | CancellationDone

  /** The row, whether it has a lease that can expire, its audit events, and how often results were
      committed for it. */
  datatype Job = Job(status: Status, attempts: nat, leased: bool, audits: seq<AuditType>, results: nat)

  /** Where an attempt is: at work, in the transaction that has written its results but not yet committed
      them, past an exception, past the commit, or stopping because it found a cancellation. */
  datatype Point = AtWork | Writing | Raising(retryable: bool) | Persisted | Stopping

  /** An attempt of a worker, or of a caller who has the file analyzed directly, with no handler around it. */
  datatype Attempt = Attempt(byWorker: bool, at: Point)

  /** `running` are the attempts under way; several when a lease expires under a slow one. The others have
      read the row and not yet written it: calls that are publishing the job, calls that have found it
      failed, and recoveries that have found its lease expired, with the number of attempts they saw. */
  datatype State = State(job: Option<Job>, running: map<nat, Attempt>, dispatching: nat, resubmitting: nat,
    recovering: multiset<nat>)

  datatype Action =
    // submitting: a failed job is found first and written then
    | Submit | ReadFailed | Resubmit | DispatchSucceeds | DispatchFails
    | AnalyzeDirectly(w: nat) | AnalyzeAgain(w: nat) | DirectEnds(w: nat)
    // an attempt
    | Claim(w: nat) | CheckCancellation(w: nat) | Raise(w: nat, retryable: bool)
    | WriteResults(w: nat) | CommitResults(w: nat) | PersistFails(w: nat)
    // the worker around it
    | HandlerRequeues(w: nat) | HandlerFails(w: nat) | WorkerFinishes(w: nat) | WorkerStops(w: nat)
    | Crashes(w: nat)
    // recovery of a job whose lease has expired: first read, then written
    | RecoverReads | RecoverWrites(seen: nat) | RecoverFinalizes
    | Cancel | Finalize

  const MAX_ATTEMPTS: nat := 3

  predicate CancellationTookEffect(j: Job) { j.status in {CancelRequested, Cancelled} }

  // ---------------------------------------------------------------- audit events

  /** `_add_audit_event`: at most one event of a type. */
  function Audited(audits: seq<AuditType>, t: AuditType): (r: seq<AuditType>)
    ensures t in r && forall x :: x in r <==> x in audits || x == t
  {
    if t in audits then audits else audits + [t]
  }

  function CountOf(audits: seq<AuditType>, t: AuditType): nat {
    if audits == [] then 0 else CountOf(audits[..|audits| - 1], t) + if audits[|audits| - 1] == t then 1 else 0
  }

  lemma {:induction false} CountPositive(audits: seq<AuditType>, t: AuditType)
    ensures CountOf(audits, t) > 0 <==> t in audits
  {
    if audits != [] {
      var n := |audits| - 1;
      CountPositive(audits[..n], t);
      assert audits == audits[..n] + [audits[n]];
    }
  }

  lemma {:induction false} AuditedCounts(audits: seq<AuditType>, t: AuditType, x: AuditType)
    ensures CountOf(Audited(audits, t), x) == if x == t && t !in audits then 1 else CountOf(audits, x)
  {
    CountPositive(audits, t);
    if t !in audits { assert (audits + [t])[..|audits|] == audits; }
  }

  // ---------------------------------------------------------------- conditional updates

  /** `cancel`: a queued job is cancelled at once, a processing one is asked to stop. */
  function Cancelling(j: Job): Job {
    match j.status
    case Queued =>
      j.(status := Cancelled, leased := false,
         audits := Audited(Audited(j.audits, CancellationRequested), CancellationDone))
    case Processing => j.(status := CancelRequested, audits := Audited(j.audits, CancellationRequested))
    case _ => j
  }

  /** `finalize`. */
  function Finalizing(j: Job): Job {
    if j.status == CancelRequested
      then j.(status := Cancelled, leased := false, audits := Audited(j.audits, CancellationDone)) else j
  }

  function Claiming(j: Job): Job {
    if j.status == Queued then j.(status := Processing, attempts := j.attempts + 1, leased := true) else j
  }

  /** The completion update that ends the transaction of the results: both are committed or, when the job
      is no longer processing, both rolled back. */
  function Persisting(j: Job): Job {
    if j.status == Processing then j.(status := Completed, leased := false, results := j.results + 1) else j
  }

  // ---------------------------------------------------------------- steps

  predicate IsAt(s: State, w: nat, at: Point) { w in s.running && s.running[w].at == at && s.job.Some? }

  predicate OfWorker(s: State, w: nat) { w in s.running && s.running[w].byWorker }

  function Moved(s: State, w: nat, at: Point): State
    requires w in s.running
  {
    s.(running := s.running[w := s.running[w].(at := at)])
  }

  function Ended(s: State, w: nat): State { s.(running := map x | x in s.running && x != w :: s.running[x]) }

  function Marked(s: State, status: Status, leased: bool): State
    requires s.job.Some?
  {
    s.(job := Some(s.job.value.(status := status, leased := leased)))
  }

  predicate MayRetry(s: State, w: nat) { IsAt(s, w, Raising(true)) && s.job.value.attempts < MAX_ATTEMPTS }

  /** Submitting, publishing and direct analysis. */
  function SubmitStep(s: State, a: Action): State {
    match a
    case Submit =>
      if s.job.None? then s.(job := Some(Job(Queued, 0, false, [], 0)), dispatching := s.dispatching + 1) else s
    case ReadFailed =>
      if s.job.Some? && s.job.value.status == JobFailed then s.(resubmitting := s.resubmitting + 1) else s
    case Resubmit =>
      if s.resubmitting > 0 && s.job.Some? then
        Marked(s, Queued, s.job.value.leased).(resubmitting := s.resubmitting - 1, dispatching := s.dispatching + 1)
      else s
    case DispatchSucceeds => if s.dispatching > 0 then s.(dispatching := s.dispatching - 1) else s
    case DispatchFails =>
      if s.dispatching > 0 && s.job.Some? then
        Marked(s, JobFailed, s.job.value.leased).(dispatching := s.dispatching - 1)
      else s
    case AnalyzeDirectly(w) =>
      if s.job.None? && w !in s.running then
        s.(job := Some(Job(Processing, 0, false, [], 0)), running := s.running[w := Attempt(false, AtWork)])
      else s
    case AnalyzeAgain(w) =>
      if s.resubmitting > 0 && s.job.Some? && w !in s.running then
        Marked(s, Processing, s.job.value.leased).(resubmitting := s.resubmitting - 1,
                                                   running := s.running[w := Attempt(false, AtWork)])
      else s
    case _ => s
  }

  /** The attempts and the worker's handlers around theirs. */
  function AttemptStep(s: State, a: Action): State {
    match a
    case Claim(w) =>
      if s.job.Some? && s.job.value.status == Queued && w !in s.running then
        s.(job := Some(Claiming(s.job.value)), running := s.running[w := Attempt(true, AtWork)])
      else s
    case CheckCancellation(w) =>
      if (IsAt(s, w, AtWork) || IsAt(s, w, Writing)) && OfWorker(s, w) && CancellationTookEffect(s.job.value) then
        Moved(s, w, Stopping)
      else s
    case Raise(w, retryable) => if IsAt(s, w, AtWork) then Moved(s, w, Raising(retryable)) else s
    case WriteResults(w) => if IsAt(s, w, AtWork) then Moved(s, w, Writing) else s
    case CommitResults(w) =>
      if IsAt(s, w, Writing) then
        Moved(s, w, if s.job.value.status == Processing then Persisted else Stopping)
          .(job := Some(Persisting(s.job.value)))
      else s
    case PersistFails(w) =>
      if IsAt(s, w, AtWork) || IsAt(s, w, Writing) then
        Marked(Moved(s, w, Raising(false)), JobFailed, s.job.value.leased)
      else s
    case HandlerRequeues(w) => if MayRetry(s, w) && OfWorker(s, w) then Marked(Ended(s, w), Queued, false) else s
    case HandlerFails(w) =>
      if w in s.running && s.running[w].at.Raising? && s.job.Some? && OfWorker(s, w) && !MayRetry(s, w) then
        Marked(Ended(s, w), JobFailed, false)
      else s
    case WorkerFinishes(w) =>
      if IsAt(s, w, Persisted) && OfWorker(s, w) then Marked(Ended(s, w), Completed, false) else s
    case WorkerStops(w) =>
      if IsAt(s, w, Stopping) && OfWorker(s, w) then Ended(s, w).(job := Some(Finalizing(s.job.value))) else s
    case DirectEnds(w) =>
      if w in s.running && !s.running[w].byWorker && s.running[w].at !in {AtWork, Writing} then Ended(s, w) else s
    case Crashes(w) => Ended(s, w)
    case _ => s
  }

  /** Recovery: the row is read, and written later, whatever has become of it. */
  function RecoverStep(s: State, a: Action): State {
    match a
    case RecoverReads =>
      if s.job.Some? && s.job.value.leased && s.job.value.status == Processing then
        s.(recovering := s.recovering + multiset{s.job.value.attempts})
      else s
    case RecoverWrites(seen) =>
      if seen in s.recovering && s.job.Some? then
        Marked(s, if seen < MAX_ATTEMPTS then Queued else JobFailed, false)
          .(recovering := s.recovering - multiset{seen})
      else s
    case RecoverFinalizes => if s.job.Some? then s.(job := Some(Finalizing(s.job.value))) else s
    case _ => s
  }

  predicate IsSubmission(a: Action) {
    a.Submit? || a.ReadFailed? || a.Resubmit? || a.DispatchSucceeds? || a.DispatchFails? || a.AnalyzeDirectly?
    || a.AnalyzeAgain?
  }

  predicate IsRecovery(a: Action) { a.RecoverReads? || a.RecoverWrites? || a.RecoverFinalizes? }

  function Next(s: State, a: Action): State {
    if a.Cancel? then (if s.job.Some? then s.(job := Some(Cancelling(s.job.value))) else s)
    else if a.Finalize? then (if s.job.Some? then s.(job := Some(Finalizing(s.job.value))) else s)
    else if IsSubmission(a) then SubmitStep(s, a)
    else if IsRecovery(a) then RecoverStep(s, a)
    else AttemptStep(s, a)
  }

  predicate Initial(s: State) { s == State(None, map[], 0, 0, multiset{}) }

  function Reached(s: State, actions: seq<Action>): State {
    if actions == [] then s else Next(Reached(s, actions[..|actions| - 1]), actions[|actions| - 1])
  }

  // ---------------------------------------------------------------- audits and results

  ghost predicate AuditsRight(j: Job) {
    && CountOf(j.audits, CancellationRequested) <= 1 && CountOf(j.audits, CancellationDone) <= 1
    && (CancellationTookEffect(j) ==> CountOf(j.audits, CancellationRequested) == 1)
    && (j.status == Cancelled ==> CountOf(j.audits, CancellationDone) == 1)
  }

  lemma {:induction false} AuditedTwice(audits: seq<AuditType>)
    requires CountOf(audits, CancellationRequested) <= 1 && CountOf(audits, CancellationDone) <= 1
    ensures forall t :: CountOf(Audited(audits, t), t) == 1
    ensures CountOf(Audited(audits, CancellationRequested), CancellationDone) == CountOf(audits, CancellationDone)
    ensures CountOf(Audited(audits, CancellationDone), CancellationRequested) == CountOf(audits, CancellationRequested)
  {
    forall t ensures CountOf(Audited(audits, t), t) == 1 {
      AuditedCounts(audits, t, t);
      CountPositive(audits, t);
      assert t == CancellationRequested || t == CancellationDone;
    }
    AuditedCounts(audits, CancellationRequested, CancellationDone);
    AuditedCounts(audits, CancellationDone, CancellationRequested);
  }

  lemma {:induction false} CancellingAudits(j: Job)
    requires AuditsRight(j)
    ensures AuditsRight(Cancelling(j)) && AuditsRight(Finalizing(j))
  {
    AuditedTwice(j.audits);
    AuditedTwice(Audited(j.audits, CancellationRequested));
  }

  predicate FinishesCancellation(a: Action) { a.Cancel? || a.Finalize? || a.RecoverFinalizes? || a.WorkerStops? }

  /** Other steps leave the audit events alone and never mark a cancellation. */
  lemma {:induction false} OtherStepAudits(s: State, a: Action)
    requires s.job.Some? && !FinishesCancellation(a)
    ensures Next(s, a).job.Some? && Next(s, a).job.value.audits == s.job.value.audits
    ensures Next(s, a).job.value.status == s.job.value.status || !CancellationTookEffect(Next(s, a).job.value)
  {
    if IsSubmission(a) { SubmissionAudits(s, a); } else if !IsRecovery(a) { AttemptAudits(s, a); }
  }

  lemma {:induction false} SubmissionAudits(s: State, a: Action)
    requires s.job.Some?
    ensures SubmitStep(s, a).job.Some? && SubmitStep(s, a).job.value.audits == s.job.value.audits
    ensures SubmitStep(s, a).job.value.status == s.job.value.status
      || !CancellationTookEffect(SubmitStep(s, a).job.value)
  {}

  lemma {:induction false} AttemptAudits(s: State, a: Action)
    requires s.job.Some? && !FinishesCancellation(a)
    ensures AttemptStep(s, a).job.Some? && AttemptStep(s, a).job.value.audits == s.job.value.audits
    ensures AttemptStep(s, a).job.value.status == s.job.value.status
      || !CancellationTookEffect(AttemptStep(s, a).job.value)
  {}

  lemma {:induction false} CancellationStepAudits(s: State, a: Action)
    requires s.job.Some? && FinishesCancellation(a)
    ensures Next(s, a).job in {s.job, Some(Cancelling(s.job.value)), Some(Finalizing(s.job.value))}
  {}

  lemma {:induction false} StepAudits(s: State, a: Action)
    requires s.job.Some? ==> AuditsRight(s.job.value)
    ensures Next(s, a).job.Some? ==> AuditsRight(Next(s, a).job.value)
  {
    if s.job.Some? {
      if FinishesCancellation(a) {
        CancellationStepAudits(s, a);
        CancellingAudits(s.job.value);
      } else {
        OtherStepAudits(s, a);
      }
    }
  }

  /** However often cancel and finalize run, in every reachable state a job whose cancellation was asked
      for has exactly one request event, and a cancelled one exactly one event of each kind. */
  lemma {:induction false} AuditsExact(s: State, actions: seq<Action>)
    requires Initial(s)
    ensures Reached(s, actions).job.Some? ==> AuditsRight(Reached(s, actions).job.value)
  {
    if actions != [] {
      AuditsExact(s, actions[..|actions| - 1]);
      StepAudits(Reached(s, actions[..|actions| - 1]), actions[|actions| - 1]);
    }
  }

  /** The completion update finds the job still processing. */
  predicate Completes(s: State, a: Action) {
    a.CommitResults? && IsAt(s, a.w, Writing) && s.job.value.status == Processing
  }

  /** Results are committed in no step but that one, which completes the job, one set each time. */
  lemma {:induction false} ResultsOnlyWithCompletion(s: State, a: Action)
    requires s.job.Some?
    ensures Next(s, a).job.Some?
    ensures Next(s, a).job.value.results == s.job.value.results + if Completes(s, a) then 1 else 0
    ensures Completes(s, a) ==> Next(s, a).job.value.status == Completed
  {}

  function Completions(s: State, actions: seq<Action>): nat {
    if actions == [] then 0
    else
      var n := |actions| - 1;
      Completions(s, actions[..n]) + if Completes(Reached(s, actions[..n]), actions[n]) then 1 else 0
  }

  /** Committed results count the completions; a completed job has results, and so has one with an attempt
      past its commit. */
  predicate ResultsRight(s: State, completions: nat) {
    if s.job.None? then s.running == map[] && completions == 0
    else
      && s.job.value.results == completions
      && (s.job.value.status == Completed ==> completions > 0)
      && forall w :: w in s.running && s.running[w].at == Persisted ==> completions > 0
  }

  lemma {:induction false} AttemptResults(s: State, a: Action, completions: nat)
    requires ResultsRight(s, completions) && s.job.Some?
    requires !a.Cancel? && !a.Finalize? && !IsSubmission(a) && !IsRecovery(a)
    ensures ResultsRight(AttemptStep(s, a), completions + if Completes(s, a) then 1 else 0)
  {}

  lemma {:induction false} StepResults(s: State, a: Action, completions: nat)
    requires ResultsRight(s, completions)
    ensures ResultsRight(Next(s, a), completions + if Completes(s, a) then 1 else 0)
  {
    if s.job.Some? && !a.Cancel? && !a.Finalize? && !IsSubmission(a) && !IsRecovery(a) {
      AttemptResults(s, a, completions);
    }
  }

  /** Over every run, whatever cancels, crashes, fails, recovers and overtakes between the writes and the
      commit: results were committed exactly as often as the completion update found the job processing, and
      a job that reads completed has some, whoever wrote that status. */
  lemma {:induction false} ResultsAreCompletions(s: State, actions: seq<Action>)
    requires Initial(s)
    ensures ResultsRight(Reached(s, actions), Completions(s, actions))
  {
    if actions != [] {
      var n := |actions| - 1;
      ResultsAreCompletions(s, actions[..n]);
      StepResults(Reached(s, actions[..n]), actions[n], Completions(s, actions[..n]));
    }
  }

  /** A cancellation that arrives between the writes and the commit wins: the results are rolled back and
      the attempt stops. */
  lemma {:induction false} CancelWhileWritingWins(s: State, w: nat)
    requires IsAt(s, w, Writing) && s.job.value.status == Processing
    ensures var n := Next(Next(s, Cancel), CommitResults(w));
      n.job == Some(Cancelling(s.job.value)) && n.job.value.results == s.job.value.results && IsAt(n, w, Stopping)
  {}

  // ---------------------------------------------------------------- what undoes a cancellation

  /** The step writes the status without looking at it, over a cancellation that took effect. */
  predicate Overwrites(s: State, a: Action) {
    && s.job.Some? && CancellationTookEffect(s.job.value)
    && match a
       case DispatchFails => s.dispatching > 0
       case Resubmit => s.resubmitting > 0
       case AnalyzeAgain(w) => s.resubmitting > 0 && w !in s.running
       case PersistFails(w) => IsAt(s, w, AtWork) || IsAt(s, w, Writing)
       case HandlerRequeues(w) => MayRetry(s, w) && OfWorker(s, w)
       case HandlerFails(w) => OfWorker(s, w) && s.running[w].at.Raising? && !MayRetry(s, w)
       case WorkerFinishes(w) => IsAt(s, w, Persisted) && OfWorker(s, w)
       case RecoverWrites(seen) => seen in s.recovering
       case _ => false
  }

  lemma {:induction false} SubmissionUndoes(s: State, a: Action)
    requires s.job.Some? && CancellationTookEffect(s.job.value) && IsSubmission(a)
    ensures SubmitStep(s, a).job.Some?
    ensures !CancellationTookEffect(SubmitStep(s, a).job.value) <==> Overwrites(s, a)
  {}

  lemma {:induction false} AttemptUndoes(s: State, a: Action)
    requires s.job.Some? && CancellationTookEffect(s.job.value) && !IsSubmission(a) && !IsRecovery(a)
    requires !a.Cancel? && !a.Finalize?
    ensures AttemptStep(s, a).job.Some?
    ensures !CancellationTookEffect(AttemptStep(s, a).job.value) <==> Overwrites(s, a)
  {}

  /** A cancellation that took effect is undone by exactly these writes; no conditional step undoes it. */
  lemma {:induction false} CancellationUndoneOnlyByOverwriting(s: State, a: Action)
    requires s.job.Some? && CancellationTookEffect(s.job.value)
    ensures Next(s, a).job.Some?
    ensures !CancellationTookEffect(Next(s, a).job.value) <==> Overwrites(s, a)
  {
    if IsSubmission(a) {
      SubmissionUndoes(s, a);
    } else if !IsRecovery(a) && !a.Cancel? && !a.Finalize? {
      AttemptUndoes(s, a);
    }
  }

  ghost predicate NeverOverwritten(s: State, actions: seq<Action>) {
    forall n :: 0 <= n < |actions| ==> !Overwrites(Reached(s, actions[..n]), actions[n])
  }

  lemma {:induction false} NeverOverwrittenBefore(s: State, actions: seq<Action>)
    requires actions != [] && NeverOverwritten(s, actions)
    ensures NeverOverwritten(s, actions[..|actions| - 1])
    ensures !Overwrites(Reached(s, actions[..|actions| - 1]), actions[|actions| - 1])
  {
    var init := actions[..|actions| - 1];
    forall k | 0 <= k < |init| ensures !Overwrites(Reached(s, init[..k]), init[k]) {
      assert init[..k] == actions[..k];
    }
  }

  /** A conditional step leaves the results alone while the job is cancelled. */
  lemma {:induction false} CancelledKeepsResults(s: State, a: Action)
    requires s.job.Some? && CancellationTookEffect(s.job.value)
    ensures Next(s, a).job.Some? && Next(s, a).job.value.results == s.job.value.results
  {}

  /** Without such a write the job stays cancelled, and commits nothing, whatever else happens. */
  lemma {:induction false} CancellationSticks(s: State, actions: seq<Action>)
    requires s.job.Some? && CancellationTookEffect(s.job.value) && NeverOverwritten(s, actions)
    ensures var n := Reached(s, actions);
      n.job.Some? && CancellationTookEffect(n.job.value) && n.job.value.results == s.job.value.results
  {
    if actions != [] {
      var n := |actions| - 1;
      NeverOverwrittenBefore(s, actions);
      CancellationSticks(s, actions[..n]);
      CancellationUndoneOnlyByOverwriting(Reached(s, actions[..n]), actions[n]);
      CancelledKeepsResults(Reached(s, actions[..n]), actions[n]);
    }
  }

  /** A worker or a recovery puts the job back to work, or marks it completed, whatever its status is. */
  predicate Revives(s: State, a: Action) {
    match a
    case HandlerRequeues(w) => MayRetry(s, w) && OfWorker(s, w)
    case WorkerFinishes(w) => IsAt(s, w, Persisted) && OfWorker(s, w)
    case RecoverWrites(seen) => s.job.Some? && seen in s.recovering && seen < MAX_ATTEMPTS
    case _ => false
  }

  /** A call that has found the job failed writes it as submitted again. */
  predicate Resubmits(s: State, a: Action) {
    s.resubmitting > 0 && s.job.Some? && (a.Resubmit? || (a.AnalyzeAgain? && a.w !in s.running))
  }

  /** What has happened since the last cancellation that took effect: the job failed, was submitted again, or
      was revived; and whether a call had found it failed before that cancellation. */
  datatype Since = Since(cancelled: bool, failed: bool, resubmitted: bool, revived: bool, foundFailed: bool)

  function Watch(h: Since, s: State, a: Action): Since {
    if s.job.None? then h
    else if a.Cancel? && s.job.value.status in {Queued, Processing} then
      Since(true, false, false, false, s.resubmitting > 0)
    else
      Since(h.cancelled,
            h.failed || (Next(s, a).job.Some? && Next(s, a).job.value.status == JobFailed),
            h.resubmitted || Resubmits(s, a),
            h.revived || Revives(s, a),
            h.foundFailed)
  }

  const UNEVENTFUL: Since := Since(false, false, false, false, false)

  function Watched(s: State, actions: seq<Action>): Since {
    if actions == [] then UNEVENTFUL
    else
      var n := |actions| - 1;
      Watch(Watched(s, actions[..n]), Reached(s, actions[..n]), actions[n])
  }

  /** Unless it was revived, a job that was cancelled is still cancelled, or has failed since, and only a
      submission that found it failed lets it go on. */
  predicate HistoryRight(h: Since, s: State) {
    && (h.cancelled ==> s.job.Some?)
    && (h.cancelled && !h.revived && !h.resubmitted ==>
          && (if h.failed then s.job.value.status == JobFailed else CancellationTookEffect(s.job.value))
          && (s.resubmitting > 0 ==> h.failed || h.foundFailed))
    && (h.cancelled && !h.revived && h.resubmitted ==> h.failed || h.foundFailed)
  }

  lemma {:induction false} StepHistory(h: Since, s: State, a: Action)
    requires HistoryRight(h, s)
    ensures HistoryRight(Watch(h, s, a), Next(s, a))
  {}

  lemma {:induction false} HistoryHolds(s: State, actions: seq<Action>)
    requires Initial(s)
    ensures HistoryRight(Watched(s, actions), Reached(s, actions))
  {
    if actions != [] {
      var n := |actions| - 1;
      HistoryHolds(s, actions[..n]);
      StepHistory(Watched(s, actions[..n]), Reached(s, actions[..n]), actions[n]);
    }
  }

  /** After a cancellation that took effect, a job is completed only if a worker or a recovery has revived it,
      or a call that found it failed, since the cancellation or just before, has submitted it again. */
  lemma {:induction false} NoCompletionAfterCancel(s: State, actions: seq<Action>)
    requires Initial(s) && Watched(s, actions).cancelled
    requires Reached(s, actions).job.Some? && Reached(s, actions).job.value.status == Completed
    ensures var h := Watched(s, actions); h.revived || (h.resubmitted && (h.failed || h.foundFailed))
  {
    HistoryHolds(s, actions);
  }

  lemma {:induction false} ReachedOne(s: State, actions: seq<Action>, a: Action)
    ensures Reached(s, actions + [a]) == Next(Reached(s, actions), a)
    ensures Watched(s, actions + [a]) == Watch(Watched(s, actions), Reached(s, actions), a)
  {
    assert (actions + [a])[..|actions|] == actions;
  }

  /** The history of a run, with the state it leads to. */
  ghost predicate At(s: State, t: seq<Action>, n: State, h: Since) { Reached(s, t) == n && Watched(s, t) == h }

  lemma {:induction false} Further(s: State, t: seq<Action>, a: Action, n: State, h: Since)
    requires At(s, t, n, h)
    ensures At(s, t + [a], Next(n, a), Watch(h, n, a))
  {
    ReachedOne(s, t, a);
  }

  /** A job is claimed by worker 0. */
  function Claimed(): seq<Action> { [Submit] + [DispatchSucceeds] + [Claim(0)] }

  function AtProcessing(running: map<nat, Attempt>): State {
    State(Some(Job(Processing, 1, true, [], 0)), running, 0, 0, multiset{})
  }

  lemma {:induction false} ClaimedState(s: State)
    requires Initial(s)
    ensures At(s, Claimed(), AtProcessing(map[0 := Attempt(true, AtWork)]), UNEVENTFUL)
  {
    var queued := Job(Queued, 0, false, [], 0);
    assert [] + [Submit] == [Submit];
    Further(s, [], Submit, s, UNEVENTFUL);
    Further(s, [Submit], DispatchSucceeds, State(Some(queued), map[], 1, 0, multiset{}), UNEVENTFUL);
    Further(s, [Submit] + [DispatchSucceeds], Claim(0), State(Some(queued), map[], 0, 0, multiset{}), UNEVENTFUL);
  }

  /** From a queued job, a worker goes on to complete it. */
  function Completing(w: nat): seq<Action> { [Claim(w)] + [WriteResults(w)] + [CommitResults(w)] }

  lemma {:induction false} CompletesFrom(s: State, t: seq<Action>, n: State, w: nat)
    requires Reached(s, t) == n && n.job.Some? && n.job.value.status == Queued && w !in n.running
    ensures IsCompleted(Reached(s, t + Completing(w)))
  {
    ReachedThree(s, t, Claim(w), WriteResults(w), CommitResults(w));
    assert t + Completing(w) == t + [Claim(w)] + [WriteResults(w)] + [CommitResults(w)];
    ThreeMoves(n, w);
  }

  lemma {:induction false} ThreeMoves(n: State, w: nat)
    requires n.job.Some? && n.job.value.status == Queued && w !in n.running
    ensures IsCompleted(Next(Next(Next(n, Claim(w)), WriteResults(w)), CommitResults(w)))
  {}

  lemma {:induction false} ReachedThree(s: State, t: seq<Action>, a: Action, b: Action, c: Action)
    ensures Reached(s, t + [a] + [b] + [c]) == Next(Next(Next(Reached(s, t), a), b), c)
  {
    ReachedOne(s, t, a);
    ReachedOne(s, t + [a], b);
    ReachedOne(s, t + [a] + [b], c);
  }

  /** A recovery finds the lease of a crashed worker's job expired; the job is asked to stop; the recovery
      writes what it had decided. */
  function LateRecovery(): seq<Action> { Claimed() + [Crashes(0)] + [RecoverReads] + [Cancel] + [RecoverWrites(1)] }

  /** The job is queued again, over the request. */
  function QueuedAgain(): State {
    State(Some(Job(Queued, 1, false, [CancellationRequested], 0)), map[], 0, 0, multiset{})
  }

  const REVIVED: Since := Since(true, false, false, true, false)

  const ASKED: Since := Since(true, false, false, false, false)

  function AtRequested(running: map<nat, Attempt>, recovering: multiset<nat>): State {
    State(Some(Job(CancelRequested, 1, true, [CancellationRequested], 0)), running, 0, 0, recovering)
  }

  lemma {:induction false} CrashAndRead(s: State, t: seq<Action>)
    requires At(s, t, AtProcessing(map[0 := Attempt(true, AtWork)]), UNEVENTFUL)
    ensures At(s, t + [Crashes(0)] + [RecoverReads], AtProcessing(map[]).(recovering := multiset{1}), UNEVENTFUL)
  {
    Further(s, t, Crashes(0), AtProcessing(map[0 := Attempt(true, AtWork)]), UNEVENTFUL);
    Further(s, t + [Crashes(0)], RecoverReads, AtProcessing(map[]), UNEVENTFUL);
  }

  lemma {:induction false} AskToStop(s: State, t: seq<Action>, running: map<nat, Attempt>, recovering: multiset<nat>)
    requires At(s, t, AtProcessing(running).(recovering := recovering), UNEVENTFUL)
    ensures At(s, t + [Cancel], AtRequested(running, recovering), ASKED)
  {
    assert Audited([], CancellationRequested) == [CancellationRequested];
    Further(s, t, Cancel, AtProcessing(running).(recovering := recovering), UNEVENTFUL);
  }

  lemma {:induction false} WriteLate(s: State, t: seq<Action>)
    requires At(s, t, AtRequested(map[], multiset{1}), ASKED)
    ensures At(s, t + [RecoverWrites(1)], QueuedAgain(), REVIVED)
  {
    Further(s, t, RecoverWrites(1), AtRequested(map[], multiset{1}), ASKED);
  }

  lemma {:induction false} RecoveryRequeues(s: State)
    requires Initial(s)
    ensures At(s, LateRecovery(), QueuedAgain(), REVIVED)
  {
    ClaimedState(s);
    CrashAndRead(s, Claimed());
    AskToStop(s, Claimed() + [Crashes(0)] + [RecoverReads], map[], multiset{1});
    WriteLate(s, Claimed() + [Crashes(0)] + [RecoverReads] + [Cancel]);
  }

  /** Then the job completes, without having failed or been submitted again. */
  lemma {:induction false} RecoveryUndoesCancellation(s: State)
    requires Initial(s)
    ensures Watched(s, LateRecovery()) == REVIVED
    ensures IsCompleted(Reached(s, LateRecovery() + Completing(1)))
  {
    RecoveryRequeues(s);
    CompletesFrom(s, LateRecovery(), QueuedAgain(), 1);
  }

  /** A job is asked to stop, its worker meets a retryable exception before it looks, and the handler queues
      it again. */
  function LateRetry(): seq<Action> { Claimed() + [Cancel] + [Raise(0, true)] + [HandlerRequeues(0)] }

  lemma {:induction false} RaiseLate(s: State, t: seq<Action>)
    requires At(s, t, AtRequested(map[0 := Attempt(true, AtWork)], multiset{}), ASKED)
    ensures At(s, t + [Raise(0, true)], AtRequested(map[0 := Attempt(true, Raising(true))], multiset{}), ASKED)
  {
    Further(s, t, Raise(0, true), AtRequested(map[0 := Attempt(true, AtWork)], multiset{}), ASKED);
  }

  lemma {:induction false} RequeueLate(s: State, t: seq<Action>)
    requires At(s, t, AtRequested(map[0 := Attempt(true, Raising(true))], multiset{}), ASKED)
    ensures At(s, t + [HandlerRequeues(0)], QueuedAgain(), REVIVED)
  {
    Further(s, t, HandlerRequeues(0), AtRequested(map[0 := Attempt(true, Raising(true))], multiset{}), ASKED);
  }

  lemma {:induction false} HandlerQueuesAgain(s: State)
    requires Initial(s)
    ensures At(s, LateRetry(), QueuedAgain(), REVIVED)
  {
    ClaimedState(s);
    AskToStop(s, Claimed(), map[0 := Attempt(true, AtWork)], multiset{});
    RaiseLate(s, Claimed() + [Cancel]);
    RequeueLate(s, Claimed() + [Cancel] + [Raise(0, true)]);
  }

  /** Then too. */
  lemma {:induction false} RequeueUndoesCancellation(s: State)
    requires Initial(s)
    ensures Watched(s, LateRetry()) == REVIVED
    ensures IsCompleted(Reached(s, LateRetry() + Completing(0)))
  {
    HandlerQueuesAgain(s);
    CompletesFrom(s, LateRetry(), QueuedAgain(), 0);
  }

  // ---------------------------------------------------------------- what asking and finishing do

  /** The step finishes a cancellation that was requested. */
  predicate Finishes(s: State, a: Action) {
    a.Finalize? || a.RecoverFinalizes? || (a.WorkerStops? && IsAt(s, a.w, Stopping) && OfWorker(s, a.w))
  }

  ghost predicate CancelledFrom(j: Job, n: Job) {
    && n.status == Cancelled && !n.leased && n.attempts == j.attempts && n.results == j.results
    && CountOf(n.audits, CancellationRequested) == 1 && CountOf(n.audits, CancellationDone) == 1
  }

  ghost predicate RequestedFrom(j: Job, n: Job) {
    && n.status == CancelRequested && n.leased == j.leased && n.attempts == j.attempts && n.results == j.results
    && CountOf(n.audits, CancellationRequested) == 1
    && CountOf(n.audits, CancellationDone) == CountOf(j.audits, CancellationDone)
  }

  /** What finishing does to a job, by its fields. */
  lemma {:induction false} FinalizingExactly(j: Job)
    requires AuditsRight(j)
    ensures if j.status == CancelRequested then CancelledFrom(j, Finalizing(j)) else Finalizing(j) == j
  {
    AuditedTwice(j.audits);
    AuditedCounts(j.audits, CancellationDone, CancellationRequested);
  }

  /** What asking does: a queued job is cancelled at once, a processing one is asked to stop, any other is left
      as it is. */
  lemma {:induction false} CancellingExactly(j: Job)
    requires AuditsRight(j)
    ensures match j.status
      case Queued => CancelledFrom(j, Cancelling(j))
      case Processing => RequestedFrom(j, Cancelling(j))
      case _ => Cancelling(j) == j
  {
    AuditedTwice(j.audits);
    AuditedTwice(Audited(j.audits, CancellationRequested));
    AuditedCounts(j.audits, CancellationRequested, CancellationDone);
    AuditedCounts(Audited(j.audits, CancellationRequested), CancellationDone, CancellationRequested);
  }

  /** In every reachable state a requested cancellation is finished by one such step: the job is cancelled,
      without a lease and with exactly one event of each kind. Any other job is left as it is. */
  lemma {:induction false} CancellationFinishes(s: State, actions: seq<Action>, a: Action)
    requires Initial(s) && Reached(s, actions).job.Some? && Finishes(Reached(s, actions), a)
    ensures var b := Reached(s, actions);
      var n := Next(b, a);
      && n.job.Some?
      && if b.job.value.status == CancelRequested then CancelledFrom(b.job.value, n.job.value) else n.job == b.job
  {
    AuditsExact(s, actions);
    FinishesAs(Reached(s, actions), a);
    FinalizingExactly(Reached(s, actions).job.value);
  }

  lemma {:induction false} FinishesAs(s: State, a: Action)
    requires s.job.Some? && Finishes(s, a)
    ensures Next(s, a).job == Some(Finalizing(s.job.value))
  {}

  /** In every reachable state asking has that effect, and no other. */
  lemma {:induction false} CancellationAsked(s: State, actions: seq<Action>)
    requires Initial(s) && Reached(s, actions).job.Some?
    ensures var b := Reached(s, actions);
      var n := Next(b, Cancel);
      && n == b.(job := n.job) && n.job.Some?
      && match b.job.value.status
         case Queued => CancelledFrom(b.job.value, n.job.value)
         case Processing => RequestedFrom(b.job.value, n.job.value)
         case _ => n == b
  {
    AuditsExact(s, actions);
    CancellingExactly(Reached(s, actions).job.value);
  }

  // ---------------------------------------------------------------- whole attempts

  predicate MayBeClaimed(s: State, w: nat) { s.job.Some? && s.job.value.status == Queued && w !in s.running }

  /** After an attempt of `j` the row says `n`: one attempt more, no lease, the same events. */
  predicate Attempted(j: Job, n: Job, status: Status, results: nat) {
    && n.status == status && n.attempts == j.attempts + 1 && !n.leased && n.audits == j.audits
    && n.results == j.results + results
  }

  /** Nobody but the row changed. */
  predicate SameAround(s: State, n: State) {
    && n.running == s.running && n.dispatching == s.dispatching && n.resubmitting == s.resubmitting
    && n.recovering == s.recovering
  }

  /** The row and one attempt of a worker, and what each step makes of them. */
  function WithAttempt(s: State, w: nat, job: Job, at: Point): State {
    s.(job := Some(job), running := s.running[w := Attempt(true, at)])
  }

  function ClaimedRow(j: Job): Job { j.(status := Processing, attempts := j.attempts + 1, leased := true) }

  lemma {:induction false} ClaimStep(s: State, w: nat)
    requires MayBeClaimed(s, w)
    ensures Next(s, Claim(w)) == WithAttempt(s, w, ClaimedRow(s.job.value), AtWork)
  {}

  lemma {:induction false} WorkSteps(s: State, w: nat, j: Job, retryable: bool)
    ensures Next(WithAttempt(s, w, j, AtWork), WriteResults(w)) == WithAttempt(s, w, j, Writing)
    ensures Next(WithAttempt(s, w, j, AtWork), Raise(w, retryable)) == WithAttempt(s, w, j, Raising(retryable))
  {}

  lemma {:induction false} CommitStep(s: State, w: nat, j: Job)
    requires j.status == Processing
    ensures Next(WithAttempt(s, w, j, Writing), CommitResults(w))
      == WithAttempt(s, w, j.(status := Completed, leased := false, results := j.results + 1), Persisted)
  {}

  lemma {:induction false} PersistFailsStep(s: State, w: nat, j: Job)
    ensures Next(WithAttempt(s, w, j, Writing), PersistFails(w))
      == WithAttempt(s, w, j.(status := JobFailed), Raising(false))
  {}

  /** The attempt is over, and the row says so. */
  predicate EndsAs(s: State, n: State, j: Job, status: Status) {
    n.job == Some(j.(status := status, leased := false)) && SameAround(s, n)
  }

  lemma {:induction false} FinishStep(s: State, w: nat, j: Job)
    requires w !in s.running
    ensures EndsAs(s, Next(WithAttempt(s, w, j, Persisted), WorkerFinishes(w)), j, Completed)
  {}

  lemma {:induction false} HandlerSteps(s: State, w: nat, j: Job, retryable: bool)
    requires w !in s.running
    ensures var t := WithAttempt(s, w, j, Raising(retryable));
      EndsAs(s, Next(Next(t, HandlerRequeues(w)), HandlerFails(w)), j,
             if retryable && j.attempts < 3 then Queued else JobFailed)
  {
    var t := WithAttempt(s, w, j, Raising(retryable));
    if retryable && j.attempts < 3 {
      assert w !in Next(t, HandlerRequeues(w)).running;
    } else {
      assert Next(t, HandlerRequeues(w)) == t;
    }
  }

  lemma {:induction false} FailStep(s: State, w: nat, j: Job)
    requires w !in s.running
    ensures EndsAs(s, Next(WithAttempt(s, w, j, Raising(false)), HandlerFails(w)), j, JobFailed)
  {}

  /** An attempt that nothing interrupts completes the job with one more result. */
  lemma {:induction false} AttemptCompletes(s: State, w: nat)
    requires MayBeClaimed(s, w)
    ensures var n := Next(Next(Next(Next(s, Claim(w)), WriteResults(w)), CommitResults(w)), WorkerFinishes(w));
      n.job.Some? && Attempted(s.job.value, n.job.value, Completed, 1) && SameAround(s, n)
  {
    var j := ClaimedRow(s.job.value);
    ClaimStep(s, w);
    WorkSteps(s, w, j, false);
    CommitStep(s, w, j);
    FinishStep(s, w, j.(status := Completed, leased := false, results := j.results + 1));
  }

  /** An attempt that raises puts the job back in the queue if the error is of the kind that may pass and fewer
      than three attempts were made; otherwise the job has failed. */
  lemma {:induction false} AttemptFails(s: State, w: nat, retryable: bool)
    requires MayBeClaimed(s, w)
    ensures var n := Next(Next(Next(Next(s, Claim(w)), Raise(w, retryable)), HandlerRequeues(w)), HandlerFails(w));
      n.job.Some? && SameAround(s, n)
      && Attempted(s.job.value, n.job.value, if retryable && s.job.value.attempts + 1 < 3 then Queued else JobFailed, 0)
  {
    var j := ClaimedRow(s.job.value);
    ClaimStep(s, w);
    WorkSteps(s, w, j, retryable);
    HandlerSteps(s, w, j, retryable);
  }

  /** Failing to write results fails the job, whatever the error. */
  lemma {:induction false} WritingFails(s: State, w: nat)
    requires MayBeClaimed(s, w)
    ensures var n := Next(Next(Next(Next(s, Claim(w)), WriteResults(w)), PersistFails(w)), HandlerFails(w));
      n.job.Some? && Attempted(s.job.value, n.job.value, JobFailed, 0) && SameAround(s, n)
  {
    var j := ClaimedRow(s.job.value);
    ClaimStep(s, w);
    WorkSteps(s, w, j, false);
    PersistFailsStep(s, w, j);
    FailStep(s, w, j.(status := JobFailed));
  }

  lemma {:induction false} AttemptGone(s: State, w: nat, j: Job)
    requires w !in s.running
    ensures Next(WithAttempt(s, w, j, AtWork), Crashes(w)) == s.(job := Some(j))
  {
    assert Ended(WithAttempt(s, w, j, AtWork), w).running == s.running;
  }

  lemma {:induction false} RecoverySteps(s: State, w: nat, j: Job)
    requires w !in s.running && j.status == Processing && j.leased
    ensures EndsAs(s, Next(Next(Next(WithAttempt(s, w, j, AtWork), Crashes(w)), RecoverReads),
                           RecoverWrites(j.attempts)), j, if j.attempts < 3 then Queued else JobFailed)
  {
    var t := s.(job := Some(j));
    AttemptGone(s, w, j);
    var found := t.(recovering := t.recovering + multiset{j.attempts});
    assert Next(t, RecoverReads) == found;
    assert s.recovering + multiset{j.attempts} - multiset{j.attempts} == s.recovering;
  }

  /** A crash leaves the row as it was claimed; recovery puts the job back in the queue, or fails it after the
      third attempt. */
  lemma {:induction false} CrashIsRecovered(s: State, w: nat)
    requires MayBeClaimed(s, w)
    ensures var seen := s.job.value.attempts + 1;
      var n := Next(Next(Next(Next(s, Claim(w)), Crashes(w)), RecoverReads), RecoverWrites(seen));
      n.job.Some? && Attempted(s.job.value, n.job.value, if seen < 3 then Queued else JobFailed, 0) && SameAround(s, n)
  {
    ClaimStep(s, w);
    RecoverySteps(s, w, ClaimedRow(s.job.value));
  }

  /** Recovery looks only at jobs that are being processed under a lease; no other job is ever written by it. */
  lemma {:induction false} RecoveryFinds(s: State)
    requires s.job.Some?
    ensures var n := Next(s, RecoverReads);
      && n == s.(recovering := n.recovering)
      && n.recovering == if s.job.value.leased && s.job.value.status == Processing
                         then s.recovering + multiset{s.job.value.attempts} else s.recovering
    ensures forall seen :: seen !in s.recovering ==> Next(s, RecoverWrites(seen)) == s
  {}

  /** A cancellation that arrives during an attempt ends it without results. */
  lemma {:induction false} AttemptIsCancelled(s: State, w: nat)
    requires MayBeClaimed(s, w)
    ensures var n := Next(Next(Next(Next(s, Claim(w)), Cancel), CheckCancellation(w)), WorkerStops(w));
      && n.job.Some? && n.job.value.status == Cancelled && !n.job.value.leased && SameAround(s, n)
      && n.job.value.results == s.job.value.results && n.job.value.attempts == s.job.value.attempts + 1
  {}

  /** A submission that cannot be published fails; submitting the failed job again queues it, with the attempts
      and results it had. */
  lemma {:induction false} SubmittedAgain(s: State)
    requires s.job.Some? && s.dispatching > 0
    ensures var failed := Next(s, DispatchFails);
      var n := Next(Next(failed, ReadFailed), Resubmit);
      && failed.job == Some(s.job.value.(status := JobFailed)) && n.job == Some(s.job.value.(status := Queued))
      && SameAround(s, n)
  {}

  // ---------------------------------------------------------------- when a cancelled job can still complete

  /** This attempt can still put the job back to work or mark it completed: a worker's, past its commit, or
      one with attempts left that has not begun to write. */
  predicate CanRevive(x: Attempt, attempts: nat) {
    x.byWorker && (x.at == Persisted || (x.at in {AtWork, Raising(true)} && attempts < MAX_ATTEMPTS))
  }

  /** What can be looked at when a cancellation takes effect: the attempts under way, and the recoveries that
      have found the job's lease expired while it had attempts left. */
  predicate CanStillComplete(s: State) {
    s.job.Some? && ((exists w :: w in s.running && CanRevive(s.running[w], s.job.value.attempts))
                    || (exists n :: n in s.recovering && n < MAX_ATTEMPTS))
  }

  ghost predicate NotResubmitted(actions: seq<Action>) {
    forall k :: 0 <= k < |actions| ==> !actions[k].Resubmit? && !actions[k].AnalyzeAgain?
  }

  predicate IsCompleted(s: State) { s.job.Some? && s.job.value.status == Completed }

  ghost predicate Leads(s: State, actions: seq<Action>) { NotResubmitted(actions) && IsCompleted(Reached(s, actions)) }

  /** Neither completed nor able to get there. */
  predicate Over(s: State) {
    s.job.Some? && s.job.value.status in {CancelRequested, Cancelled, JobFailed} && !CanStillComplete(s)
  }

  lemma {:induction false} AttemptOver(s: State, a: Action)
    requires Over(s) && !a.Cancel? && !a.Finalize? && !IsSubmission(a) && !IsRecovery(a)
    ensures Over(AttemptStep(s, a))
  {
    var n := AttemptStep(s, a);
    forall w | w in n.running ensures !CanRevive(n.running[w], n.job.value.attempts) {
      assert w in s.running && !CanRevive(s.running[w], s.job.value.attempts);
    }
  }

  lemma {:induction false} OverStays(s: State, a: Action)
    requires Over(s) && !a.Resubmit? && !a.AnalyzeAgain?
    ensures Over(Next(s, a))
  {
    if !a.Cancel? && !a.Finalize? && !IsSubmission(a) && !IsRecovery(a) { AttemptOver(s, a); }
  }

  lemma {:induction false} OverForGood(s: State, actions: seq<Action>)
    requires Over(s) && NotResubmitted(actions)
    ensures Over(Reached(s, actions))
  {
    if actions != [] {
      OverForGood(s, actions[..|actions| - 1]);
      OverStays(Reached(s, actions[..|actions| - 1]), actions[|actions| - 1]);
    }
  }

  lemma {:induction false} AnotherWorker(running: set<nat>) returns (w: nat)
    ensures forall x :: x in running ==> x < w
  {
    w := 0;
    var rest := running;
    while rest != {}
      invariant rest <= running && forall x :: x in running && x !in rest ==> x < w
      decreases |rest|
    {
      var x :| x in rest;
      w := if x < w then w else x + 1;
      rest := rest - {x};
    }
  }

  lemma {:induction false} QueuedLeads(s: State, t: seq<Action>)
    requires NotResubmitted(t) && Reached(s, t).job.Some? && Reached(s, t).job.value.status == Queued
    ensures exists u :: Leads(s, u)
  {
    var w := AnotherWorker(Reached(s, t).running.Keys);
    CompletesFrom(s, t, Reached(s, t), w);
    assert Leads(s, t + Completing(w));
  }

  lemma {:induction false} CompletionPath(s: State)
    requires CanStillComplete(s)
    ensures exists t :: Leads(s, t)
  {
    if n :| n in s.recovering && n < MAX_ATTEMPTS {
      RecoveryLeads(s, n);
    } else {
      var w :| w in s.running && CanRevive(s.running[w], s.job.value.attempts);
      if s.running[w].at == Persisted {
        FinishLeads(s, w);
      } else if s.running[w].at == AtWork {
        ErrorLeads(s, w);
      } else {
        RetryLeads(s, [], w);
      }
    }
  }

  lemma {:induction false} RecoveryLeads(s: State, n: nat)
    requires s.job.Some? && n in s.recovering && n < MAX_ATTEMPTS
    ensures exists t :: Leads(s, t)
  {
    ReachedOne(s, [], RecoverWrites(n));
    QueuedLeads(s, [] + [RecoverWrites(n)]);
  }

  lemma {:induction false} FinishLeads(s: State, w: nat)
    requires IsAt(s, w, Persisted) && OfWorker(s, w)
    ensures exists t :: Leads(s, t)
  {
    ReachedOne(s, [], WorkerFinishes(w));
    assert Leads(s, [] + [WorkerFinishes(w)]);
  }

  lemma {:induction false} ErrorLeads(s: State, w: nat)
    requires IsAt(s, w, AtWork) && OfWorker(s, w) && s.job.value.attempts < MAX_ATTEMPTS
    ensures exists t :: Leads(s, t)
  {
    ReachedOne(s, [], Raise(w, true));
    RetryLeads(s, [] + [Raise(w, true)], w);
  }

  lemma {:induction false} RetryLeads(s: State, t: seq<Action>, w: nat)
    requires NotResubmitted(t) && MayRetry(Reached(s, t), w) && OfWorker(Reached(s, t), w)
    ensures exists u :: Leads(s, u)
  {
    ReachedOne(s, t, HandlerRequeues(w));
    QueuedLeads(s, t + [HandlerRequeues(w)]);
  }

  /** At the moment a cancellation takes effect: the job can still complete without being submitted again
      if and only if a recovery has found its lease expired with attempts left, or a worker's attempt has
      committed before, or has attempts left and has not begun to write. */
  lemma {:induction false} CompletesAfterCancelExactly(s: State)
    requires s.job.Some? && CancellationTookEffect(s.job.value)
    ensures (exists t :: Leads(s, t)) <==> CanStillComplete(s)
  {
    if CanStillComplete(s) {
      CompletionPath(s);
    } else {
      forall t | NotResubmitted(t) ensures !IsCompleted(Reached(s, t)) { OverForGood(s, t); }
    }
  }

  // ---------------------------------------------------------------- the services

  class JobRow {
    var exists_: bool
    var status: Status
    var attempts: nat
    var leased: bool
    var audits: seq<AuditType>
    var results: nat
    var pending: nat        // written, not committed

    constructor (j: Job)
      ensures Value() == Some(j)
    {
      exists_, status, attempts, leased := true, j.status, j.attempts, j.leased;
      audits, results, pending := j.audits, j.results, 0;
    }

    function Value(): Option<Job>
      reads this
    {
      if exists_ then Some(Job(status, attempts, leased, audits, results)) else None
    }

    /** `_add_audit_event`. */
    method AddAuditEvent(t: AuditType)
      modifies this`audits
      ensures audits == Audited(old(audits), t)
    {
      if t !in audits {
        audits := audits + [t];
      }
    }

    /** `cancel`: two conditional updates tried in turn, and what the caller is told. */
    method CancelJob() returns (told: Option<Status>)
      modifies this
      ensures exists_ == old(exists_)
      ensures old(Value()).Some? ==> Value() == Some(Cancelling(old(Value()).value))
      ensures told == (if old(exists_)
        && CancellationTookEffect(Cancelling(old(Value()).value)) then Some(status) else None)
    {
      if exists_ && status == Queued {
        status, leased := Cancelled, false;
        AddAuditEvent(CancellationRequested);
        AddAuditEvent(CancellationDone);
        return Some(Cancelled);
      }
      if exists_ && status == Processing {
        status := CancelRequested;
        AddAuditEvent(CancellationRequested);
        return Some(CancelRequested);
      }
      return if exists_ && status in {CancelRequested, Cancelled} then Some(status) else None;
    }

    /** `finalize`. */
    method FinalizeJob()
      modifies this
      ensures exists_ == old(exists_)
      ensures old(Value()).Some? ==> Value() == Some(Finalizing(old(Value()).value))
    {
      if exists_ && status == CancelRequested {
        status, leased := Cancelled, false;
        AddAuditEvent(CancellationDone);
      }
    }

    /** `_persist_analysis` up to its last statement: the results are in the transaction only. */
    method WriteJobResults()
      modifies this`pending
      ensures pending == old(pending) + 1
    {
      pending := pending + 1;
    }

    /** The completion update that ends `_persist_analysis`: what was written is committed with it, or
        rolled back when the update finds the job no longer processing. */
    method CommitJobResults() returns (cancelled: bool)
      requires exists_ && pending == 1
      modifies this
      ensures Value() == Some(Persisting(old(Value()).value)) && pending == 0
      ensures cancelled <==> old(status) != Processing
    {
      if status != Processing {
        pending := 0;
        return true;
      }
      status, leased, results, pending := Completed, false, results + pending, 0;
      return false;
    }
  }
}
