/**
 What stands in the tables was brought about by what happened: over every run, each state of an
 attempt or a job has the event behind it that the source names as its reason.
 */
module OrchestrationCauses {
  import opened Wrappers
  import P = Preparations
  import J = TrainingJobs
  import opened Orchestration
  import opened OrchestrationInvariant
  import opened OrchestrationProof
  import opened OrchestrationRuns

  predicate OnPrep(s: State, t: nat, id: Id) {
    t in s.threads && IsPrep(s.threads[t]) && s.threads[t].a.id == id
  }

  predicate OnJob(s: State, t: nat, id: Id) {
    t in s.threads && IsJob(s.threads[t]) && s.threads[t].j.id == id
  }

  // ----- reasons

  /** The report of this attempt was read, it is for this fingerprint, and it accepts. */
  predicate AcceptingReport(s: State, e: Event, id: Id, fingerprint: string) {
    && e.ReadReport? && OnPrep(s, e.t, id) && s.threads[e.t].PrepReporting? && s.threads[e.t].left > 0
    && e.report.Report? && e.report.accepted && e.report.fingerprint == fingerprint
  }

  /** The event gives the attempt a reason to fail, and the phase the failure is reported with. */
  predicate PrepFailure(c: Config, s: State, e: Event, id: Id, phase: P.Phase) {
    match e
    case InputsRefused(t) => OnPrep(s, t, id) && phase == P.InputPublication
    case SubmitPrep(t, submission) => OnPrep(s, t, id) && !submission.Accepted? && phase == P.Submission
    case ResumePrep(other, _) =>
      other == id && s.boot.ResumingPreps? && id in s.boot.preps && s.boot.preps[id].remote.None? && phase == P.Submission
    case PollPrep(t, Deadline) => OnPrep(s, t, id) && phase == P.Execution
    case PollPrep(t, Says(raw)) =>
      OnPrep(s, t, id) && (
        (MapNebiusState(raw) == Some(J.Failed) && phase == P.Execution)
        || (MapNebiusState(raw) == Some(J.Completed) && !c.storage && phase == P.Finalization))
    case ReadReport(t, report) =>
      OnPrep(s, t, id) && s.threads[t].PrepReporting? && (
        (s.threads[t].left == 0 && phase == P.Finalization)
        || (report.Report? && report.fingerprint != s.threads[t].a.fingerprint && phase == P.Finalization)
        || (report.Report? && report.fingerprint == s.threads[t].a.fingerprint && !report.accepted
            && phase == P.Reported(report.phase)))
    case _ => false
  }

  /** The provider was seen working on the attempt. */
  predicate PrepSeenRunning(s: State, e: Event, id: Id) {
    e.PollPrep? && OnPrep(s, e.t, id) && e.poll.Says? && MapNebiusState(e.poll.raw) in {Some(J.Starting), Some(J.Training)}
  }

  predicate SubmittedAs(s: State, e: Event, key: Key, remoteId: string) {
    match key
    case PrepKey(id) => e.SubmitPrep? && OnPrep(s, e.t, id) && e.submission == Accepted(remoteId)
    case JobKey(id) => e.SubmitJob? && OnJob(s, e.t, id) && e.submission == Accepted(remoteId)
  }

  predicate JobSeen(s: State, e: Event, id: Id, status: J.Status) {
    e.PollJob? && OnJob(s, e.t, id) && e.poll.Says? && MapNebiusState(e.poll.raw) == Some(status)
  }

  /** The event gives the job a reason to fail, and the phase the failure is reported with. */
  predicate JobFailure(c: Config, s: State, e: Event, id: Id, phase: J.Phase) {
    match e
    case SnapshotRefused(t) => OnJob(s, t, id) && phase == J.InputPublication
    case SubmitJob(t, submission) => OnJob(s, t, id) && !submission.Accepted? && phase == J.Submission
    case ResumeJob(other, _) =>
      other == id && s.boot.ResumingJobs? && id in s.boot.jobs && s.boot.jobs[id].remote.None? && phase == J.Submission
    case PollJob(t, Deadline) =>
      OnJob(s, t, id) && phase == if s.threads[t].j.phase == J.Unset then J.InTraining else s.threads[t].j.phase
    case PollJob(t, Says(raw)) => OnJob(s, t, id) && MapNebiusState(raw) == Some(J.Failed) && phase == J.InTraining
    case ReadManifest(t, read) =>
      OnJob(s, t, id) && s.threads[t].JobFinalizing? && (
        ((s.threads[t].left == 0 || read.ManifestDeadline?) && phase == J.Finalization)
        || (s.threads[t].left > 0 && read.ManifestInvalid? && phase == J.ArtifactValidation))
    case _ => false
  }

  predicate ManifestArrives(s: State, e: Event, id: Id, manifest: string) {
    e.ReadManifest? && OnJob(s, e.t, id) && s.threads[e.t].JobFinalizing? && s.threads[e.t].left > 0
    && e.read == Manifest(manifest)
  }

  // ----- one step

  /** Every thread's copy is what is stored, and documents agree with their rows. */
  ghost predicate Copies(s: State) {
    && (forall id :: id in s.preps.rows ==> P.RowOk(id, s.preps.rows[id]))
    && (forall t :: t in s.threads && IsPrep(s.threads[t]) ==> PrepShadow(s.preps, s.threads[t].a))
    && (forall t :: t in s.threads && IsJob(s.threads[t]) ==>
          var j := s.threads[t].j; j.id in s.train.jobs && s.train.jobs[j.id] == j && !j.status.Completed?)
    && (s.boot.ResumingJobs? ==> forall id :: id in s.boot.jobs ==> s.boot.jobs[id].id == id && JobShadow(s.train, s.boot.jobs[id]))
    && (s.boot.ResumingPreps? ==> forall id :: id in s.boot.preps ==> s.boot.preps[id].id == id && PrepShadow(s.preps, s.boot.preps[id]))
  }

  lemma InvCopies(c: Config, s: State)
    requires Inv(c, s)
    ensures Copies(s) && P.Listed(s.preps)
  {
    hide Inv;
    forall t | t in s.threads && IsPrep(s.threads[t]) ensures PrepShadow(s.preps, s.threads[t].a) { PrepOwner(c, s, t); }
    forall t | t in s.threads && IsJob(s.threads[t])
      ensures var j := s.threads[t].j; j.id in s.train.jobs && s.train.jobs[j.id] == j && !j.status.Completed?
    {
      JobOwner(c, s, t);
      JobNotCompleted(c, s, t);
    }
    InvBoot(c, s);
  }

  lemma InvBoot(c: Config, s: State)
    requires Inv(c, s)
    ensures BootOk(s.preps, s.train, s.boot, s.threads) && P.Listed(s.preps)
    ensures forall id :: id in s.preps.rows ==> P.RowOk(id, s.preps.rows[id])
  {
  }

  predicate WritesPreps(e: Event) {
    e.RequestPreparation? || e.DescribeInputs? || e.InputsRefused? || e.RecordPrep? || e.PollPrep? || e.ReadReport?
    || e.FailPrep? || e.ResumePrep?
  }

  lemma PrepsUntouched(c: Config, s: State, e: Event, s': State)
    requires P.Listed(s.preps) && Apply(c, s, e) == Some(s') && !WritesPreps(e)
    ensures s'.preps == s.preps
  {
    hide P.Listed, P.Select, MapNebiusState, J.Reserve, StartGate;
  }

  /** The row keeps its columns and its place and holds this document. */
  predicate Holds(p: P.Table, p': P.Table, id: Id, a: P.Attempt) {
    id in p.rows && id in p'.rows && a.id == id && p'.rows[id] == p.rows[id].(state := a.state, data := a)
  }

  /** What a step may store in an attempt's row, and where it got it. */
  ghost predicate PrepStored(c: Config, s: State, e: Event, s': State, id: Id) {
    match e
    case RequestPreparation(_, a, _, now) =>
      a.id == id && NewAttempt(a) && id in s'.preps.rows && s'.preps.rows[id] == P.Row(a.tenant, a.setup, a.fingerprint, P.Queued, now, a)
    case DescribeInputs(t, manifest) =>
      OnPrep(s, t, id) && Holds(s.preps, s'.preps, id, s.threads[t].a.(manifest := Some(manifest)))
    case InputsRefused(t) => OnPrep(s, t, id) && Holds(s.preps, s'.preps, id, FailedAttempt(s.threads[t].a, P.InputPublication))
    case RecordPrep(t) =>
      OnPrep(s, t, id) && s.threads[t].PrepIssued? && Holds(s.preps, s'.preps, id, s.threads[t].a.(
        state := P.Preparing, phase := P.Starting, remote := Truthy(s.threads[t].remoteId)))
    case PollPrep(t, _) =>
      OnPrep(s, t, id) && PrepSeenRunning(s, e, id) && Holds(s.preps, s'.preps, id, s.threads[t].a.(state := P.Preparing, phase := P.Execution))
    case ReadReport(t, report) =>
      OnPrep(s, t, id) && report.Report? && report.fingerprint == s.threads[t].a.fingerprint && s.threads[t].PrepReporting?
      && s.threads[t].left > 0 && Holds(s.preps, s'.preps, id,
        if report.accepted
        then s.threads[t].a.(state := P.Accepted, phase := P.Done, reportReady := true, canRetry := false)
        else s.threads[t].a.(state := P.Failed, phase := P.Reported(report.phase), reportReady := true, canRetry := true))
    case FailPrep(t) =>
      OnPrep(s, t, id) && s.threads[t].PrepFailing? && Holds(s.preps, s'.preps, id, FailedAttempt(s.threads[t].a, s.threads[t].why))
    case ResumePrep(other, _) =>
      other == id && PrepFailure(c, s, e, id, P.Submission)
      && s.boot.ResumingPreps? && id in s.boot.preps
      && Holds(s.preps, s'.preps, id, FailedAttempt(s.boot.preps[id], P.Submission))
    case _ => false
  }

  lemma ReadStores(c: Config, s: State, e: Event, s': State, id: Id)
    requires Copies(s) && P.Listed(s.preps) && Apply(c, s, e) == Some(s') && (e.PollPrep? || e.ReadReport?)
    requires id in s'.preps.rows && !(id in s.preps.rows && s.preps.rows[id] == s'.preps.rows[id])
    ensures PrepStored(c, s, e, s', id)
  {
    hide P.Listed, P.Select, MapNebiusState, P.RowOk, P.WellShaped, J.Reserve, J.Put;
    hide DoRequestPreparation, DoDescribeInputs, DoInputsRefused, DoRecordPrep, DoFailPrep, DoResumePrep;
    hide DoReserveStart, DoSnapshotRefused, DoLaunchStart, DoSubmitJob, DoRecordJob, DoPollJob, DoReadManifest, DoPublishJob;
    hide DoFailJob, DoRefreshArtifacts, DoRetire, DoDie, DoCrash, DoStartUp, DoResumeJob, DoJobsResumed, DoBootDone, DoSubmitPrep;
  }

  lemma PrepStores(c: Config, s: State, e: Event, s': State, id: Id)
    requires Copies(s) && P.Listed(s.preps) && Apply(c, s, e) == Some(s') && WritesPreps(e) && !e.PollPrep? && !e.ReadReport?
    requires id in s'.preps.rows && !(id in s.preps.rows && s.preps.rows[id] == s'.preps.rows[id])
    ensures PrepStored(c, s, e, s', id)
  {
    hide P.Listed, P.Select, MapNebiusState, P.RowOk, P.WellShaped, J.Reserve, J.Put;
    hide DoPollPrep, DoReadReport;
    hide DoReserveStart, DoSnapshotRefused, DoLaunchStart, DoSubmitJob, DoRecordJob, DoPollJob, DoReadManifest, DoPublishJob;
    hide DoFailJob, DoRefreshArtifacts, DoRetire, DoDie, DoCrash, DoStartUp, DoResumeJob, DoJobsResumed, DoBootDone, DoSubmitPrep;
  }

  /** The document of a row and its columns, once the row changed. */
  lemma AttemptStep(c: Config, s: State, e: Event, s': State, id: Id)
    requires Inv(c, s) && Apply(c, s, e) == Some(s')
    requires id in s'.preps.rows && !(id in s.preps.rows && s.preps.rows[id] == s'.preps.rows[id])
    ensures PrepStored(c, s, e, s', id) && Copies(s) && P.Listed(s.preps)
  {
    hide Inv, Apply, PrepStored, Copies, WritesPreps, P.Listed;
    InvCopies(c, s);
    if !WritesPreps(e) { PrepsUntouched(c, s, e, s'); }
    if e.PollPrep? || e.ReadReport? { ReadStores(c, s, e, s', id); } else { PrepStores(c, s, e, s', id); }
  }

  lemma AcceptStep(c: Config, s: State, e: Event, s': State, id: Id)
    requires Inv(c, s) && Apply(c, s, e) == Some(s')
    requires id in s'.preps.rows && s'.preps.rows[id].state.Accepted?
    requires !(id in s.preps.rows && s.preps.rows[id].state.Accepted?)
    ensures AcceptingReport(s, e, id, s'.preps.rows[id].fingerprint)
  {
    hide Inv, Apply, P.Listed;
    AttemptStep(c, s, e, s', id);
  }

  lemma FailStep(c: Config, s: State, e: Event, s': State, id: Id)
    requires Inv(c, s) && Apply(c, s, e) == Some(s')
    requires id in s'.preps.rows && s'.preps.rows[id].state.Failed?
    requires !(id in s.preps.rows && s.preps.rows[id].state.Failed?)
    ensures PrepFailure(c, s, e, id, s'.preps.rows[id].data.phase)
      || exists t :: OnPrep(s, t, id) && s.threads[t].PrepFailing? && s.threads[t].why == s'.preps.rows[id].data.phase
  {
    hide Inv, Apply, P.Listed, MapNebiusState;
    AttemptStep(c, s, e, s', id);
  }

  lemma CopyIs(s: State, t: nat, id: Id)
    requires Copies(s) && OnPrep(s, t, id)
    ensures id in s.preps.rows && s.preps.rows[id].data.remote == s.threads[t].a.remote
  {
    hide P.RowOk;
  }

  lemma RemoteStep(c: Config, s: State, e: Event, s': State, id: Id)
    requires Inv(c, s) && Apply(c, s, e) == Some(s')
    requires id in s'.preps.rows && s'.preps.rows[id].data.remote.Some?
    requires !(id in s.preps.rows && s.preps.rows[id].data.remote == s'.preps.rows[id].data.remote)
    ensures exists t :: OnPrep(s, t, id) && s.threads[t].PrepIssued? && Truthy(s.threads[t].remoteId) == s'.preps.rows[id].data.remote
  {
    hide Inv, Apply, P.Listed, MapNebiusState, Copies, PrepFailure, PrepSeenRunning;
    AttemptStep(c, s, e, s', id);
    forall t | OnPrep(s, t, id) ensures id in s.preps.rows && s.preps.rows[id].data.remote == s.threads[t].a.remote {
      CopyIs(s, t, id);
    }
    if e.ResumePrep? { InterruptedHasNone(c, s, e, id); }
  }

  lemma InterruptedHasNone(c: Config, s: State, e: Event, id: Id)
    requires e.ResumePrep? && PrepFailure(c, s, e, id, P.Submission)
    ensures s.boot.ResumingPreps? && id in s.boot.preps && s.boot.preps[id].remote.None?
  {
  }

  lemma RunningStep(c: Config, s: State, e: Event, s': State, id: Id)
    requires Inv(c, s) && Apply(c, s, e) == Some(s')
    requires id in s'.preps.rows && s'.preps.rows[id].state.Preparing? && s'.preps.rows[id].data.phase == P.Execution
    requires !(id in s.preps.rows && s.preps.rows[id].state.Preparing? && s.preps.rows[id].data.phase == P.Execution)
    ensures PrepSeenRunning(s, e, id)
  {
    hide Inv, Apply, P.Listed, MapNebiusState;
    AttemptStep(c, s, e, s', id);
  }

  // ----- threads that carry a reason

  /** The thread holds a reason to fail, a fresh remote id, or a manifest to wait for or to publish. */
  predicate Carries(th: Thread) {
    th.PrepFailing? || th.JobFailing? || Issued(th) || th.JobFinalizing? || th.JobPublishing?
  }

  predicate Works(e: Event) {
    e.SubmitPrep? || e.PollPrep? || e.ReadReport? || e.SubmitJob? || e.PollJob? || e.ReadManifest?
  }

  lemma CarriedOn(c: Config, s: State, e: Event, s': State, t: nat)
    requires P.Listed(s.preps) && Apply(c, s, e) == Some(s') && t in s'.threads && Carries(s'.threads[t]) && !Works(e)
    ensures t in s.threads && s.threads[t] == s'.threads[t]
  {
    hide P.Listed, P.Select, J.Reserve, J.Put, P.Put, P.Reserve, StartGate;
    hide DoSubmitPrep, DoPollPrep, DoReadReport, DoSubmitJob, DoPollJob, DoReadManifest;
  }

  /** What a worker's own event makes of its thread; every other thread is as it was. */
  ghost predicate WorkedOn(c: Config, s: State, e: Event, th: Thread) {
    match e
    case SubmitPrep(t, submission) =>
      t in s.threads && s.threads[t].PrepSubmitting? && th == (match submission
        case Accepted(remoteId) => PrepIssued(s.threads[t].a, remoteId)
        case _ => PrepFailing(s.threads[t].a, P.Submission))
    case PollPrep(t, poll) =>
      && t in s.threads && s.threads[t].PrepPolling?
      && th.PrepFailing? && th.a == s.threads[t].a && PrepFailure(c, s, e, th.a.id, th.why)
    case ReadReport(t, report) =>
      && t in s.threads && s.threads[t].PrepReporting?
      && th.PrepFailing? && th.a == s.threads[t].a && PrepFailure(c, s, e, th.a.id, th.why)
    case SubmitJob(t, submission) =>
      t in s.threads && s.threads[t].JobSubmitting? && th == (match submission
        case Accepted(remoteId) => JobIssued(s.threads[t].j, remoteId)
        case _ => JobFailing(s.threads[t].j, J.Submission))
    case PollJob(t, poll) =>
      && t in s.threads && s.threads[t].JobPolling? && (th.JobFailing? || th.JobFinalizing?)
      && (th.JobFailing? ==> th.j.id == s.threads[t].j.id && JobFailure(c, s, e, th.j.id, th.reason))
      && (th.JobFinalizing? ==> th.j.id == s.threads[t].j.id && JobSeen(s, e, th.j.id, J.Completed))
    case ReadManifest(t, read) =>
      && t in s.threads && s.threads[t].JobFinalizing? && (th.JobFailing? || th.JobFinalizing? || th.JobPublishing?)
      && (th.JobFailing? ==> th.j == s.threads[t].j && JobFailure(c, s, e, th.j.id, th.reason))
      && (th.JobFinalizing? ==> th.j == s.threads[t].j)
      && (th.JobPublishing? ==> th.j == s.threads[t].j && read.Manifest? && ManifestArrives(s, e, th.j.id, read.manifest))
    case _ => false
  }

  lemma PrepWork(c: Config, s: State, e: Event, s': State, t: nat)
    requires P.Listed(s.preps) && Apply(c, s, e) == Some(s') && t in s'.threads && Carries(s'.threads[t])
    requires e.SubmitPrep? || e.PollPrep? || e.ReadReport?
    ensures (t in s.threads && s.threads[t] == s'.threads[t]) || (e.t == t && WorkedOn(c, s, e, s'.threads[t]) && IsPrep(s'.threads[t]))
  {
    hide P.Listed, MapNebiusState, P.Put;
  }

  lemma SubmitWork(c: Config, s: State, e: Event, s': State, t: nat)
    requires P.Listed(s.preps) && Apply(c, s, e) == Some(s') && t in s'.threads && Carries(s'.threads[t])
    requires e.SubmitJob?
    ensures (t in s.threads && s.threads[t] == s'.threads[t]) || (e.t == t && WorkedOn(c, s, e, s'.threads[t]) && IsJob(s'.threads[t]))
  {
    hide P.Listed, MapNebiusState, J.Put, J.SetArtifacts;
    hide DoRequestPreparation, DoDescribeInputs, DoInputsRefused, DoLaunchPreparation, DoSubmitPrep, DoRecordPrep, DoPollPrep;
    hide DoPollJob, DoReadManifest;
    hide DoRecordJob, DoPublishJob, DoFailJob, DoRefreshArtifacts, DoRetire, DoCrash, DoStartUp, DoResumeJob, DoJobsResumed;
    hide DoReadReport, DoFailPrep, DoRequestStart, DoReserveStart, DoSnapshotRefused, DoLaunchStart, DoResumePrep, DoDie;
  }

  lemma PollWork(c: Config, s: State, e: Event, s': State, t: nat)
    requires P.Listed(s.preps) && Apply(c, s, e) == Some(s') && t in s'.threads && Carries(s'.threads[t])
    requires e.PollJob?
    ensures (t in s.threads && s.threads[t] == s'.threads[t]) || (e.t == t && WorkedOn(c, s, e, s'.threads[t]) && IsJob(s'.threads[t]))
  {
    hide P.Listed, MapNebiusState, J.Put, J.SetArtifacts;
    hide DoRequestPreparation, DoDescribeInputs, DoInputsRefused, DoLaunchPreparation, DoSubmitPrep, DoRecordPrep, DoPollPrep;
    hide DoSubmitJob, DoReadManifest;
    hide DoRecordJob, DoPublishJob, DoFailJob, DoRefreshArtifacts, DoRetire, DoCrash, DoStartUp, DoResumeJob, DoJobsResumed;
    hide DoReadReport, DoFailPrep, DoRequestStart, DoReserveStart, DoSnapshotRefused, DoLaunchStart, DoResumePrep, DoDie;
  }

  lemma ReadWork(c: Config, s: State, e: Event, s': State, t: nat)
    requires P.Listed(s.preps) && Apply(c, s, e) == Some(s') && t in s'.threads && Carries(s'.threads[t])
    requires e.ReadManifest?
    ensures (t in s.threads && s.threads[t] == s'.threads[t]) || (e.t == t && WorkedOn(c, s, e, s'.threads[t]) && IsJob(s'.threads[t]))
  {
    hide P.Listed, MapNebiusState, J.Put, J.SetArtifacts;
    hide DoRequestPreparation, DoDescribeInputs, DoInputsRefused, DoLaunchPreparation, DoSubmitPrep, DoRecordPrep, DoPollPrep;
    hide DoSubmitJob, DoPollJob;
    hide DoRecordJob, DoPublishJob, DoFailJob, DoRefreshArtifacts, DoRetire, DoCrash, DoStartUp, DoResumeJob, DoJobsResumed;
    hide DoReadReport, DoFailPrep, DoRequestStart, DoReserveStart, DoSnapshotRefused, DoLaunchStart, DoResumePrep, DoDie;
  }

  /** A thread that carries something has carried it on, or got it from its own last event. */
  lemma ThreadStep(c: Config, s: State, e: Event, s': State, t: nat)
    requires Inv(c, s) && Apply(c, s, e) == Some(s') && t in s'.threads && Carries(s'.threads[t])
    ensures (t in s.threads && s.threads[t] == s'.threads[t]) || (Works(e) && e.t == t && WorkedOn(c, s, e, s'.threads[t]))
    ensures (t in s.threads && s.threads[t] == s'.threads[t])
      || if e.SubmitPrep? || e.PollPrep? || e.ReadReport? then IsPrep(s'.threads[t]) else IsJob(s'.threads[t])
  {
    hide Inv, Apply, WorkedOn, Carries, P.Listed;
    InvBoot(c, s);
    if e.SubmitPrep? || e.PollPrep? || e.ReadReport? {
      PrepWork(c, s, e, s', t);
    } else if e.SubmitJob? {
      SubmitWork(c, s, e, s', t);
    } else if e.PollJob? {
      PollWork(c, s, e, s', t);
    } else if e.ReadManifest? {
      ReadWork(c, s, e, s', t);
    } else {
      CarriedOn(c, s, e, s', t);
    }
  }

  // ----- jobs

  predicate WritesJobs(e: Event) {
    e.ReserveStart? || e.SnapshotRefused? || e.RecordJob? || e.PollJob? || e.PublishJob? || e.FailJob? || e.ResumeJob?
  }

  lemma JobsUntouched(c: Config, s: State, e: Event, s': State)
    requires P.Listed(s.preps) && Apply(c, s, e) == Some(s') && !WritesJobs(e)
    ensures s'.train.jobs == s.train.jobs
  {
    hide P.Listed, P.Select, MapNebiusState, P.Reserve, StartGate, P.Put;
    hide DoReserveStart, DoSnapshotRefused, DoRecordJob, DoPollJob, DoPublishJob, DoFailJob, DoResumeJob;
  }

  /** What a step may store as a job, and where it got it. */
  ghost predicate JobStored(c: Config, s: State, e: Event, s': State, id: Id)
    requires id in s'.train.jobs
  {
    var stored := s'.train.jobs[id];
    match e
    case ReserveStart(t, other, _, _, _) =>
      t in s.threads && s.threads[t].StartAllowed? && other == id && stored == NewJob(id, s.threads[t].prep)
    case SnapshotRefused(t) => OnJob(s, t, id) && stored == FailedJob(s.threads[t].j, J.InputPublication)
    case RecordJob(t) =>
      OnJob(s, t, id) && s.threads[t].JobIssued?
      && stored == s.threads[t].j.(remote := Truthy(s.threads[t].remoteId), status := J.Starting)
    case PollJob(t, poll) =>
      OnJob(s, t, id) && s.threads[t].JobPolling? && poll.Says? && MapNebiusState(poll.raw).Some?
      && stored == (
        if MapNebiusState(poll.raw) == Some(J.Completed)
        then s.threads[t].j.(status := J.Finalizing, phase := J.Finalization, artifactsReady := false)
        else s.threads[t].j.(status := MapNebiusState(poll.raw).value))
    case PublishJob(t) =>
      OnJob(s, t, id) && s.threads[t].JobPublishing?
      && stored == s.threads[t].j.(status := J.Completed, phase := J.Done, artifactsReady := true)
    case FailJob(t) => OnJob(s, t, id) && s.threads[t].JobFailing? && stored == FailedJob(s.threads[t].j, s.threads[t].reason)
    case ResumeJob(other, _) =>
      other == id && s.boot.ResumingJobs? && id in s.boot.jobs && s.boot.jobs[id].remote.None?
      && stored == FailedJob(s.boot.jobs[id], J.Submission)
    case _ => false
  }

  lemma PollStores(c: Config, s: State, e: Event, s': State, id: Id)
    requires Copies(s) && P.Listed(s.preps) && Apply(c, s, e) == Some(s') && e.PollJob?
    requires id in s'.train.jobs && !(id in s.train.jobs && s.train.jobs[id] == s'.train.jobs[id])
    ensures JobStored(c, s, e, s', id)
  {
    hide P.Listed, P.Select, MapNebiusState, P.RowOk, P.Put, P.Reserve, StartGate, PrepShadow;
    hide DoRequestPreparation, DoDescribeInputs, DoInputsRefused, DoLaunchPreparation, DoSubmitPrep, DoRecordPrep, DoPollPrep;
    hide DoReadReport, DoFailPrep, DoRequestStart, DoLaunchStart, DoResumePrep, DoDie, DoSubmitJob, DoReadManifest;
    hide DoReserveStart, DoSnapshotRefused, DoRecordJob, DoPublishJob, DoFailJob, DoResumeJob;
    hide DoRefreshArtifacts, DoRetire, DoCrash, DoStartUp, DoJobsResumed, DoBootDone;
  }

  lemma HandlerStores(c: Config, s: State, e: Event, s': State, id: Id)
    requires Copies(s) && P.Listed(s.preps) && Apply(c, s, e) == Some(s') && (e.ReserveStart? || e.SnapshotRefused? || e.ResumeJob?)
    requires id in s'.train.jobs && !(id in s.train.jobs && s.train.jobs[id] == s'.train.jobs[id])
    ensures JobStored(c, s, e, s', id)
  {
    hide P.Listed, P.Select, MapNebiusState, P.RowOk, P.Put, P.Reserve, StartGate, PrepShadow;
    hide DoRequestPreparation, DoDescribeInputs, DoInputsRefused, DoLaunchPreparation, DoSubmitPrep, DoRecordPrep, DoPollPrep;
    hide DoReadReport, DoFailPrep, DoRequestStart, DoLaunchStart, DoResumePrep, DoDie, DoSubmitJob, DoReadManifest, DoPollJob;
    hide DoRecordJob, DoPublishJob, DoFailJob;
    hide DoRefreshArtifacts, DoRetire, DoCrash, DoStartUp, DoJobsResumed, DoBootDone;
  }

  lemma WorkerStores(c: Config, s: State, e: Event, s': State, id: Id)
    requires Copies(s) && P.Listed(s.preps) && Apply(c, s, e) == Some(s') && (e.RecordJob? || e.PublishJob? || e.FailJob?)
    requires id in s'.train.jobs && !(id in s.train.jobs && s.train.jobs[id] == s'.train.jobs[id])
    ensures JobStored(c, s, e, s', id)
  {
    hide P.Listed, P.Select, MapNebiusState, P.RowOk, P.Put, P.Reserve, StartGate, PrepShadow;
    hide DoRequestPreparation, DoDescribeInputs, DoInputsRefused, DoLaunchPreparation, DoSubmitPrep, DoRecordPrep, DoPollPrep;
    hide DoReadReport, DoFailPrep, DoRequestStart, DoLaunchStart, DoResumePrep, DoDie, DoSubmitJob, DoReadManifest, DoPollJob;
    hide DoReserveStart, DoSnapshotRefused, DoResumeJob, J.Reserve;
    hide DoRefreshArtifacts, DoRetire, DoCrash, DoStartUp, DoJobsResumed, DoBootDone;
  }

  lemma JobWriters(e: Event)
    ensures WritesJobs(e) && !e.PollJob? && !e.RecordJob? && !e.PublishJob? && !e.FailJob? ==>
      e.ReserveStart? || e.SnapshotRefused? || e.ResumeJob?
  {
  }

  lemma JobStep(c: Config, s: State, e: Event, s': State, id: Id)
    requires Inv(c, s) && Apply(c, s, e) == Some(s')
    requires id in s'.train.jobs && !(id in s.train.jobs && s.train.jobs[id] == s'.train.jobs[id])
    ensures JobStored(c, s, e, s', id) && Copies(s)
  {
    hide Inv, Apply, JobStored, Copies, WritesJobs, P.Listed;
    InvCopies(c, s);
    if !WritesJobs(e) { JobsUntouched(c, s, e, s'); }
    if e.PollJob? {
      PollStores(c, s, e, s', id);
    } else if e.RecordJob? || e.PublishJob? || e.FailJob? {
      WorkerStores(c, s, e, s', id);
    } else {
      assert e.ReserveStart? || e.SnapshotRefused? || e.ResumeJob? by { JobWriters(e); }
      HandlerStores(c, s, e, s', id);
    }
  }

  /** The event that puts a job into a status, failure apart. */
  predicate JobReached(s: State, e: Event, id: Id, status: J.Status) {
    match status
    case Queued => e.ReserveStart? && e.id == id
    case Starting => (e.RecordJob? && OnJob(s, e.t, id)) || JobSeen(s, e, id, J.Starting)
    case Training => JobSeen(s, e, id, J.Training)
    case Finalizing => JobSeen(s, e, id, J.Completed)
    case Completed => e.PublishJob? && OnJob(s, e.t, id) && s.threads[e.t].JobPublishing?
    case _ => false
  }

  lemma StatusStep(c: Config, s: State, e: Event, s': State, id: Id)
    requires Inv(c, s) && Apply(c, s, e) == Some(s')
    requires id in s'.train.jobs && !s'.train.jobs[id].status.Failed?
    requires !(id in s.train.jobs && s.train.jobs[id].status == s'.train.jobs[id].status)
    ensures JobReached(s, e, id, s'.train.jobs[id].status)
  {
    hide Inv, Apply, P.Listed, MapNebiusState;
    JobStep(c, s, e, s', id);
    if e.PollJob? { StatusesMapped(e); }
  }

  lemma StatusesMapped(e: Event)
    requires e.PollJob? && e.poll.Says? && MapNebiusState(e.poll.raw).Some?
    ensures MapNebiusState(e.poll.raw).value in {J.Starting, J.Training, J.Completed, J.Failed}
  {
  }

  /** A job first stored as failed: the event is a reason, or its thread carries one. */
  lemma JobFailStep(c: Config, s: State, e: Event, s': State, id: Id)
    requires Inv(c, s) && Apply(c, s, e) == Some(s')
    requires id in s'.train.jobs && s'.train.jobs[id].status.Failed?
    requires !(id in s.train.jobs && s.train.jobs[id] == s'.train.jobs[id])
    ensures JobFailure(c, s, e, id, s'.train.jobs[id].phase) || JobSeen(s, e, id, J.Failed)
      || exists t :: OnJob(s, t, id) && s.threads[t].JobFailing? && s.threads[t].reason == s'.train.jobs[id].phase
  {
    hide Inv, Apply, P.Listed, MapNebiusState;
    JobStep(c, s, e, s', id);
  }

  lemma JobRemoteStep(c: Config, s: State, e: Event, s': State, id: Id)
    requires Inv(c, s) && Apply(c, s, e) == Some(s')
    requires id in s'.train.jobs && s'.train.jobs[id].remote.Some?
    requires !(id in s.train.jobs && s.train.jobs[id].remote == s'.train.jobs[id].remote)
    ensures exists t :: OnJob(s, t, id) && s.threads[t].JobIssued? && Truthy(s.threads[t].remoteId) == s'.train.jobs[id].remote
  {
    hide Inv, Apply, P.Listed, MapNebiusState;
    JobStep(c, s, e, s', id);
  }

  lemma ArtifactsUntouched(c: Config, s: State, e: Event, s': State)
    requires P.Listed(s.preps) && Apply(c, s, e) == Some(s') && !e.ReadManifest? && !e.RefreshArtifacts?
    ensures s'.train.artifacts == s.train.artifacts
  {
    hide P.Listed, P.Select, MapNebiusState, P.Reserve, StartGate, P.Put, DoReadManifest, DoRefreshArtifacts;
  }

  /** A manifest is stored when a worker reads it, or when a finished job's is refreshed. */
  lemma ManifestStep(c: Config, s: State, e: Event, s': State, id: Id)
    requires P.Listed(s.preps) && Apply(c, s, e) == Some(s')
    requires id in s'.train.artifacts && !(id in s.train.artifacts && s.train.artifacts[id] == s'.train.artifacts[id])
    ensures ManifestArrives(s, e, id, s'.train.artifacts[id]) || e == RefreshArtifacts(id, s'.train.artifacts[id])
  {
    hide P.Listed, P.Select, MapNebiusState, P.Reserve, StartGate, P.Put, J.Reserve;
    hide DoRequestPreparation, DoDescribeInputs, DoInputsRefused, DoLaunchPreparation, DoSubmitPrep, DoRecordPrep, DoPollPrep;
    hide DoReadReport, DoFailPrep, DoRequestStart, DoReserveStart, DoSnapshotRefused, DoLaunchStart, DoResumePrep, DoDie;
    hide DoSubmitJob, DoRecordJob, DoPollJob, DoPublishJob, DoFailJob, DoRetire, DoCrash, DoStartUp, DoResumeJob;
    if !e.ReadManifest? && !e.RefreshArtifacts? { ArtifactsUntouched(c, s, e, s'); }
  }

  // ----- over every run

  lemma StepOf(c: Config, ss: seq<State>, es: seq<Event>, i: nat)
    requires Run(c, ss, es) && i < |es|
    ensures Inv(c, ss[i]) && P.Listed(ss[i].preps) && Apply(c, ss[i], es[i]) == Some(ss[i + 1]) && Grows(ss[i], ss[i + 1])
  {
    hide Inv, Apply, Grows, P.Listed;
    RunInv(c, ss, es, i);
    RunGrows(c, ss, es, i, i + 1);
    assert P.Listed(ss[i].preps) && Apply(c, ss[i], es[i]) == Some(ss[i + 1]);
  }

  /** An accepted attempt was accepted by a report for its own fingerprint. */
  lemma {:induction false} AcceptedWasReported(c: Config, ss: seq<State>, es: seq<Event>, i: nat, id: Id)
    requires Run(c, ss, es) && i < |ss| && id in ss[i].preps.rows && ss[i].preps.rows[id].state.Accepted?
    ensures exists k :: 0 <= k < i && AcceptingReport(ss[k], es[k], id, ss[i].preps.rows[id].fingerprint)
  {
    hide Inv, Apply, P.Listed, AcceptingReport;
    if i > 0 {
      var n := i - 1;
      StepOf(c, ss, es, n);
      if id in ss[n].preps.rows && ss[n].preps.rows[id].state.Accepted? {
        AcceptedWasReported(c, ss, es, n, id);
      } else {
        AcceptStep(c, ss[n], es[n], ss[i], id);
        assert AcceptingReport(ss[n], es[n], id, ss[i].preps.rows[id].fingerprint);
      }
    }
  }

  /** The reason an attempt's worker carries has happened. */
  lemma {:induction false} FailingHasReason(c: Config, ss: seq<State>, es: seq<Event>, i: nat, t: nat)
    requires Run(c, ss, es) && i < |ss| && t in ss[i].threads && ss[i].threads[t].PrepFailing?
    ensures exists k :: 0 <= k < i && PrepFailure(c, ss[k], es[k], ss[i].threads[t].a.id, ss[i].threads[t].why)
  {
    hide Inv, Apply, P.Listed, PrepFailure, Grows;
    if i > 0 {
      var n := i - 1;
      StepOf(c, ss, es, n);
      ThreadStep(c, ss[n], es[n], ss[i], t);
      if t in ss[n].threads && ss[n].threads[t] == ss[i].threads[t] {
        FailingHasReason(c, ss, es, n, t);
      } else {
        SubmissionFails(c, ss[n], es[n], ss[i].threads[t]);
        assert PrepFailure(c, ss[n], es[n], ss[i].threads[t].a.id, ss[i].threads[t].why);
      }
    }
  }

  lemma SubmissionFails(c: Config, s: State, e: Event, th: Thread)
    requires WorkedOn(c, s, e, th)
    ensures th.PrepFailing? && (e.SubmitPrep? || e.PollPrep? || e.ReadReport?) ==> PrepFailure(c, s, e, th.a.id, th.why)
    ensures th.JobFailing? && (e.SubmitJob? || e.PollJob? || e.ReadManifest?) ==> JobFailure(c, s, e, th.j.id, th.reason)
  {
    hide MapNebiusState;
  }

  /** A failed attempt has its reason: the phase it is stored with names an event that happened to it. */
  lemma {:induction false} FailedAttemptHasReason(c: Config, ss: seq<State>, es: seq<Event>, i: nat, id: Id)
    requires Run(c, ss, es) && i < |ss| && id in ss[i].preps.rows && ss[i].preps.rows[id].state.Failed?
    ensures exists k :: 0 <= k < i && PrepFailure(c, ss[k], es[k], id, ss[i].preps.rows[id].data.phase)
  {
    hide Inv, Apply, P.Listed, PrepFailure;
    if i > 0 {
      var n := i - 1;
      StepOf(c, ss, es, n);
      if id in ss[n].preps.rows && ss[n].preps.rows[id].state.Failed? {
        FailedAttemptHasReason(c, ss, es, n, id);
      } else {
        FailStep(c, ss[n], es[n], ss[i], id);
        if !PrepFailure(c, ss[n], es[n], id, ss[i].preps.rows[id].data.phase) {
          var t :| OnPrep(ss[n], t, id) && ss[n].threads[t].PrepFailing? && ss[n].threads[t].why == ss[i].preps.rows[id].data.phase;
          FailingHasReason(c, ss, es, n, t);
        }
      }
    }
  }

  /** The remote id a worker is about to store is the one its create_job answered with. */
  lemma {:induction false} IssuedWasAnswered(c: Config, ss: seq<State>, es: seq<Event>, i: nat, t: nat)
    requires Run(c, ss, es) && i < |ss| && t in ss[i].threads && Issued(ss[i].threads[t])
    ensures exists k :: 0 <= k < i && SubmittedAs(ss[k], es[k], KeyOf(ss[i].threads[t]).value, ss[i].threads[t].remoteId)
  {
    hide Inv, Apply, P.Listed, Grows;
    if i > 0 {
      var n := i - 1;
      StepOf(c, ss, es, n);
      ThreadStep(c, ss[n], es[n], ss[i], t);
      if t in ss[n].threads && ss[n].threads[t] == ss[i].threads[t] {
        IssuedWasAnswered(c, ss, es, n, t);
      } else {
        assert SubmittedAs(ss[n], es[n], KeyOf(ss[i].threads[t]).value, ss[i].threads[t].remoteId);
      }
    }
  }

  /** A stored remote id is what create_job answered for that very attempt. */
  lemma {:induction false} AttemptRemoteWasAnswered(c: Config, ss: seq<State>, es: seq<Event>, i: nat, id: Id)
    requires Run(c, ss, es) && i < |ss| && id in ss[i].preps.rows && ss[i].preps.rows[id].data.remote.Some?
    ensures exists k :: 0 <= k < i && SubmittedAs(ss[k], es[k], PrepKey(id), ss[i].preps.rows[id].data.remote.value)
  {
    hide Inv, Apply, P.Listed, SubmittedAs, Grows;
    if i > 0 {
      var n := i - 1;
      StepOf(c, ss, es, n);
      if id in ss[n].preps.rows && ss[n].preps.rows[id].data.remote == ss[i].preps.rows[id].data.remote {
        AttemptRemoteWasAnswered(c, ss, es, n, id);
      } else {
        RemoteStep(c, ss[n], es[n], ss[i], id);
        var t :| OnPrep(ss[n], t, id) && ss[n].threads[t].PrepIssued?
          && Truthy(ss[n].threads[t].remoteId) == ss[i].preps.rows[id].data.remote;
        IssuedWasAnswered(c, ss, es, n, t);
      }
    }
  }

  /** An attempt shown as executing was seen so by the provider. */
  lemma {:induction false} ExecutingWasSeen(c: Config, ss: seq<State>, es: seq<Event>, i: nat, id: Id)
    requires Run(c, ss, es) && i < |ss| && id in ss[i].preps.rows
    requires ss[i].preps.rows[id].state.Preparing? && ss[i].preps.rows[id].data.phase == P.Execution
    ensures exists k :: 0 <= k < i && PrepSeenRunning(ss[k], es[k], id)
  {
    hide Inv, Apply, P.Listed, PrepSeenRunning, Grows;
    if i > 0 {
      var n := i - 1;
      StepOf(c, ss, es, n);
      if id in ss[n].preps.rows && ss[n].preps.rows[id].state.Preparing? && ss[n].preps.rows[id].data.phase == P.Execution {
        ExecutingWasSeen(c, ss, es, n, id);
      } else {
        RunningStep(c, ss[n], es[n], ss[i], id);
        assert PrepSeenRunning(ss[n], es[n], id);
      }
    }
  }

  /** The same for jobs. */
  lemma {:induction false} JobRemoteWasAnswered(c: Config, ss: seq<State>, es: seq<Event>, i: nat, id: Id)
    requires Run(c, ss, es) && i < |ss| && id in ss[i].train.jobs && ss[i].train.jobs[id].remote.Some?
    ensures exists k :: 0 <= k < i && SubmittedAs(ss[k], es[k], JobKey(id), ss[i].train.jobs[id].remote.value)
  {
    hide Inv, Apply, P.Listed, SubmittedAs, Grows;
    if i > 0 {
      var n := i - 1;
      StepOf(c, ss, es, n);
      if id in ss[n].train.jobs && ss[n].train.jobs[id].remote == ss[i].train.jobs[id].remote {
        JobRemoteWasAnswered(c, ss, es, n, id);
      } else {
        JobRemoteStep(c, ss[n], es[n], ss[i], id);
        var t :| OnJob(ss[n], t, id) && ss[n].threads[t].JobIssued?
          && Truthy(ss[n].threads[t].remoteId) == ss[i].train.jobs[id].remote;
        IssuedWasAnswered(c, ss, es, n, t);
      }
    }
  }

  /** A job that has not failed is in the status that something which happened to it put it in. */
  lemma {:induction false} StatusWasReached(c: Config, ss: seq<State>, es: seq<Event>, i: nat, id: Id)
    requires Run(c, ss, es) && i < |ss| && id in ss[i].train.jobs && !ss[i].train.jobs[id].status.Failed?
    ensures exists k :: 0 <= k < i && JobReached(ss[k], es[k], id, ss[i].train.jobs[id].status)
  {
    hide Inv, Apply, P.Listed, JobReached, Grows;
    if i > 0 {
      var n := i - 1;
      StepOf(c, ss, es, n);
      if id in ss[n].train.jobs && ss[n].train.jobs[id].status == ss[i].train.jobs[id].status {
        StatusWasReached(c, ss, es, n, id);
      } else {
        StatusStep(c, ss[n], es[n], ss[i], id);
        assert JobReached(ss[n], es[n], id, ss[i].train.jobs[id].status);
      }
    }
  }

  /** The provider was seen done with the job a worker waits for. */
  lemma {:induction false} FinalizingWasSeen(c: Config, ss: seq<State>, es: seq<Event>, i: nat, t: nat)
    requires Run(c, ss, es) && i < |ss| && t in ss[i].threads && ss[i].threads[t].JobFinalizing?
    ensures exists k :: 0 <= k < i && JobSeen(ss[k], es[k], ss[i].threads[t].j.id, J.Completed)
  {
    hide Inv, Apply, P.Listed, MapNebiusState, Grows;
    if i > 0 {
      var n := i - 1;
      StepOf(c, ss, es, n);
      ThreadStep(c, ss[n], es[n], ss[i], t);
      if t in ss[n].threads && ss[n].threads[t].JobFinalizing? && ss[n].threads[t].j.id == ss[i].threads[t].j.id {
        FinalizingWasSeen(c, ss, es, n, t);
      } else {
        assert JobSeen(ss[n], es[n], ss[i].threads[t].j.id, J.Completed);
      }
    }
  }

  /** First the provider was seen done, then a manifest of this job arrived. */
  ghost predicate ManifestCame(ss: seq<State>, es: seq<Event>, i: nat, id: Id)
    requires |es| < |ss| && i < |ss|
  {
    exists k, l, manifest :: 0 <= k < l < i && l < |es| && JobSeen(ss[k], es[k], id, J.Completed)
      && ManifestArrives(ss[l], es[l], id, manifest)
  }

  lemma {:induction false} PublishingCame(c: Config, ss: seq<State>, es: seq<Event>, i: nat, t: nat)
    requires Run(c, ss, es) && i < |ss| && t in ss[i].threads && ss[i].threads[t].JobPublishing?
    ensures ManifestCame(ss, es, i, ss[i].threads[t].j.id)
  {
    hide Inv, Apply, P.Listed, Grows, JobSeen;
    if i > 0 {
      var n := i - 1;
      StepOf(c, ss, es, n);
      ThreadStep(c, ss[n], es[n], ss[i], t);
      if t in ss[n].threads && ss[n].threads[t] == ss[i].threads[t] {
        PublishingCame(c, ss, es, n, t);
      } else {
        FinalizingWasSeen(c, ss, es, n, t);
        var k :| 0 <= k < n && JobSeen(ss[k], es[k], ss[n].threads[t].j.id, J.Completed);
        assert ManifestArrives(ss[n], es[n], ss[i].threads[t].j.id, es[n].read.manifest);
      }
    }
  }

  /** A completed job was seen completed by the provider, and then its manifest arrived. */
  lemma CompletedWasSeen(c: Config, ss: seq<State>, es: seq<Event>, i: nat, id: Id)
    requires Run(c, ss, es) && i < |ss| && id in ss[i].train.jobs && ss[i].train.jobs[id].status.Completed?
    ensures ManifestCame(ss, es, i, id)
  {
    StatusWasReached(c, ss, es, i, id);
    var k :| 0 <= k < i && JobReached(ss[k], es[k], id, J.Completed);
    PublishingCame(c, ss, es, k, es[k].t);
  }

  lemma {:induction false} JobFailingHasReason(c: Config, ss: seq<State>, es: seq<Event>, i: nat, t: nat)
    requires Run(c, ss, es) && i < |ss| && t in ss[i].threads && ss[i].threads[t].JobFailing?
    ensures exists k :: 0 <= k < i && JobFailure(c, ss[k], es[k], ss[i].threads[t].j.id, ss[i].threads[t].reason)
  {
    hide Inv, Apply, P.Listed, JobFailure, Grows;
    if i > 0 {
      var n := i - 1;
      StepOf(c, ss, es, n);
      ThreadStep(c, ss[n], es[n], ss[i], t);
      if t in ss[n].threads && ss[n].threads[t] == ss[i].threads[t] {
        JobFailingHasReason(c, ss, es, n, t);
      } else {
        SubmissionFails(c, ss[n], es[n], ss[i].threads[t]);
        assert JobFailure(c, ss[n], es[n], ss[i].threads[t].j.id, ss[i].threads[t].reason);
      }
    }
  }

  /** A reason the job failed for: the phase it is stored with, unless a failure just seen is not written up yet. */
  ghost predicate ExplainsJob(c: Config, s: State, e: Event, id: Id, phase: J.Phase) {
    JobFailure(c, s, e, id, phase) || JobSeen(s, e, id, J.Failed)
  }

  lemma {:induction false} FailedJobHasReason(c: Config, ss: seq<State>, es: seq<Event>, i: nat, id: Id)
    requires Run(c, ss, es) && i < |ss| && id in ss[i].train.jobs && ss[i].train.jobs[id].status.Failed?
    ensures exists k :: 0 <= k < i && ExplainsJob(c, ss[k], es[k], id, ss[i].train.jobs[id].phase)
  {
    hide Inv, Apply, P.Listed, JobFailure, JobSeen, Grows;
    if i > 0 {
      var n := i - 1;
      StepOf(c, ss, es, n);
      if id in ss[n].train.jobs && ss[n].train.jobs[id] == ss[i].train.jobs[id] {
        FailedJobHasReason(c, ss, es, n, id);
      } else {
        JobFailStep(c, ss[n], es[n], ss[i], id);
        if !ExplainsJob(c, ss[n], es[n], id, ss[i].train.jobs[id].phase) {
          var t :| OnJob(ss[n], t, id) && ss[n].threads[t].JobFailing? && ss[n].threads[t].reason == ss[i].train.jobs[id].phase;
          JobFailingHasReason(c, ss, es, n, t);
          var k :| 0 <= k < n && JobFailure(c, ss[k], es[k], id, ss[n].threads[t].reason);
          assert ExplainsJob(c, ss[k], es[k], id, ss[i].train.jobs[id].phase);
        }
      }
    }
  }

  /** A stored manifest is one that was read for that job, or one its refresh brought. */
  lemma {:induction false} ManifestWasRead(c: Config, ss: seq<State>, es: seq<Event>, i: nat, id: Id)
    requires Run(c, ss, es) && i < |ss| && id in ss[i].train.artifacts
    ensures exists k :: 0 <= k < i && BringsManifest(ss[k], es[k], id, ss[i].train.artifacts[id])
  {
    hide Inv, Apply, P.Listed, Grows;
    if i > 0 {
      var n := i - 1;
      StepOf(c, ss, es, n);
      if id in ss[n].train.artifacts && ss[n].train.artifacts[id] == ss[i].train.artifacts[id] {
        ManifestWasRead(c, ss, es, n, id);
      } else {
        ManifestStep(c, ss[n], es[n], ss[i], id);
        assert BringsManifest(ss[n], es[n], id, ss[i].train.artifacts[id]);
      }
    }
  }

  predicate BringsManifest(s: State, e: Event, id: Id, manifest: string) {
    ManifestArrives(s, e, id, manifest) || e == RefreshArtifacts(id, manifest)
  }

  /** Every job is one the quota on custom jobs counts. */
  lemma {:induction false} JobsAreCustom(c: Config, ss: seq<State>, es: seq<Event>, i: nat, id: Id)
    requires Run(c, ss, es) && i < |ss| && id in ss[i].train.jobs
    ensures ss[i].train.jobs[id].custom
  {
    hide Inv, Apply, P.Listed, MapNebiusState;
    if i > 0 {
      var n := i - 1;
      StepOf(c, ss, es, n);
      if id in ss[n].train.jobs {
        JobsAreCustom(c, ss, es, n, id);
      } else {
        JobStep(c, ss[n], es[n], ss[i], id);
      }
    }
  }

  // ----- what is seen is stored

  /** A manifest may be refreshed for a completed job and for one that has a manifest, and nothing else changes. */
  lemma RefreshMeans(c: Config, s: State, id: Id, manifest: string)
    requires P.Listed(s.preps)
    ensures var r := Apply(c, s, RefreshArtifacts(id, manifest));
      && (r.Some? <==> s.boot.Up? && id in s.train.jobs && (s.train.jobs[id].status == J.Completed || id in s.train.artifacts))
      && (r.Some? ==> r.value.train.artifacts == s.train.artifacts[id := manifest]
                      && r.value.(train := s.train) == s && r.value.train.(artifacts := s.train.artifacts) == s.train)
  {
  }

  /** The answer of create_job is recorded; an empty one counts as none. */
  lemma AnswerIsRecorded(c: Config, s: State, t: nat, s': State)
    requires Inv(c, s) && t in s.threads && Issued(s.threads[t])
    requires Apply(c, s, if IsPrep(s.threads[t]) then RecordPrep(t) else RecordJob(t)) == Some(s')
    ensures var answer := if s.threads[t].remoteId == "" then None else Some(s.threads[t].remoteId);
      match s.threads[t]
      case PrepIssued(a, _) =>
        && a.id in s'.preps.rows && s'.preps.rows[a.id].data.remote == answer
        && s'.preps.rows[a.id].state == s'.preps.rows[a.id].data.state == P.Preparing
        && s'.preps.rows[a.id].data.phase == P.Starting
      case JobIssued(j, _) =>
        j.id in s'.train.jobs && s'.train.jobs[j.id].remote == answer && s'.train.jobs[j.id].status == J.Starting
      case _ => true
  {
    hide Inv;
    InvCopies(c, s);
  }

  /** A report decides its attempt: accepted, failed with its phase and open to a retry, or not for this fingerprint. */
  lemma ReportDecides(c: Config, s: State, t: nat, report: ReportRead, s': State)
    requires Inv(c, s) && Apply(c, s, ReadReport(t, report)) == Some(s') && report.Report?
    requires t in s.threads && s.threads[t].PrepReporting? && s.threads[t].left > 0
    ensures var id := s.threads[t].a.id;
      && id in s.preps.rows && id in s'.preps.rows
      && (var row, row' := s.preps.rows[id], s'.preps.rows[id];
        if report.fingerprint != row.fingerprint then
          row' == row && t in s'.threads && s'.threads[t] == PrepFailing(s.threads[t].a, P.Finalization)
        else if report.accepted then
          row'.state == row'.data.state == P.Accepted && row'.data.reportReady && !row'.data.canRetry
        else
          row'.state == row'.data.state == P.Failed && row'.data.phase == P.Reported(report.phase) && row'.data.canRetry)
  {
    hide Inv, MapNebiusState;
    InvCopies(c, s);
  }

  /** What each provider state does to an attempt being polled. */
  lemma AttemptFollowsProvider(c: Config, s: State, t: nat, raw: string, s': State)
    requires Inv(c, s) && Apply(c, s, PollPrep(t, Says(raw))) == Some(s') && t in s.threads && s.threads[t].PrepPolling?
    ensures var id := s.threads[t].a.id;
      && id in s.preps.rows && id in s'.preps.rows && t in s'.threads
      && (var row, row' := s.preps.rows[id], s'.preps.rows[id];
        match MapNebiusState(raw)
        case None => s' == s
        case Some(status) =>
          if status == J.Starting || status == J.Training then
            row'.state == row'.data.state == P.Preparing && row'.data.phase == P.Execution && s'.threads[t] == PrepPolling(row'.data)
          else if status == J.Failed then
            row' == row && s'.threads[t] == PrepFailing(s.threads[t].a, P.Execution)
          else
            row' == row && s'.threads[t] == if c.storage then PrepReporting(s.threads[t].a, c.prepAttempts)
                                            else PrepFailing(s.threads[t].a, P.Finalization))
  {
    hide Inv, MapNebiusState;
    InvCopies(c, s);
    if MapNebiusState(raw).Some? { StatusesMapped(PollJob(t, Says(raw))); }
  }

  /** And to a job: starting and running are stored, completed waits for its manifest, failed fails. */
  lemma JobFollowsProvider(c: Config, s: State, t: nat, raw: string, s': State)
    requires Inv(c, s) && Apply(c, s, PollJob(t, Says(raw))) == Some(s') && t in s.threads && s.threads[t].JobPolling?
    ensures var id := s.threads[t].j.id;
      && id in s.train.jobs && id in s'.train.jobs && t in s'.threads
      && (var job, job' := s.train.jobs[id], s'.train.jobs[id];
        match MapNebiusState(raw)
        case None => s' == s
        case Some(status) =>
          if status == J.Completed then
            job'.status == J.Finalizing && !job'.artifactsReady && s'.threads[t] == JobFinalizing(job', c.jobAttempts)
          else if status == J.Failed then
            job'.status == J.Failed && s'.threads[t] == JobFailing(job', J.InTraining)
          else
            job'.status == status && s'.threads[t] == JobPolling(job'))
  {
    hide Inv, MapNebiusState;
    InvCopies(c, s);
    if MapNebiusState(raw).Some? { StatusesMapped(PollJob(t, Says(raw))); }
    JobPollingOpen(c, s, t);
  }

  lemma JobPollingOpen(c: Config, s: State, t: nat)
    requires Inv(c, s) && t in s.threads && s.threads[t].JobPolling?
    ensures !J.Terminal(s.threads[t].j.status)
  {
    hide Inv;
    JobUnfinished(c, s, t);
  }
}
