/**
 The SaaS process as a state machine: request handlers, one worker thread per attempt
 or job, the `_active` set, start-up reconciliation, and crashes.

 Every SQLite transaction is one atomic step.  Between two steps the process may
 crash, which forgets everything but the tables.  A thread holds the local copy of
 the record it works on, because the source writes whole documents from such copies.
 */
module Orchestration {
  import opened Wrappers
  import P = Preparations
  import J = TrainingJobs

  type Id = string

  /** A member of the backend's `_active` set. */
  datatype Key = PrepKey(id: Id) | JobKey(id: Id)

  datatype Config = Config(
    maxPreps: nat, maxJobs: nat, maxDaily: nat,
    prepAttempts: nat, jobAttempts: nat, storage: bool)

  // ----- provider states

  function LastSegment(raw: string): string {
    if raw == "" then ""
    else
      var last := raw[|raw| - 1];
      if last == '_' then "" else LastSegment(raw[..|raw| - 1]) + [last]
  }

  function Upper(s: string): string {
    if s == "" then ""
    else [if 'a' <= s[0] <= 'z' then s[0] - 'a' + 'A' else s[0]] + Upper(s[1..])
  }

  /** map_nebius_state; None is an unknown or transitional provider state. */
  function MapNebiusState(raw: string): (r: Option<J.Status>)
    ensures r.Some? ==> r.value in {J.Starting, J.Training, J.Completed, J.Failed}
  {
    var state := Upper(LastSegment(raw));
    if state in {"QUEUED", "QUEUING", "PENDING", "PROVISIONING", "STARTING", "CREATING"} then Some(J.Starting)
    else if state in {"RUNNING", "ACTIVE"} then Some(J.Training)
    else if state in {"SUCCEEDED", "SUCCESS", "COMPLETED", "FINISHED", "DONE"} then Some(J.Completed)
    else if state in {"FAILED", "ERROR", "CANCELLED", "CANCELED", "TIMEOUT", "EXPIRED"} then Some(J.Failed)
    else None
  }

  // ----- state

  /** A thread is named by what it does next and holds its local copy. */
  datatype Thread =
    // prepare_robot_setup, after reserve_preparation created the attempt
    | PrepReserved(a: P.Attempt)
    | PrepDescribed(a: P.Attempt)
    // _run_preparation, _poll_preparation, _finalize_preparation, _fail_preparation
    | PrepSubmitting(a: P.Attempt)
    | PrepIssued(a: P.Attempt, remoteId: string)
    | PrepPolling(a: P.Attempt)
    | PrepReporting(a: P.Attempt, left: nat)
    | PrepFailing(a: P.Attempt, why: P.Phase)
    // start_robot_setup_training, before and after reserve_training_job
    | StartAllowed(prep: P.Attempt)
    | JobReserved(j: J.Job)
    // _run, _poll, _complete, _fail
    | JobSubmitting(j: J.Job)
    | JobIssued(j: J.Job, remoteId: string)
    | JobPolling(j: J.Job)
    | JobFinalizing(j: J.Job, left: nat)
    | JobPublishing(j: J.Job)
    | JobFailing(j: J.Job, reason: J.Phase)
    // a worker whose target returned but whose `finally` has not run
    | Finished(key: Key)

  /** resume and resume_preparations still hold the rows they listed but have not handled. */
  datatype Boot =
    | Down
    | ResumingJobs(jobs: map<Id, J.Job>)
    | ResumingPreps(preps: map<Id, P.Attempt>)
    | Up

  /** What reserve_training_job answered: the job, and whether this call created it. */
  datatype Reply = Reply(request: J.RequestKey, jobId: Id, created: bool)

  /**
   `preps` and `train` are durable; `boot`, `threads` and `active` die with the process.
   `submitted` counts create_job invocations, `replies` records the answers of
   reserve_training_job, `lost` the keys whose only writer ended by an exception in
   this process, and `faults` the internal errors the store raises.
   */
  datatype State = State(
    preps: P.Table, train: J.Tables,
    boot: Boot, threads: map<nat, Thread>, active: set<Key>,
    submitted: multiset<Key>, replies: seq<Reply>, lost: set<Key>, faults: nat)

  const INITIAL := State(P.EMPTY, J.EMPTY, Down, map[], {}, multiset{}, [], {}, 0)

  function KeyOf(th: Thread): Option<Key> {
    if th.Finished? then Some(th.key)
    else if th.StartAllowed? then None
    else if IsPrep(th) then Some(PrepKey(th.a.id))
    else Some(JobKey(th.j.id))
  }

  predicate IsPrep(th: Thread) {
    th.PrepReserved? || th.PrepDescribed? || th.PrepSubmitting? || th.PrepIssued? || th.PrepPolling?
    || th.PrepReporting? || th.PrepFailing?
  }

  predicate IsJob(th: Thread) {
    !IsPrep(th) && !th.StartAllowed? && !th.Finished?
  }

  predicate Handler(th: Thread) {
    th.PrepReserved? || th.PrepDescribed? || th.StartAllowed? || th.JobReserved?
  }

  predicate CanWrite(th: Thread) {
    IsPrep(th) || IsJob(th)
  }

  /** Threads that have not invoked create_job for their record. */
  predicate Unsubmitted(th: Thread) {
    th.PrepReserved? || th.PrepDescribed? || th.PrepSubmitting? || th.JobReserved? || th.JobSubmitting?
  }

  predicate Issued(th: Thread) {
    th.PrepIssued? || th.JobIssued?
  }

  predicate BootHolds(boot: Boot, key: Key) {
    match boot
    case ResumingJobs(jobs) => key.JobKey? && key.id in jobs
    case ResumingPreps(preps) => key.PrepKey? && key.id in preps
    case _ => false
  }

  // ----- events

  datatype Submission = Invalid | Raised | Accepted(remoteId: string)

  datatype Poll = Deadline | Unreadable | Says(raw: string)

  datatype ReportRead = ReportMissing | Report(fingerprint: string, accepted: bool, phase: string)

  datatype ManifestRead = ManifestDeadline | ManifestInvalid | ManifestMissing | Manifest(manifest: string)

  datatype Event =
    | RequestPreparation(t: nat, attempt: P.Attempt, retry: bool, now: real)
    | DescribeInputs(t: nat, manifest: string)
    | InputsRefused(t: nat)
    | LaunchPreparation(t: nat, worker: nat)
    | SubmitPrep(t: nat, submission: Submission)
    | RecordPrep(t: nat)
    | PollPrep(t: nat, poll: Poll)
    | ReadReport(t: nat, report: ReportRead)
    | FailPrep(t: nat)
    | RequestStart(t: nat, tenant: string, setup: string, fingerprint: string)
    | ReserveStart(t: nat, id: Id, key: string, checked: real, now: real)
    | SnapshotRefused(t: nat)
    | LaunchStart(t: nat, worker: nat)
    | SubmitJob(t: nat, submission: Submission)
    | RecordJob(t: nat)
    | PollJob(t: nat, poll: Poll)
    | ReadManifest(t: nat, read: ManifestRead)
    | PublishJob(t: nat)
    | FailJob(t: nat)
    | RefreshArtifacts(id: Id, manifest: string)
    | Retire(t: nat)
    | Die(t: nat)
    | Crash
    | StartUp
    | ResumeJob(id: Id, worker: nat)
    | JobsResumed
    | ResumePrep(id: Id, worker: nat)
    | BootDone

  // ----- building blocks

  /** How the source reads a stored remote id. */
  function Truthy(remoteId: string): Option<string> {
    if remoteId == "" then None else Some(remoteId)
  }

  function Become(s: State, t: nat, th: Thread): State {
    s.(threads := s.threads[t := th])
  }

  function End(s: State, t: nat): State {
    s.(threads := s.threads - {t})
  }

  /** put_preparation; a missing row is the KeyError the store raises. */
  function WritePrep(s: State, a: P.Attempt): State {
    match P.Put(s.preps, a)
    case Some(table) => s.(preps := table)
    case None => s.(faults := s.faults + 1)
  }

  function WriteJob(s: State, j: J.Job): State {
    s.(train := J.Put(s.train, j))
  }

  /** _start and _start_preparation: at most one worker per key. */
  function Spawn(s: State, worker: nat, key: Key, th: Thread): State {
    if key in s.active then s
    else s.(active := s.active + {key}, threads := s.threads[worker := th])
  }

  function FailedAttempt(a: P.Attempt, phase: P.Phase): P.Attempt {
    a.(state := P.Failed, phase := phase, canRetry := true)
  }

  function FailedJob(j: J.Job, phase: J.Phase): J.Job {
    j.(status := J.Failed, phase := phase)
  }

  /** The attempt reserve_preparation is asked to insert. */
  predicate NewAttempt(a: P.Attempt) {
    P.FreshAttempt(a)
  }

  function NewJob(id: Id, prep: P.Attempt): J.Job {
    J.Job(id, prep.tenant, prep.setup, true, J.Queued, J.Unset, None, false, prep.id, prep.fingerprint)
  }

  // ----- preparation steps

  function DoRequestPreparation(c: Config, s: State, t: nat, a: P.Attempt, retry: bool, now: real): Option<State>
    requires P.Listed(s.preps)
  {
    if s.boot.Up? && t !in s.threads && NewAttempt(a) then
      var (outcome, table) := P.Reserve(s.preps, a, c.maxPreps, retry, now);
      if outcome.Created?
      then Some(s.(preps := table, threads := s.threads[t := PrepReserved(a)]))
      else Some(s)
    else None
  }

  function DoDescribeInputs(s: State, t: nat, manifest: string): Option<State> {
    if t in s.threads && s.threads[t].PrepReserved? then
      var a := s.threads[t].a.(manifest := Some(manifest));
      Some(Become(WritePrep(s, a), t, PrepDescribed(a)))
    else None
  }

  function DoInputsRefused(c: Config, s: State, t: nat): Option<State> {
    if c.storage && t in s.threads && s.threads[t].PrepDescribed?
    then Some(End(WritePrep(s, FailedAttempt(s.threads[t].a, P.InputPublication)), t))
    else None
  }

  function DoLaunchPreparation(s: State, t: nat, worker: nat): Option<State> {
    if t in s.threads && s.threads[t].PrepDescribed? && worker !in s.threads then
      var a := s.threads[t].a;
      Some(Spawn(End(s, t), worker, PrepKey(a.id), PrepSubmitting(a)))
    else None
  }

  function DoSubmitPrep(s: State, t: nat, submission: Submission): Option<State> {
    if t in s.threads && s.threads[t].PrepSubmitting? then
      var a := s.threads[t].a;
      var called := s.(submitted := s.submitted + multiset{PrepKey(a.id)});
      match submission
      case Invalid => Some(Become(s, t, PrepFailing(a, P.Submission)))
      case Raised => Some(Become(called, t, PrepFailing(a, P.Submission)))
      case Accepted(id) => Some(Become(called, t, PrepIssued(a, id)))
    else None
  }

  function DoRecordPrep(s: State, t: nat): Option<State> {
    if t in s.threads && s.threads[t].PrepIssued? then
      var a := s.threads[t].a.(state := P.Preparing, phase := P.Starting, remote := Truthy(s.threads[t].remoteId));
      Some(Become(WritePrep(s, a), t, PrepPolling(a)))
    else None
  }

  function DoPollPrep(c: Config, s: State, t: nat, poll: Poll): Option<State> {
    if t in s.threads && s.threads[t].PrepPolling? then
      var a := s.threads[t].a;
      match poll
      case Deadline => Some(Become(s, t, PrepFailing(a, P.Execution)))
      case Unreadable => Some(s)
      case Says(raw) =>
        match MapNebiusState(raw)
        case None => Some(s)
        case Some(status) =>
          if status.Failed? then Some(Become(s, t, PrepFailing(a, P.Execution)))
          else if status.Completed? then
            Some(Become(s, t, if c.storage then PrepReporting(a, c.prepAttempts) else PrepFailing(a, P.Finalization)))
          else
            var a' := a.(state := P.Preparing, phase := P.Execution);
            Some(Become(WritePrep(s, a'), t, PrepPolling(a')))
    else None
  }

  function DoReadReport(s: State, t: nat, read: ReportRead): Option<State> {
    if t in s.threads && s.threads[t].PrepReporting? then
      var a, left := s.threads[t].a, s.threads[t].left;
      if left == 0 then Some(Become(s, t, PrepFailing(a, P.Finalization)))
      else
        match read
        case ReportMissing => Some(Become(s, t, PrepReporting(a, left - 1)))
        case Report(fingerprint, accepted, phase) =>
          if fingerprint != a.fingerprint then Some(Become(s, t, PrepFailing(a, P.Finalization)))
          else
            var a' := if accepted
                      then a.(state := P.Accepted, phase := P.Done, reportReady := true, canRetry := false)
                      else a.(state := P.Failed, phase := P.Reported(phase), reportReady := true, canRetry := true);
            Some(Become(WritePrep(s, a'), t, Finished(PrepKey(a.id))))
    else None
  }

  function DoFailPrep(s: State, t: nat): Option<State> {
    if t in s.threads && s.threads[t].PrepFailing? then
      var a := s.threads[t].a;
      Some(Become(WritePrep(s, FailedAttempt(a, s.threads[t].why)), t, Finished(PrepKey(a.id))))
    else None
  }

  // ----- training steps

  /** The acceptance gate of start_robot_setup_training. */
  function StartGate(table: P.Table, tenant: string, setup: string, fingerprint: string): Option<P.Attempt>
    requires P.Listed(table)
  {
    match P.Select(table, P.AcceptedOf(tenant, setup, fingerprint))
    case None => None
    case Some(id) =>
      var a := P.Decode(table.rows[id]);
      if a.state.Accepted? && a.fingerprint == fingerprint && a.reportReady then Some(a) else None
  }

  function DoRequestStart(s: State, t: nat, tenant: string, setup: string, fingerprint: string): Option<State>
    requires P.Listed(s.preps)
  {
    if s.boot.Up? && t !in s.threads then
      match StartGate(s.preps, tenant, setup, fingerprint)
      case None => Some(s)
      case Some(a) => Some(Become(s, t, StartAllowed(a)))
    else None
  }

  function DoReserveStart(c: Config, s: State, t: nat, id: Id, key: string, checked: real, now: real): Option<State> {
    if t in s.threads && s.threads[t].StartAllowed? && checked <= now then
      var job := NewJob(id, s.threads[t].prep);
      var request := J.RequestKey(job.tenant, job.setup, key);
      var (outcome, tables) := J.Reserve(s.train, job, job.setup, key, c.maxJobs, c.maxDaily, checked, now);
      match outcome
      case Replayed(existing) =>
        Some(End(s, t).(replies := s.replies + [Reply(request, existing.id, false)]))
      case Orphaned => Some(End(s, t).(faults := s.faults + 1))
      case Created =>
        Some(Become(s, t, JobReserved(job)).(train := tables, replies := s.replies + [Reply(request, id, true)]))
      case _ => Some(End(s, t))
    else None
  }

  function DoSnapshotRefused(c: Config, s: State, t: nat): Option<State> {
    if c.storage && t in s.threads && s.threads[t].JobReserved?
    then Some(End(WriteJob(s, FailedJob(s.threads[t].j, J.InputPublication)), t))
    else None
  }

  function DoLaunchStart(s: State, t: nat, worker: nat): Option<State> {
    if t in s.threads && s.threads[t].JobReserved? && worker !in s.threads then
      var j := s.threads[t].j;
      Some(Spawn(End(s, t), worker, JobKey(j.id), JobSubmitting(j)))
    else None
  }

  function DoSubmitJob(s: State, t: nat, submission: Submission): Option<State> {
    if t in s.threads && s.threads[t].JobSubmitting? then
      var j := s.threads[t].j;
      var called := s.(submitted := s.submitted + multiset{JobKey(j.id)});
      match submission
      case Invalid => Some(Become(s, t, JobFailing(j, J.Submission)))
      case Raised => Some(Become(called, t, JobFailing(j, J.Submission)))
      case Accepted(id) => Some(Become(called, t, JobIssued(j, id)))
    else None
  }

  function DoRecordJob(s: State, t: nat): Option<State> {
    if t in s.threads && s.threads[t].JobIssued? then
      var j := s.threads[t].j.(remote := Truthy(s.threads[t].remoteId), status := J.Starting);
      Some(Become(WriteJob(s, j), t, JobPolling(j)))
    else None
  }

  /** One round of _poll; remote failure is written once here and again by _fail. */
  function DoPollJob(c: Config, s: State, t: nat, poll: Poll): Option<State> {
    if t in s.threads && s.threads[t].JobPolling? then
      var j := s.threads[t].j;
      match poll
      case Deadline => Some(Become(s, t, JobFailing(j, if j.phase.Unset? then J.InTraining else j.phase)))
      case Unreadable => Some(s)
      case Says(raw) =>
        match MapNebiusState(raw)
        case None => Some(s)
        case Some(status) =>
          if status == j.status then Some(s)
          else if status.Completed? then
            var j' := j.(status := J.Finalizing, phase := J.Finalization, artifactsReady := false);
            Some(Become(WriteJob(s, j'), t, JobFinalizing(j', c.jobAttempts)))
          else
            var j' := j.(status := status);
            Some(Become(WriteJob(s, j'), t, if status.Failed? then JobFailing(j', J.InTraining) else JobPolling(j')))
    else None
  }

  function DoReadManifest(s: State, t: nat, read: ManifestRead): Option<State> {
    if t in s.threads && s.threads[t].JobFinalizing? then
      var j, left := s.threads[t].j, s.threads[t].left;
      if left == 0 then Some(Become(s, t, JobFailing(j, J.Finalization)))
      else
        match read
        case ManifestDeadline => Some(Become(s, t, JobFailing(j, J.Finalization)))
        case ManifestInvalid => Some(Become(s, t, JobFailing(j, J.ArtifactValidation)))
        case ManifestMissing => Some(Become(s, t, JobFinalizing(j, left - 1)))
        case Manifest(m) =>
          Some(Become(s.(train := J.SetArtifacts(s.train, j.id, m)), t, JobPublishing(j)))
    else None
  }

  function DoPublishJob(s: State, t: nat): Option<State> {
    if t in s.threads && s.threads[t].JobPublishing? then
      var j := s.threads[t].j.(status := J.Completed, phase := J.Done, artifactsReady := true);
      Some(Become(WriteJob(s, j), t, Finished(JobKey(j.id))))
    else None
  }

  function DoFailJob(s: State, t: nat): Option<State> {
    if t in s.threads && s.threads[t].JobFailing? then
      var j := s.threads[t].j;
      Some(Become(WriteJob(s, FailedJob(j, s.threads[t].reason)), t, Finished(JobKey(j.id))))
    else None
  }

  /** _recover_artifacts for a completed job, or _normalize_legacy_manifest for a stored manifest. */
  function DoRefreshArtifacts(s: State, id: Id, manifest: string): Option<State> {
    if s.boot.Up? && id in s.train.jobs && (s.train.jobs[id].status.Completed? || id in s.train.artifacts)
    then Some(s.(train := J.SetArtifacts(s.train, id, manifest)))
    else None
  }

  // ----- process steps

  /** The `finally` of a worker. */
  function DoRetire(s: State, t: nat): Option<State> {
    if t in s.threads && s.threads[t].Finished?
    then Some(End(s, t).(active := s.active - {s.threads[t].key}))
    else None
  }

  /** An uncaught exception: a handler ends, a worker still runs its `finally`. */
  function DoDie(s: State, t: nat): Option<State> {
    if t in s.threads && !s.threads[t].Finished? then
      var th := s.threads[t];
      if th.StartAllowed? then Some(End(s, t))
      else
        var s' := s.(lost := s.lost + {KeyOf(th).value});
        Some(if Handler(th) then End(s', t) else Become(s', t, Finished(KeyOf(th).value)))
    else None
  }

  function DoCrash(s: State): Option<State> {
    Some(s.(boot := Down, threads := map[], active := {}, lost := {}))
  }

  function DoStartUp(s: State): Option<State> {
    if s.boot.Down? then Some(s.(boot := ResumingJobs(J.ActiveJobs(s.train)))) else None
  }

  function DoResumeJob(s: State, id: Id, worker: nat): Option<State> {
    if s.boot.ResumingJobs? && id in s.boot.jobs && worker !in s.threads then
      var j := s.boot.jobs[id];
      var s' := s.(boot := ResumingJobs(s.boot.jobs - {id}));
      if j.remote.None?
      then Some(WriteJob(s', FailedJob(j, J.Submission)))
      else Some(Spawn(s', worker, JobKey(id), JobPolling(j)))
    else None
  }

  function DoJobsResumed(s: State): Option<State> {
    if s.boot.ResumingJobs? && s.boot.jobs == map[]
    then Some(s.(boot := ResumingPreps(P.ActiveAttempts(s.preps))))
    else None
  }

  function DoResumePrep(s: State, id: Id, worker: nat): Option<State> {
    if s.boot.ResumingPreps? && id in s.boot.preps && worker !in s.threads then
      var a := s.boot.preps[id];
      var s' := s.(boot := ResumingPreps(s.boot.preps - {id}));
      if a.remote.None?
      then Some(WritePrep(s', FailedAttempt(a, P.Submission)))
      else Some(Spawn(s', worker, PrepKey(id), PrepPolling(a)))
    else None
  }

  function DoBootDone(s: State): Option<State> {
    if s.boot.ResumingPreps? && s.boot.preps == map[] then Some(s.(boot := Up)) else None
  }

  /** The state after an event, or None when the event cannot happen here. */
  function Apply(c: Config, s: State, e: Event): Option<State>
    requires P.Listed(s.preps)
  {
    match e
    case RequestPreparation(t, a, retry, now) => DoRequestPreparation(c, s, t, a, retry, now)
    case DescribeInputs(t, manifest) => DoDescribeInputs(s, t, manifest)
    case InputsRefused(t) => DoInputsRefused(c, s, t)
    case LaunchPreparation(t, worker) => DoLaunchPreparation(s, t, worker)
    case SubmitPrep(t, submission) => DoSubmitPrep(s, t, submission)
    case RecordPrep(t) => DoRecordPrep(s, t)
    case PollPrep(t, poll) => DoPollPrep(c, s, t, poll)
    case ReadReport(t, report) => DoReadReport(s, t, report)
    case FailPrep(t) => DoFailPrep(s, t)
    case RequestStart(t, tenant, setup, fingerprint) => DoRequestStart(s, t, tenant, setup, fingerprint)
    case ReserveStart(t, id, key, checked, now) => DoReserveStart(c, s, t, id, key, checked, now)
    case SnapshotRefused(t) => DoSnapshotRefused(c, s, t)
    case LaunchStart(t, worker) => DoLaunchStart(s, t, worker)
    case SubmitJob(t, submission) => DoSubmitJob(s, t, submission)
    case RecordJob(t) => DoRecordJob(s, t)
    case PollJob(t, poll) => DoPollJob(c, s, t, poll)
    case ReadManifest(t, read) => DoReadManifest(s, t, read)
    case PublishJob(t) => DoPublishJob(s, t)
    case FailJob(t) => DoFailJob(s, t)
    case RefreshArtifacts(id, manifest) => DoRefreshArtifacts(s, id, manifest)
    case Retire(t) => DoRetire(s, t)
    case Die(t) => DoDie(s, t)
    case Crash => DoCrash(s)
    case StartUp => DoStartUp(s)
    case ResumeJob(id, worker) => DoResumeJob(s, id, worker)
    case JobsResumed => DoJobsResumed(s)
    case ResumePrep(id, worker) => DoResumePrep(s, id, worker)
    case BootDone => DoBootDone(s)
  }
}
