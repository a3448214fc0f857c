/** Every event keeps the invariant and only adds to durable history. */
module OrchestrationProof {
  import opened Wrappers
  import P = Preparations
  import J = TrainingJobs
  import opened Orchestration
  import opened OrchestrationInvariant
  import opened OrchestrationSteps

  // ----- durable history

  /** Rows are never dropped or re-keyed, finished attempts are frozen, remote ids are written once. */
  ghost predicate PrepsGrow(p: P.Table, q: P.Table) {
    forall id :: id in p.rows ==>
      && id in q.rows
      && P.SameKey(p.rows[id], q.rows[id])
      && (!P.Live(p.rows[id].state) ==> q.rows[id] == p.rows[id])
      && (p.rows[id].data.remote.Some? ==> q.rows[id].data.remote == p.rows[id].data.remote)
  }

  /** Completed jobs are frozen; a failed job stays failed though its reason may still be filled in. */
  ghost predicate JobsGrow(d: J.Tables, e: J.Tables) {
    forall id :: id in d.jobs ==>
      && id in e.jobs
      && J.SameIdentity(d.jobs[id], e.jobs[id])
      && (d.jobs[id].status.Completed? ==> e.jobs[id] == d.jobs[id])
      && (d.jobs[id].status.Failed? ==> e.jobs[id].status.Failed?)
      && (d.jobs[id].remote.Some? ==> e.jobs[id].remote == d.jobs[id].remote)
  }

  ghost predicate Grows(s: State, s': State) {
    && PrepsGrow(s.preps, s'.preps)
    && JobsGrow(s.train, s'.train)
    && (forall k :: k in s.train.requests ==> k in s'.train.requests && s'.train.requests[k] == s.train.requests[k])
    && s.train.artifacts.Keys <= s'.train.artifacts.Keys
    && s.submitted <= s'.submitted
    && s.replies <= s'.replies
  }

  lemma GrowsTransitive(a: State, b: State, d: State)
    requires Grows(a, b) && Grows(b, d)
    ensures Grows(a, d)
  {
    forall id | id in a.preps.rows
      ensures id in d.preps.rows && P.SameKey(a.preps.rows[id], d.preps.rows[id])
      ensures !P.Live(a.preps.rows[id].state) ==> d.preps.rows[id] == a.preps.rows[id]
      ensures a.preps.rows[id].data.remote.Some? ==> d.preps.rows[id].data.remote == a.preps.rows[id].data.remote
    {
      assert id in b.preps.rows;
    }
    forall id | id in a.train.jobs
      ensures id in d.train.jobs && J.SameIdentity(a.train.jobs[id], d.train.jobs[id])
      ensures a.train.jobs[id].status.Completed? ==> d.train.jobs[id] == a.train.jobs[id]
      ensures a.train.jobs[id].status.Failed? ==> d.train.jobs[id].status.Failed?
      ensures a.train.jobs[id].remote.Some? ==> d.train.jobs[id].remote == a.train.jobs[id].remote
    {
      assert id in b.train.jobs;
    }
  }

  // ----- what owning a record tells a thread

  lemma PrepOwner(c: Config, s: State, t: nat)
    requires Inv(c, s) && t in s.threads && IsPrep(s.threads[t])
    ensures ThreadOk(s.preps, s.train, s.submitted, s.threads[t])
    ensures P.RowOk(s.threads[t].a.id, s.preps.rows[s.threads[t].a.id])
    ensures RemoteKnown(s.submitted, PrepKey(s.threads[t].a.id), s.threads[t].a.remote)
  {
    assert ThreadOk(s.preps, s.train, s.submitted, s.threads[t]);
  }

  lemma JobOwner(c: Config, s: State, t: nat)
    requires Inv(c, s) && t in s.threads && IsJob(s.threads[t])
    ensures ThreadOk(s.preps, s.train, s.submitted, s.threads[t])
    ensures RemoteKnown(s.submitted, JobKey(s.threads[t].j.id), s.threads[t].j.remote)
    ensures s.threads[t].j.id in s.train.jobs && s.train.jobs[s.threads[t].j.id] == s.threads[t].j
  {
    assert ThreadOk(s.preps, s.train, s.submitted, s.threads[t]);
  }

  lemma JobUnfinished(c: Config, s: State, t: nat)
    requires Inv(c, s) && t in s.threads && IsJob(s.threads[t]) && !s.threads[t].JobFailing?
    ensures !J.Terminal(s.threads[t].j.status)
    ensures s.threads[t].JobPublishing? ==> s.threads[t].j.id in s.train.artifacts
  {
    assert ThreadOk(s.preps, s.train, s.submitted, s.threads[t]);
  }

  lemma JobNotCompleted(c: Config, s: State, t: nat)
    requires Inv(c, s) && t in s.threads && IsJob(s.threads[t])
    ensures !s.threads[t].j.status.Completed?
  {
    assert ThreadOk(s.preps, s.train, s.submitted, s.threads[t]);
  }

  lemma PrepWriteGrows(s: State, s': State, a: P.Attempt)
    requires a.id in s.preps.rows && P.Live(s.preps.rows[a.id].state) && P.SameIdentity(a, s.preps.rows[a.id].data)
    requires s.preps.rows[a.id].tenant == a.tenant
    requires s.preps.rows[a.id].data.remote.Some? ==> a.remote == s.preps.rows[a.id].data.remote
    requires s'.preps == P.Put(s.preps, a).value && s'.train == s.train
    requires s'.submitted == s.submitted && s'.replies == s.replies
    ensures Grows(s, s')
  {
  }

  lemma JobWriteGrows(s: State, s': State, j: J.Job)
    requires j.id in s.train.jobs && J.SameIdentity(s.train.jobs[j.id], j)
    requires !s.train.jobs[j.id].status.Completed?
    requires s.train.jobs[j.id].status.Failed? ==> j.status.Failed?
    requires s.train.jobs[j.id].remote.Some? ==> j.remote == s.train.jobs[j.id].remote
    requires s'.train == J.Put(s.train, j) && s'.preps == s.preps
    requires s'.submitted == s.submitted && s'.replies == s.replies
    ensures Grows(s, s')
  {
  }

  lemma SameGrows(s: State, s': State)
    requires s'.preps == s.preps && s'.train == s.train && s'.submitted == s.submitted && s'.replies == s.replies
    ensures Grows(s, s')
  {
  }

  /** LocalStep, with its effect on history. */
  lemma LocalEvent(c: Config, s: State, s': State, t: nat, th: Thread)
    requires Inv(c, s) && t in s.threads && CanWrite(s.threads[t])
    requires s' == Become(s, t, th).(submitted := s'.submitted)
    requires KeyOf(th) == KeyOf(s.threads[t]) && CanWrite(th) && Handler(th) == Handler(s.threads[t])
    requires !Unsubmitted(th) && (Issued(th) ==> Unsubmitted(s.threads[t]))
    requires s'.submitted == s.submitted
      || (s'.submitted == s.submitted + multiset{KeyOf(th).value} && Unsubmitted(s.threads[t]))
    requires ThreadOk(s.preps, s.train, s'.submitted, th)
    ensures Inv(c, s') && Grows(s, s')
  {
    hide Inv, ThreadOk;
    LocalStep(c, s, s', t, th);
  }

  predicate WorkerStep(th: Thread, next: Thread, called: bool) {
    && !Handler(th) && !Handler(next) && !Unsubmitted(next)
    && (called ==> Unsubmitted(th))
    && (Issued(next) ==> called)
  }

  function MaybeCalled(s: State, key: Key, called: bool): State {
    if called then s.(submitted := s.submitted + multiset{key}) else s
  }

  /** A preparation worker goes on without writing its attempt. */
  lemma PrepMoves(c: Config, s: State, t: nat, next: Thread, called: bool)
    requires Inv(c, s) && t in s.threads && IsPrep(s.threads[t]) && IsPrep(next) && next.a == s.threads[t].a
    requires WorkerStep(s.threads[t], next, called)
    ensures var s' := Become(MaybeCalled(s, PrepKey(next.a.id), called), t, next); Inv(c, s') && Grows(s, s')
  {
    PrepOwner(c, s, t);
    hide Inv, Grows;
    var s' := Become(MaybeCalled(s, PrepKey(next.a.id), called), t, next);
    assert ThreadOk(s.preps, s.train, s'.submitted, next);
    hide ThreadOk;
    LocalEvent(c, s, s', t, next);
  }

  /** A job worker goes on without writing its job. */
  lemma JobMoves(c: Config, s: State, t: nat, next: Thread, called: bool)
    requires Inv(c, s) && t in s.threads && IsJob(s.threads[t]) && IsJob(next) && next.j == s.threads[t].j
    requires WorkerStep(s.threads[t], next, called) && !s.threads[t].JobFailing?
    requires next.JobPublishing? ==> next.j.id in s.train.artifacts
    ensures var s' := Become(MaybeCalled(s, JobKey(next.j.id), called), t, next); Inv(c, s') && Grows(s, s')
  {
    JobOwner(c, s, t);
    hide Inv, Grows;
    var s' := Become(MaybeCalled(s, JobKey(next.j.id), called), t, next);
    assert ThreadOk(s.preps, s.train, s'.submitted, next);
    hide ThreadOk;
    LocalEvent(c, s, s', t, next);
  }

  // ----- preparation events

  lemma KeepsRequestPreparation(c: Config, s: State, s': State, t: nat, a: P.Attempt, retry: bool, now: real)
    requires Inv(c, s) && DoRequestPreparation(c, s, t, a, retry, now) == Some(s')
    ensures Inv(c, s') && Grows(s, s')
  {
    var (outcome, table) := P.Reserve(s.preps, a, c.maxPreps, retry, now);
    P.ReserveKeepsTable(s.preps, a, c.maxPreps, retry, now);
    if outcome.Created? {
      assert PrepKey(a.id) !in s.submitted by { assert !KeyExists(s.preps, s.train, PrepKey(a.id)); }
      PrepInsertProcess(s, s', t, a, now);
      InsertPrepDurable(c, s, a, now);
    }
  }

  lemma InsertPrepDurable(c: Config, s: State, a: P.Attempt, now: real)
    requires DurableOk(c, s) && a.id !in s.preps.rows && P.FreshAttempt(a)
    ensures SubmittedOk(P.Insert(s.preps, a, now), s.train, s.submitted)
    ensures Prepared(P.Insert(s.preps, a, now), s.train)
  {
  }

  lemma NextPrepOk(p: P.Table, d: J.Tables, submitted: multiset<Key>, th: Thread, a: P.Attempt, next: Thread)
    requires ThreadOk(p, d, submitted, th) && IsPrep(th) && P.SameIdentity(a, th.a)
    requires a.id in p.rows && a.tenant == p.rows[a.id].tenant
    requires !next.Finished? ==> IsPrep(next) && next.a == a && P.Live(a.state)
    requires KeyOf(next) == Some(PrepKey(a.id)) && !Issued(next)
    requires Unsubmitted(next) ==> Unsubmitted(th) && a.remote == th.a.remote
    ensures ThreadOk(P.Put(p, a).value, d, submitted, next)
  {
  }

  /** The owner of an attempt writes it and goes on. */
  lemma OwnerWritesPrep(c: Config, s: State, t: nat, a: P.Attempt, next: Thread)
    requires Inv(c, s) && t in s.threads && IsPrep(s.threads[t])
    requires P.SameIdentity(a, s.threads[t].a) && P.WellShaped(a)
    requires next.Finished? ==> !P.Live(a.state)
    requires !next.Finished? ==> IsPrep(next) && next.a == a && P.Live(a.state)
    requires KeyOf(next) == Some(PrepKey(a.id)) && !Issued(next)
    requires Handler(next) == Handler(s.threads[t]) && (Unsubmitted(next) ==> Unsubmitted(s.threads[t]))
    requires a.remote == s.threads[t].a.remote
      || (s.threads[t].PrepIssued? && a.remote == Truthy(s.threads[t].remoteId))
    ensures Inv(c, Become(WritePrep(s, a), t, next)) && Grows(s, Become(WritePrep(s, a), t, next))
  {
    PrepOwner(c, s, t);
    hide DurableOk, ProcessOk, Grows;
    PrepWriteDurable(c, s, a);
    NextPrepOk(s.preps, s.train, s.submitted, s.threads[t], a, next);
    hide ThreadOk;
    var s' := Become(WritePrep(s, a), t, next);
    PrepWriteProcess(s, s', t, a, next);
    DurableFrame(c, WritePrep(s, a), s');
    PrepWriteGrows(s, s', a);
  }

  lemma DurableFrame(c: Config, s: State, s': State)
    requires DurableOk(c, s)
    requires s'.preps == s.preps && s'.train == s.train && s'.submitted == s.submitted
    requires s'.replies == s.replies && s'.faults == s.faults
    ensures DurableOk(c, s')
  {
  }

  lemma KeepsDescribeInputs(c: Config, s: State, s': State, t: nat, manifest: string)
    requires Inv(c, s) && DoDescribeInputs(s, t, manifest) == Some(s')
    ensures Inv(c, s') && Grows(s, s')
  {
    PrepOwner(c, s, t);
    hide Inv, Grows;
    var a := s.threads[t].a.(manifest := Some(manifest));
    OwnerWritesPrep(c, s, t, a, PrepDescribed(a));
  }

  lemma KeepsInputsRefused(c: Config, s: State, s': State, t: nat)
    requires Inv(c, s) && DoInputsRefused(c, s, t) == Some(s')
    ensures Inv(c, s') && Grows(s, s')
  {
    PrepOwner(c, s, t);
    hide DurableOk, ProcessOk, Grows;
    var a := FailedAttempt(s.threads[t].a, P.InputPublication);
    PrepWriteDurable(c, s, a);
    PrepHandlerEnds(s, s', t, a);
    DurableFrame(c, WritePrep(s, a), s');
    PrepWriteGrows(s, s', a);
  }

  lemma KeepsLaunchPreparation(c: Config, s: State, s': State, t: nat, worker: nat)
    requires Inv(c, s) && DoLaunchPreparation(s, t, worker) == Some(s')
    ensures Inv(c, s') && Grows(s, s')
  {
    PrepOwner(c, s, t);
    HandOff(s, t, worker, PrepSubmitting(s.threads[t].a));
  }

  lemma KeepsSubmitPrep(c: Config, s: State, s': State, t: nat, submission: Submission)
    requires Inv(c, s) && DoSubmitPrep(s, t, submission) == Some(s')
    ensures Inv(c, s') && Grows(s, s')
  {
    hide Inv, Grows;
    var a := s.threads[t].a;
    match submission
    case Invalid => PrepMoves(c, s, t, PrepFailing(a, P.Submission), false);
    case Raised => PrepMoves(c, s, t, PrepFailing(a, P.Submission), true);
    case Accepted(id) => PrepMoves(c, s, t, PrepIssued(a, id), true);
  }

  lemma KeepsRecordPrep(c: Config, s: State, s': State, t: nat)
    requires Inv(c, s) && DoRecordPrep(s, t) == Some(s')
    ensures Inv(c, s') && Grows(s, s')
  {
    hide Inv, Grows, WritePrep;
    PrepOwner(c, s, t);
    var a := s.threads[t].a.(state := P.Preparing, phase := P.Starting, remote := Truthy(s.threads[t].remoteId));
    OwnerWritesPrep(c, s, t, a, PrepPolling(a));
  }

  lemma ProgressWrites(c: Config, s: State, t: nat)
    requires Inv(c, s) && t in s.threads && s.threads[t].PrepPolling?
    ensures var a := s.threads[t].a.(state := P.Preparing, phase := P.Execution);
      var s' := Become(WritePrep(s, a), t, PrepPolling(a));
      Inv(c, s') && Grows(s, s')
  {
    hide Inv, Grows, WritePrep;
    PrepOwner(c, s, t);
    var a := s.threads[t].a.(state := P.Preparing, phase := P.Execution);
    OwnerWritesPrep(c, s, t, a, PrepPolling(a));
  }

  lemma KeepsPollPrep(c: Config, s: State, s': State, t: nat, poll: Poll)
    requires Inv(c, s) && DoPollPrep(c, s, t, poll) == Some(s')
    ensures Inv(c, s') && Grows(s, s')
  {
    hide Inv, Grows, MapNebiusState, WritePrep;
    var a := s.threads[t].a;
    match poll
    case Deadline => PrepMoves(c, s, t, PrepFailing(a, P.Execution), false);
    case Unreadable => SameGrows(s, s');
    case Says(raw) =>
      match MapNebiusState(raw)
      case None => SameGrows(s, s');
      case Some(status) =>
        if status.Failed? {
          PrepMoves(c, s, t, PrepFailing(a, P.Execution), false);
        } else if status.Completed? {
          PrepMoves(c, s, t, if c.storage then PrepReporting(a, c.prepAttempts) else PrepFailing(a, P.Finalization), false);
        } else {
          ProgressWrites(c, s, t);
        }
  }

  /** A matching report settles the attempt. */
  lemma ReportWrites(c: Config, s: State, t: nat, accepted: bool, phase: string)
    requires Inv(c, s) && t in s.threads && s.threads[t].PrepReporting?
    ensures var a := s.threads[t].a;
      var a' := if accepted
                then a.(state := P.Accepted, phase := P.Done, reportReady := true, canRetry := false)
                else a.(state := P.Failed, phase := P.Reported(phase), reportReady := true, canRetry := true);
      var s' := Become(WritePrep(s, a'), t, Finished(PrepKey(a.id)));
      Inv(c, s') && Grows(s, s')
  {
    hide Inv, Grows, WritePrep;
    var a := s.threads[t].a;
    if accepted {
      OwnerWritesPrep(c, s, t, a.(state := P.Accepted, phase := P.Done, reportReady := true, canRetry := false),
        Finished(PrepKey(a.id)));
    } else {
      OwnerWritesPrep(c, s, t,
        a.(state := P.Failed, phase := P.Reported(phase), reportReady := true, canRetry := true),
        Finished(PrepKey(a.id)));
    }
  }

  lemma KeepsReadReport(c: Config, s: State, s': State, t: nat, read: ReportRead)
    requires Inv(c, s) && DoReadReport(s, t, read) == Some(s')
    ensures Inv(c, s') && Grows(s, s')
  {
    hide Inv, Grows, WritePrep;
    var a, left := s.threads[t].a, s.threads[t].left;
    if left == 0 {
      PrepMoves(c, s, t, PrepFailing(a, P.Finalization), false);
    } else {
      match read
      case ReportMissing => PrepMoves(c, s, t, PrepReporting(a, left - 1), false);
      case Report(fingerprint, accepted, phase) =>
        if fingerprint != a.fingerprint {
          PrepMoves(c, s, t, PrepFailing(a, P.Finalization), false);
        } else {
          ReportWrites(c, s, t, accepted, phase);
        }
    }
  }

  lemma KeepsFailPrep(c: Config, s: State, s': State, t: nat)
    requires Inv(c, s) && DoFailPrep(s, t) == Some(s')
    ensures Inv(c, s') && Grows(s, s')
  {
    hide Inv, Grows, WritePrep;
    PrepOwner(c, s, t);
    var a := FailedAttempt(s.threads[t].a, s.threads[t].why);
    OwnerWritesPrep(c, s, t, a, Finished(PrepKey(a.id)));
  }

  // ----- training events

  lemma KeepsRequestStart(c: Config, s: State, s': State, t: nat, tenant: string, setup: string, fingerprint: string)
    requires Inv(c, s) && DoRequestStart(s, t, tenant, setup, fingerprint) == Some(s')
    ensures Inv(c, s') && Grows(s, s')
  {
    if s' != s {
      StartAllowedProcess(s, t, StartGate(s.preps, tenant, setup, fingerprint).value);
    }
  }

  lemma KeepsReserveStart(c: Config, s: State, s': State, t: nat, id: Id, key: string, checked: real, now: real)
    requires Inv(c, s) && DoReserveStart(c, s, t, id, key, checked, now) == Some(s')
    ensures Inv(c, s') && Grows(s, s')
  {
    var job := NewJob(id, s.threads[t].prep);
    var k := J.RequestKey(job.tenant, job.setup, key);
    var (outcome, tables) := J.Reserve(s.train, job, job.setup, key, c.maxJobs, c.maxDaily, checked, now);
    ReserveFacts(c, s, t, id, key, checked, now);
    hide DurableOk, Grows, J.TablesOk;
    if outcome.Created? {
      JobInsertProcess(s, s', t, job, k, now);
      InsertJobDurable(c, s, s', job, k, now);
    } else {
      UnkeyedEnds(s, t);
      hide ProcessOk;
      ReplayDurable(c, s, s', k, if outcome.Replayed? then outcome.job.id else "");
    }
  }

  lemma StartFacts(c: Config, s: State, t: nat, id: Id)
    requires Inv(c, s) && t in s.threads && s.threads[t].StartAllowed?
    ensures J.TablesOk(s.train, c.maxJobs, c.maxDaily) && s.boot.Up?
    ensures var prep := s.threads[t].prep; AcceptedRow(s.preps, prep.id, prep.tenant, prep.setup, prep.fingerprint)
    ensures id !in s.train.jobs ==> JobKey(id) !in s.submitted
  {
    assert ThreadOk(s.preps, s.train, s.submitted, s.threads[t]);
    assert KeyExists(s.preps, s.train, JobKey(id)) <==> id in s.train.jobs;
  }

  lemma ReserveFacts(c: Config, s: State, t: nat, id: Id, key: string, checked: real, now: real)
    requires Inv(c, s) && t in s.threads && s.threads[t].StartAllowed? && checked <= now
    ensures var prep := s.threads[t].prep;
      var job := NewJob(id, prep);
      var k := J.RequestKey(job.tenant, job.setup, key);
      var (outcome, tables) := J.Reserve(s.train, job, job.setup, key, c.maxJobs, c.maxDaily, checked, now);
      && J.TablesOk(tables, c.maxJobs, c.maxDaily) && !outcome.Orphaned? && s.boot.Up?
      && AcceptedRow(s.preps, prep.id, prep.tenant, prep.setup, prep.fingerprint)
      && (outcome.Replayed? ==> k in s.train.requests && s.train.requests[k].jobId == outcome.job.id)
      && (outcome.Created? ==> tables == J.Insert(s.train, job, k, now) && k !in s.train.requests)
      && (outcome.Created? ==> id !in s.train.jobs && JobKey(id) !in s.submitted)
  {
    var job := NewJob(id, s.threads[t].prep);
    StartFacts(c, s, t, id);
    hide Inv, J.Reserve;
    J.ReserveKeepsTables(s.train, job, key, c.maxJobs, c.maxDaily, checked, now);
    J.ReserveMeaning(s.train, job, key, c.maxJobs, c.maxDaily, checked, now);
    hide J.TablesOk;
  }

  lemma ReplayDurable(c: Config, s: State, s': State, k: J.RequestKey, id: Id)
    requires DurableOk(c, s) && s'.preps == s.preps && s'.train == s.train && s'.submitted == s.submitted
    requires s'.faults == s.faults
    requires s'.replies == s.replies || (s'.replies == s.replies + [Reply(k, id, false)]
               && k in s.train.requests && s.train.requests[k].jobId == id)
    ensures DurableOk(c, s') && Grows(s, s')
  {
    hide P.TableOk, J.TablesOk, SubmittedOk, Prepared;
    if s'.replies != s.replies {
      ReplayReplies(s.train, s.replies, k, id);
    }
    hide RepliesOk;
  }

  lemma ReplayReplies(d: J.Tables, replies: seq<Reply>, k: J.RequestKey, id: Id)
    requires RepliesOk(d, replies) && k in d.requests && d.requests[k].jobId == id
    ensures RepliesOk(d, replies + [Reply(k, id, false)])
  {
    var replies' := replies + [Reply(k, id, false)];
    forall l | l in d.requests
      ensures exists i :: 0 <= i < |replies'| && replies'[i].created && replies'[i].request == l
    {
      var i :| 0 <= i < |replies| && replies[i].created && replies[i].request == l;
      assert replies'[i] == replies[i];
    }
  }

  lemma InsertJobDurable(c: Config, s: State, s': State, job: J.Job, k: J.RequestKey, now: real)
    requires DurableOk(c, s) && job.id !in s.train.jobs && k !in s.train.requests && job.remote.None?
    requires AcceptedRow(s.preps, job.prepId, job.tenant, job.setup, job.prepFingerprint)
    requires J.TablesOk(J.Insert(s.train, job, k, now), c.maxJobs, c.maxDaily)
    requires s'.preps == s.preps && s'.submitted == s.submitted && s'.faults == s.faults
    requires s'.train == J.Insert(s.train, job, k, now) && s'.replies == s.replies + [Reply(k, job.id, true)]
    ensures DurableOk(c, s') && Grows(s, s')
  {
    hide P.TableOk, J.TablesOk, RepliesOk, SubmittedOk, Prepared, PrepsGrow, JobsGrow;
    InsertReplies(s.train, s.replies, job, k, now);
    InsertLinks(s.preps, s.train, s.submitted, job, k, now);
  }

  lemma InsertLinks(p: P.Table, d: J.Tables, submitted: multiset<Key>, job: J.Job, k: J.RequestKey, now: real)
    requires SubmittedOk(p, d, submitted) && Prepared(p, d)
    requires job.id !in d.jobs && k !in d.requests && job.remote.None?
    requires AcceptedRow(p, job.prepId, job.tenant, job.setup, job.prepFingerprint)
    ensures SubmittedOk(p, J.Insert(d, job, k, now), submitted) && Prepared(p, J.Insert(d, job, k, now))
    ensures PrepsGrow(p, p) && JobsGrow(d, J.Insert(d, job, k, now))
  {
  }

  lemma InsertReplies(d: J.Tables, replies: seq<Reply>, job: J.Job, k: J.RequestKey, now: real)
    requires RepliesOk(d, replies) && k !in d.requests
    ensures RepliesOk(J.Insert(d, job, k, now), replies + [Reply(k, job.id, true)])
  {
    var replies' := replies + [Reply(k, job.id, true)];
    var d' := J.Insert(d, job, k, now);
    forall l | l in d'.requests
      ensures exists i :: 0 <= i < |replies'| && replies'[i].created && replies'[i].request == l
    {
      if l == k {
        assert replies'[|replies|].created && replies'[|replies|].request == l;
      } else {
        var i :| 0 <= i < |replies| && replies[i].created && replies[i].request == l;
        assert replies'[i] == replies[i];
      }
    }
  }

  lemma NextJobOk(p: P.Table, d: J.Tables, submitted: multiset<Key>, th: Thread, j: J.Job, next: Thread)
    requires ThreadOk(p, d, submitted, th) && IsJob(th) && J.SameIdentity(j, th.j)
    requires !next.Finished? ==> IsJob(next) && next.j == j
    requires next.JobFailing? ==> !j.status.Completed?
    requires !next.Finished? && !next.JobFailing? ==> !J.Terminal(j.status)
    requires !next.JobPublishing? && !Unsubmitted(next)
    requires KeyOf(next) == Some(JobKey(j.id)) && !Issued(next)
    ensures ThreadOk(p, J.Put(d, j), submitted, next)
  {
  }

  /** The owner of a job writes it and goes on. */
  lemma OwnerWritesJob(c: Config, s: State, t: nat, j: J.Job, next: Thread)
    requires Inv(c, s) && t in s.threads && IsJob(s.threads[t])
    requires J.SameIdentity(j, s.threads[t].j) && J.JobOk(s.train, j.id, j)
    requires s.threads[t].j.status.Failed? ==> j.status.Failed?
    requires next.Finished? ==> J.Terminal(j.status)
    requires !next.Finished? ==> IsJob(next) && next.j == j
    requires next.JobFailing? ==> !j.status.Completed?
    requires !next.Finished? && !next.JobFailing? ==> !J.Terminal(j.status)
    requires !next.JobPublishing? && !Unsubmitted(next)
    requires KeyOf(next) == Some(JobKey(j.id)) && !Issued(next)
    requires Handler(next) == Handler(s.threads[t])
    requires j.remote == s.threads[t].j.remote
      || (s.threads[t].JobIssued? && j.remote == Truthy(s.threads[t].remoteId))
    ensures Inv(c, Become(WriteJob(s, j), t, next)) && Grows(s, Become(WriteJob(s, j), t, next))
  {
    JobOwner(c, s, t);
    hide DurableOk, ProcessOk, Grows;
    NextJobOk(s.preps, s.train, s.submitted, s.threads[t], j, next);
    hide ThreadOk;
    JobWriteDurable(c, s, j);
    var s' := Become(WriteJob(s, j), t, next);
    JobWriteProcess(s, s', t, j, next);
    DurableFrame(c, WriteJob(s, j), s');
    JobWriteGrows(s, s', j);
  }

  lemma KeepsSnapshotRefused(c: Config, s: State, s': State, t: nat)
    requires Inv(c, s) && DoSnapshotRefused(c, s, t) == Some(s')
    ensures Inv(c, s') && Grows(s, s')
  {
    JobOwner(c, s, t);
    hide DurableOk, ProcessOk, Grows;
    var j := FailedJob(s.threads[t].j, J.InputPublication);
    JobWriteDurable(c, s, j);
    JobHandlerEnds(s, s', t, j);
    DurableFrame(c, WriteJob(s, j), s');
    JobWriteGrows(s, s', j);
  }

  lemma KeepsLaunchStart(c: Config, s: State, s': State, t: nat, worker: nat)
    requires Inv(c, s) && DoLaunchStart(s, t, worker) == Some(s')
    ensures Inv(c, s') && Grows(s, s')
  {
    JobOwner(c, s, t);
    HandOff(s, t, worker, JobSubmitting(s.threads[t].j));
  }

  lemma KeepsSubmitJob(c: Config, s: State, s': State, t: nat, submission: Submission)
    requires Inv(c, s) && DoSubmitJob(s, t, submission) == Some(s')
    ensures Inv(c, s') && Grows(s, s')
  {
    hide Inv, Grows;
    var j := s.threads[t].j;
    match submission
    case Invalid => JobMoves(c, s, t, JobFailing(j, J.Submission), false);
    case Raised => JobMoves(c, s, t, JobFailing(j, J.Submission), true);
    case Accepted(id) => JobMoves(c, s, t, JobIssued(j, id), true);
  }

  lemma KeepsRecordJob(c: Config, s: State, s': State, t: nat)
    requires Inv(c, s) && DoRecordJob(s, t) == Some(s')
    ensures Inv(c, s') && Grows(s, s')
  {
    hide Inv, Grows, WriteJob;
    JobUnfinished(c, s, t);
    var j := s.threads[t].j.(remote := Truthy(s.threads[t].remoteId), status := J.Starting);
    OwnerWritesJob(c, s, t, j, JobPolling(j));
  }

  lemma FinalizingWrites(c: Config, s: State, t: nat)
    requires Inv(c, s) && t in s.threads && s.threads[t].JobPolling?
    ensures var j := s.threads[t].j.(status := J.Finalizing, phase := J.Finalization, artifactsReady := false);
      var s' := Become(WriteJob(s, j), t, JobFinalizing(j, c.jobAttempts));
      Inv(c, s') && Grows(s, s')
  {
    hide Inv, Grows, WriteJob;
    JobUnfinished(c, s, t);
    var j := s.threads[t].j.(status := J.Finalizing, phase := J.Finalization, artifactsReady := false);
    OwnerWritesJob(c, s, t, j, JobFinalizing(j, c.jobAttempts));
  }

  lemma StatusWrites(c: Config, s: State, t: nat, status: J.Status)
    requires Inv(c, s) && t in s.threads && s.threads[t].JobPolling? && !J.Terminal(status)
    ensures var j := s.threads[t].j.(status := status);
      var s' := Become(WriteJob(s, j), t, JobPolling(j));
      Inv(c, s') && Grows(s, s')
  {
    hide Inv, Grows, WriteJob;
    var j := s.threads[t].j.(status := status);
    JobUnfinished(c, s, t);
    OwnerWritesJob(c, s, t, j, JobPolling(j));
  }

  /** A remote failure is written here and once more by _fail. */
  lemma FailureWrites(c: Config, s: State, t: nat)
    requires Inv(c, s) && t in s.threads && s.threads[t].JobPolling?
    ensures var j := s.threads[t].j.(status := J.Failed);
      var s' := Become(WriteJob(s, j), t, JobFailing(j, J.InTraining));
      Inv(c, s') && Grows(s, s')
  {
    hide Inv, Grows, WriteJob;
    var j := s.threads[t].j.(status := J.Failed);
    OwnerWritesJob(c, s, t, j, JobFailing(j, J.InTraining));
  }

  lemma KeepsPollJob(c: Config, s: State, s': State, t: nat, poll: Poll)
    requires Inv(c, s) && DoPollJob(c, s, t, poll) == Some(s')
    ensures Inv(c, s') && Grows(s, s')
  {
    hide Inv, Grows, MapNebiusState, WriteJob;
    var j := s.threads[t].j;
    match poll
    case Deadline => JobMoves(c, s, t, JobFailing(j, if j.phase.Unset? then J.InTraining else j.phase), false);
    case Unreadable => SameGrows(s, s');
    case Says(raw) =>
      match MapNebiusState(raw)
      case None => SameGrows(s, s');
      case Some(status) =>
        if status == j.status {
          SameGrows(s, s');
        } else if status.Completed? {
          FinalizingWrites(c, s, t);
        } else if status.Failed? {
          FailureWrites(c, s, t);
        } else {
          StatusWrites(c, s, t, status);
        }
  }

  lemma KeepsReadManifest(c: Config, s: State, s': State, t: nat, read: ManifestRead)
    requires Inv(c, s) && DoReadManifest(s, t, read) == Some(s')
    ensures Inv(c, s') && Grows(s, s')
  {
    hide Inv, Grows;
    var j, left := s.threads[t].j, s.threads[t].left;
    if left > 0 && read.Manifest? {
      StoreArtifacts(c, s, j.id, read.manifest);
      var stored := s.(train := J.SetArtifacts(s.train, j.id, read.manifest));
      JobMoves(c, stored, t, JobPublishing(j), false);
      GrowsTransitive(s, stored, s');
    } else if left > 0 && read.ManifestMissing? {
      JobMoves(c, s, t, JobFinalizing(j, left - 1), false);
    } else if left > 0 && read.ManifestInvalid? {
      JobMoves(c, s, t, JobFailing(j, J.ArtifactValidation), false);
    } else {
      JobMoves(c, s, t, JobFailing(j, J.Finalization), false);
    }
  }

  lemma StoreArtifacts(c: Config, s: State, id: Id, manifest: string)
    requires Inv(c, s)
    ensures Inv(c, s.(train := J.SetArtifacts(s.train, id, manifest)))
    ensures Grows(s, s.(train := J.SetArtifacts(s.train, id, manifest)))
  {
    J.SetArtifactsKeepsTables(s.train, id, manifest, c.maxJobs, c.maxDaily);
    ArtifactsProcess(s, id, manifest);
  }

  lemma KeepsPublishJob(c: Config, s: State, s': State, t: nat)
    requires Inv(c, s) && DoPublishJob(s, t) == Some(s')
    ensures Inv(c, s') && Grows(s, s')
  {
    hide Inv, Grows, WriteJob;
    JobUnfinished(c, s, t);
    var j := s.threads[t].j.(status := J.Completed, phase := J.Done, artifactsReady := true);
    OwnerWritesJob(c, s, t, j, Finished(JobKey(j.id)));
  }

  lemma KeepsFailJob(c: Config, s: State, s': State, t: nat)
    requires Inv(c, s) && DoFailJob(s, t) == Some(s')
    ensures Inv(c, s') && Grows(s, s')
  {
    hide Inv, Grows, WriteJob;
    JobNotCompleted(c, s, t);
    var j := FailedJob(s.threads[t].j, s.threads[t].reason);
    OwnerWritesJob(c, s, t, j, Finished(JobKey(j.id)));
  }

  // ----- process events

  lemma KeepsRetire(c: Config, s: State, s': State, t: nat)
    requires Inv(c, s) && DoRetire(s, t) == Some(s')
    ensures Inv(c, s') && Grows(s, s')
  {
    RetireProcess(s, t);
  }

  lemma KeepsDie(c: Config, s: State, s': State, t: nat)
    requires Inv(c, s) && DoDie(s, t) == Some(s')
    ensures Inv(c, s') && Grows(s, s')
  {
    if s.threads[t].StartAllowed? {
      UnkeyedEnds(s, t);
    } else if Handler(s.threads[t]) {
      DieHandler(s, t);
    } else {
      DieWorker(s, t);
    }
  }

  lemma KeepsCrash(c: Config, s: State, s': State)
    requires Inv(c, s) && DoCrash(s) == Some(s')
    ensures Inv(c, s') && Grows(s, s')
  {
  }

  lemma KeepsStartUp(c: Config, s: State, s': State)
    requires Inv(c, s) && DoStartUp(s) == Some(s')
    ensures Inv(c, s') && Grows(s, s')
  {
    StartUpProcess(s);
  }

  lemma ResumedJob(c: Config, s: State, id: Id)
    requires Inv(c, s) && s.boot.ResumingJobs? && id in s.boot.jobs
    ensures s.boot.jobs[id].id == id && JobShadow(s.train, s.boot.jobs[id])
    ensures RemoteKnown(s.submitted, JobKey(id), s.boot.jobs[id].remote)
    ensures BootHolds(s.boot, JobKey(id))
  {
  }

  lemma ResumedPrep(c: Config, s: State, id: Id)
    requires Inv(c, s) && s.boot.ResumingPreps? && id in s.boot.preps
    ensures s.boot.preps[id].id == id && PrepShadow(s.preps, s.boot.preps[id])
    ensures P.RowOk(id, s.preps.rows[id])
    ensures RemoteKnown(s.submitted, PrepKey(id), s.boot.preps[id].remote)
    ensures BootHolds(s.boot, PrepKey(id))
  {
  }

  lemma ResumeJobInterrupted(c: Config, s: State, s': State, id: Id)
    requires Inv(c, s) && s.boot.ResumingJobs? && id in s.boot.jobs
    requires var failed := FailedJob(s.boot.jobs[id], J.Submission);
      s' == WriteJob(s.(boot := ResumingJobs(s.boot.jobs - {id})), failed)
    ensures Inv(c, s') && Grows(s, s')
  {
    hide DurableOk, ProcessOk, Grows;
    ResumedJob(c, s, id);
    var failed := FailedJob(s.boot.jobs[id], J.Submission);
    ResumeJobFails(s, id, failed);
    JobWriteDurable(c, s, failed);
    DurableFrame(c, WriteJob(s, failed), s');
    JobWriteGrows(s, s', failed);
  }

  lemma KeepsResumeJob(c: Config, s: State, s': State, id: Id, worker: nat)
    requires Inv(c, s) && DoResumeJob(s, id, worker) == Some(s')
    ensures Inv(c, s') && Grows(s, s')
  {
    hide DurableOk, ProcessOk, Grows;
    var j := s.boot.jobs[id];
    if j.remote.None? {
      ResumeJobInterrupted(c, s, s', id);
    } else {
      ResumedJob(c, s, id);
      ResumeSpawns(s, ResumingJobs(s.boot.jobs - {id}), worker, JobPolling(j));
      DurableFrame(c, s, s');
      SameGrows(s, s');
    }
  }

  lemma KeepsJobsResumed(c: Config, s: State, s': State)
    requires Inv(c, s) && DoJobsResumed(s) == Some(s')
    ensures Inv(c, s') && Grows(s, s')
  {
    JobsResumedProcess(s);
  }

  lemma ResumePrepInterrupted(c: Config, s: State, s': State, id: Id)
    requires Inv(c, s) && s.boot.ResumingPreps? && id in s.boot.preps
    requires var failed := FailedAttempt(s.boot.preps[id], P.Submission);
      s' == WritePrep(s.(boot := ResumingPreps(s.boot.preps - {id})), failed)
    ensures Inv(c, s') && Grows(s, s')
  {
    hide DurableOk, ProcessOk, Grows;
    ResumedPrep(c, s, id);
    var failed := FailedAttempt(s.boot.preps[id], P.Submission);
    ResumePrepFails(s, id, failed);
    PrepWriteDurable(c, s, failed);
    DurableFrame(c, WritePrep(s, failed), s');
    PrepWriteGrows(s, s', failed);
  }

  lemma KeepsResumePrep(c: Config, s: State, s': State, id: Id, worker: nat)
    requires Inv(c, s) && DoResumePrep(s, id, worker) == Some(s')
    ensures Inv(c, s') && Grows(s, s')
  {
    hide DurableOk, ProcessOk, Grows, WritePrep;
    var a := s.boot.preps[id];
    if a.remote.None? {
      ResumePrepInterrupted(c, s, s', id);
    } else {
      ResumedPrep(c, s, id);
      ResumeSpawns(s, ResumingPreps(s.boot.preps - {id}), worker, PrepPolling(a));
      DurableFrame(c, s, s');
      SameGrows(s, s');
    }
  }

  lemma KeepsBootDone(c: Config, s: State, s': State)
    requires Inv(c, s) && DoBootDone(s) == Some(s')
    ensures Inv(c, s') && Grows(s, s')
  {
  }

  // ----- every event

  lemma Keeps(c: Config, s: State, e: Event, s': State)
    requires Inv(c, s) && Apply(c, s, e) == Some(s')
    ensures Inv(c, s') && Grows(s, s')
  {
    hide Inv, Grows, DoRequestPreparation, DoDescribeInputs, DoInputsRefused, DoLaunchPreparation, DoSubmitPrep, DoRecordPrep,
      DoPollPrep, DoReadReport, DoFailPrep, DoRequestStart, DoReserveStart, DoSnapshotRefused, DoLaunchStart, DoSubmitJob,
      DoRecordJob, DoPollJob, DoReadManifest, DoPublishJob, DoFailJob, DoRetire, DoDie, DoCrash, DoStartUp, DoResumeJob,
      DoJobsResumed, DoResumePrep, DoBootDone;
    match e
    case RequestPreparation(t, a, retry, now) => KeepsRequestPreparation(c, s, s', t, a, retry, now);
    case DescribeInputs(t, manifest) => KeepsDescribeInputs(c, s, s', t, manifest);
    case InputsRefused(t) => KeepsInputsRefused(c, s, s', t);
    case LaunchPreparation(t, worker) => KeepsLaunchPreparation(c, s, s', t, worker);
    case SubmitPrep(t, submission) => KeepsSubmitPrep(c, s, s', t, submission);
    case RecordPrep(t) => KeepsRecordPrep(c, s, s', t);
    case PollPrep(t, poll) => KeepsPollPrep(c, s, s', t, poll);
    case ReadReport(t, report) => KeepsReadReport(c, s, s', t, report);
    case FailPrep(t) => KeepsFailPrep(c, s, s', t);
    case RequestStart(t, tenant, setup, fingerprint) => KeepsRequestStart(c, s, s', t, tenant, setup, fingerprint);
    case ReserveStart(t, id, key, checked, now) => KeepsReserveStart(c, s, s', t, id, key, checked, now);
    case SnapshotRefused(t) => KeepsSnapshotRefused(c, s, s', t);
    case LaunchStart(t, worker) => KeepsLaunchStart(c, s, s', t, worker);
    case SubmitJob(t, submission) => KeepsSubmitJob(c, s, s', t, submission);
    case RecordJob(t) => KeepsRecordJob(c, s, s', t);
    case PollJob(t, poll) => KeepsPollJob(c, s, s', t, poll);
    case ReadManifest(t, read) => KeepsReadManifest(c, s, s', t, read);
    case PublishJob(t) => KeepsPublishJob(c, s, s', t);
    case FailJob(t) => KeepsFailJob(c, s, s', t);
    case RefreshArtifacts(id, manifest) => StoreArtifacts(c, s, id, manifest);
    case Retire(t) => KeepsRetire(c, s, s', t);
    case Die(t) => KeepsDie(c, s, s', t);
    case Crash => KeepsCrash(c, s, s');
    case StartUp => KeepsStartUp(c, s, s');
    case ResumeJob(id, worker) => KeepsResumeJob(c, s, s', id, worker);
    case JobsResumed => KeepsJobsResumed(c, s, s');
    case ResumePrep(id, worker) => KeepsResumePrep(c, s, s', id, worker);
    case BootDone => KeepsBootDone(c, s, s');
  }
}
