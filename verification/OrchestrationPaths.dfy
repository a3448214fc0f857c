/**
 What the process can do, beside what it cannot: from any state it can drive a fresh attempt
 to acceptance and an accepted setup to a completed job, and these steps change nothing else.
 */
module OrchestrationPaths {
  import opened Wrappers
  import P = Preparations
  import J = TrainingJobs
  import opened Orchestration
  import opened OrchestrationInvariant
  import opened OrchestrationProof

  /** A stretch of history. */
  ghost predicate Path(c: Config, ss: seq<State>, es: seq<Event>) {
    && |ss| == |es| + 1
    && forall i :: 0 <= i < |es| ==> P.Listed(ss[i].preps) && Apply(c, ss[i], es[i]) == Some(ss[i + 1])
  }

  lemma Extend(c: Config, ss: seq<State>, es: seq<Event>, e: Event, s': State) returns (ss': seq<State>, es': seq<Event>)
    requires Path(c, ss, es) && Inv(c, ss[|es|]) && P.Listed(ss[|es|].preps) && Apply(c, ss[|es|], e) == Some(s')
    ensures ss' == ss + [s'] && es' == es + [e] && Path(c, ss', es')
    ensures Inv(c, s') && P.Listed(s'.preps)
  {
    hide Apply, Inv, P.Listed;
    ss', es' := ss + [s'], es + [e];
    Keeps(c, ss[|es|], e, s');
    InvListed(c, s');
    forall i | 0 <= i < |es'| ensures P.Listed(ss'[i].preps) && Apply(c, ss'[i], es'[i]) == Some(ss'[i + 1]) {
      if i < |es| { assert ss'[i] == ss[i] && ss'[i + 1] == ss[i + 1] && es'[i] == es[i]; }
    }
  }

  lemma InvListed(c: Config, s: State)
    requires Inv(c, s)
    ensures P.Listed(s.preps)
  {
  }

  /** A record with a worker exists. */
  lemma ActiveExists(c: Config, s: State, key: Key)
    requires Inv(c, s) && key in s.active
    ensures KeyExists(s.preps, s.train, key)
  {
    assert Working(s.threads, key);
    var t :| t in s.threads && !Handler(s.threads[t]) && KeyOf(s.threads[t]) == Some(key);
    assert ThreadOk(s.preps, s.train, s.submitted, s.threads[t]);
  }

  /** The document of an attempt that went the whole way. */
  function AcceptedAttempt(a: P.Attempt, manifest: string, remoteId: string): P.Attempt {
    a.(manifest := Some(manifest), state := P.Accepted, phase := P.Done, remote := Truthy(remoteId),
       reportReady := true, canRetry := false)
  }

  /**
   A reserved attempt can be driven to acceptance: eight steps, one create_job, and in the
   end the one new row is all that differs.
   */
  lemma AttemptCanBeAccepted(c: Config, s: State, t: nat, worker: nat, a: P.Attempt, retry: bool, now: real,
                             manifest: string, remoteId: string, raw: string)
    returns (ss: seq<State>, es: seq<Event>)
    requires Inv(c, s) && P.Listed(s.preps) && s.boot.Up? && t !in s.threads && worker !in s.threads && t != worker
    requires c.storage && c.prepAttempts > 0 && NewAttempt(a) && MapNebiusState(raw) == Some(J.Completed)
    requires P.Reserve(s.preps, a, c.maxPreps, retry, now).0.Created?
    ensures Path(c, ss, es) && |es| == 8 && ss[0] == s
    ensures ss[8] == s.(
      preps := P.Table(s.preps.rows[a.id := P.Row(a.tenant, a.setup, a.fingerprint, P.Accepted, now,
                                                  AcceptedAttempt(a, manifest, remoteId))], s.preps.order + [a.id]),
      submitted := s.submitted + multiset{PrepKey(a.id)})
  {
    hide Inv, P.Listed, MapNebiusState, Apply, P.Reserve, P.Put, P.Insert;
    assert a.id !in s.preps.rows && PrepKey(a.id) !in s.active by { ReservedIsNew(c, s, a, retry, now); }
    var a1, a3 := a.(manifest := Some(manifest)), AcceptedAttempt(a, manifest, remoteId);
    var a2 := a3.(state := P.Preparing, phase := P.Starting, reportReady := false, canRetry := false);
    ss, es := PrepLaunches(c, s, t, worker, a, retry, now, manifest);
    var s3 := ss[3];
    ss, es := PrepSubmits(c, ss, es, worker, a1, remoteId);
    var s5 := ss[5];
    ss, es := PrepReports(c, ss, es, worker, a2, raw);
    assert a2 == a1.(state := P.Preparing, phase := P.Starting, remote := Truthy(remoteId));
    PrepRowWritten(s.preps, a, now, a1, a2, a3);
    assert ss[8].threads == s.threads && ss[8].active == s.active;
  }

  /** Three writes by the attempt's own worker leave one row, with the last document. */
  lemma PrepRowWritten(p: P.Table, a: P.Attempt, now: real, a1: P.Attempt, a2: P.Attempt, a3: P.Attempt)
    requires a.id == a1.id == a2.id == a3.id && a.tenant == a1.tenant == a2.tenant == a3.tenant
    ensures P.Put(P.Insert(p, a, now), a1).Some?
    ensures P.Put(P.Put(P.Insert(p, a, now), a1).value, a2).Some?
    ensures P.Put(P.Put(P.Put(P.Insert(p, a, now), a1).value, a2).value, a3)
      == Some(P.Table(p.rows[a.id := P.Row(a.tenant, a.setup, a.fingerprint, a3.state, now, a3)], p.order + [a.id]))
  {
    var q := P.Put(P.Put(P.Put(P.Insert(p, a, now), a1).value, a2).value, a3).value;
    assert q.rows == p.rows[a.id := P.Row(a.tenant, a.setup, a.fingerprint, a3.state, now, a3)];
  }

  lemma ReservedIsNew(c: Config, s: State, a: P.Attempt, retry: bool, now: real)
    requires Inv(c, s) && P.Listed(s.preps) && P.Reserve(s.preps, a, c.maxPreps, retry, now).0.Created?
    ensures a.id !in s.preps.rows && PrepKey(a.id) !in s.active
  {
    hide Inv;
    if PrepKey(a.id) in s.active { ActiveExists(c, s, PrepKey(a.id)); }
  }

  /** Reserved, described, launched: the handler is gone and the worker holds the attempt. */
  lemma PrepLaunches(c: Config, s: State, t: nat, worker: nat, a: P.Attempt, retry: bool, now: real, manifest: string)
    returns (ss: seq<State>, es: seq<Event>)
    requires Inv(c, s) && P.Listed(s.preps) && s.boot.Up? && t !in s.threads && worker !in s.threads && t != worker
    requires NewAttempt(a) && P.Reserve(s.preps, a, c.maxPreps, retry, now).0.Created?
    ensures Path(c, ss, es) && |es| == 3 && ss[0] == s && Inv(c, ss[3]) && P.Listed(ss[3].preps)
    ensures var a1 := a.(manifest := Some(manifest));
      ss[3] == WritePrep(s.(preps := P.Insert(s.preps, a, now)), a1).(
        active := s.active + {PrepKey(a.id)}, threads := s.threads[worker := PrepSubmitting(a1)])
  {
    hide Inv, P.Listed;
    ReservedIsNew(c, s, a, retry, now);
    ss, es := [s], [];
    var a1 := a.(manifest := Some(manifest));
    var s1 := s.(preps := P.Insert(s.preps, a, now), threads := s.threads[t := PrepReserved(a)]);
    ss, es := Extend(c, ss, es, RequestPreparation(t, a, retry, now), s1);
    var s2 := Become(WritePrep(s1, a1), t, PrepDescribed(a1));
    ss, es := Extend(c, ss, es, DescribeInputs(t, manifest), s2);
    assert End(s2, t).threads == s.threads;
    var s3 := Spawn(End(s2, t), worker, PrepKey(a.id), PrepSubmitting(a1));
    ss, es := Extend(c, ss, es, LaunchPreparation(t, worker), s3);
  }

  /** Submitted and recorded. */
  lemma PrepSubmits(c: Config, ss: seq<State>, es: seq<Event>, worker: nat, a: P.Attempt, remoteId: string)
    returns (ss': seq<State>, es': seq<Event>)
    requires Path(c, ss, es) && Inv(c, ss[|es|]) && P.Listed(ss[|es|].preps)
    requires worker in ss[|es|].threads && ss[|es|].threads[worker] == PrepSubmitting(a)
    ensures Path(c, ss', es') && |es'| == |es| + 2 && ss'[0] == ss[0]
    ensures Inv(c, ss'[|es'|]) && P.Listed(ss'[|es'|].preps)
    ensures var s, a' := ss[|es|], a.(state := P.Preparing, phase := P.Starting, remote := Truthy(remoteId));
      ss'[|es'|] == Become(WritePrep(s.(submitted := s.submitted + multiset{PrepKey(a.id)}), a'), worker, PrepPolling(a'))
  {
    hide Inv, P.Listed;
    var s, a' := ss[|es|], a.(state := P.Preparing, phase := P.Starting, remote := Truthy(remoteId));
    var s1 := Become(s.(submitted := s.submitted + multiset{PrepKey(a.id)}), worker, PrepIssued(a, remoteId));
    ss', es' := Extend(c, ss, es, SubmitPrep(worker, Accepted(remoteId)), s1);
    ss', es' := Extend(c, ss', es', RecordPrep(worker), Become(WritePrep(s1, a'), worker, PrepPolling(a')));
    assert s1.threads[worker := PrepPolling(a')] == s.threads[worker := PrepPolling(a')];
  }

  /** Seen completed, reported accepted, retired. */
  lemma PrepReports(c: Config, ss: seq<State>, es: seq<Event>, worker: nat, a: P.Attempt, raw: string)
    returns (ss': seq<State>, es': seq<Event>)
    requires Path(c, ss, es) && Inv(c, ss[|es|]) && P.Listed(ss[|es|].preps)
    requires worker in ss[|es|].threads && ss[|es|].threads[worker] == PrepPolling(a)
    requires c.storage && c.prepAttempts > 0 && MapNebiusState(raw) == Some(J.Completed)
    ensures Path(c, ss', es') && |es'| == |es| + 3 && ss'[0] == ss[0]
    ensures var s, a' := ss[|es|], a.(state := P.Accepted, phase := P.Done, reportReady := true, canRetry := false);
      ss'[|es'|] == WritePrep(s, a').(threads := s.threads - {worker}, active := s.active - {PrepKey(a.id)})
  {
    hide Inv, P.Listed, MapNebiusState, P.Put, Truthy, Spawn, StartGate;
    var s, a' := ss[|es|], a.(state := P.Accepted, phase := P.Done, reportReady := true, canRetry := false);
    var s1 := Become(s, worker, PrepReporting(a, c.prepAttempts));
    ss', es' := Extend(c, ss, es, PollPrep(worker, Says(raw)), s1);
    var s2 := Become(WritePrep(s1, a'), worker, Finished(PrepKey(a.id)));
    ss', es' := Extend(c, ss', es', ReadReport(worker, Report(a.fingerprint, true, "")), s2);
    var s3 := End(s2, worker).(active := s2.active - {PrepKey(a.id)});
    ss', es' := Extend(c, ss', es', Retire(worker), s3);
    assert s3.threads == s.threads - {worker};
  }

  function CompletedJob(id: Id, prep: P.Attempt, remoteId: string): J.Job {
    NewJob(id, prep).(status := J.Completed, phase := J.Done, remote := Truthy(remoteId), artifactsReady := true)
  }

  /**
   A setup whose start gate is open can be trained to completion: nine steps, one create_job,
   and in the end the job, its request and its manifest are all that differs.
   */
  lemma JobCanComplete(c: Config, s: State, t: nat, worker: nat, prep: P.Attempt, id: Id, key: string, checked: real,
                       now: real, remoteId: string, raw: string, manifest: string)
    returns (ss: seq<State>, es: seq<Event>)
    requires Inv(c, s) && P.Listed(s.preps) && s.boot.Up? && t !in s.threads && worker !in s.threads && t != worker
    requires c.jobAttempts > 0 && MapNebiusState(raw) == Some(J.Completed) && checked <= now
    requires StartGate(s.preps, prep.tenant, prep.setup, prep.fingerprint) == Some(prep)
    requires J.Reserve(s.train, NewJob(id, prep), prep.setup, key, c.maxJobs, c.maxDaily, checked, now).0.Created?
    ensures Path(c, ss, es) && |es| == 9 && ss[0] == s
    ensures var k := J.RequestKey(prep.tenant, prep.setup, key);
      ss[9] == s.(
        train := J.Tables(s.train.jobs[id := CompletedJob(id, prep, remoteId)],
                          s.train.requests[k := J.Request(id, now)], s.train.artifacts[id := manifest]),
        submitted := s.submitted + multiset{JobKey(id)}, replies := s.replies + [Reply(k, id, true)])
  {
    hide Inv, P.Listed, MapNebiusState, Apply, StartGate, J.Reserve, J.Insert, J.Put, J.SetArtifacts;
    var j, k := NewJob(id, prep), J.RequestKey(prep.tenant, prep.setup, key);
    assert id !in s.train.jobs && JobKey(id) !in s.active by { StartIsNew(c, s, prep, id, key, checked, now); }
    var j1 := j.(remote := Truthy(remoteId), status := J.Starting);
    ss, es := JobLaunches(c, s, t, worker, prep, id, key, checked, now);
    ss, es := JobSubmits(c, ss, es, worker, j, remoteId);
    ss, es := JobManifests(c, ss, es, worker, j1, raw, manifest);
    var j2 := j1.(status := J.Finalizing, phase := J.Finalization, artifactsReady := false);
    ss, es := JobRetires(c, ss, es, worker, j2);
    JobTablesWritten(s.train, j, k, now, j1, j2, CompletedJob(id, prep, remoteId), manifest);
    assert ss[9].threads == s.threads && ss[9].active == s.active;
  }

  /** Four writes of the job by its own worker, and its manifest, leave the last job. */
  lemma JobTablesWritten(d: J.Tables, j: J.Job, k: J.RequestKey, now: real, j1: J.Job, j2: J.Job, j3: J.Job, manifest: string)
    requires j.id == j1.id == j2.id == j3.id
    ensures J.Put(J.SetArtifacts(J.Put(J.Put(J.Insert(d, j, k, now), j1), j2), j.id, manifest), j3)
      == J.Tables(d.jobs[j.id := j3], d.requests[k := J.Request(j.id, now)], d.artifacts[j.id := manifest])
  {
  }

  lemma StartIsNew(c: Config, s: State, prep: P.Attempt, id: Id, key: string, checked: real, now: real)
    requires Inv(c, s)
    requires J.Reserve(s.train, NewJob(id, prep), prep.setup, key, c.maxJobs, c.maxDaily, checked, now).0.Created?
    ensures id !in s.train.jobs && JobKey(id) !in s.active
  {
    hide Inv;
    if JobKey(id) in s.active { ActiveExists(c, s, JobKey(id)); }
  }

  /** Admitted, reserved, launched. */
  lemma JobLaunches(c: Config, s: State, t: nat, worker: nat, prep: P.Attempt, id: Id, key: string, checked: real, now: real)
    returns (ss: seq<State>, es: seq<Event>)
    requires Inv(c, s) && P.Listed(s.preps) && s.boot.Up? && t !in s.threads && worker !in s.threads && t != worker
    requires checked <= now && StartGate(s.preps, prep.tenant, prep.setup, prep.fingerprint) == Some(prep)
    requires J.Reserve(s.train, NewJob(id, prep), prep.setup, key, c.maxJobs, c.maxDaily, checked, now).0.Created?
    ensures Path(c, ss, es) && |es| == 3 && ss[0] == s && Inv(c, ss[3]) && P.Listed(ss[3].preps)
    ensures var j, k := NewJob(id, prep), J.RequestKey(prep.tenant, prep.setup, key);
      ss[3] == s.(train := J.Insert(s.train, j, k, now), replies := s.replies + [Reply(k, id, true)],
                  active := s.active + {JobKey(id)}, threads := s.threads[worker := JobSubmitting(j)])
  {
    hide Inv, P.Listed, StartGate;
    StartIsNew(c, s, prep, id, key, checked, now);
    ss, es := [s], [];
    var j, k := NewJob(id, prep), J.RequestKey(prep.tenant, prep.setup, key);
    var s1 := Become(s, t, StartAllowed(prep));
    ss, es := Extend(c, ss, es, RequestStart(t, prep.tenant, prep.setup, prep.fingerprint), s1);
    var s2 := Become(s1, t, JobReserved(j)).(train := J.Insert(s.train, j, k, now), replies := s.replies + [Reply(k, id, true)]);
    ss, es := Extend(c, ss, es, ReserveStart(t, id, key, checked, now), s2);
    assert End(s2, t).threads == s.threads;
    ss, es := Extend(c, ss, es, LaunchStart(t, worker), Spawn(End(s2, t), worker, JobKey(id), JobSubmitting(j)));
  }

  /** Submitted and recorded. */
  lemma JobSubmits(c: Config, ss: seq<State>, es: seq<Event>, worker: nat, j: J.Job, remoteId: string)
    returns (ss': seq<State>, es': seq<Event>)
    requires Path(c, ss, es) && Inv(c, ss[|es|]) && P.Listed(ss[|es|].preps)
    requires worker in ss[|es|].threads && ss[|es|].threads[worker] == JobSubmitting(j)
    ensures Path(c, ss', es') && |es'| == |es| + 2 && ss'[0] == ss[0]
    ensures Inv(c, ss'[|es'|]) && P.Listed(ss'[|es'|].preps)
    ensures var s, j' := ss[|es|], j.(remote := Truthy(remoteId), status := J.Starting);
      ss'[|es'|] == Become(WriteJob(s.(submitted := s.submitted + multiset{JobKey(j.id)}), j'), worker, JobPolling(j'))
  {
    hide Inv, P.Listed;
    var s, j' := ss[|es|], j.(remote := Truthy(remoteId), status := J.Starting);
    var s1 := Become(s.(submitted := s.submitted + multiset{JobKey(j.id)}), worker, JobIssued(j, remoteId));
    ss', es' := Extend(c, ss, es, SubmitJob(worker, Accepted(remoteId)), s1);
    ss', es' := Extend(c, ss', es', RecordJob(worker), Become(WriteJob(s1, j'), worker, JobPolling(j')));
    assert s1.threads[worker := JobPolling(j')] == s.threads[worker := JobPolling(j')];
  }

  /** Seen completed, its manifest stored before anything says so. */
  lemma JobManifests(c: Config, ss: seq<State>, es: seq<Event>, worker: nat, j: J.Job, raw: string, manifest: string)
    returns (ss': seq<State>, es': seq<Event>)
    requires Path(c, ss, es) && Inv(c, ss[|es|]) && P.Listed(ss[|es|].preps)
    requires worker in ss[|es|].threads && ss[|es|].threads[worker] == JobPolling(j) && !j.status.Completed?
    requires c.jobAttempts > 0 && MapNebiusState(raw) == Some(J.Completed)
    ensures Path(c, ss', es') && |es'| == |es| + 2 && ss'[0] == ss[0]
    ensures Inv(c, ss'[|es'|]) && P.Listed(ss'[|es'|].preps)
    ensures var s, j' := ss[|es|], j.(status := J.Finalizing, phase := J.Finalization, artifactsReady := false);
      ss'[|es'|] == Become(s.(train := J.SetArtifacts(J.Put(s.train, j'), j.id, manifest)), worker, JobPublishing(j'))
  {
    hide Inv, P.Listed, MapNebiusState;
    var s, j' := ss[|es|], j.(status := J.Finalizing, phase := J.Finalization, artifactsReady := false);
    var s1 := Become(WriteJob(s, j'), worker, JobFinalizing(j', c.jobAttempts));
    ss', es' := Extend(c, ss, es, PollJob(worker, Says(raw)), s1);
    var s2 := Become(s1.(train := J.SetArtifacts(s1.train, j.id, manifest)), worker, JobPublishing(j'));
    ss', es' := Extend(c, ss', es', ReadManifest(worker, Manifest(manifest)), s2);
    assert s2.threads == s.threads[worker := JobPublishing(j')];
  }

  /** Published and retired. */
  lemma JobRetires(c: Config, ss: seq<State>, es: seq<Event>, worker: nat, j: J.Job)
    returns (ss': seq<State>, es': seq<Event>)
    requires Path(c, ss, es) && Inv(c, ss[|es|]) && P.Listed(ss[|es|].preps)
    requires worker in ss[|es|].threads && ss[|es|].threads[worker] == JobPublishing(j)
    ensures Path(c, ss', es') && |es'| == |es| + 2 && ss'[0] == ss[0]
    ensures var s, j' := ss[|es|], j.(status := J.Completed, phase := J.Done, artifactsReady := true);
      ss'[|es'|] == WriteJob(s, j').(threads := s.threads - {worker}, active := s.active - {JobKey(j.id)})
  {
    hide Inv, P.Listed;
    var s, j' := ss[|es|], j.(status := J.Completed, phase := J.Done, artifactsReady := true);
    var s1 := Become(WriteJob(s, j'), worker, Finished(JobKey(j.id)));
    ss', es' := Extend(c, ss, es, PublishJob(worker), s1);
    var s2 := End(s1, worker).(active := s1.active - {JobKey(j.id)});
    ss', es' := Extend(c, ss', es', Retire(worker), s2);
    assert s2.threads == s.threads - {worker};
  }

  /**
   A crash before the remote id is stored, create_job answered or not: after it, start-up fails
   the job with the submission category, and never asks the provider again.
   */
  lemma LostSubmissionFails(c: Config, s: State, id: Id, worker: nat) returns (ss: seq<State>, es: seq<Event>)
    requires Inv(c, s) && P.Listed(s.preps)
    requires id in s.train.jobs && !J.Terminal(s.train.jobs[id].status) && s.train.jobs[id].remote.None?
    ensures Path(c, ss, es) && ss[0] == s && es == [Crash, StartUp, ResumeJob(id, worker)]
    ensures ss[3].train == s.train.(jobs := s.train.jobs[id := FailedJob(s.train.jobs[id], J.Submission)])
    ensures ss[3].submitted == s.submitted && ss[3].threads == map[] && ss[3].preps == s.preps
  {
    hide Inv, P.Listed;
    ss, es := [s], [];
    var s1 := s.(boot := Down, threads := map[], active := {}, lost := {});
    ss, es := Extend(c, ss, es, Crash, s1);
    var s2 := s1.(boot := ResumingJobs(J.ActiveJobs(s.train)));
    ss, es := Extend(c, ss, es, StartUp, s2);
    JobIdIs(c, s, id);
    var s3 := WriteJob(s2.(boot := ResumingJobs(s2.boot.jobs - {id})), FailedJob(s.train.jobs[id], J.Submission));
    ss, es := Extend(c, ss, es, ResumeJob(id, worker), s3);
  }

  lemma JobIdIs(c: Config, s: State, id: Id)
    requires Inv(c, s) && id in s.train.jobs
    ensures s.train.jobs[id].id == id
  {
    assert J.JobOk(s.train, id, s.train.jobs[id]);
  }

  // ----- provider states

  lemma {:induction false} LastSegmentOf(prefix: string, state: string)
    requires '_' !in state
    ensures LastSegment(prefix + "_" + state) == state
  {
    var raw := prefix + "_" + state;
    if state == "" {
      assert raw[|raw| - 1] == '_';
    } else {
      var n := |state| - 1;
      assert raw[|raw| - 1] == state[n] && raw[..|raw| - 1] == prefix + "_" + state[..n];
      LastSegmentOf(prefix, state[..n]);
      assert state == state[..n] + [state[n]];
    }
  }

  lemma {:induction false} LastSegmentAlone(state: string)
    requires '_' !in state
    ensures LastSegment(state) == state
  {
    if state != "" {
      var n := |state| - 1;
      LastSegmentAlone(state[..n]);
      assert state == state[..n] + [state[n]];
    }
  }

  /** Only what follows the last underscore counts: a provider enum prefix never changes the meaning. */
  lemma PrefixIgnored(prefix: string, state: string)
    requires '_' !in state
    ensures MapNebiusState(prefix + "_" + state) == MapNebiusState(state)
  {
    LastSegmentOf(prefix, state);
    LastSegmentAlone(state);
  }

  lemma {:induction false} UpperOfCapitals(s: string)
    requires forall k :: 0 <= k < |s| ==> !('a' <= s[k] <= 'z')
    ensures Upper(s) == s
  {
    if s != "" { UpperOfCapitals(s[1..]); }
  }

  /** A name in capitals is read as it is, whatever prefix the provider puts before it. */
  lemma ReadAsIs(prefix: string, name: string)
    requires forall k :: 0 <= k < |name| ==> 'A' <= name[k] <= 'Z'
    ensures Upper(LastSegment(name)) == name && MapNebiusState(prefix + "_" + name) == MapNebiusState(name)
  {
    LastSegmentAlone(name);
    UpperOfCapitals(name);
    PrefixIgnored(prefix, name);
  }

  const STARTING_NAMES := ["QUEUED", "QUEUING", "PENDING", "PROVISIONING", "STARTING", "CREATING"]
  const RUNNING_NAMES := ["RUNNING", "ACTIVE"]
  const SUCCESS_NAMES := ["SUCCEEDED", "SUCCESS", "COMPLETED", "FINISHED", "DONE"]
  const FAILURE_NAMES := ["FAILED", "ERROR", "CANCELLED", "CANCELED", "TIMEOUT", "EXPIRED"]

  predicate ReadAs(prefix: string, name: string, status: Option<J.Status>) {
    MapNebiusState(name) == status && MapNebiusState(prefix + "_" + name) == status
  }

  /** The provider's names, with any enum prefix or none; those of no list keep the current status. */
  lemma ProviderNames(prefix: string)
    ensures forall n :: 0 <= n < |STARTING_NAMES| ==> ReadAs(prefix, STARTING_NAMES[n], Some(J.Starting))
    ensures forall n :: 0 <= n < |RUNNING_NAMES| ==> ReadAs(prefix, RUNNING_NAMES[n], Some(J.Training))
    ensures forall n :: 0 <= n < |SUCCESS_NAMES| ==> ReadAs(prefix, SUCCESS_NAMES[n], Some(J.Completed))
    ensures forall n :: 0 <= n < |FAILURE_NAMES| ==> ReadAs(prefix, FAILURE_NAMES[n], Some(J.Failed))
    ensures ReadAs(prefix, "UNSPECIFIED", None) && ReadAs(prefix, "CANCELLING", None)
  {
    hide Upper, LastSegment;
    forall n | 0 <= n < |STARTING_NAMES| ensures ReadAs(prefix, STARTING_NAMES[n], Some(J.Starting)) {
      ReadAsIs(prefix, STARTING_NAMES[n]);
    }
    forall n | 0 <= n < |RUNNING_NAMES| ensures ReadAs(prefix, RUNNING_NAMES[n], Some(J.Training)) {
      ReadAsIs(prefix, RUNNING_NAMES[n]);
    }
    forall n | 0 <= n < |SUCCESS_NAMES| ensures ReadAs(prefix, SUCCESS_NAMES[n], Some(J.Completed)) {
      ReadAsIs(prefix, SUCCESS_NAMES[n]);
    }
    forall n | 0 <= n < |FAILURE_NAMES| ensures ReadAs(prefix, FAILURE_NAMES[n], Some(J.Failed)) {
      ReadAsIs(prefix, FAILURE_NAMES[n]);
    }
    ReadAsIs(prefix, "UNSPECIFIED");
    ReadAsIs(prefix, "CANCELLING");
  }

  lemma {:induction false} UpperAppend(a: string, b: string)
    ensures Upper(a + b) == Upper(a) + Upper(b)
  {
    if a == "" {
      assert a + b == b;
    } else {
      UpperAppend(a[1..], b);
      assert (a + b)[0] == a[0] && (a + b)[1..] == a[1..] + b;
    }
  }

  lemma {:induction false} UpperTwice(s: string)
    ensures Upper(Upper(s)) == Upper(s)
  {
    if s != "" { UpperTwice(s[1..]); }
  }

  lemma {:induction false} LastSegmentOfUpper(raw: string)
    ensures LastSegment(Upper(raw)) == Upper(LastSegment(raw))
  {
    if raw != "" {
      var init, last := raw[..|raw| - 1], raw[|raw| - 1];
      LastSegmentOfUpper(init);
      UpperAppend(init, [last]);
      assert raw == init + [last];
      var up := Upper([last]);
      assert Upper(raw)[|Upper(raw)| - 1] == up[0] && Upper(raw)[..|Upper(raw)| - 1] == Upper(init);
      UpperAppend(LastSegment(init), [last]);
    }
  }

  /** The case a provider state is reported in never changes its meaning either. */
  lemma CaseIgnored(raw: string)
    ensures MapNebiusState(Upper(raw)) == MapNebiusState(raw)
  {
    LastSegmentOfUpper(raw);
    UpperTwice(LastSegment(raw));
  }
}
