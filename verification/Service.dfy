/**
 The request handlers, start-up and the end of a worker, as they run on the store classes.

 Between two statements of a thread the other threads may do anything the state machine lets
 them do; `others` says what they did, and Yield puts it into effect.  Every method is shown to
 be a stretch of the state machine's history, so all its guarantees hold of what runs here.
 */
module Service {
  import opened Wrappers
  import P = Preparations
  import J = TrainingJobs
  import R = Readiness
  import opened Stores
  import opened Orchestration
  import opened OrchestrationInvariant
  import opened OrchestrationPaths
  import opened OrchestrationProof
  import opened OrchestrationRuns

  /** The state after what other threads did at the n-th pause. */
  type Others = (nat, State) -> State

  ghost predicate Reaches(c: Config, s: State, s': State) {
    exists ss, es :: Path(c, ss, es) && ss[0] == s && ss[|es|] == s'
  }

  /** What other threads do: anything but restart the process. */
  predicate Theirs(e: Event) {
    !e.Crash? && !e.StartUp? && !e.ResumeJob? && !e.JobsResumed? && !e.ResumePrep? && !e.BootDone?
  }

  ghost predicate Meanwhile(c: Config, s: State, s': State) {
    exists ss, es :: Path(c, ss, es) && ss[0] == s && ss[|es|] == s' && forall i :: 0 <= i < |es| ==> Theirs(es[i])
  }

  /** Nor may they touch a thread that is not theirs. */
  ghost predicate Aside(c: Config, s: State, s': State, mine: set<nat>) {
    && Meanwhile(c, s, s') && s'.boot == s.boot
    && forall t :: t in mine ==> (t in s'.threads <==> t in s.threads) && (t in s.threads ==> s'.threads[t] == s.threads[t])
  }

  ghost predicate Rely(c: Config, others: Others, mine: set<nat>) {
    forall n, s :: Inv(c, s) ==> Aside(c, s, others(n, s), mine)
  }

  // ----- histories

  lemma ReachesSame(c: Config, s: State)
    ensures Reaches(c, s, s)
  {
    assert Path(c, [s], []) && [s][0] == s;
  }

  lemma {:induction false} PathKeeps(c: Config, ss: seq<State>, es: seq<Event>, n: nat)
    requires Path(c, ss, es) && Inv(c, ss[0]) && n <= |es|
    ensures Inv(c, ss[n]) && Grows(ss[0], ss[n])
  {
    hide Inv, Apply, Grows;
    if n == 0 {
      SameGrows(ss[0], ss[0]);
    } else {
      PathKeeps(c, ss, es, n - 1);
      InvListed(c, ss[n - 1]);
      assert Apply(c, ss[n - 1], es[n - 1]) == Some(ss[n]);
      Keeps(c, ss[n - 1], es[n - 1], ss[n]);
      GrowsTransitive(ss[0], ss[n - 1], ss[n]);
    }
  }

  lemma ReachesKeeps(c: Config, s: State, s': State)
    requires Reaches(c, s, s') && Inv(c, s)
    ensures Inv(c, s') && Grows(s, s')
  {
    hide Inv, Grows, Apply, P.Listed;
    var ss, es :| Path(c, ss, es) && ss[0] == s && ss[|es|] == s';
    PathKeeps(c, ss, es, |es|);
  }

  lemma ReachesThen(c: Config, s: State, m: State, e: Event, s': State)
    requires Reaches(c, s, m) && Inv(c, m) && Stepped(c, m, e, s')
    ensures Reaches(c, s, s')
  {
    hide Inv, Apply, P.Listed;
    var ss, es :| Path(c, ss, es) && ss[0] == s && ss[|es|] == m;
    var ss', es' := Extend(c, ss, es, e, s');
    assert ss'[0] == s && ss'[|es'|] == s';
  }

  lemma {:induction false} ReachesAlong(c: Config, s: State, ss: seq<State>, es: seq<Event>, n: nat)
    requires Path(c, ss, es) && Inv(c, ss[0]) && n <= |es| && Reaches(c, s, ss[0])
    ensures Reaches(c, s, ss[n])
  {
    hide Inv, Apply, Reaches;
    if n > 0 {
      ReachesAlong(c, s, ss, es, n - 1);
      PathKeeps(c, ss, es, n - 1);
      InvListed(c, ss[n - 1]);
      assert Stepped(c, ss[n - 1], es[n - 1], ss[n]);
      ReachesThen(c, s, ss[n - 1], es[n - 1], ss[n]);
    }
  }

  lemma ReachesTransitive(c: Config, s: State, m: State, s': State)
    requires Inv(c, m) && Reaches(c, s, m) && Reaches(c, m, s')
    ensures Reaches(c, s, s')
  {
    hide Inv;
    var ss, es :| Path(c, ss, es) && ss[0] == m && ss[|es|] == s';
    ReachesAlong(c, s, ss, es, |es|);
  }

  lemma MeanwhileReaches(c: Config, s: State, s': State)
    requires Meanwhile(c, s, s')
    ensures Reaches(c, s, s')
  {
    hide Path;
  }

  /** While start-up still handles jobs no attempt changes. */
  lemma JobsComeFirst(c: Config, s: State, e: Event, s': State)
    requires Inv(c, s) && s.boot.ResumingJobs? && Theirs(e) && P.Listed(s.preps) && Apply(c, s, e) == Some(s')
    ensures s'.preps == s.preps && s'.boot == s.boot
  {
    hide P.Listed, DurableOk, ThreadsOk, BootOk, Exclusive, ActiveOk, JobsCovered, PrepsCovered, Reconciled, MapNebiusState;
  }

  lemma {:induction false} PrepsWaitAlong(c: Config, ss: seq<State>, es: seq<Event>, n: nat)
    requires Path(c, ss, es) && Inv(c, ss[0]) && ss[0].boot.ResumingJobs? && n <= |es|
    requires forall i :: 0 <= i < |es| ==> Theirs(es[i])
    ensures ss[n].preps == ss[0].preps && ss[n].boot == ss[0].boot
  {
    hide Inv, Apply, P.Listed, Theirs;
    if n > 0 {
      PrepsWaitAlong(c, ss, es, n - 1);
      PathKeeps(c, ss, es, n - 1);
      InvListed(c, ss[n - 1]);
      assert Apply(c, ss[n - 1], es[n - 1]) == Some(ss[n]);
      JobsComeFirst(c, ss[n - 1], es[n - 1], ss[n]);
    }
  }

  lemma PrepsWait(c: Config, s: State, s': State)
    requires Inv(c, s) && s.boot.ResumingJobs? && Meanwhile(c, s, s')
    ensures s'.preps == s.preps
  {
    hide Inv, Apply, P.Listed, Theirs;
    var ss, es :| Path(c, ss, es) && ss[0] == s && ss[|es|] == s' && forall i :: 0 <= i < |es| ==> Theirs(es[i]);
    PrepsWaitAlong(c, ss, es, |es|);
  }

  /** One event of the state machine. */
  ghost predicate Stepped(c: Config, s: State, e: Event, s': State) {
    P.Listed(s.preps) && Apply(c, s, e) == Some(s')
  }

  lemma SteppedKeeps(c: Config, s: State, e: Event, s': State)
    requires Inv(c, s) && Stepped(c, s, e, s')
    ensures Inv(c, s')
  {
    hide Inv, Apply;
    Keeps(c, s, e, s');
  }

  // ----- what a thread knows of its record

  lemma HandlerFacts(c: Config, s: State, t: nat)
    requires Inv(c, s) && t in s.threads && (s.threads[t].PrepReserved? || s.threads[t].PrepDescribed? || s.threads[t].JobReserved?)
    ensures var key := KeyOf(s.threads[t]).value; key !in s.submitted && key !in s.active
    ensures IsPrep(s.threads[t]) ==> PrepShadow(s.preps, s.threads[t].a)
    ensures IsJob(s.threads[t]) ==> JobShadow(s.train, s.threads[t].j)
    ensures s.boot.Up?
  {
    assert ThreadOk(s.preps, s.train, s.submitted, s.threads[t]);
  }

  lemma InvTables(c: Config, s: State)
    requires Inv(c, s)
    ensures P.TableOk(s.preps, c.maxPreps) && P.Listed(s.preps) && J.TablesOk(s.train, c.maxJobs, c.maxDaily)
  {
  }

  /** What the accepted lookup answers is what the gate decides. */
  lemma GateAnswers(p: P.Table, limit: nat, tenant: string, setup: string, fingerprint: string, found: Option<P.Attempt>)
    requires P.TableOk(p, limit)
    requires forall id :: id in p.rows ==> (
      found == Some(P.Decode(p.rows[id])) <==>
      (p.rows[id].tenant == tenant && p.rows[id].setup == setup && p.rows[id].fingerprint == fingerprint
       && p.rows[id].state.Accepted?))
    requires found.Some? ==> exists id :: id in p.rows && found == Some(P.Decode(p.rows[id]))
    ensures StartGate(p, tenant, setup, fingerprint) == found
    ensures found.Some? ==> found.value.tenant == tenant && found.value.setup == setup && found.value.fingerprint == fingerprint
  {
    var q := P.AcceptedOf(tenant, setup, fingerprint);
    P.SelectIsFirst(p, q);
    if P.Select(p, q).Some? {
      var first := P.Select(p, q).value;
      P.AcceptedLookupUnique(p, limit, tenant, setup, fingerprint, first);
      assert P.RowOk(first, p.rows[first]);
    }
    if found.Some? {
      var id :| id in p.rows && found == Some(P.Decode(p.rows[id]));
      P.AcceptedLookupUnique(p, limit, tenant, setup, fingerprint, id);
      assert P.RowOk(id, p.rows[id]);
    }
  }

  /** What a worker that polls its job knows. */
  lemma WorkerFacts(c: Config, s: State, t: nat)
    requires Inv(c, s) && t in s.threads && IsJob(s.threads[t])
    ensures var j := s.threads[t].j; j.id in s.train.jobs && s.train.jobs[j.id] == j && !j.status.Completed?
    ensures s.threads[t].JobPublishing? ==> s.threads[t].j.id in s.train.artifacts
  {
    hide Inv;
    JobOwner(c, s, t);
    JobNotCompleted(c, s, t);
    if s.threads[t].JobPublishing? { JobUnfinished(c, s, t); }
  }

  /** The manifest arrives before the attempts run out, the deadline passes or an invalid one is read. */
  ghost predicate Arrives(answers: nat -> ManifestRead, from: nat, attempts: nat) {
    exists n :: from <= n < attempts && answers(n).Manifest? && forall i :: from <= i < n ==> answers(i).ManifestMissing?
  }

  lemma NoneLeft(answers: nat -> ManifestRead, attempts: nat)
    ensures !Arrives(answers, attempts, attempts)
  {
  }

  lemma ArrivesNext(answers: nat -> ManifestRead, from: nat, attempts: nat)
    requires from < attempts
    ensures Arrives(answers, from, attempts) <==>
      answers(from).Manifest? || (answers(from).ManifestMissing? && Arrives(answers, from + 1, attempts))
  {
    if answers(from).ManifestMissing? && Arrives(answers, from + 1, attempts) {
      var n :| from + 1 <= n < attempts && answers(n).Manifest? && forall i :: from + 1 <= i < n ==> answers(i).ManifestMissing?;
      assert forall i :: from <= i < n ==> answers(i).ManifestMissing?;
    }
  }

  /** Left behind by a crash between the reservation and the recorded submission. */
  predicate InterruptedJob(d: J.Tables, id: Id) {
    id in d.jobs && !J.Terminal(d.jobs[id].status) && d.jobs[id].remote.None?
  }

  predicate InterruptedPrep(p: P.Table, id: Id) {
    id in p.rows && P.Live(p.rows[id].state) && p.rows[id].data.remote.None?
  }

  ghost predicate FailedStay(d: J.Tables, e: J.Tables) {
    forall id :: id in d.jobs && d.jobs[id].status.Failed? ==> id in e.jobs && e.jobs[id].status.Failed?
  }

  lemma StayOn(a: J.Tables, b: J.Tables, d: J.Tables)
    requires FailedStay(a, b) && FailedStay(b, d)
    ensures FailedStay(a, d)
  {
  }

  /** Every attempt interrupted at first is still in hand, or has been failed. */
  ghost predicate PrepsSettle(first: P.Table, inHand: map<Id, P.Attempt>, p: P.Table) {
    forall id :: InterruptedPrep(first, id) ==>
      (id in inHand && inHand[id].remote.None?) || (id in p.rows && p.rows[id].state.Failed?)
  }

  lemma SettlesOn(first: P.Table, inHand: map<Id, P.Attempt>, s: State, s': State)
    requires Grows(s, s') && PrepsSettle(first, inHand, s.preps)
    ensures PrepsSettle(first, inHand, s'.preps) && FailedStay(s.train, s'.train)
  {
  }

  lemma ManifestIsRead(c: Config, s: State, t: nat, read: ManifestRead, s': State)
    requires Inv(c, s) && DoReadManifest(s, t, read) == Some(s')
    ensures Stepped(c, s, ReadManifest(t, read), s') && Inv(c, s')
  {
    hide Inv, P.Listed, DoReadManifest;
    InvTables(c, s);
    SteppedKeeps(c, s, ReadManifest(t, read), s');
  }

  lemma StartLaunches(c: Config, s: State, t: nat, worker: nat, s': State)
    requires Inv(c, s) && DoLaunchStart(s, t, worker) == Some(s')
    ensures Stepped(c, s, LaunchStart(t, worker), s') && Inv(c, s')
  {
    hide Inv, P.Listed, DoLaunchStart;
    InvTables(c, s);
    SteppedKeeps(c, s, LaunchStart(t, worker), s');
  }

  lemma SnapshotIsRefused(c: Config, s: State, t: nat, s': State)
    requires Inv(c, s) && DoSnapshotRefused(c, s, t) == Some(s')
    ensures Stepped(c, s, SnapshotRefused(t), s') && Inv(c, s')
  {
    hide Inv, P.Listed, DoSnapshotRefused;
    InvTables(c, s);
    SteppedKeeps(c, s, SnapshotRefused(t), s');
  }

  lemma PrepsAreListed(c: Config, s: State, s': State)
    requires Inv(c, s) && DoJobsResumed(s) == Some(s')
    ensures Stepped(c, s, JobsResumed, s') && Inv(c, s')
  {
    hide Inv, P.Listed, DoJobsResumed;
    InvTables(c, s);
    SteppedKeeps(c, s, JobsResumed, s');
  }

  lemma JobIsPublished(c: Config, s: State, t: nat, s': State)
    requires Inv(c, s) && DoPublishJob(s, t) == Some(s')
    ensures Stepped(c, s, PublishJob(t), s') && Inv(c, s')
  {
    hide Inv, P.Listed, DoPublishJob;
    InvTables(c, s);
    SteppedKeeps(c, s, PublishJob(t), s');
  }

  lemma JobResumes(c: Config, s: State, id: Id, worker: nat, s': State)
    requires Inv(c, s) && DoResumeJob(s, id, worker) == Some(s')
    ensures Stepped(c, s, ResumeJob(id, worker), s') && Inv(c, s')
  {
    hide Inv, P.Listed, DoResumeJob;
    InvTables(c, s);
    SteppedKeeps(c, s, ResumeJob(id, worker), s');
  }

  lemma PrepResumes(c: Config, s: State, id: Id, worker: nat, s': State)
    requires Inv(c, s) && DoResumePrep(s, id, worker) == Some(s')
    ensures Stepped(c, s, ResumePrep(id, worker), s') && Inv(c, s')
  {
    hide Inv, P.Listed, DoResumePrep;
    InvTables(c, s);
    SteppedKeeps(c, s, ResumePrep(id, worker), s');
  }

  /** Start-up fails an attempt that was never recorded as submitted. */
  lemma InterruptedFails(c: Config, s: State, id: Id, worker: nat)
    requires Inv(c, s) && s.boot.ResumingPreps? && id in s.boot.preps && s.boot.preps[id].remote.None? && worker !in s.threads
    ensures var a := FailedAttempt(s.boot.preps[id], P.Submission);
      && a.id == id && P.Put(s.preps, a).Some? && P.Put(s.preps, a).value.rows == s.preps.rows[id := P.Put(s.preps, a).value.rows[id]]
      && DoResumePrep(s, id, worker) == Some(s.(boot := ResumingPreps(s.boot.preps - {id}), preps := P.Put(s.preps, a).value))
  {
    hide Inv;
    BootPrepFacts(c, s, id);
  }

  lemma BootJobFacts(c: Config, s: State, id: Id)
    requires Inv(c, s) && s.boot.ResumingJobs? && id in s.boot.jobs
    ensures s.boot.jobs[id].id == id && id in s.train.jobs && s.train.jobs[id] == s.boot.jobs[id]
    ensures !J.Terminal(s.train.jobs[id].status)
  {
  }

  lemma BootPrepFacts(c: Config, s: State, id: Id)
    requires Inv(c, s) && s.boot.ResumingPreps? && id in s.boot.preps
    ensures s.boot.preps[id].id == id && id in s.preps.rows && P.Decode(s.preps.rows[id]) == s.boot.preps[id]
    ensures P.Live(s.preps.rows[id].state)
  {
  }

  datatype PrepareAnswer = Existing(attempt: P.Attempt) | CapacityInUse | PrepareFault | NotPublished | Launched(attempt: P.Attempt)

  datatype StartAnswer =
    | PreparationRequired | ActiveQuotaReached | DailyQuotaReached | StartFault | Replay(job: J.Job) | NotSnapshotted | Started(job: J.Job)

  class Process {
    const c: Config
    const db: Database
    const jobs: JobStore
    const custom: CustomTrainingStore
    var boot: Boot
    var threads: map<nat, Thread>
    var active: set<Key>
    // What the state machine remembers for its statements.
    var submitted: multiset<Key>
    var replies: seq<Reply>
    var lost: set<Key>
    var faults: nat

    /** The state of the state machine this is. */
    function Now(): State
      reads this, db
    {
      State(db.preps, db.train, boot, threads, active, submitted, replies, lost, faults)
    }

    ghost predicate Valid()
      reads this, db, jobs, custom
    {
      jobs.conn == db && custom.conn == db && Inv(c, Now())
    }

    constructor (c: Config, db: Database)
      requires db.preps == P.EMPTY && db.train == J.EMPTY
      ensures Valid() && this.c == c && this.db == db && Now() == INITIAL
    {
      this.c, this.db := c, db;
      jobs := new JobStore(db);
      custom := new CustomTrainingStore(db);
      boot, threads, active := Down, map[], {};
      submitted, replies, lost, faults := multiset{}, [], {}, 0;
      new;
      InitialInv(c);
    }

    method Yield(n: nat, others: Others, ghost mine: set<nat>)
      requires Valid() && Rely(c, others, mine)
      modifies this, db
      ensures Valid() && Aside(c, old(Now()), Now(), mine)
    {
      hide Inv, Reaches, Meanwhile;
      var s := Now();
      var s' := others(n, s);
      assert Aside(c, s, s', mine);
      MeanwhileReaches(c, s, s');
      ReachesKeeps(c, s, s');
      db.preps, db.train := s'.preps, s'.train;
      boot, threads, active := s'.boot, s'.threads, s'.active;
      submitted, replies, lost, faults := s'.submitted, s'.replies, s'.lost, s'.faults;
      assert Now() == s';
    }

    // ----- one transaction, or one change of a thread, each

    method InsertAttempt(t: nat, attempt: P.Attempt, retry: bool, now: real) returns (outcome: P.ReserveOutcome)
      requires Valid() && boot.Up? && NewAttempt(attempt) && t !in threads
      modifies this, db
      ensures Valid() && Stepped(c, old(Now()), RequestPreparation(t, attempt, retry, now), Now())
      ensures (outcome, db.preps) == P.Reserve(old(db.preps), attempt, c.maxPreps, retry, now)
      ensures !outcome.Created? ==> Now() == old(Now())
      ensures outcome.Created? ==> threads == old(threads)[t := PrepReserved(attempt)] && boot.Up?
      ensures P.Listed(db.preps)
      ensures var reuses, full := P.Reuses(old(db.preps), attempt, retry), P.AtQuota(old(db.preps), attempt.tenant, c.maxPreps);
        && (outcome.Reused? <==> reuses)
        && (outcome.QuotaExceeded? <==> !reuses && full)
        && (outcome.DuplicateId? <==> !reuses && !full && attempt.id in old(db.preps.rows))
      ensures outcome.Reused? ==> P.ReusedIs(db.preps, attempt, outcome.attempt)
    {
      hide Inv, P.Listed, P.Reserve, P.TableOk, P.Reuses, P.AtQuota, P.ReusedIs;
      ghost var s := Now();
      InvTables(c, s);
      outcome := custom.ReservePreparation(attempt, c.maxPreps, retry, now);
      if outcome.Created? {
        threads := threads[t := PrepReserved(attempt)];
      }
      SteppedKeeps(c, s, RequestPreparation(t, attempt, retry, now), Now());
      InvTables(c, Now());
    }

    method StoreInputs(t: nat, manifest: string)
      requires Valid() && t in threads && threads[t].PrepReserved?
      modifies this, db
      ensures Valid() && Stepped(c, old(Now()), DescribeInputs(t, manifest), Now())
      ensures threads == old(threads)[t := PrepDescribed(old(threads)[t].a.(manifest := Some(manifest)))]
    {
      hide Inv, P.Listed, P.Put;
      ghost var s := Now();
      InvTables(c, s);
      HandlerFacts(c, s, t);
      var a := threads[t].a.(manifest := Some(manifest));
      var _ := custom.PutPreparation(a);
      threads := threads[t := PrepDescribed(a)];
      SteppedKeeps(c, s, DescribeInputs(t, manifest), Now());
    }

    method RefuseInputs(t: nat)
      requires Valid() && c.storage && t in threads && threads[t].PrepDescribed?
      modifies this, db
      ensures Valid() && Stepped(c, old(Now()), InputsRefused(t), Now())
      ensures var a := old(threads)[t].a;
        && a.id in db.preps.rows && P.Decode(db.preps.rows[a.id]) == FailedAttempt(a, P.InputPublication)
        && PrepKey(a.id) !in active && PrepKey(a.id) !in submitted
      ensures threads == old(threads) - {t}
    {
      hide Inv, P.Listed;
      ghost var s := Now();
      InvTables(c, s);
      HandlerFacts(c, s, t);
      var a := threads[t].a;
      var _ := custom.PutPreparation(FailedAttempt(a, P.InputPublication));
      threads := threads - {t};
      SteppedKeeps(c, s, InputsRefused(t), Now());
    }

    /** launch_preparation, with the `_active` check of _start_preparation. */
    method LaunchPrepared(t: nat, worker: nat)
      requires Valid() && t in threads && threads[t].PrepDescribed? && worker !in threads
      modifies this
      ensures Valid() && Stepped(c, old(Now()), LaunchPreparation(t, worker), Now())
      ensures var a := old(threads)[t].a;
        && a.id in db.preps.rows && P.Decode(db.preps.rows[a.id]) == a && PrepKey(a.id) !in submitted
        && PrepKey(a.id) in active && threads == (old(threads) - {t})[worker := PrepSubmitting(a)]
    {
      hide Inv, P.Listed;
      ghost var s := Now();
      InvTables(c, s);
      HandlerFacts(c, s, t);
      var a := threads[t].a;
      threads := threads - {t};
      if PrepKey(a.id) !in active {
        active := active + {PrepKey(a.id)};
        threads := threads[worker := PrepSubmitting(a)];
      }
      SteppedKeeps(c, s, LaunchPreparation(t, worker), Now());
    }

    /** An exception no one catches ends a handler. */
    method Abandon(t: nat)
      requires Valid() && t in threads && Handler(threads[t])
      modifies this
      ensures Valid() && Stepped(c, old(Now()), Die(t), Now())
      ensures threads == old(threads) - {t} && db.preps == old(db.preps) && db.train == old(db.train)
      ensures submitted == old(submitted)
      ensures lost == old(lost) + if KeyOf(old(threads)[t]).Some? then {KeyOf(old(threads)[t]).value} else {}
    {
      hide Inv, P.Listed;
      ghost var s := Now();
      InvTables(c, s);
      var key := KeyOf(threads[t]);
      threads := threads - {t};
      if key.Some? {
        lost := lost + {key.value};
      }
      SteppedKeeps(c, s, Die(t), Now());
    }

    /** Yield, as part of a longer stretch. */
    method Pause(ghost start: State, n: nat, others: Others, ghost mine: set<nat>)
      requires Valid() && Rely(c, others, mine) && Reaches(c, start, Now())
      modifies this, db
      ensures Valid() && Aside(c, old(Now()), Now(), mine) && Reaches(c, start, Now())
      ensures Grows(old(Now()), Now())
    {
      hide Inv, Reaches, Rely, Meanwhile, Grows;
      Yield(n, others, mine);
      MeanwhileReaches(c, old(Now()), Now());
      ReachesKeeps(c, old(Now()), Now());
      ReachesTransitive(c, start, old(Now()), Now());
    }

    method AbandonHandler(ghost start: State, t: nat)
      requires Valid() && t in threads && Handler(threads[t]) && Reaches(c, start, Now())
      modifies this
      ensures Valid() && Reaches(c, start, Now()) && threads == old(threads) - {t}
      ensures db.preps == old(db.preps) && db.train == old(db.train) && submitted == old(submitted)
      ensures KeyOf(old(threads)[t]).Some? ==> KeyOf(old(threads)[t]).value in lost
    {
      hide Inv, Reaches, Stepped;
      Abandon(t);
      ReachesThen(c, start, old(Now()), Die(t), Now());
    }

    // ----- the setup as it is shown

    /** What is shown as startable would pass the gate now, with the attempt shown. */
    method ShowReadiness(setup: R.Setup, fingerprint: string, enabled: bool) returns (p: R.Projection)
      requires Valid()
      ensures P.Listed(db.preps) && p == R.ProjectNow(db.preps, setup, fingerprint, enabled)
      ensures p.canStart ==> enabled && p.current.Some? && StartGate(db.preps, setup.tenant, setup.id, fingerprint) == p.current
    {
      hide Inv, StartGate, P.Select;
      InvTables(c, Now());
      var latest := custom.LatestPreparation(setup.tenant, setup.id);
      p := R.Project(setup, latest, fingerprint, enabled);
      R.StartableMeansGateOpen(db.preps, c.maxPreps, setup, fingerprint, enabled);
    }

    // ----- prepare_robot_setup

    /**
     From the reservation on; the setup was found eligible before.  Without a manifest, building
     the documents raised.  The answer is fixed by the reservation, whatever other threads do.
     */
    method PrepareRobotSetup(attempt: P.Attempt, retry: bool, now: real, manifest: Option<string>, published: bool,
                             t: nat, worker: nat, others: Others)
      returns (answer: PrepareAnswer)
      requires Valid() && boot.Up? && NewAttempt(attempt) && Rely(c, others, {t, worker})
      requires t !in threads && worker !in threads && t != worker
      modifies this, db
      ensures Valid() && Reaches(c, old(Now()), Now()) && t !in threads
      ensures var reuses, full := P.Reuses(old(db.preps), attempt, retry), P.AtQuota(old(db.preps), attempt.tenant, c.maxPreps);
        var taken := attempt.id in old(db.preps.rows);
        && (answer.Existing? <==> reuses)
        && (answer.CapacityInUse? <==> !reuses && full)
        && (answer.PrepareFault? <==> !reuses && !full && (taken || manifest.None?))
        && (answer.NotPublished? <==> !reuses && !full && !taken && manifest.Some? && c.storage && !published)
        && (reuses || full || taken ==> Now() == old(Now()))
      ensures answer.Existing? ==> P.Listed(db.preps) && P.ReusedIs(db.preps, attempt, answer.attempt)
      ensures answer.Launched? ==> answer.attempt == attempt.(manifest := manifest)
      ensures answer.Launched? ==>
        && attempt.id in db.preps.rows && P.Decode(db.preps.rows[attempt.id]) == answer.attempt
        && worker in threads && threads[worker] == PrepSubmitting(answer.attempt)
        && PrepKey(attempt.id) in active && PrepKey(attempt.id) !in submitted
      ensures answer.PrepareFault? && attempt.id !in old(db.preps.rows) ==>
        && attempt.id in db.preps.rows && P.Decode(db.preps.rows[attempt.id]) == attempt
        && PrepKey(attempt.id) in lost && PrepKey(attempt.id) !in submitted
      ensures answer.NotPublished? ==>
        && attempt.id in db.preps.rows
        && P.Decode(db.preps.rows[attempt.id]) == FailedAttempt(attempt.(manifest := manifest), P.InputPublication)
        && PrepKey(attempt.id) !in active && PrepKey(attempt.id) !in submitted
    {
      hide Inv, Reaches, Stepped, Apply, P.Reserve, P.Listed, Rely, NewAttempt, P.Reuses, P.AtQuota, P.ReusedIs;
      ghost var start := Now();
      ReachesSame(c, start);
      var outcome := InsertAttempt(t, attempt, retry, now);
      if outcome.Reused? {
        return Existing(outcome.attempt);
      } else if outcome.QuotaExceeded? {
        return CapacityInUse;
      } else if outcome.DuplicateId? {
        return PrepareFault;
      }
      ReachesThen(c, start, start, RequestPreparation(t, attempt, retry, now), Now());
      Pause(start, 0, others, {t, worker});
      ghost var before := Now();
      if manifest.None? {
        HandlerFacts(c, before, t);
        AbandonHandler(start, t);
        return PrepareFault;
      }
      StoreInputs(t, manifest.value);
      ReachesThen(c, start, before, DescribeInputs(t, manifest.value), Now());
      Pause(start, 1, others, {t, worker});
      before := Now();
      if c.storage && !published {
        RefuseInputs(t);
        ReachesThen(c, start, before, InputsRefused(t), Now());
        return NotPublished;
      }
      LaunchPrepared(t, worker);
      ReachesThen(c, start, before, LaunchPreparation(t, worker), Now());
      return Launched(attempt.(manifest := manifest));
    }

    // ----- start_robot_setup_training, one transaction at a time

    method PassGate(t: nat, tenant: string, setup: string, fingerprint: string) returns (found: Option<P.Attempt>)
      requires Valid() && boot.Up? && t !in threads
      modifies this
      ensures Valid() && Stepped(c, old(Now()), RequestStart(t, tenant, setup, fingerprint), Now())
      ensures P.Listed(old(db.preps)) && found == StartGate(old(db.preps), tenant, setup, fingerprint)
      ensures found.Some? <==> P.HasAccepted(old(db.preps), tenant, setup, fingerprint)
      ensures found.Some? ==> found.value.fingerprint == fingerprint
      ensures found.None? ==> Now() == old(Now())
      ensures found.Some? ==> threads == old(threads)[t := StartAllowed(found.value)] && boot.Up?
      ensures found.Some? ==> found.value.tenant == tenant && found.value.setup == setup
    {
      hide Inv, P.Listed, P.TableOk, StartGate;
      ghost var s := Now();
      InvTables(c, s);
      found := custom.AcceptedPreparation(tenant, setup, fingerprint, c.maxPreps);
      GateAnswers(db.preps, c.maxPreps, tenant, setup, fingerprint, found);
      if found.Some? {
        threads := threads[t := StartAllowed(found.value)];
      }
      SteppedKeeps(c, s, RequestStart(t, tenant, setup, fingerprint), Now());
    }

    method ReserveJob(t: nat, id: Id, key: string, checked: real, now: real) returns (outcome: J.ReserveOutcome)
      requires Valid() && t in threads && threads[t].StartAllowed? && checked <= now
      modifies this, db
      ensures Valid() && Stepped(c, old(Now()), ReserveStart(t, id, key, checked, now), Now())
      ensures var prep := old(threads)[t].prep; var job := NewJob(id, prep);
        && (outcome, db.train) == J.Reserve(old(db.train), job, prep.setup, key, c.maxJobs, c.maxDaily, checked, now)
        && threads == if outcome.Created? then old(threads)[t := JobReserved(job)] else old(threads) - {t}
      ensures !outcome.Orphaned? && boot == old(boot)
    {
      hide Inv, P.Listed, J.Reserve, J.TablesOk;
      ghost var s := Now();
      InvTables(c, s);
      var job := NewJob(id, threads[t].prep);
      var request := J.RequestKey(job.tenant, job.setup, key);
      outcome := custom.ReserveTrainingJob(job, key, c.maxJobs, c.maxDaily, checked, now);
      if outcome.Created? {
        threads := threads[t := JobReserved(job)];
        replies := replies + [Reply(request, id, true)];
      } else {
        threads := threads - {t};
        if outcome.Replayed? {
          replies := replies + [Reply(request, outcome.job.id, false)];
        }
      }
      SteppedKeeps(c, s, ReserveStart(t, id, key, checked, now), Now());
    }

    method RefuseSnapshot(t: nat)
      requires Valid() && c.storage && t in threads && threads[t].JobReserved?
      modifies this, db
      ensures Valid() && Stepped(c, old(Now()), SnapshotRefused(t), Now())
      ensures var j := old(threads)[t].j;
        && db.train.jobs == old(db.train.jobs)[j.id := FailedJob(j, J.InputPublication)]
        && JobKey(j.id) !in active && JobKey(j.id) !in submitted
      ensures db.train.requests == old(db.train.requests) && threads == old(threads) - {t}
    {
      hide Inv, Stepped;
      ghost var s := Now();
      HandlerFacts(c, s, t);
      jobs.Put(FailedJob(threads[t].j, J.InputPublication));
      threads := threads - {t};
      SnapshotIsRefused(c, s, t, Now());
    }

    /** launch, with the `_active` check of _start. */
    method LaunchReserved(t: nat, worker: nat)
      requires Valid() && t in threads && threads[t].JobReserved? && worker !in threads
      modifies this
      ensures Valid() && Stepped(c, old(Now()), LaunchStart(t, worker), Now())
      ensures db.train == old(db.train)
      ensures var j := old(threads)[t].j;
        && j.id in db.train.jobs && db.train.jobs[j.id] == j && JobKey(j.id) !in submitted
        && JobKey(j.id) in active && threads == (old(threads) - {t})[worker := JobSubmitting(j)]
    {
      hide Inv, Stepped;
      ghost var s := Now();
      HandlerFacts(c, s, t);
      var j := threads[t].j;
      threads := threads - {t};
      if JobKey(j.id) !in active {
        active := active + {JobKey(j.id)};
        threads := threads[worker := JobSubmitting(j)];
      }
      StartLaunches(c, s, t, worker, Now());
    }

    /**
     With the same key the answer is the job first created, whatever other threads do meanwhile;
     a job this call starts is stored, bound to the key, and in the hands of one worker.
     */
    method StartRobotSetupTraining(tenant: string, setup: string, fingerprint: string, enabled: bool, id: Id, key: string,
                                   checked: real, now: real, built: bool, snapshot: bool, t: nat, worker: nat, others: Others)
      returns (answer: StartAnswer)
      requires Valid() && boot.Up? && Rely(c, others, {t, worker}) && checked <= now
      requires t !in threads && worker !in threads && t != worker
      modifies this, db
      ensures Valid() && Reaches(c, old(Now()), Now()) && t !in threads && P.Listed(old(db.preps))
      ensures answer.PreparationRequired? <==> !enabled || !P.HasAccepted(old(db.preps), tenant, setup, fingerprint)
      ensures answer.PreparationRequired? ==> Now() == old(Now())
      ensures var k := J.RequestKey(tenant, setup, key);
        !answer.PreparationRequired? && built && k in old(db.train.requests) ==>
          answer.Replay? && answer.job.id == old(db.train.requests)[k].jobId
      ensures var k := J.RequestKey(tenant, setup, key);
        answer.Replay? ==>
          && k in db.train.requests && db.train.requests[k].jobId == answer.job.id
          && answer.job.id in db.train.jobs && db.train.jobs[answer.job.id] == answer.job
      ensures var k := J.RequestKey(tenant, setup, key);
        answer.Started? || answer.NotSnapshotted? ==>
          k !in old(db.train.requests) && k in db.train.requests && db.train.requests[k].jobId == id
      ensures answer.Started? ==>
        && StartGate(old(db.preps), tenant, setup, fingerprint).Some?
        && answer.job == NewJob(id, StartGate(old(db.preps), tenant, setup, fingerprint).value)
        && answer.job.id == id && answer.job.tenant == tenant && answer.job.setup == setup && answer.job.status.Queued?
        && answer.job.prepFingerprint == fingerprint && answer.job.remote.None? && answer.job.custom
        && !answer.job.artifactsReady && answer.job.phase.Unset?
        && id in db.train.jobs && db.train.jobs[id] == answer.job
        && worker in threads && threads[worker] == JobSubmitting(answer.job) && JobKey(id) in active && JobKey(id) !in submitted
      ensures answer.StartFault? && built ==>
        && J.RequestKey(tenant, setup, key) !in db.train.requests && id in db.train.jobs
        && !J.AtActiveQuota(db.train, tenant, c.maxJobs) && !J.AtDailyQuota(db.train, tenant, checked, c.maxDaily)
      ensures answer.ActiveQuotaReached? ==>
        J.RequestKey(tenant, setup, key) !in db.train.requests && J.AtActiveQuota(db.train, tenant, c.maxJobs)
      ensures answer.DailyQuotaReached? ==>
        && J.RequestKey(tenant, setup, key) !in db.train.requests && !J.AtActiveQuota(db.train, tenant, c.maxJobs)
        && J.AtDailyQuota(db.train, tenant, checked, c.maxDaily)
      ensures answer.NotSnapshotted? ==> c.storage && !snapshot
      ensures answer.Started? ==> !c.storage || snapshot
      ensures answer.NotSnapshotted? ==>
        && id in db.train.jobs && db.train.jobs[id].status.Failed? && JobKey(id) !in active && JobKey(id) !in submitted
    {
      hide Inv, Reaches, Stepped, Apply, J.Reserve, P.Listed, Rely, StartGate, J.AtActiveQuota, J.AtDailyQuota, P.HasAccepted,
        Meanwhile, J.TablesOk, P.TableOk, PrepsGrow;
      ghost var start := Now();
      InvTables(c, start);
      ReachesSame(c, start);
      if !enabled {
        return PreparationRequired;
      }
      var found := PassGate(t, tenant, setup, fingerprint);
      if found.None? {
        return PreparationRequired;
      }
      ReachesThen(c, start, start, RequestStart(t, tenant, setup, fingerprint), Now());
      Pause(start, 0, others, {t, worker});
      ghost var before := Now();
      ReachesKeeps(c, start, before);
      if !built {
        AbandonHandler(start, t);
        return StartFault;
      }
      var outcome := ReserveJob(t, id, key, checked, now);
      InvTables(c, before);
      ReachesThen(c, start, before, ReserveStart(t, id, key, checked, now), Now());
      J.ReserveMeaning(before.train, NewJob(id, found.value), key, c.maxJobs, c.maxDaily, checked, now);
      if outcome.Replayed? {
        return Replay(outcome.job);
      } else if outcome.ActiveQuota? {
        return ActiveQuotaReached;
      } else if outcome.DailyQuota? {
        return DailyQuotaReached;
      } else if outcome.DuplicateId? {
        return StartFault;
      }
      before := Now();
      Pause(start, 1, others, {t, worker});
      before := Now();
      if c.storage && !snapshot {
        RefuseSnapshot(t);
        ReachesThen(c, start, before, SnapshotRefused(t), Now());
        return NotSnapshotted;
      }
      LaunchReserved(t, worker);
      ReachesThen(c, start, before, LaunchStart(t, worker), Now());
      return Started(NewJob(id, found.value));
    }

    // ----- _complete

    method SeeCompleted(t: nat, raw: string)
      requires Valid() && t in threads && threads[t].JobPolling? && MapNebiusState(raw) == Some(J.Completed)
      modifies this, db
      ensures Valid() && Stepped(c, old(Now()), PollJob(t, Says(raw)), Now())
      ensures var j := old(threads)[t].j.(status := J.Finalizing, phase := J.Finalization, artifactsReady := false);
        threads == old(threads)[t := JobFinalizing(j, c.jobAttempts)]
    {
      hide Inv, P.Listed, MapNebiusState;
      ghost var s := Now();
      InvTables(c, s);
      WorkerFacts(c, s, t);
      var j := threads[t].j.(status := J.Finalizing, phase := J.Finalization, artifactsReady := false);
      jobs.Put(j);
      threads := threads[t := JobFinalizing(j, c.jobAttempts)];
      SteppedKeeps(c, s, PollJob(t, Says(raw)), Now());
    }

    method ReadOnce(t: nat, read: ManifestRead)
      requires Valid() && t in threads && threads[t].JobFinalizing?
      modifies this, db
      ensures Valid() && Stepped(c, old(Now()), ReadManifest(t, read), Now())
      ensures var j, left := old(threads)[t].j, old(threads)[t].left;
        threads == old(threads)[t :=
          if left == 0 then JobFailing(j, J.Finalization)
          else
            match read
            case ManifestDeadline => JobFailing(j, J.Finalization)
            case ManifestInvalid => JobFailing(j, J.ArtifactValidation)
            case ManifestMissing => JobFinalizing(j, left - 1)
            case Manifest(_) => JobPublishing(j)]
    {
      hide Inv, Stepped;
      ghost var s := Now();
      var j, left := threads[t].j, threads[t].left;
      if left == 0 || read.ManifestDeadline? {
        threads := threads[t := JobFailing(j, J.Finalization)];
      } else if read.ManifestInvalid? {
        threads := threads[t := JobFailing(j, J.ArtifactValidation)];
      } else if read.ManifestMissing? {
        threads := threads[t := JobFinalizing(j, left - 1)];
      } else {
        jobs.SetArtifacts(j.id, read.manifest);
        threads := threads[t := JobPublishing(j)];
      }
      ManifestIsRead(c, s, t, read, Now());
    }

    method Publish(t: nat)
      requires Valid() && t in threads && threads[t].JobPublishing?
      modifies this, db
      ensures Valid() && Stepped(c, old(Now()), PublishJob(t), Now())
      ensures var j := old(threads)[t].j.(status := J.Completed, phase := J.Done, artifactsReady := true);
        && j.id in db.train.jobs && db.train.jobs[j.id] == j && j.id in db.train.artifacts
        && threads == old(threads)[t := Finished(JobKey(j.id))]
    {
      hide Inv, Stepped;
      ghost var s := Now();
      WorkerFacts(c, s, t);
      var j := threads[t].j.(status := J.Completed, phase := J.Done, artifactsReady := true);
      jobs.Put(j);
      threads := threads[t := Finished(JobKey(j.id))];
      JobIsPublished(c, s, t, Now());
    }

    method Fail(t: nat)
      requires Valid() && t in threads && threads[t].JobFailing?
      modifies this, db
      ensures Valid() && Stepped(c, old(Now()), FailJob(t), Now())
      ensures var j := FailedJob(old(threads)[t].j, old(threads)[t].reason);
        && j.id in db.train.jobs && db.train.jobs[j.id] == j
        && threads == old(threads)[t := Finished(JobKey(j.id))]
    {
      hide Inv, P.Listed;
      ghost var s := Now();
      InvTables(c, s);
      var j := FailedJob(threads[t].j, threads[t].reason);
      jobs.Put(j);
      threads := threads[t := Finished(JobKey(j.id))];
      SteppedKeeps(c, s, FailJob(t), Now());
    }

    /** The `finally` of a worker. */
    method Leave(t: nat)
      requires Valid() && t in threads && threads[t].Finished?
      modifies this
      ensures Valid() && Stepped(c, old(Now()), Retire(t), Now()) && db.train == old(db.train)
      ensures threads == old(threads) - {t} && old(threads)[t].key !in active
    {
      hide Inv, P.Listed;
      ghost var s := Now();
      InvTables(c, s);
      active := active - {threads[t].key};
      threads := threads - {t};
      SteppedKeeps(c, s, Retire(t), Now());
    }

    /**
     From the poll that reads a completed state: the manifest is stored before anything says the
     job is completed, and the job ends completed exactly when the manifest arrives in time.
     */
    method Complete(t: nat, raw: string, answers: nat -> ManifestRead, others: Others) returns (done: bool)
      requires Valid() && Rely(c, others, {t})
      requires t in threads && threads[t].JobPolling? && MapNebiusState(raw) == Some(J.Completed)
      modifies this, db
      ensures Valid() && Reaches(c, old(Now()), Now()) && t !in threads
      ensures done <==> Arrives(answers, 0, c.jobAttempts)
      ensures var j := old(threads)[t].j;
        && JobKey(j.id) !in active && j.id in db.train.jobs
        && (done ==> j.id in db.train.artifacts)
        && (done ==> db.train.jobs[j.id] == j.(status := J.Completed, phase := J.Done, artifactsReady := true))
        && (!done ==> db.train.jobs[j.id].status.Failed?)
    {
      hide Inv, Reaches, Stepped, Apply, P.Listed, Rely, MapNebiusState, Arrives;
      ghost var start := Now();
      ReachesSame(c, start);
      SeeCompleted(t, raw);
      ReachesThen(c, start, start, PollJob(t, Says(raw)), Now());
      var j, n := threads[t].j, 0;
      while threads[t].JobFinalizing?
        invariant Valid() && Reaches(c, start, Now()) && t in threads && n <= c.jobAttempts
        invariant threads[t].JobFinalizing? || threads[t].JobPublishing? || threads[t].JobFailing?
        invariant threads[t].j == j
        invariant threads[t].JobFinalizing? ==> threads[t].left == c.jobAttempts - n
        invariant Arrives(answers, 0, c.jobAttempts) <==>
          threads[t].JobPublishing? || (threads[t].JobFinalizing? && Arrives(answers, n, c.jobAttempts))
        decreases if threads[t].JobFinalizing? then c.jobAttempts - n + 1 else 0
      {
        Pause(start, n, others, {t});
        ghost var before := Now();
        ReadOnce(t, answers(n));
        ReachesThen(c, start, before, ReadManifest(t, answers(n)), Now());
        if n < c.jobAttempts {
          ArrivesNext(answers, n, c.jobAttempts);
          n := n + 1;
        } else {
          NoneLeft(answers, n);
        }
      }
      Pause(start, n + 1, others, {t});
      ghost var before := Now();
      done := threads[t].JobPublishing?;
      if done {
        Publish(t);
        ReachesThen(c, start, before, PublishJob(t), Now());
      } else {
        Fail(t);
        ReachesThen(c, start, before, FailJob(t), Now());
      }
      before := Now();
      Leave(t);
      ReachesThen(c, start, before, Retire(t), Now());
    }

    // ----- resume and resume_preparations

    /** A thread number not in use. */
    method NewThread() returns (t: nat)
      ensures t !in threads
    {
      t := 0;
      var rest := threads.Keys;
      while rest != {}
        invariant rest <= threads.Keys && forall u :: u in threads && u !in rest ==> u < t
      {
        var u :| u in rest;
        rest := rest - {u};
        t := if u < t then t else u + 1;
      }
    }

    method ListJobs()
      requires Valid() && boot.Down?
      modifies this
      ensures Valid() && Stepped(c, old(Now()), StartUp, Now()) && boot == ResumingJobs(J.ActiveJobs(db.train))
    {
      hide Inv, P.Listed;
      ghost var s := Now();
      InvTables(c, s);
      var listed := jobs.ListActive();
      assert listed == J.ActiveJobs(db.train);
      boot := ResumingJobs(listed);
      SteppedKeeps(c, s, StartUp, Now());
    }

    method HandleJob(id: Id) returns (ghost worker: nat)
      requires Valid() && boot.ResumingJobs? && id in boot.jobs
      modifies this, db
      ensures Valid() && Stepped(c, old(Now()), ResumeJob(id, worker), Now())
      ensures boot == ResumingJobs(old(boot).jobs - {id}) && db.preps == old(db.preps)
      ensures forall other :: other in old(db.train.jobs) && other != id ==>
        other in db.train.jobs && db.train.jobs[other] == old(db.train.jobs)[other]
      ensures id in db.train.jobs && (old(boot).jobs[id].remote.None? ==> db.train.jobs[id].status.Failed?)
    {
      hide Inv, Stepped;
      ghost var s := Now();
      BootJobFacts(c, s, id);
      var j := boot.jobs[id];
      var t := NewThread();
      worker := t;
      boot := ResumingJobs(boot.jobs - {id});
      if j.remote.None? {
        jobs.Put(FailedJob(j, J.Submission));
      } else if JobKey(id) !in active {
        active := active + {JobKey(id)};
        threads := threads[t := JobPolling(j)];
      }
      JobResumes(c, s, id, worker, Now());
    }

    method ListPreps()
      requires Valid() && boot.ResumingJobs? && boot.jobs == map[]
      modifies this
      ensures Valid() && Stepped(c, old(Now()), JobsResumed, Now()) && boot == ResumingPreps(P.ActiveAttempts(db.preps))
    {
      hide Inv, Stepped, P.Decode;
      ghost var s := Now();
      var listed := custom.ListActivePreparations();
      assert listed == P.ActiveAttempts(db.preps);
      boot := ResumingPreps(listed);
      PrepsAreListed(c, s, Now());
    }

    method FailInterrupted(id: Id, ghost worker: nat)
      requires Valid() && boot.ResumingPreps? && id in boot.preps && boot.preps[id].remote.None? && worker !in threads
      modifies this, db
      ensures Valid() && Stepped(c, old(Now()), ResumePrep(id, worker), Now())
      ensures boot == ResumingPreps(old(boot).preps - {id}) && db.train == old(db.train)
      ensures forall other :: other in old(db.preps.rows) && other != id ==>
        other in db.preps.rows && db.preps.rows[other] == old(db.preps.rows)[other]
      ensures id in db.preps.rows && db.preps.rows[id].state.Failed?
    {
      hide Inv, P.Listed, Stepped, Apply;
      ghost var s := Now();
      InterruptedFails(c, s, id, worker);
      BootPrepFacts(c, s, id);
      var a := FailedAttempt(boot.preps[id], P.Submission);
      boot := ResumingPreps(boot.preps - {id});
      var _ := custom.PutPreparation(a);
      PrepResumes(c, s, id, worker, Now());
    }

    method PollAgain(id: Id, worker: nat)
      requires Valid() && boot.ResumingPreps? && id in boot.preps && boot.preps[id].remote.Some? && worker !in threads
      modifies this
      ensures Valid() && Stepped(c, old(Now()), ResumePrep(id, worker), Now())
      ensures boot == ResumingPreps(old(boot).preps - {id}) && db.preps == old(db.preps) && id in db.preps.rows
    {
      hide Inv, Stepped, P.Put, P.Decode, InterruptedPrep;
      ghost var s := Now();
      BootPrepFacts(c, s, id);
      var a := boot.preps[id];
      boot := ResumingPreps(boot.preps - {id});
      if PrepKey(id) !in active {
        active := active + {PrepKey(id)};
        threads := threads[worker := PrepPolling(a)];
      }
      PrepResumes(c, s, id, worker, Now());
    }

    method HandlePrep(id: Id) returns (ghost worker: nat)
      requires Valid() && boot.ResumingPreps? && id in boot.preps
      modifies this, db
      ensures Valid() && Stepped(c, old(Now()), ResumePrep(id, worker), Now())
      ensures boot == ResumingPreps(old(boot).preps - {id}) && db.train == old(db.train)
      ensures forall other :: other in old(db.preps.rows) && other != id ==>
        other in db.preps.rows && db.preps.rows[other] == old(db.preps.rows)[other]
      ensures id in db.preps.rows && (old(boot).preps[id].remote.None? ==> db.preps.rows[id].state.Failed?)
    {
      hide Inv, P.Listed, Stepped;
      var t := NewThread();
      worker := t;
      if boot.preps[id].remote.None? {
        FailInterrupted(id, worker);
      } else {
        PollAgain(id, t);
      }
    }

    method ResumeJobs(ghost start: State, others: Others)
      requires Valid() && boot.Down? && Rely(c, others, {}) && start == Now()
      modifies this, db
      ensures Valid() && Reaches(c, start, Now()) && boot == ResumingJobs(map[]) && db.preps == start.preps
      ensures forall id :: InterruptedJob(start.train, id) ==> id in db.train.jobs && db.train.jobs[id].status.Failed?
    {
      hide Inv, Reaches, Stepped, Rely, Meanwhile;
      ReachesSame(c, start);
      ListJobs();
      ReachesThen(c, start, start, StartUp, Now());
      var n := 0;
      while boot.jobs != map[]
        invariant Valid() && Reaches(c, start, Now()) && boot.ResumingJobs? && db.preps == start.preps
        invariant forall id :: InterruptedJob(start.train, id) ==>
          (id in boot.jobs && boot.jobs[id].remote.None?) || (id in db.train.jobs && db.train.jobs[id].status.Failed?)
        decreases boot.jobs.Keys
      {
        ghost var before := Now();
        Pause(start, n, others, {});
        PrepsWait(c, before, Now());
        before := Now();
        assert boot.jobs.Keys != {};
        var id :| id in boot.jobs.Keys;
        BootJobFacts(c, before, id);
        ghost var worker := HandleJob(id);
        ReachesThen(c, start, before, ResumeJob(id, worker), Now());
        n := n + 1;
      }
    }

    /** One attempt of the list, and what the others did before it. */
    method NextPrep(ghost start: State, ghost first: State, n: nat, others: Others)
      requires Valid() && boot.ResumingPreps? && boot.preps != map[] && Rely(c, others, {}) && Reaches(c, start, Now())
      requires FailedStay(first.train, db.train) && PrepsSettle(first.preps, boot.preps, db.preps)
      modifies this, db
      ensures Valid() && boot.ResumingPreps? && boot.preps.Keys < old(boot).preps.Keys && Reaches(c, start, Now())
      ensures FailedStay(first.train, db.train) && PrepsSettle(first.preps, boot.preps, db.preps)
    {
      hide Inv, Reaches, Stepped, Rely, Meanwhile, Grows, FailedStay;
      ghost var before := Now();
      Pause(start, n, others, {});
      SettlesOn(first.preps, boot.preps, before, Now());
      StayOn(first.train, before.train, db.train);
      before := Now();
      assert boot.preps.Keys != {};
      var id :| id in boot.preps.Keys;
      BootPrepFacts(c, before, id);
      ghost var worker := HandlePrep(id);
      ReachesThen(c, start, before, ResumePrep(id, worker), Now());
    }

    method ResumePreps(ghost start: State, others: Others)
      requires Valid() && boot == ResumingJobs(map[]) && Rely(c, others, {}) && Reaches(c, start, Now())
      modifies this, db
      ensures Valid() && Reaches(c, start, Now()) && boot.ResumingPreps? && boot.preps == map[]
      ensures FailedStay(old(db.train), db.train)
      ensures forall id :: InterruptedPrep(old(db.preps), id) ==> id in db.preps.rows && db.preps.rows[id].state.Failed?
    {
      hide Inv, Reaches, Stepped, Rely, Meanwhile;
      ghost var first := Now();
      ListPreps();
      ReachesThen(c, start, first, JobsResumed, Now());
      var n := 0;
      while boot.preps != map[]
        invariant Valid() && Reaches(c, start, Now()) && boot.ResumingPreps?
        invariant FailedStay(first.train, db.train) && PrepsSettle(first.preps, boot.preps, db.preps)
        decreases boot.preps.Keys
      {
        NextPrep(start, first, n, others);
        n := n + 1;
      }
    }

    /**
     The whole start-up.  Every interrupted submission ends as a failure, and every record still
     unfinished has a remote id and one thread to drive it, unless that thread has died already.
     */
    method Resume(others: Others)
      requires Valid() && boot.Down? && Rely(c, others, {})
      modifies this, db
      ensures Valid() && Reaches(c, old(Now()), Now()) && boot.Up?
      ensures forall id :: InterruptedJob(old(db.train), id) ==> id in db.train.jobs && db.train.jobs[id].status.Failed?
      ensures forall id :: InterruptedPrep(old(db.preps), id) ==> id in db.preps.rows && db.preps.rows[id].state.Failed?
      ensures forall id :: id in db.train.jobs && !J.Terminal(db.train.jobs[id].status) ==>
        db.train.jobs[id].remote.Some? && Driven(Now(), JobKey(id))
      ensures forall id :: id in db.preps.rows && P.Live(db.preps.rows[id].state) ==>
        db.preps.rows[id].data.remote.Some? && Driven(Now(), PrepKey(id))
    {
      hide Inv, Reaches, Stepped, Rely, Driven;
      ghost var start := Now();
      ResumeJobs(start, others);
      ResumePreps(start, others);
      ghost var before := Now();
      OpenRequests();
      ReachesThen(c, start, before, BootDone, Now());
      forall id | id in db.train.jobs && !J.Terminal(db.train.jobs[id].status)
        ensures db.train.jobs[id].remote.Some? && Driven(Now(), JobKey(id))
      {
        BootDoneJob(c, before, Now(), id);
        UpDrives(c, Now(), JobKey(id));
      }
      forall id | id in db.preps.rows && P.Live(db.preps.rows[id].state)
        ensures db.preps.rows[id].data.remote.Some? && Driven(Now(), PrepKey(id))
      {
        BootDonePrep(c, before, Now(), id);
        UpDrives(c, Now(), PrepKey(id));
      }
    }

    method OpenRequests()
      requires Valid() && boot.ResumingPreps? && boot.preps == map[]
      modifies this`boot
      ensures Valid() && Stepped(c, old(Now()), BootDone, Now()) && DoBootDone(old(Now())) == Some(Now()) && boot.Up?
    {
      hide Inv, P.Listed;
      ghost var s := Now();
      InvTables(c, s);
      boot := Up;
      SteppedKeeps(c, s, BootDone, Now());
    }
  }
}
