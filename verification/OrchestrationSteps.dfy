/** One lemma per kind of step: what a table write, a new thread, or an ended thread keeps. */
module OrchestrationSteps {
  import opened Wrappers
  import P = Preparations
  import J = TrainingJobs
  import opened Orchestration
  import opened OrchestrationInvariant

  // ----- writing the record a thread owns

  lemma ThreadsPrepWrite(p: P.Table, d: J.Tables, submitted: multiset<Key>, threads: map<nat, Thread>,
                         t: nat, a: P.Attempt, next: Thread)
    requires ThreadsOk(p, d, submitted, threads)
    requires a.id in p.rows && a.tenant == p.rows[a.id].tenant && P.Live(p.rows[a.id].state)
    requires forall u :: u in threads && u != t ==> KeyOf(threads[u]) != Some(PrepKey(a.id))
    requires ThreadOk(P.Put(p, a).value, d, submitted, next)
    ensures ThreadsOk(P.Put(p, a).value, d, submitted, threads[t := next])
    ensures ThreadsOk(P.Put(p, a).value, d, submitted, threads - {t})
  {
    forall u | u in threads && u != t ensures ThreadOk(P.Put(p, a).value, d, submitted, threads[u]) {
      PrepFrame(p, d, submitted, a, threads[u]);
    }
  }

  lemma ThreadsJobWrite(p: P.Table, d: J.Tables, submitted: multiset<Key>, threads: map<nat, Thread>,
                        t: nat, j: J.Job, next: Thread)
    requires ThreadsOk(p, d, submitted, threads) && j.id in d.jobs
    requires forall u :: u in threads && u != t ==> KeyOf(threads[u]) != Some(JobKey(j.id))
    requires ThreadOk(p, J.Put(d, j), submitted, next)
    ensures ThreadsOk(p, J.Put(d, j), submitted, threads[t := next])
    ensures ThreadsOk(p, J.Put(d, j), submitted, threads - {t})
  {
    forall u | u in threads && u != t ensures ThreadOk(p, J.Put(d, j), submitted, threads[u]) {
      JobFrame(p, d, submitted, j, threads[u]);
    }
  }

  lemma BootPrepWrite(p: P.Table, d: J.Tables, boot: Boot, threads: map<nat, Thread>, a: P.Attempt)
    requires BootOk(p, d, boot, threads) && !boot.Down? && !BootHolds(boot, PrepKey(a.id))
    requires a.id in p.rows && a.tenant == p.rows[a.id].tenant
    ensures forall threads' :: BootOk(P.Put(p, a).value, d, boot, threads')
  {
  }

  lemma BootJobWrite(p: P.Table, d: J.Tables, boot: Boot, threads: map<nat, Thread>, j: J.Job)
    requires BootOk(p, d, boot, threads) && !boot.Down? && !BootHolds(boot, JobKey(j.id))
    ensures forall threads' :: BootOk(p, J.Put(d, j), boot, threads')
  {
  }

  /** Held by another thread, or by this one unless its record just became terminal. */
  lemma CoveredPrepWrite(p: P.Table, d: J.Tables, lost: set<Key>, boot: Boot, threads: map<nat, Thread>,
                         t: nat, a: P.Attempt, next: Thread)
    requires JobsCovered(d, lost, boot, threads) && PrepsCovered(p, lost, boot, threads)
    requires a.id in p.rows && a.tenant == p.rows[a.id].tenant && P.Live(p.rows[a.id].state)
    requires t in threads && KeyOf(threads[t]) == Some(PrepKey(a.id)) && KeyOf(next) == Some(PrepKey(a.id))
    requires CanWrite(next) || !P.Live(a.state)
    ensures JobsCovered(d, lost, boot, threads[t := next])
    ensures PrepsCovered(P.Put(p, a).value, lost, boot, threads[t := next])
  {
    forall key | Attended(lost, boot, threads, key) && (key != PrepKey(a.id) || CanWrite(next))
      ensures Attended(lost, boot, threads[t := next], key)
    {
      if Held(threads, key) { HeldUpdate(threads, t, next, key); }
    }
  }

  lemma CoveredJobWrite(p: P.Table, d: J.Tables, lost: set<Key>, boot: Boot, threads: map<nat, Thread>,
                        t: nat, j: J.Job, next: Thread)
    requires JobsCovered(d, lost, boot, threads) && PrepsCovered(p, lost, boot, threads)
    requires j.id in d.jobs
    requires t in threads && KeyOf(threads[t]) == Some(JobKey(j.id)) && KeyOf(next) == Some(JobKey(j.id))
    requires J.Terminal(d.jobs[j.id].status) ==> J.Terminal(j.status)
    requires CanWrite(next) || J.Terminal(j.status)
    ensures JobsCovered(J.Put(d, j), lost, boot, threads[t := next])
    ensures PrepsCovered(p, lost, boot, threads[t := next])
  {
    forall key | Attended(lost, boot, threads, key) && (key != JobKey(j.id) || CanWrite(next))
      ensures Attended(lost, boot, threads[t := next], key)
    {
      if Held(threads, key) { HeldUpdate(threads, t, next, key); }
    }
  }

  lemma BootRuns(s: State, t: nat)
    requires ProcessOk(s) && t in s.threads
    ensures !s.boot.Down? && (!s.boot.Up? ==> !Issued(s.threads[t]))
  {
  }

  lemma PrepWriteProcess(s: State, s': State, t: nat, a: P.Attempt, next: Thread)
    requires ProcessOk(s) && t in s.threads && IsPrep(s.threads[t])
    requires P.SameIdentity(a, s.threads[t].a) && KeyOf(next) == Some(PrepKey(a.id))
    requires Handler(next) == Handler(s.threads[t]) && !Issued(next)
    requires Unsubmitted(next) ==> Unsubmitted(s.threads[t])
    requires CanWrite(next) || !P.Live(a.state)
    requires a.id in s.preps.rows ==> a.remote == s.preps.rows[a.id].data.remote || Issued(s.threads[t])
    requires a.id in s.preps.rows && a.tenant == s.preps.rows[a.id].tenant && P.Live(s.preps.rows[a.id].state)
    requires s' == Become(s, t, next).(preps := P.Put(s.preps, a).value)
    requires ThreadOk(s'.preps, s.train, s.submitted, next)
    ensures ProcessOk(s')
  {
    hide ThreadsOk, BootOk, ActiveOk, JobsCovered, PrepsCovered, OnlyPollers, ThreadOk;
    PollersUpdate(s.preps, s.train, s.boot, s.threads, t, next);
    BootRuns(s, t);
    ThreadsPrepWrite(s.preps, s.train, s.submitted, s.threads, t, a, next);
    BootPrepWrite(s.preps, s.train, s.boot, s.threads, a);
    ExclusiveUpdate(s.threads, s.boot, t, next);
    ActiveUpdate(s.active, s.threads, t, next);
    CoveredPrepWrite(s.preps, s.train, s.lost, s.boot, s.threads, t, a, next);
  }

  lemma JobWriteProcess(s: State, s': State, t: nat, j: J.Job, next: Thread)
    requires ProcessOk(s) && t in s.threads && IsJob(s.threads[t])
    requires J.SameIdentity(j, s.threads[t].j) && KeyOf(next) == Some(JobKey(j.id))
    requires Handler(next) == Handler(s.threads[t]) && !Issued(next)
    requires Unsubmitted(next) ==> Unsubmitted(s.threads[t])
    requires CanWrite(next) || J.Terminal(j.status)
    requires j.remote == s.threads[t].j.remote || Issued(s.threads[t])
    requires j.id in s.train.jobs && s.train.jobs[j.id] == s.threads[t].j
    requires J.Terminal(s.train.jobs[j.id].status) ==> J.Terminal(j.status)
    requires s' == Become(s, t, next).(train := J.Put(s.train, j))
    requires ThreadOk(s.preps, s'.train, s.submitted, next)
    ensures ProcessOk(s')
  {
    hide ThreadsOk, BootOk, ActiveOk, JobsCovered, PrepsCovered, OnlyPollers, ThreadOk;
    PollersUpdate(s.preps, s.train, s.boot, s.threads, t, next);
    BootRuns(s, t);
    ThreadsJobWrite(s.preps, s.train, s.submitted, s.threads, t, j, next);
    BootJobWrite(s.preps, s.train, s.boot, s.threads, j);
    ExclusiveUpdate(s.threads, s.boot, t, next);
    ActiveUpdate(s.active, s.threads, t, next);
    CoveredJobWrite(s.preps, s.train, s.lost, s.boot, s.threads, t, j, next);
  }

  // ----- what the same writes do to the durable half

  lemma PrepWriteDurable(c: Config, s: State, a: P.Attempt)
    requires DurableOk(c, s) && P.WellShaped(a)
    requires a.id in s.preps.rows && P.SameIdentity(a, s.preps.rows[a.id].data) && P.Live(s.preps.rows[a.id].state)
    requires RemoteKnown(s.submitted, PrepKey(a.id), a.remote)
    ensures P.Put(s.preps, a).Some? && DurableOk(c, WritePrep(s, a))
    ensures WritePrep(s, a) == s.(preps := P.Put(s.preps, a).value)
  {
    P.PutKeepsTable(s.preps, a, c.maxPreps);
    PreparedFrame(s.preps, s.train, a);
  }

  lemma JobWriteLinks(p: P.Table, d: J.Tables, submitted: multiset<Key>, replies: seq<Reply>, j: J.Job)
    requires SubmittedOk(p, d, submitted) && Prepared(p, d) && RepliesOk(d, replies)
    requires j.id in d.jobs && J.SameIdentity(j, d.jobs[j.id]) && RemoteKnown(submitted, JobKey(j.id), j.remote)
    ensures SubmittedOk(p, J.Put(d, j), submitted) && Prepared(p, J.Put(d, j)) && RepliesOk(J.Put(d, j), replies)
  {
  }

  lemma JobWriteDurable(c: Config, s: State, j: J.Job)
    requires DurableOk(c, s)
    requires j.id in s.train.jobs && J.SameIdentity(j, s.train.jobs[j.id]) && J.JobOk(s.train, j.id, j)
    requires J.Terminal(s.train.jobs[j.id].status) ==> J.Terminal(j.status)
    requires RemoteKnown(s.submitted, JobKey(j.id), j.remote)
    ensures DurableOk(c, WriteJob(s, j))
  {
    J.PutKeepsTables(s.train, j, c.maxJobs, c.maxDaily);
    JobWriteLinks(s.preps, s.train, s.submitted, s.replies, j);
    hide P.TableOk, J.TablesOk, SubmittedOk, Prepared, RepliesOk;
  }

  // ----- threads that end and threads that start

  lemma HeldEnd(threads: map<nat, Thread>, t: nat, key: Key)
    requires Held(threads, key) && (t in threads ==> KeyOf(threads[t]) != Some(key))
    ensures Held(threads - {t}, key)
  {
    var after := threads - {t};
    var u :| u in threads && CanWrite(threads[u]) && KeyOf(threads[u]) == Some(key);
    assert u in after && CanWrite(after[u]) && KeyOf(after[u]) == Some(key);
  }

  lemma WorkingEnd(threads: map<nat, Thread>, t: nat, key: Key)
    requires t in threads && (Handler(threads[t]) || KeyOf(threads[t]) != Some(key))
    ensures Working(threads - {t}, key) <==> Working(threads, key)
  {
    var after := threads - {t};
    if Working(threads, key) {
      var u :| u in threads && !Handler(threads[u]) && KeyOf(threads[u]) == Some(key);
      assert u in after && !Handler(after[u]) && KeyOf(after[u]) == Some(key);
    }
    if Working(after, key) {
      var u :| u in after && !Handler(after[u]) && KeyOf(after[u]) == Some(key);
      assert u in threads && !Handler(threads[u]) && KeyOf(threads[u]) == Some(key);
    }
  }

  lemma ActiveEndHandler(active: set<Key>, threads: map<nat, Thread>, t: nat)
    requires ActiveOk(active, threads) && t in threads && Handler(threads[t])
    ensures ActiveOk(active, threads - {t})
  {
    forall key ensures Working(threads - {t}, key) <==> Working(threads, key) {
      WorkingEnd(threads, t, key);
    }
  }

  lemma WorkingNew(threads: map<nat, Thread>, t: nat, th: Thread, key: Key)
    requires t !in threads
    ensures Working(threads[t := th], key) <==> Working(threads, key) || (!Handler(th) && KeyOf(th) == Some(key))
  {
    var after := threads[t := th];
    if Working(threads, key) {
      var u :| u in threads && !Handler(threads[u]) && KeyOf(threads[u]) == Some(key);
      assert u in after && !Handler(after[u]) && KeyOf(after[u]) == Some(key);
    }
    if !Handler(th) && KeyOf(th) == Some(key) {
      assert t in after && !Handler(after[t]) && KeyOf(after[t]) == Some(key);
    }
    if Working(after, key) {
      var u :| u in after && !Handler(after[u]) && KeyOf(after[u]) == Some(key);
      if u != t {
        assert u in threads && !Handler(threads[u]) && KeyOf(threads[u]) == Some(key);
      }
    }
  }

  lemma ActiveNewWorker(active: set<Key>, threads: map<nat, Thread>, t: nat, th: Thread)
    requires ActiveOk(active, threads) && t !in threads && !Handler(th) && KeyOf(th).Some?
    ensures ActiveOk(active + {KeyOf(th).value}, threads[t := th])
  {
    forall key ensures key in active + {KeyOf(th).value} <==> Working(threads[t := th], key) {
      WorkingNew(threads, t, th, key);
    }
  }

  lemma ActiveNewHandler(active: set<Key>, threads: map<nat, Thread>, t: nat, th: Thread)
    requires ActiveOk(active, threads) && t !in threads && Handler(th)
    ensures ActiveOk(active, threads[t := th])
  {
    forall key ensures key in active <==> Working(threads[t := th], key) {
      WorkingNew(threads, t, th, key);
    }
  }

  lemma HeldNew(threads: map<nat, Thread>, t: nat, th: Thread, key: Key)
    requires t !in threads
    requires Held(threads, key) || (CanWrite(th) && KeyOf(th) == Some(key))
    ensures Held(threads[t := th], key)
  {
    var after := threads[t := th];
    if Held(threads, key) {
      var u :| u in threads && CanWrite(threads[u]) && KeyOf(threads[u]) == Some(key);
      assert u in after && CanWrite(after[u]) && KeyOf(after[u]) == Some(key);
    } else {
      assert t in after && CanWrite(after[t]) && KeyOf(after[t]) == Some(key);
    }
  }

  /** A handler writes its record's end and stops. */
  lemma PrepHandlerEnds(s: State, s': State, t: nat, a: P.Attempt)
    requires ProcessOk(s) && t in s.threads && s.threads[t].PrepDescribed?
    requires P.SameIdentity(a, s.threads[t].a) && !P.Live(a.state)
    requires a.id in s.preps.rows && a.tenant == s.preps.rows[a.id].tenant && P.Live(s.preps.rows[a.id].state)
    requires s' == End(s, t).(preps := P.Put(s.preps, a).value)
    ensures ProcessOk(s')
  {
    ThreadsPrepWrite(s.preps, s.train, s.submitted, s.threads, t, a, Finished(PrepKey(a.id)));
    BootPrepWrite(s.preps, s.train, s.boot, s.threads, a);
    ActiveEndHandler(s.active, s.threads, t);
    forall key | Attended(s.lost, s.boot, s.threads, key) && key != PrepKey(a.id)
      ensures Attended(s.lost, s.boot, s'.threads, key)
    {
      if Held(s.threads, key) { HeldEnd(s.threads, t, key); }
    }
  }

  lemma JobHandlerEnds(s: State, s': State, t: nat, j: J.Job)
    requires ProcessOk(s) && t in s.threads && s.threads[t].JobReserved?
    requires J.SameIdentity(j, s.threads[t].j) && J.Terminal(j.status)
    requires j.id in s.train.jobs
    requires s' == End(s, t).(train := J.Put(s.train, j))
    ensures ProcessOk(s')
  {
    ThreadsJobWrite(s.preps, s.train, s.submitted, s.threads, t, j, Finished(JobKey(j.id)));
    BootJobWrite(s.preps, s.train, s.boot, s.threads, j);
    ActiveEndHandler(s.active, s.threads, t);
    forall key | Attended(s.lost, s.boot, s.threads, key) && key != JobKey(j.id)
      ensures Attended(s.lost, s.boot, s'.threads, key)
    {
      if Held(s.threads, key) { HeldEnd(s.threads, t, key); }
    }
  }

  /** A handler that owns no record ends. */
  lemma UnkeyedEnds(s: State, t: nat)
    requires ProcessOk(s) && t in s.threads && s.threads[t].StartAllowed?
    ensures ProcessOk(End(s, t))
  {
    ActiveEndHandler(s.active, s.threads, t);
    forall key | Attended(s.lost, s.boot, s.threads, key)
      ensures Attended(s.lost, s.boot, s.threads - {t}, key)
    {
      if Held(s.threads, key) { HeldEnd(s.threads, t, key); }
    }
  }

  // ----- launching

  /** The handler gives its record to a new worker: the dedup in `_start` never fires. */
  lemma HandOff(s: State, t: nat, worker: nat, th: Thread)
    requires ProcessOk(s) && t in s.threads && worker !in s.threads
    requires Handler(s.threads[t]) && !Handler(th) && CanWrite(th) && Unsubmitted(th)
    requires KeyOf(th) == KeyOf(s.threads[t])
    requires ThreadOk(s.preps, s.train, s.submitted, th)
    ensures Spawn(End(s, t), worker, KeyOf(th).value, th)
      == End(s, t).(active := s.active + {KeyOf(th).value}, threads := (s.threads - {t})[worker := th])
    ensures ProcessOk(Spawn(End(s, t), worker, KeyOf(th).value, th))
  {
    var key := KeyOf(th).value;
    assert !Working(s.threads, key);
    ActiveEndHandler(s.active, s.threads, t);
    var rest := s.threads - {t};
    ActiveNewWorker(s.active, rest, worker, th);
    var after := rest[worker := th];
    forall k | Attended(s.lost, s.boot, s.threads, k) ensures Attended(s.lost, s.boot, after, k) {
      if k == key { HeldNew(rest, worker, th, k); }
      else if Held(s.threads, k) { HeldEnd(s.threads, t, k); HeldNew(rest, worker, th, k); }
    }
    HandOffThreads(s, t, worker, th);
  }

  lemma HandOffThreads(s: State, t: nat, worker: nat, th: Thread)
    requires ProcessOk(s) && t in s.threads && worker !in s.threads
    requires KeyOf(th) == KeyOf(s.threads[t]) && KeyOf(th).Some? && Handler(s.threads[t])
    requires ThreadOk(s.preps, s.train, s.submitted, th)
    ensures ThreadsOk(s.preps, s.train, s.submitted, (s.threads - {t})[worker := th])
    ensures Exclusive((s.threads - {t})[worker := th], s.boot)
    ensures s.boot.Up?
  {
  }

  // ----- new records

  lemma ThreadsPrepInsert(p: P.Table, d: J.Tables, submitted: multiset<Key>, threads: map<nat, Thread>,
                          a: P.Attempt, now: real)
    requires ThreadsOk(p, d, submitted, threads) && a.id !in p.rows
    ensures ThreadsOk(P.Insert(p, a, now), d, submitted, threads)
  {
    forall u | u in threads ensures ThreadOk(P.Insert(p, a, now), d, submitted, threads[u]) {
      assert ThreadOk(p, d, submitted, threads[u]);
    }
  }

  lemma ThreadsJobInsert(p: P.Table, d: J.Tables, submitted: multiset<Key>, threads: map<nat, Thread>,
                         j: J.Job, k: J.RequestKey, now: real)
    requires ThreadsOk(p, d, submitted, threads) && j.id !in d.jobs
    ensures ThreadsOk(p, J.Insert(d, j, k, now), submitted, threads)
  {
    forall u | u in threads ensures ThreadOk(p, J.Insert(d, j, k, now), submitted, threads[u]) {
      assert ThreadOk(p, d, submitted, threads[u]);
    }
  }

  /** Nobody owns the key of a record that does not exist yet. */
  lemma NewKeyUnowned(p: P.Table, d: J.Tables, submitted: multiset<Key>, threads: map<nat, Thread>, key: Key)
    requires ThreadsOk(p, d, submitted, threads) && !KeyExists(p, d, key)
    ensures forall u :: u in threads ==> KeyOf(threads[u]) != Some(key)
  {
    forall u | u in threads ensures KeyOf(threads[u]) != Some(key) {
      assert ThreadOk(p, d, submitted, threads[u]);
    }
  }

  lemma PrepInsertProcess(s: State, s': State, t: nat, a: P.Attempt, now: real)
    requires ProcessOk(s) && s.boot.Up? && t !in s.threads
    requires a.id !in s.preps.rows && P.FreshAttempt(a) && PrepKey(a.id) !in s.submitted
    requires s' == s.(preps := P.Insert(s.preps, a, now), threads := s.threads[t := PrepReserved(a)])
    ensures ProcessOk(s')
  {
    NewKeyUnowned(s.preps, s.train, s.submitted, s.threads, PrepKey(a.id));
    ThreadsPrepInsert(s.preps, s.train, s.submitted, s.threads, a, now);
    ActiveNewHandler(s.active, s.threads, t, PrepReserved(a));
    forall key | Attended(s.lost, s.boot, s.threads, key) || key == PrepKey(a.id)
      ensures Attended(s.lost, s.boot, s'.threads, key)
    {
      if Held(s.threads, key) || key == PrepKey(a.id) { HeldNew(s.threads, t, PrepReserved(a), key); }
    }
  }

  lemma JobInsertProcess(s: State, s': State, t: nat, j: J.Job, k: J.RequestKey, now: real)
    requires ProcessOk(s) && s.boot.Up? && t in s.threads && s.threads[t].StartAllowed?
    requires j.id !in s.train.jobs && JobKey(j.id) !in s.submitted && j.remote.None? && !J.Terminal(j.status)
    requires s' == Become(s, t, JobReserved(j)).(train := J.Insert(s.train, j, k, now), replies := s'.replies)
    ensures ProcessOk(s')
  {
    var rest := s.threads - {t};
    NewKeyUnowned(s.preps, s.train, s.submitted, s.threads, JobKey(j.id));
    ThreadsJobInsert(s.preps, s.train, s.submitted, s.threads, j, k, now);
    ActiveEndHandler(s.active, s.threads, t);
    ActiveNewHandler(s.active, rest, t, JobReserved(j));
    assert rest[t := JobReserved(j)] == s'.threads;
    forall key | Attended(s.lost, s.boot, s.threads, key) || key == JobKey(j.id)
      ensures Attended(s.lost, s.boot, s'.threads, key)
    {
      if key == JobKey(j.id) { HeldNew(rest, t, JobReserved(j), key); }
      else if Held(s.threads, key) { HeldEnd(s.threads, t, key); HeldNew(rest, t, JobReserved(j), key); }
    }
  }

  /** A start handler passes the gate. */
  lemma StartAllowedProcess(s: State, t: nat, a: P.Attempt)
    requires ProcessOk(s) && s.boot.Up? && t !in s.threads
    requires AcceptedRow(s.preps, a.id, a.tenant, a.setup, a.fingerprint)
    ensures ProcessOk(Become(s, t, StartAllowed(a)))
  {
    ActiveNewHandler(s.active, s.threads, t, StartAllowed(a));
    forall key | Attended(s.lost, s.boot, s.threads, key)
      ensures Attended(s.lost, s.boot, s.threads[t := StartAllowed(a)], key)
    {
      if Held(s.threads, key) { HeldNew(s.threads, t, StartAllowed(a), key); }
    }
  }

  /** Storing a manifest disturbs no thread. */
  lemma ArtifactsProcess(s: State, id: Id, manifest: string)
    requires ProcessOk(s)
    ensures ProcessOk(s.(train := J.SetArtifacts(s.train, id, manifest)))
  {
    forall t | t in s.threads
      ensures ThreadOk(s.preps, J.SetArtifacts(s.train, id, manifest), s.submitted, s.threads[t])
    {
      assert ThreadOk(s.preps, s.train, s.submitted, s.threads[t]);
    }
  }

  // ----- the process itself

  lemma RetireProcess(s: State, t: nat)
    requires ProcessOk(s) && t in s.threads && s.threads[t].Finished?
    ensures ProcessOk(DoRetire(s, t).value)
  {
    var s' := DoRetire(s, t).value;
    forall key ensures key in s'.active <==> Working(s'.threads, key) {
      if key != s.threads[t].key { WorkingEnd(s.threads, t, key); }
    }
    forall key | Attended(s.lost, s.boot, s.threads, key) ensures Attended(s.lost, s.boot, s'.threads, key) {
      if Held(s.threads, key) {
        var u :| u in s.threads && CanWrite(s.threads[u]) && KeyOf(s.threads[u]) == Some(key);
        assert u in s'.threads && CanWrite(s'.threads[u]) && KeyOf(s'.threads[u]) == Some(key);
      }
    }
  }

  lemma DieHandler(s: State, t: nat)
    requires ProcessOk(s) && t in s.threads && Handler(s.threads[t]) && KeyOf(s.threads[t]).Some?
    ensures ProcessOk(End(s, t).(lost := s.lost + {KeyOf(s.threads[t]).value}))
  {
    var key := KeyOf(s.threads[t]).value;
    ActiveEndHandler(s.active, s.threads, t);
    forall k | Attended(s.lost, s.boot, s.threads, k)
      ensures Attended(s.lost + {key}, s.boot, s.threads - {t}, k)
    {
      if Held(s.threads, k) && k != key { HeldEnd(s.threads, t, k); }
    }
  }

  lemma DieWorker(s: State, t: nat)
    requires ProcessOk(s) && t in s.threads && CanWrite(s.threads[t]) && !Handler(s.threads[t])
    ensures ProcessOk(Become(s, t, Finished(KeyOf(s.threads[t]).value)).(lost := s.lost + {KeyOf(s.threads[t]).value}))
  {
    var key := KeyOf(s.threads[t]).value;
    var th := Finished(key);
    assert ThreadOk(s.preps, s.train, s.submitted, s.threads[t]);
    ThreadsUpdate(s.preps, s.train, s.submitted, s.submitted, s.threads, t, th);
    ExclusiveUpdate(s.threads, s.boot, t, th);
    ActiveUpdate(s.active, s.threads, t, th);
    forall k | Attended(s.lost, s.boot, s.threads, k)
      ensures Attended(s.lost + {key}, s.boot, s.threads[t := th], k)
    {
      if Held(s.threads, k) && k != key { HeldUpdate(s.threads, t, th, k); }
    }
  }

  // ----- start-up

  lemma StartUpProcess(s: State)
    requires ProcessOk(s) && s.boot.Down?
    requires forall id :: id in s.train.jobs ==> s.train.jobs[id].id == id
    ensures ProcessOk(DoStartUp(s).value)
  {
  }

  lemma JobsResumedProcess(s: State)
    requires ProcessOk(s) && s.boot.ResumingJobs? && s.boot.jobs == map[]
    requires forall id :: id in s.preps.rows ==> P.RowOk(id, s.preps.rows[id])
    ensures ProcessOk(DoJobsResumed(s).value)
  {
  }

  lemma ResumeJobFails(s: State, id: Id, j: J.Job)
    requires ProcessOk(s) && s.boot.ResumingJobs? && id in s.boot.jobs
    requires J.SameIdentity(j, s.boot.jobs[id]) && J.Terminal(j.status)
    ensures ProcessOk(s.(boot := ResumingJobs(s.boot.jobs - {id}), train := J.Put(s.train, j)))
  {
    var s' := s.(boot := ResumingJobs(s.boot.jobs - {id}), train := J.Put(s.train, j));
    forall t | t in s.threads ensures ThreadOk(s.preps, s'.train, s.submitted, s.threads[t]) {
      JobFrame(s.preps, s.train, s.submitted, j, s.threads[t]);
    }
    forall key | Attended(s.lost, s.boot, s.threads, key) && key != JobKey(id)
      ensures Attended(s.lost, s'.boot, s.threads, key)
    {}
  }

  lemma ResumePrepFails(s: State, id: Id, a: P.Attempt)
    requires ProcessOk(s) && s.boot.ResumingPreps? && id in s.boot.preps
    requires P.SameIdentity(a, s.boot.preps[id]) && !P.Live(a.state)
    requires id in s.preps.rows && a.tenant == s.preps.rows[id].tenant
    ensures ProcessOk(s.(boot := ResumingPreps(s.boot.preps - {id}), preps := P.Put(s.preps, a).value))
  {
    var s' := s.(boot := ResumingPreps(s.boot.preps - {id}), preps := P.Put(s.preps, a).value);
    forall t | t in s.threads ensures ThreadOk(s'.preps, s.train, s.submitted, s.threads[t]) {
      PrepFrame(s.preps, s.train, s.submitted, a, s.threads[t]);
    }
    forall key | Attended(s.lost, s.boot, s.threads, key) && key != PrepKey(id)
      ensures Attended(s.lost, s'.boot, s.threads, key)
    {}
  }

  /** Start-up hands a row to a new poller. */
  lemma ResumeSpawns(s: State, boot: Boot, worker: nat, th: Thread)
    requires ProcessOk(s) && worker !in s.threads && (th.PrepPolling? || th.JobPolling?)
    requires BootHolds(s.boot, KeyOf(th).value)
    requires s.boot.ResumingJobs? ==> boot == ResumingJobs(s.boot.jobs - {KeyOf(th).value.id})
    requires s.boot.ResumingPreps? ==> boot == ResumingPreps(s.boot.preps - {KeyOf(th).value.id})
    requires ThreadOk(s.preps, s.train, s.submitted, th)
    requires if th.PrepPolling? then th.a.remote.Some? else th.j.remote.Some?
    ensures var key := KeyOf(th).value;
      && Spawn(s.(boot := boot), worker, key, th)
         == s.(boot := boot, active := s.active + {key}, threads := s.threads[worker := th])
      && ProcessOk(Spawn(s.(boot := boot), worker, key, th))
  {
    var key := KeyOf(th).value;
    assert !Working(s.threads, key);
    ActiveNewWorker(s.active, s.threads, worker, th);
    forall k | Attended(s.lost, s.boot, s.threads, k)
      ensures Attended(s.lost, boot, s.threads[worker := th], k)
    {
      if Held(s.threads, k) || k == key { HeldNew(s.threads, worker, th, k); }
    }
    ResumeThreads(s, boot, worker, th);
    ResumeRest(s, boot, th);
  }

  lemma ResumeThreads(s: State, boot: Boot, worker: nat, th: Thread)
    requires ProcessOk(s) && worker !in s.threads && (th.PrepPolling? || th.JobPolling?)
    requires BootHolds(s.boot, KeyOf(th).value)
    requires s.boot.ResumingJobs? ==> boot == ResumingJobs(s.boot.jobs - {KeyOf(th).value.id})
    requires s.boot.ResumingPreps? ==> boot == ResumingPreps(s.boot.preps - {KeyOf(th).value.id})
    requires ThreadOk(s.preps, s.train, s.submitted, th)
    ensures ThreadsOk(s.preps, s.train, s.submitted, s.threads[worker := th])
    ensures Exclusive(s.threads[worker := th], boot)
    ensures OnlyPollers(boot, s.threads[worker := th])
  {
    hide JobsCovered, PrepsCovered, ActiveOk, Reconciled;
  }

  lemma ResumeRest(s: State, boot: Boot, th: Thread)
    requires ProcessOk(s) && (th.PrepPolling? || th.JobPolling?)
    requires BootHolds(s.boot, KeyOf(th).value)
    requires s.boot.ResumingJobs? ==> boot == ResumingJobs(s.boot.jobs - {KeyOf(th).value.id})
    requires s.boot.ResumingPreps? ==> boot == ResumingPreps(s.boot.preps - {KeyOf(th).value.id})
    requires ThreadOk(s.preps, s.train, s.submitted, th)
    requires if th.PrepPolling? then th.a.remote.Some? else th.j.remote.Some?
    ensures forall threads :: BootOk(s.preps, s.train, boot, threads)
    ensures Reconciled(s.preps, s.train, boot)
  {
    hide JobsCovered, PrepsCovered, ActiveOk, ThreadsOk, Exclusive;
  }
}
