/**
 What every step of the process keeps.  The quota and uniqueness facts are not
 inductive alone: they rest on each live record having at most one writer.
 */
module OrchestrationInvariant {
  import opened Wrappers
  import P = Preparations
  import J = TrainingJobs
  import opened Orchestration

  /** The local copy is the stored document, and the stored row is still live. */
  predicate PrepShadow(p: P.Table, a: P.Attempt) {
    a.id in p.rows && P.Live(p.rows[a.id].state) && P.Decode(p.rows[a.id]) == a
  }

  predicate JobShadow(d: J.Tables, j: J.Job) {
    j.id in d.jobs && d.jobs[j.id] == j && !J.Terminal(j.status)
  }

  predicate AcceptedRow(p: P.Table, id: Id, tenant: string, setup: string, fingerprint: string) {
    && id in p.rows && p.rows[id].state.Accepted?
    && p.rows[id].tenant == tenant && p.rows[id].setup == setup && p.rows[id].fingerprint == fingerprint
  }

  predicate KeyExists(p: P.Table, d: J.Tables, key: Key) {
    match key
    case PrepKey(id) => id in p.rows
    case JobKey(id) => id in d.jobs
  }

  predicate RemoteKnown(submitted: multiset<Key>, key: Key, remote: Option<string>) {
    remote.Some? ==> key in submitted
  }

  predicate ThreadOk(p: P.Table, d: J.Tables, submitted: multiset<Key>, th: Thread) {
    && (IsPrep(th) ==> PrepShadow(p, th.a))
    && (IsJob(th) && !th.JobFailing? ==> JobShadow(d, th.j))
    && (th.JobFailing? ==> th.j.id in d.jobs && d.jobs[th.j.id] == th.j && !th.j.status.Completed?)
    && (th.JobPublishing? ==> th.j.id in d.artifacts)
    && (th.StartAllowed? ==> AcceptedRow(p, th.prep.id, th.prep.tenant, th.prep.setup, th.prep.fingerprint))
    && (th.Finished? ==> KeyExists(p, d, th.key))
    && (Unsubmitted(th) ==> KeyOf(th).value !in submitted)
    && (Issued(th) ==> KeyOf(th).value in submitted)
    && (Unsubmitted(th) || Issued(th) ==> if IsPrep(th) then th.a.remote.None? else th.j.remote.None?)
  }

  ghost predicate ThreadsOk(p: P.Table, d: J.Tables, submitted: multiset<Key>, threads: map<nat, Thread>) {
    forall t :: t in threads ==> ThreadOk(p, d, submitted, threads[t])
  }

  ghost predicate BootOk(p: P.Table, d: J.Tables, boot: Boot, threads: map<nat, Thread>) {
    match boot
    case Down => threads == map[]
    case ResumingJobs(jobs) => forall id :: id in jobs ==> jobs[id].id == id && JobShadow(d, jobs[id])
    case ResumingPreps(preps) => forall id :: id in preps ==> preps[id].id == id && PrepShadow(p, preps[id])
    case Up => true
  }

  /** Sole ownership: no record is in the hands of two threads, nor of a thread and start-up. */
  ghost predicate Exclusive(threads: map<nat, Thread>, boot: Boot) {
    && (forall t, u :: t in threads && u in threads && t != u && KeyOf(threads[t]).Some?
          ==> KeyOf(threads[t]) != KeyOf(threads[u]))
    && (forall t :: t in threads && KeyOf(threads[t]).Some? ==> !BootHolds(boot, KeyOf(threads[t]).value))
  }

  ghost predicate Working(threads: map<nat, Thread>, key: Key) {
    exists t :: t in threads && !Handler(threads[t]) && KeyOf(threads[t]) == Some(key)
  }

  ghost predicate ActiveOk(active: set<Key>, threads: map<nat, Thread>) {
    forall key :: key in active <==> Working(threads, key)
  }

  ghost predicate Held(threads: map<nat, Thread>, key: Key) {
    exists t :: t in threads && CanWrite(threads[t]) && KeyOf(threads[t]) == Some(key)
  }

  ghost predicate Attended(lost: set<Key>, boot: Boot, threads: map<nat, Thread>, key: Key) {
    key in lost || BootHolds(boot, key) || Held(threads, key)
  }

  /** No unfinished job is forgotten while the process that should drive it is up. */
  ghost predicate JobsCovered(d: J.Tables, lost: set<Key>, boot: Boot, threads: map<nat, Thread>) {
    !boot.Down? ==> forall id :: id in d.jobs && !J.Terminal(d.jobs[id].status) ==>
      Attended(lost, boot, threads, JobKey(id))
  }

  ghost predicate PrepsCovered(p: P.Table, lost: set<Key>, boot: Boot, threads: map<nat, Thread>) {
    boot.ResumingPreps? || boot.Up? ==> forall id :: id in p.rows && P.Live(p.rows[id].state) ==>
      Attended(lost, boot, threads, PrepKey(id))
  }

  /** Until start-up ends only pollers run, and those of jobs come first. */
  ghost predicate OnlyPollers(boot: Boot, threads: map<nat, Thread>) {
    && (!boot.Up? ==> forall t :: t in threads ==>
          !Handler(threads[t]) && !Unsubmitted(threads[t]) && !Issued(threads[t]))
    && (boot.ResumingJobs? ==> forall t :: t in threads ==> KeyOf(threads[t]).Some? && KeyOf(threads[t]).value.JobKey?)
  }

  /** Whatever start-up has dealt with is finished or has a remote id. */
  ghost predicate Reconciled(p: P.Table, d: J.Tables, boot: Boot) {
    && (boot.ResumingJobs? || boot.ResumingPreps? ==>
          forall id :: id in d.jobs && !J.Terminal(d.jobs[id].status)
            ==> d.jobs[id].remote.Some? || BootHolds(boot, JobKey(id)))
    && (boot.ResumingPreps? ==>
          forall id :: id in p.rows && P.Live(p.rows[id].state)
            ==> p.rows[id].data.remote.Some? || BootHolds(boot, PrepKey(id)))
  }

  /** create_job is invoked at most once per record, and before any remote id is stored. */
  ghost predicate SubmittedOk(p: P.Table, d: J.Tables, submitted: multiset<Key>) {
    && (forall key :: submitted[key] <= 1)
    && (forall key :: key in submitted ==> KeyExists(p, d, key))
    && (forall id :: id in p.rows ==> RemoteKnown(submitted, PrepKey(id), p.rows[id].data.remote))
    && (forall id :: id in d.jobs ==> RemoteKnown(submitted, JobKey(id), d.jobs[id].remote))
  }

  /** Every job was started from an attempt that is accepted for the fingerprint it records. */
  ghost predicate Prepared(p: P.Table, d: J.Tables) {
    forall id :: id in d.jobs ==>
      AcceptedRow(p, d.jobs[id].prepId, d.jobs[id].tenant, d.jobs[id].setup, d.jobs[id].prepFingerprint)
  }

  /** The answers given so far are those of one function from keys to jobs, created once each. */
  ghost predicate RepliesOk(d: J.Tables, replies: seq<Reply>) {
    && (forall i :: 0 <= i < |replies| ==>
          replies[i].request in d.requests && d.requests[replies[i].request].jobId == replies[i].jobId)
    && (forall i, j :: 0 <= i < j < |replies| && replies[i].created && replies[j].created
          ==> replies[i].request != replies[j].request)
    && (forall k :: k in d.requests ==> exists i :: 0 <= i < |replies| && replies[i].created && replies[i].request == k)
  }

  ghost predicate ProcessOk(s: State) {
    && ThreadsOk(s.preps, s.train, s.submitted, s.threads)
    && BootOk(s.preps, s.train, s.boot, s.threads)
    && Exclusive(s.threads, s.boot)
    && ActiveOk(s.active, s.threads)
    && JobsCovered(s.train, s.lost, s.boot, s.threads)
    && PrepsCovered(s.preps, s.lost, s.boot, s.threads)
    && OnlyPollers(s.boot, s.threads)
    && Reconciled(s.preps, s.train, s.boot)
  }

  ghost predicate DurableOk(c: Config, s: State) {
    && P.TableOk(s.preps, c.maxPreps)
    && J.TablesOk(s.train, c.maxJobs, c.maxDaily)
    && SubmittedOk(s.preps, s.train, s.submitted)
    && Prepared(s.preps, s.train)
    && RepliesOk(s.train, s.replies)
    && s.faults == 0
  }

  ghost predicate Inv(c: Config, s: State) {
    DurableOk(c, s) && ProcessOk(s)
  }

  lemma InitialInv(c: Config)
    ensures Inv(c, INITIAL)
  {
    forall tenant ensures P.ActiveIds(P.EMPTY, tenant) == {} {}
    forall tenant ensures J.ActiveIds(J.EMPTY, tenant) == {} {}
    forall tenant, from ensures J.StartsInDay(J.EMPTY, tenant, from) == {} {}
  }

  // ----- frames: what one write leaves alone

  /** A thread working on another record does not notice a write to a live row. */
  lemma PrepFrame(p: P.Table, d: J.Tables, submitted: multiset<Key>, a: P.Attempt, th: Thread)
    requires ThreadOk(p, d, submitted, th)
    requires a.id in p.rows && a.tenant == p.rows[a.id].tenant && P.Live(p.rows[a.id].state)
    requires KeyOf(th) != Some(PrepKey(a.id))
    ensures ThreadOk(P.Put(p, a).value, d, submitted, th)
  {
  }

  lemma JobFrame(p: P.Table, d: J.Tables, submitted: multiset<Key>, j: J.Job, th: Thread)
    requires ThreadOk(p, d, submitted, th)
    requires j.id in d.jobs
    requires KeyOf(th) != Some(JobKey(j.id))
    ensures ThreadOk(p, J.Put(d, j), submitted, th)
  {
  }

  lemma PreparedFrame(p: P.Table, d: J.Tables, a: P.Attempt)
    requires Prepared(p, d)
    requires a.id in p.rows && a.tenant == p.rows[a.id].tenant && P.Live(p.rows[a.id].state)
    ensures Prepared(P.Put(p, a).value, d)
  {
  }

  // ----- a thread changes what it does next, keeping its record

  lemma ExclusiveUpdate(threads: map<nat, Thread>, boot: Boot, t: nat, th: Thread)
    requires Exclusive(threads, boot) && t in threads && KeyOf(th) == KeyOf(threads[t])
    ensures Exclusive(threads[t := th], boot)
  {
  }

  lemma PollersUpdate(p: P.Table, d: J.Tables, boot: Boot, threads: map<nat, Thread>, t: nat, th: Thread)
    requires OnlyPollers(boot, threads) && BootOk(p, d, boot, threads)
    requires t in threads && KeyOf(th) == KeyOf(threads[t]) && Handler(th) == Handler(threads[t])
    requires Unsubmitted(th) ==> Unsubmitted(threads[t])
    requires Issued(th) ==> Unsubmitted(threads[t]) || Issued(threads[t])
    ensures OnlyPollers(boot, threads[t := th]) && BootOk(p, d, boot, threads[t := th])
  {
  }

  lemma ActiveUpdate(active: set<Key>, threads: map<nat, Thread>, t: nat, th: Thread)
    requires ActiveOk(active, threads)
    requires t in threads && KeyOf(th) == KeyOf(threads[t]) && Handler(th) == Handler(threads[t])
    ensures ActiveOk(active, threads[t := th])
  {
    var after := threads[t := th];
    forall key ensures Working(after, key) <==> Working(threads, key) {
      if Working(threads, key) {
        var u :| u in threads && !Handler(threads[u]) && KeyOf(threads[u]) == Some(key);
        assert u in after && !Handler(after[u]) && KeyOf(after[u]) == Some(key);
      }
      if Working(after, key) {
        var u :| u in after && !Handler(after[u]) && KeyOf(after[u]) == Some(key);
        assert u in threads && !Handler(threads[u]) && KeyOf(threads[u]) == Some(key);
      }
    }
  }

  lemma HeldUpdate(threads: map<nat, Thread>, t: nat, th: Thread, key: Key)
    requires Held(threads, key) && t in threads
    requires KeyOf(threads[t]) == Some(key) ==> KeyOf(th) == Some(key) && CanWrite(th)
    ensures Held(threads[t := th], key)
  {
    var after := threads[t := th];
    var u :| u in threads && CanWrite(threads[u]) && KeyOf(threads[u]) == Some(key);
    assert u in after && CanWrite(after[u]) && KeyOf(after[u]) == Some(key);
  }

  lemma CoveredUpdate(p: P.Table, d: J.Tables, lost: set<Key>, boot: Boot, threads: map<nat, Thread>, t: nat, th: Thread)
    requires JobsCovered(d, lost, boot, threads) && PrepsCovered(p, lost, boot, threads)
    requires t in threads && KeyOf(th) == KeyOf(threads[t]) && CanWrite(th)
    ensures JobsCovered(d, lost, boot, threads[t := th]) && PrepsCovered(p, lost, boot, threads[t := th])
  {
    forall key | Attended(lost, boot, threads, key) ensures Attended(lost, boot, threads[t := th], key) {
      if Held(threads, key) { HeldUpdate(threads, t, th, key); }
    }
  }

  lemma ThreadsUpdate(p: P.Table, d: J.Tables, submitted: multiset<Key>, submitted': multiset<Key>,
                      threads: map<nat, Thread>, t: nat, th: Thread)
    requires ThreadsOk(p, d, submitted, threads) && t in threads && KeyOf(th) == KeyOf(threads[t]) && KeyOf(th).Some?
    requires forall u :: u in threads && u != t ==> KeyOf(threads[u]) != KeyOf(th)
    requires submitted' == submitted || submitted' == submitted + multiset{KeyOf(th).value}
    requires ThreadOk(p, d, submitted', th)
    ensures ThreadsOk(p, d, submitted', threads[t := th])
  {
    forall u | u in threads && u != t ensures ThreadOk(p, d, submitted', threads[u]) {
      assert ThreadOk(p, d, submitted, threads[u]);
    }
  }

  /** create_job is called for a record that no call was made for. */
  lemma SubmittedGrows(p: P.Table, d: J.Tables, submitted: multiset<Key>, th: Thread)
    requires SubmittedOk(p, d, submitted) && ThreadOk(p, d, submitted, th) && Unsubmitted(th)
    ensures SubmittedOk(p, d, submitted + multiset{KeyOf(th).value})
  {
  }

  /** A thread moves to another step of its record without touching a table. */
  lemma LocalProcess(s: State, s': State, t: nat, th: Thread)
    requires ProcessOk(s) && t in s.threads
    requires s' == Become(s, t, th).(submitted := s'.submitted)
    requires KeyOf(th) == KeyOf(s.threads[t]) && CanWrite(th) && Handler(th) == Handler(s.threads[t])
    requires !Unsubmitted(th) && (Issued(th) ==> Unsubmitted(s.threads[t]))
    requires s'.submitted == s.submitted || s'.submitted == s.submitted + multiset{KeyOf(th).value}
    requires ThreadOk(s.preps, s.train, s'.submitted, th)
    ensures ProcessOk(s')
  {
    hide ThreadsOk, BootOk, ActiveOk, JobsCovered, PrepsCovered, OnlyPollers, Reconciled, ThreadOk;
    PollersUpdate(s.preps, s.train, s.boot, s.threads, t, th);
    ThreadsUpdate(s.preps, s.train, s.submitted, s'.submitted, s.threads, t, th);
    ExclusiveUpdate(s.threads, s.boot, t, th);
    ActiveUpdate(s.active, s.threads, t, th);
    CoveredUpdate(s.preps, s.train, s.lost, s.boot, s.threads, t, th);
  }

  /** It may have invoked create_job on the way, if nothing had done so for this record. */
  lemma LocalStep(c: Config, s: State, s': State, t: nat, th: Thread)
    requires Inv(c, s) && t in s.threads
    requires s' == Become(s, t, th).(submitted := s'.submitted)
    requires KeyOf(th) == KeyOf(s.threads[t]) && CanWrite(th) && Handler(th) == Handler(s.threads[t])
    requires !Unsubmitted(th) && (Issued(th) ==> Unsubmitted(s.threads[t]))
    requires s'.submitted == s.submitted
      || (s'.submitted == s.submitted + multiset{KeyOf(th).value} && Unsubmitted(s.threads[t]))
    requires ThreadOk(s.preps, s.train, s'.submitted, th)
    ensures Inv(c, s')
  {
    LocalProcess(s, s', t, th);
    if s'.submitted != s.submitted {
      SubmittedGrows(s.preps, s.train, s.submitted, s.threads[t]);
    }
  }
}
