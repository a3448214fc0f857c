/** The guarantees of the service, over every run: any interleaving, any crash, any retry. */
module OrchestrationRuns {
  import opened Wrappers
  import P = Preparations
  import J = TrainingJobs
  import opened Orchestration
  import opened OrchestrationInvariant
  import opened OrchestrationProof

  /** A finite history of the service from an empty database. */
  ghost predicate Run(c: Config, ss: seq<State>, es: seq<Event>) {
    && |ss| == |es| + 1
    && ss[0] == INITIAL
    && forall i :: 0 <= i < |es| ==> P.Listed(ss[i].preps) && Apply(c, ss[i], es[i]) == Some(ss[i + 1])
  }

  lemma RunStep(c: Config, ss: seq<State>, es: seq<Event>, i: nat)
    requires Run(c, ss, es) && i < |es| && Inv(c, ss[i])
    ensures Inv(c, ss[i + 1]) && Grows(ss[i], ss[i + 1])
  {
    hide Inv, Apply, Grows, P.Listed;
    assert P.Listed(ss[i].preps) && Apply(c, ss[i], es[i]) == Some(ss[i + 1]);
    Keeps(c, ss[i], es[i], ss[i + 1]);
  }

  lemma {:induction false} RunInv(c: Config, ss: seq<State>, es: seq<Event>, i: nat)
    requires Run(c, ss, es) && i < |ss|
    ensures Inv(c, ss[i])
  {
    hide Inv, Apply, Grows, P.Listed;
    if i == 0 {
      InitialInv(c);
    } else {
      RunInv(c, ss, es, i - 1);
      RunStep(c, ss, es, i - 1);
    }
  }

  lemma {:induction false} RunGrows(c: Config, ss: seq<State>, es: seq<Event>, i: nat, j: nat)
    requires Run(c, ss, es) && i <= j < |ss|
    ensures Grows(ss[i], ss[j])
    decreases j - i
  {
    hide Inv, Apply, Grows, P.Listed;
    if i == j {
      SameGrows(ss[i], ss[j]);
    } else {
      RunGrows(c, ss, es, i, j - 1);
      RunInv(c, ss, es, j - 1);
      RunStep(c, ss, es, j - 1);
      GrowsTransitive(ss[i], ss[j - 1], ss[j]);
    }
  }

  /** No tenant ever exceeds its active preparations, its unfinished custom jobs, or its starts in any day. */
  lemma QuotasHold(c: Config, ss: seq<State>, es: seq<Event>, i: nat, tenant: string, from: real)
    requires Run(c, ss, es) && i < |ss|
    ensures var rows := ss[i].preps.rows;
      |set a | a in rows && rows[a].tenant == tenant && rows[a].state in {P.Queued, P.Preparing}| <= c.maxPreps
    ensures var jobs := ss[i].train.jobs;
      |set j | j in jobs && jobs[j].tenant == tenant && jobs[j].custom && jobs[j].status !in {J.Completed, J.Failed}| <= c.maxJobs
    ensures var requests := ss[i].train.requests;
      |set k | k in requests && k.tenant == tenant && from <= requests[k].createdAt <= from + 86400.0| <= c.maxDaily
  {
    RunInv(c, ss, es, i);
    CountedSets(ss[i], tenant, from);
    assert |P.ActiveIds(ss[i].preps, tenant)| <= c.maxPreps && |J.ActiveIds(ss[i].train, tenant)| <= c.maxJobs;
    assert |J.StartsInDay(ss[i].train, tenant, from)| <= c.maxDaily;
  }

  lemma CountedSets(s: State, tenant: string, from: real)
    ensures var rows := s.preps.rows;
      P.ActiveIds(s.preps, tenant) == set a | a in rows && rows[a].tenant == tenant && rows[a].state in {P.Queued, P.Preparing}
    ensures var jobs := s.train.jobs;
      J.ActiveIds(s.train, tenant)
        == set j | j in jobs && jobs[j].tenant == tenant && jobs[j].custom && jobs[j].status !in {J.Completed, J.Failed}
    ensures var requests := s.train.requests;
      J.StartsInDay(s.train, tenant, from)
        == set k | k in requests && k.tenant == tenant && from <= requests[k].createdAt <= from + 86400.0
  {
  }

  /** For one exact fingerprint at most one attempt is not failed, and an accepted one has its report. */
  lemma OneUnfailedAttempt(c: Config, ss: seq<State>, es: seq<Event>, i: nat, a: Id, b: Id)
    requires Run(c, ss, es) && i < |ss| && a in ss[i].preps.rows && b in ss[i].preps.rows
    ensures a != b && ss[i].preps.rows[a].tenant == ss[i].preps.rows[b].tenant
      && ss[i].preps.rows[a].setup == ss[i].preps.rows[b].setup
      && ss[i].preps.rows[a].fingerprint == ss[i].preps.rows[b].fingerprint
      ==> ss[i].preps.rows[a].state.Failed? || ss[i].preps.rows[b].state.Failed?
    ensures ss[i].preps.rows[a].state.Accepted? ==> P.Decode(ss[i].preps.rows[a]).reportReady
    ensures ss[i].preps.rows[a].state.Failed? <==> P.Decode(ss[i].preps.rows[a]).canRetry
  {
    RunInv(c, ss, es, i);
    assert P.RowOk(a, ss[i].preps.rows[a]);
  }

  /** accepted, failed and completed are never left; nothing but a failure's reason changes after them. */
  lemma FinishedStaysFinished(c: Config, ss: seq<State>, es: seq<Event>, i: nat, j: nat, id: Id)
    requires Run(c, ss, es) && i <= j < |ss|
    ensures id in ss[i].preps.rows && !P.Live(ss[i].preps.rows[id].state)
      ==> id in ss[j].preps.rows && ss[j].preps.rows[id] == ss[i].preps.rows[id]
    ensures id in ss[i].train.jobs && ss[i].train.jobs[id].status.Completed?
      ==> id in ss[j].train.jobs && ss[j].train.jobs[id] == ss[i].train.jobs[id]
    ensures id in ss[i].train.jobs && ss[i].train.jobs[id].status.Failed?
      ==> id in ss[j].train.jobs && ss[j].train.jobs[id].status.Failed?
  {
    RunGrows(c, ss, es, i, j);
  }

  ghost predicate CreatedOnce(replies: seq<Reply>, k: J.RequestKey) {
    exists i :: 0 <= i < |replies| && replies[i].created && replies[i].request == k
      && forall l :: 0 <= l < |replies| && replies[l].created && replies[l].request == k ==> l == i
  }

  lemma CreatedExactlyOnce(d: J.Tables, replies: seq<Reply>, k: J.RequestKey)
    requires RepliesOk(d, replies) && k in d.requests
    ensures CreatedOnce(replies, k)
  {
    var w :| 0 <= w < |replies| && replies[w].created && replies[w].request == k;
    assert forall l :: 0 <= l < |replies| && replies[l].created && replies[l].request == k ==> l == w;
  }

  /**
   An idempotency key names one job for ever: every answer about it gives that job,
   exactly one answer says it was created, the provider is asked to create it at most
   once, and the store's internal errors never arise.
   */
  lemma KeyIsIdempotent(c: Config, ss: seq<State>, es: seq<Event>, i: nat, j: nat, k: J.RequestKey)
    requires Run(c, ss, es) && i <= j < |ss| && k in ss[i].train.requests
    ensures var id := ss[i].train.requests[k].jobId;
      && k in ss[j].train.requests && ss[j].train.requests[k].jobId == id
      && id in ss[j].train.jobs && ss[j].train.jobs[id].tenant == k.tenant && ss[j].train.jobs[id].setup == k.setup
      && (forall l :: 0 <= l < |ss[j].replies| && ss[j].replies[l].request == k ==> ss[j].replies[l].jobId == id)
      && CreatedOnce(ss[j].replies, k)
      && ss[j].submitted[JobKey(id)] <= 1
      && (forall m :: m in ss[j].train.requests && ss[j].train.requests[m].jobId == id ==> m == k)
    ensures ss[j].faults == 0
  {
    RunInv(c, ss, es, j);
    RunGrows(c, ss, es, i, j);
    CreatedExactlyOnce(ss[j].train, ss[j].replies, k);
  }

  /** create_job runs at most once per attempt and per job, and a stored remote id is never replaced. */
  lemma SubmittedAtMostOnce(c: Config, ss: seq<State>, es: seq<Event>, i: nat, j: nat, id: Id)
    requires Run(c, ss, es) && i <= j < |ss|
    ensures ss[j].submitted[PrepKey(id)] <= 1 && ss[j].submitted[JobKey(id)] <= 1
    ensures id in ss[i].train.jobs && ss[i].train.jobs[id].remote.Some? ==>
      id in ss[j].train.jobs && ss[j].train.jobs[id].remote == ss[i].train.jobs[id].remote
        && ss[i].submitted[JobKey(id)] == 1
    ensures id in ss[i].preps.rows && ss[i].preps.rows[id].data.remote.Some? ==>
      id in ss[j].preps.rows && ss[j].preps.rows[id].data.remote == ss[i].preps.rows[id].data.remote
        && ss[i].submitted[PrepKey(id)] == 1
  {
    RunInv(c, ss, es, i);
    RunInv(c, ss, es, j);
    RunGrows(c, ss, es, i, j);
    assert RemoteKnown(ss[i].submitted, JobKey(id), Some("")) ==> ss[i].submitted[JobKey(id)] == 1;
    assert id in ss[i].train.jobs ==> RemoteKnown(ss[i].submitted, JobKey(id), ss[i].train.jobs[id].remote);
    assert id in ss[i].preps.rows ==> RemoteKnown(ss[i].submitted, PrepKey(id), ss[i].preps.rows[id].data.remote);
  }

  /** A job stored as completed has its manifest stored, at that point and ever after. */
  lemma CompletedHasArtifacts(c: Config, ss: seq<State>, es: seq<Event>, i: nat, j: nat, id: Id)
    requires Run(c, ss, es) && i <= j < |ss|
    requires id in ss[i].train.jobs && ss[i].train.jobs[id].status.Completed?
    ensures ss[i].train.jobs[id].artifactsReady && id in ss[i].train.artifacts && id in ss[j].train.artifacts
  {
    RunInv(c, ss, es, i);
    RunGrows(c, ss, es, i, j);
    assert J.JobOk(ss[i].train, id, ss[i].train.jobs[id]);
  }

  /** Every job that ever exists was started from an attempt accepted for its exact fingerprint. */
  lemma JobsWerePrepared(c: Config, ss: seq<State>, es: seq<Event>, i: nat, id: Id)
    requires Run(c, ss, es) && i < |ss| && id in ss[i].train.jobs
    ensures var j := ss[i].train.jobs[id];
      j.prepId in ss[i].preps.rows
      && var a := P.Decode(ss[i].preps.rows[j.prepId]);
         a.state.Accepted? && a.reportReady && a.tenant == j.tenant && a.setup == j.setup
         && a.fingerprint == j.prepFingerprint
  {
    RunInv(c, ss, es, i);
    assert P.RowOk(ss[i].train.jobs[id].prepId, ss[i].preps.rows[ss[i].train.jobs[id].prepId]);
  }

  lemma OwnersDiffer(c: Config, s: State, t: nat, u: nat)
    requires Inv(c, s) && t in s.threads && u in s.threads && t != u && CanWrite(s.threads[t])
    ensures KeyOf(s.threads[t]) != KeyOf(s.threads[u])
  {
  }

  /** Two threads never hold the same record, and a writer's copy is the stored document. */
  lemma SoleWriter(c: Config, ss: seq<State>, es: seq<Event>, i: nat, t: nat, u: nat)
    requires Run(c, ss, es) && i < |ss| && t in ss[i].threads && u in ss[i].threads
    ensures t != u && CanWrite(ss[i].threads[t]) ==> KeyOf(ss[i].threads[t]) != KeyOf(ss[i].threads[u])
    ensures IsPrep(ss[i].threads[t]) ==> PrepShadow(ss[i].preps, ss[i].threads[t].a)
    ensures IsJob(ss[i].threads[t]) ==>
      ss[i].threads[t].j.id in ss[i].train.jobs
        && ss[i].train.jobs[ss[i].threads[t].j.id] == ss[i].threads[t].j
  {
    hide Inv;
    RunInv(c, ss, es, i);
    if IsPrep(ss[i].threads[t]) { PrepOwner(c, ss[i], t); }
    if IsJob(ss[i].threads[t]) { JobOwner(c, ss[i], t); }
    if t != u && CanWrite(ss[i].threads[t]) { OwnersDiffer(c, ss[i], t, u); }
  }

  ghost predicate SoleWorker(threads: map<nat, Thread>, key: Key) {
    exists t :: t in threads && CanWrite(threads[t]) && KeyOf(threads[t]) == Some(key)
      && forall u :: u in threads && KeyOf(threads[u]) == Some(key) ==> u == t
  }

  /** One thread drives the record, or its only writer died of an exception in this process. */
  ghost predicate Driven(s: State, key: Key) {
    key in s.lost || SoleWorker(s.threads, key)
  }

  lemma UpDrives(c: Config, s: State, key: Key)
    requires Inv(c, s) && s.boot.Up?
    requires match key
      case JobKey(id) => id in s.train.jobs && !J.Terminal(s.train.jobs[id].status)
      case PrepKey(id) => id in s.preps.rows && P.Live(s.preps.rows[id].state)
    ensures Driven(s, key)
  {
    assert Attended(s.lost, s.boot, s.threads, key);
    if Held(s.threads, key) { HeldBySole(s, key); }
  }

  /** Whenever the process is up, exactly one thread drives each unfinished record, unless that thread has died. */
  lemma UnfinishedIsDriven(c: Config, ss: seq<State>, es: seq<Event>, i: nat, id: Id)
    requires Run(c, ss, es) && i < |ss| && ss[i].boot.Up?
    ensures id in ss[i].train.jobs && !J.Terminal(ss[i].train.jobs[id].status) ==> Driven(ss[i], JobKey(id))
    ensures id in ss[i].preps.rows && P.Live(ss[i].preps.rows[id].state) ==> Driven(ss[i], PrepKey(id))
  {
    hide Inv, Driven;
    RunInv(c, ss, es, i);
    if id in ss[i].train.jobs && !J.Terminal(ss[i].train.jobs[id].status) { UpDrives(c, ss[i], JobKey(id)); }
    if id in ss[i].preps.rows && P.Live(ss[i].preps.rows[id].state) { UpDrives(c, ss[i], PrepKey(id)); }
  }

  lemma BootDoneJob(c: Config, s: State, s': State, id: Id)
    requires Inv(c, s) && DoBootDone(s) == Some(s')
    requires id in s.train.jobs && !J.Terminal(s.train.jobs[id].status)
    ensures s.train.jobs[id].remote.Some?
  {
  }

  lemma BootDonePrep(c: Config, s: State, s': State, id: Id)
    requires Inv(c, s) && DoBootDone(s) == Some(s')
    requires id in s.preps.rows && P.Live(s.preps.rows[id].state)
    ensures s.preps.rows[id].data.remote.Some?
  {
  }

  /**
   When start-up finishes, every unfinished job and attempt has a remote id and exactly
   one worker, except those whose resumed worker has already died of an exception.
   */
  lemma AfterResume(c: Config, ss: seq<State>, es: seq<Event>, i: nat, id: Id)
    requires Run(c, ss, es) && i < |es| && es[i].BootDone?
    ensures ss[i + 1].boot.Up?
    ensures id in ss[i + 1].train.jobs && !J.Terminal(ss[i + 1].train.jobs[id].status) ==>
      ss[i + 1].train.jobs[id].remote.Some? && Driven(ss[i + 1], JobKey(id))
    ensures id in ss[i + 1].preps.rows && P.Live(ss[i + 1].preps.rows[id].state) ==>
      ss[i + 1].preps.rows[id].data.remote.Some? && Driven(ss[i + 1], PrepKey(id))
  {
    hide Inv, P.Listed, Driven;
    RunInv(c, ss, es, i);
    UnfinishedIsDriven(c, ss, es, i + 1, id);
    var s, s' := ss[i], ss[i + 1];
    assert Apply(c, s, es[i]) == Some(s');
    if id in s.train.jobs && !J.Terminal(s.train.jobs[id].status) { BootDoneJob(c, s, s', id); }
    if id in s.preps.rows && P.Live(s.preps.rows[id].state) { BootDonePrep(c, s, s', id); }
  }

  lemma HeldBySole(s: State, key: Key)
    requires Exclusive(s.threads, s.boot) && Held(s.threads, key)
    ensures SoleWorker(s.threads, key)
  {
    var t :| t in s.threads && CanWrite(s.threads[t]) && KeyOf(s.threads[t]) == Some(key);
    assert forall u :: u in s.threads && KeyOf(s.threads[u]) == Some(key) ==> u == t;
  }
}
