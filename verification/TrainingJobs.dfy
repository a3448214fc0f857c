/**
 The `jobs`, `custom_training_requests` and `artifacts` tables and the statements
 JobStore and CustomTrainingStore run on them.  Times are the seconds of time.time().
 */
module TrainingJobs {
  import opened Wrappers

  type Id = string

  datatype Status = Queued | Starting | Training | Finalizing | Rendering | Evaluating | Completed | Failed

  predicate Terminal(status: Status) {
    status.Completed? || status.Failed?
  }

  datatype Phase =
    | Unset | InputPublication | Submission | InTraining | Finalization | ArtifactValidation | Done

  datatype Job = Job(
    id: Id, tenant: string, setup: string, custom: bool, status: Status, phase: Phase,
    remote: Option<string>, artifactsReady: bool, prepId: string, prepFingerprint: string)

  datatype RequestKey = RequestKey(tenant: string, setup: string, key: string)

  datatype Request = Request(jobId: Id, createdAt: real)

  datatype Tables = Tables(
    jobs: map<Id, Job>, requests: map<RequestKey, Request>, artifacts: map<Id, string>)

  const EMPTY := Tables(map[], map[], map[])

  const DAY := 86400.0

  // ----- queries

  function ActiveIds(d: Tables, tenant: string): set<Id> {
    set id | id in d.jobs && d.jobs[id].tenant == tenant && d.jobs[id].custom && !Terminal(d.jobs[id].status)
  }

  function StartsSince(d: Tables, tenant: string, since: real): set<RequestKey> {
    set k | k in d.requests && k.tenant == tenant && d.requests[k].createdAt >= since
  }

  /** The starts recorded for a tenant in the closed window of one day that opens at `from`. */
  function StartsInDay(d: Tables, tenant: string, from: real): set<RequestKey> {
    set k | k in d.requests && k.tenant == tenant && from <= d.requests[k].createdAt <= from + DAY
  }

  /** list_active */
  function ActiveJobs(d: Tables): map<Id, Job> {
    map id | id in d.jobs && !Terminal(d.jobs[id].status) :: d.jobs[id]
  }

  // ----- statements

  datatype ReserveOutcome = Replayed(job: Job) | Orphaned | ActiveQuota | DailyQuota | DuplicateId | Created

  function Insert(d: Tables, job: Job, k: RequestKey, now: real): Tables {
    d.(jobs := d.jobs[job.id := job], requests := d.requests[k := Request(job.id, now)])
  }

  /**
   reserve_training_job: one BEGIN IMMEDIATE transaction.  The daily count reads the
   clock at `checked`, the insert reads it again at `now`.
   */
  function Reserve(d: Tables, job: Job, setup: string, key: string,
                   maxActive: nat, maxDaily: nat, checked: real, now: real): (ReserveOutcome, Tables)
  {
    var k := RequestKey(job.tenant, setup, key);
    if k in d.requests then
      var id := d.requests[k].jobId;
      if id in d.jobs && d.jobs[id].tenant == job.tenant then (Replayed(d.jobs[id]), d) else (Orphaned, d)
    else if |ActiveIds(d, job.tenant)| >= maxActive then (ActiveQuota, d)
    else if |StartsSince(d, job.tenant, checked - DAY)| >= maxDaily then (DailyQuota, d)
    else if job.id in d.jobs then (DuplicateId, d)
    else (Created, Insert(d, job, k, now))
  }

  /** JobStore.put */
  function Put(d: Tables, job: Job): Tables {
    d.(jobs := d.jobs[job.id := job])
  }

  /** JobStore.set_artifacts */
  function SetArtifacts(d: Tables, id: Id, manifest: string): Tables {
    d.(artifacts := d.artifacts[id := manifest])
  }

  // ----- invariant

  predicate JobOk(d: Tables, id: Id, job: Job) {
    && job.id == id
    && (job.status.Completed? ==> id in d.artifacts && job.artifactsReady)
  }

  /** Every idempotency key names one live history row, and no two keys share one. */
  ghost predicate RequestsOk(d: Tables) {
    && (forall k :: k in d.requests ==>
          && d.requests[k].jobId in d.jobs
          && d.jobs[d.requests[k].jobId].tenant == k.tenant
          && d.jobs[d.requests[k].jobId].setup == k.setup)
    && (forall k, l :: k in d.requests && l in d.requests && k != l
          ==> d.requests[k].jobId != d.requests[l].jobId)
  }

  ghost predicate WithinActive(d: Tables, limit: nat) {
    forall tenant :: |ActiveIds(d, tenant)| <= limit
  }

  ghost predicate WithinDaily(d: Tables, limit: nat) {
    forall tenant, from :: |StartsInDay(d, tenant, from)| <= limit
  }

  ghost predicate TablesOk(d: Tables, maxActive: nat, maxDaily: nat) {
    && (forall id :: id in d.jobs ==> JobOk(d, id, d.jobs[id]))
    && RequestsOk(d)
    && WithinActive(d, maxActive)
    && WithinDaily(d, maxDaily)
  }

  /** A start admitted by the rolling count keeps every closed day within the limit. */
  lemma InsertDaily(d: Tables, job: Job, k: RequestKey, maxDaily: nat, checked: real, now: real)
    requires WithinDaily(d, maxDaily) && k !in d.requests && k.tenant == job.tenant && checked <= now
    requires |StartsSince(d, job.tenant, checked - DAY)| < maxDaily
    ensures WithinDaily(Insert(d, job, k, now), maxDaily)
  {
    var d' := Insert(d, job, k, now);
    forall tenant, from ensures |StartsInDay(d', tenant, from)| <= maxDaily {
      assert |StartsInDay(d, tenant, from)| <= maxDaily;
      if tenant == k.tenant && from <= now <= from + DAY {
        // The new start is in the window, so everything else in it is recent enough to have been counted.
        SubsetCount(StartsInDay(d', tenant, from), StartsSince(d, job.tenant, checked - DAY) + {k});
      } else {
        SubsetCount(StartsInDay(d', tenant, from), StartsInDay(d, tenant, from));
      }
    }
  }

  lemma InsertActive(d: Tables, job: Job, k: RequestKey, maxActive: nat, now: real)
    requires WithinActive(d, maxActive) && job.id !in d.jobs && |ActiveIds(d, job.tenant)| < maxActive
    ensures WithinActive(Insert(d, job, k, now), maxActive)
  {
    var d' := Insert(d, job, k, now);
    forall tenant ensures |ActiveIds(d', tenant)| <= maxActive {
      assert |ActiveIds(d, tenant)| <= maxActive;
      SubsetCount(ActiveIds(d', tenant), ActiveIds(d, tenant) + if tenant == job.tenant then {job.id} else {});
    }
  }

  lemma InsertRequests(d: Tables, job: Job, k: RequestKey, now: real)
    requires RequestsOk(d) && k !in d.requests && job.id !in d.jobs
    requires k.tenant == job.tenant && k.setup == job.setup
    ensures RequestsOk(Insert(d, job, k, now))
  {
  }

  lemma ReserveKeepsTables(d: Tables, job: Job, key: string, maxActive: nat, maxDaily: nat, checked: real, now: real)
    requires TablesOk(d, maxActive, maxDaily) && job.status.Queued? && checked <= now
    ensures var (outcome, d') := Reserve(d, job, job.setup, key, maxActive, maxDaily, checked, now);
      TablesOk(d', maxActive, maxDaily) && !outcome.Orphaned?
  {
    if Reserve(d, job, job.setup, key, maxActive, maxDaily, checked, now).0.Created? {
      var k := RequestKey(job.tenant, job.setup, key);
      InsertDaily(d, job, k, maxDaily, checked, now);
      InsertActive(d, job, k, maxActive, now);
      InsertRequests(d, job, k, now);
    }
  }

  predicate SameIdentity(a: Job, b: Job) {
    && a.id == b.id && a.tenant == b.tenant && a.setup == b.setup && a.custom == b.custom
    && a.prepId == b.prepId && a.prepFingerprint == b.prepFingerprint
  }

  /** The stored row is this job's own, a finished one is not revived, and completion comes after the manifest. */
  predicate Supersedes(d: Tables, job: Job) {
    && job.id in d.jobs && SameIdentity(job, d.jobs[job.id])
    && (Terminal(d.jobs[job.id].status) ==> Terminal(job.status))
    && JobOk(d, job.id, job)
  }

  /** Replacing a row that was not terminal, or failing a failed one again, keeps the invariant. */
  lemma PutKeepsTables(d: Tables, job: Job, maxActive: nat, maxDaily: nat)
    requires TablesOk(d, maxActive, maxDaily) && Supersedes(d, job)
    ensures TablesOk(Put(d, job), maxActive, maxDaily)
    ensures Put(d, job).jobs.Keys == d.jobs.Keys
  {
    var d' := Put(d, job);
    assert d'.jobs.Keys == d.jobs.Keys;
    forall tenant ensures |ActiveIds(d', tenant)| <= maxActive {
      SubsetCount(ActiveIds(d', tenant), ActiveIds(d, tenant));
    }
    forall tenant, from ensures |StartsInDay(d', tenant, from)| <= maxDaily {
      assert StartsInDay(d', tenant, from) == StartsInDay(d, tenant, from);
    }
  }

  lemma SetArtifactsKeepsTables(d: Tables, id: Id, manifest: string, maxActive: nat, maxDaily: nat)
    requires TablesOk(d, maxActive, maxDaily)
    ensures TablesOk(SetArtifacts(d, id, manifest), maxActive, maxDaily)
  {
    var d' := SetArtifacts(d, id, manifest);
    forall tenant ensures |ActiveIds(d', tenant)| <= maxActive {
      assert ActiveIds(d', tenant) == ActiveIds(d, tenant);
    }
    forall tenant, from ensures |StartsInDay(d', tenant, from)| <= maxDaily {
      assert StartsInDay(d', tenant, from) == StartsInDay(d, tenant, from);
    }
  }

  /** The tenant has as many custom jobs neither completed nor failed as it may. */
  predicate AtActiveQuota(d: Tables, tenant: string, limit: nat) {
    |set id | id in d.jobs && d.jobs[id].tenant == tenant && d.jobs[id].custom
       && d.jobs[id].status != Completed && d.jobs[id].status != Failed| >= limit
  }

  /** The tenant's starts in the 24 hours up to `now` are as many as it may have. */
  predicate AtDailyQuota(d: Tables, tenant: string, now: real, limit: nat) {
    |set k | k in d.requests && k.tenant == tenant && d.requests[k].createdAt >= now - 86400.0| >= limit
  }

  lemma QuotasCount(d: Tables, tenant: string, checked: real, maxActive: nat, maxDaily: nat)
    ensures AtActiveQuota(d, tenant, maxActive) <==> |ActiveIds(d, tenant)| >= maxActive
    ensures AtDailyQuota(d, tenant, checked, maxDaily) <==> |StartsSince(d, tenant, checked - DAY)| >= maxDaily
  {
    assert ActiveIds(d, tenant) == set id | id in d.jobs && d.jobs[id].tenant == tenant && d.jobs[id].custom
       && d.jobs[id].status != Completed && d.jobs[id].status != Failed;
    assert StartsSince(d, tenant, checked - DAY)
      == set k | k in d.requests && k.tenant == tenant && d.requests[k].createdAt >= checked - 86400.0;
  }

  /**
   Which answer each request meets, and the tables it leaves.  A replayed key answers with the one
   job it was first given, whatever was asked for this time.
   */
  lemma ReserveMeaning(d: Tables, job: Job, key: string, maxActive: nat, maxDaily: nat, checked: real, now: real)
    requires TablesOk(d, maxActive, maxDaily)
    ensures var (outcome, d') := Reserve(d, job, job.setup, key, maxActive, maxDaily, checked, now);
      var k := RequestKey(job.tenant, job.setup, key);
      var active, daily := AtActiveQuota(d, job.tenant, maxActive), AtDailyQuota(d, job.tenant, checked, maxDaily);
      && (outcome.Replayed? <==> k in d.requests)
      && (outcome.ActiveQuota? <==> k !in d.requests && active)
      && (outcome.DailyQuota? <==> k !in d.requests && !active && daily)
      && (outcome.DuplicateId? <==> k !in d.requests && !active && !daily && job.id in d.jobs)
      && (outcome.Created? <==> k !in d.requests && !active && !daily && job.id !in d.jobs)
      && (outcome.Replayed? ==> outcome.job.id == d.requests[k].jobId)
      && (outcome.Replayed? ==> outcome.job.id in d.jobs && d.jobs[outcome.job.id] == outcome.job)
      && (outcome.Replayed? ==> outcome.job.tenant == job.tenant && outcome.job.setup == job.setup)
      && d' == if outcome.Created?
         then Tables(d.jobs[job.id := job], d.requests[k := Request(job.id, now)], d.artifacts) else d
  {
    hide AtActiveQuota, AtDailyQuota, ActiveIds, StartsSince;
    QuotasCount(d, job.tenant, checked, maxActive, maxDaily);
    var k := RequestKey(job.tenant, job.setup, key);
    if k in d.requests {
      assert d.jobs[d.requests[k].jobId].tenant == k.tenant;
    }
  }
}
