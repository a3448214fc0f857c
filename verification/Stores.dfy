/**
 The store classes.  Each holds a connection to one shared database file, so a
 method of one is visible to the others; every method is one transaction.
 */
module Stores {
  import opened Wrappers
  import P = Preparations
  import J = TrainingJobs

  /** The tables of the SQLite file. */
  class Database {
    var preps: P.Table
    var train: J.Tables

    constructor ()
      ensures preps == P.EMPTY && train == J.EMPTY
    {
      preps, train := P.EMPTY, J.EMPTY;
    }
  }

  class CustomTrainingStore {
    const conn: Database

    constructor (conn: Database)
      ensures this.conn == conn
    {
      this.conn := conn;
    }

    method LatestPreparation(tenant: string, setup: string) returns (r: Option<P.Attempt>)
      requires P.Listed(conn.preps)
      ensures r.None? <==> forall id :: id in conn.preps.rows ==>
        !(conn.preps.rows[id].tenant == tenant && conn.preps.rows[id].setup == setup)
      ensures r.Some? ==> P.NewestOf(conn.preps, tenant, setup, r.value)
      ensures r == (
        match P.Select(conn.preps, P.OfSetup(tenant, setup))
        case None => None
        case Some(id) => Some(P.Decode(conn.preps.rows[id])))
    {
      P.LatestIsNewest(conn.preps, tenant, setup);
      var row := P.Select(conn.preps, P.OfSetup(tenant, setup));
      if row.None? {
        return None;
      }
      r := Some(P.Decode(conn.preps.rows[row.value]));
    }

    /** At most one row can answer, so the lookup needs no tie-break. */
    method AcceptedPreparation(tenant: string, setup: string, fingerprint: string, ghost limit: nat)
      returns (r: Option<P.Attempt>)
      requires P.TableOk(conn.preps, limit)
      ensures r.Some? ==> r.value.reportReady
      ensures r.Some? ==> exists id :: id in conn.preps.rows && r == Some(P.Decode(conn.preps.rows[id]))
      ensures forall id :: id in conn.preps.rows ==> (
        r == Some(P.Decode(conn.preps.rows[id])) <==>
        (conn.preps.rows[id].tenant == tenant && conn.preps.rows[id].setup == setup
         && conn.preps.rows[id].fingerprint == fingerprint && conn.preps.rows[id].state.Accepted?))
    {
      var q := P.AcceptedOf(tenant, setup, fingerprint);
      var row := P.Select(conn.preps, q);
      forall id | id in conn.preps.rows
        ensures row == Some(id) <==>
          conn.preps.rows[id].tenant == tenant && conn.preps.rows[id].setup == setup
          && conn.preps.rows[id].fingerprint == fingerprint && conn.preps.rows[id].state.Accepted?
      {
        P.AcceptedLookupUnique(conn.preps, limit, tenant, setup, fingerprint, id);
      }
      if row.None? {
        return None;
      }
      P.AcceptedLookupUnique(conn.preps, limit, tenant, setup, fingerprint, row.value);
      assert P.RowOk(row.value, conn.preps.rows[row.value]);
      r := Some(P.Decode(conn.preps.rows[row.value]));
      forall id | id in conn.preps.rows && r == Some(P.Decode(conn.preps.rows[id])) ensures id == row.value {
        assert P.RowOk(id, conn.preps.rows[id]);
      }
    }

    method ListActivePreparations() returns (r: map<P.Id, P.Attempt>)
      ensures forall id :: id in r <==> id in conn.preps.rows && conn.preps.rows[id].state in {P.Queued, P.Preparing}
      ensures forall id :: id in r ==> r[id] == P.Decode(conn.preps.rows[id])
    {
      r := P.ActiveAttempts(conn.preps);
    }

    method ReservePreparation(attempt: P.Attempt, limit: nat, retry: bool, now: real)
      returns (outcome: P.ReserveOutcome)
      requires P.TableOk(conn.preps, limit) && P.FreshAttempt(attempt)
      modifies conn
      ensures (outcome, conn.preps) == P.Reserve(old(conn.preps), attempt, limit, retry, now)
      ensures P.TableOk(conn.preps, limit) && conn.train == old(conn.train)
      ensures !outcome.Created? ==> conn.preps == old(conn.preps)
      ensures var reuses, full := P.Reuses(old(conn.preps), attempt, retry), P.AtQuota(old(conn.preps), attempt.tenant, limit);
        && (outcome.Reused? <==> reuses)
        && (outcome.QuotaExceeded? <==> !reuses && full)
        && (outcome.DuplicateId? <==> !reuses && !full && attempt.id in old(conn.preps.rows))
      ensures outcome.Reused? ==> P.ReusedIs(conn.preps, attempt, outcome.attempt)
    {
      hide P.Select, P.Reuses, P.AtQuota, P.ReusedIs, P.FreshAttempt;
      P.ReserveMeaning(conn.preps, attempt, limit, retry, now);
      P.ReserveKeepsTable(conn.preps, attempt, limit, retry, now);
      var reusable := P.Select(conn.preps, P.Reusable(attempt.tenant, attempt.setup, attempt.fingerprint));
      if reusable.Some? {
        return P.Reused(P.Decode(conn.preps.rows[reusable.value]));
      }
      var existing := P.Select(conn.preps, P.OfKey(attempt.tenant, attempt.setup, attempt.fingerprint));
      if existing.Some? && !retry {
        return P.Reused(P.Decode(conn.preps.rows[existing.value]));
      }
      var active := |P.ActiveIds(conn.preps, attempt.tenant)|;
      if active >= limit {
        return P.QuotaExceeded;
      }
      if attempt.id in conn.preps.rows {
        return P.DuplicateId;
      }
      conn.preps := P.Insert(conn.preps, attempt, now);
      return P.Created;
    }

    /** False is the KeyError the source raises when no row matched. */
    method PutPreparation(attempt: P.Attempt) returns (ok: bool)
      modifies conn
      ensures ok <==> attempt.id in old(conn.preps.rows) && old(conn.preps).rows[attempt.id].tenant == attempt.tenant
      ensures ok ==> P.Put(old(conn.preps), attempt) == Some(conn.preps)
      ensures ok ==> P.Decode(conn.preps.rows[attempt.id]) == attempt
      ensures ok ==> forall id :: id in old(conn.preps.rows) && id != attempt.id ==>
        id in conn.preps.rows && conn.preps.rows[id] == old(conn.preps).rows[id]
      ensures !ok ==> conn.preps == old(conn.preps)
      ensures conn.train == old(conn.train)
    {
      if attempt.id in conn.preps.rows && conn.preps.rows[attempt.id].tenant == attempt.tenant {
        var row := conn.preps.rows[attempt.id].(state := attempt.state, data := attempt);
        conn.preps := conn.preps.(rows := conn.preps.rows[attempt.id := row]);
        return true;
      }
      return false;
    }

    method ReserveTrainingJob(job: J.Job, key: string, maxActive: nat, maxDaily: nat, checked: real, now: real)
      returns (outcome: J.ReserveOutcome)
      requires J.TablesOk(conn.train, maxActive, maxDaily) && job.status.Queued? && checked <= now
      modifies conn
      ensures (outcome, conn.train) == J.Reserve(old(conn.train), job, job.setup, key, maxActive, maxDaily, checked, now)
      ensures J.TablesOk(conn.train, maxActive, maxDaily) && !outcome.Orphaned?
      ensures !outcome.Created? ==> conn.train == old(conn.train)
      ensures var replayed := J.RequestKey(job.tenant, job.setup, key) in old(conn.train.requests);
        var active := J.AtActiveQuota(old(conn.train), job.tenant, maxActive);
        var daily := J.AtDailyQuota(old(conn.train), job.tenant, checked, maxDaily);
        && (outcome.Replayed? <==> replayed)
        && (outcome.ActiveQuota? <==> !replayed && active)
        && (outcome.DailyQuota? <==> !replayed && !active && daily)
        && (outcome.DuplicateId? <==> !replayed && !active && !daily && job.id in old(conn.train.jobs))
      ensures conn.preps == old(conn.preps)
    {
      hide J.AtActiveQuota, J.AtDailyQuota;
      J.ReserveMeaning(conn.train, job, key, maxActive, maxDaily, checked, now);
      J.ReserveKeepsTables(conn.train, job, key, maxActive, maxDaily, checked, now);
      var request := J.RequestKey(job.tenant, job.setup, key);
      if request in conn.train.requests {
        var id := conn.train.requests[request].jobId;
        if id in conn.train.jobs && conn.train.jobs[id].tenant == job.tenant {
          return J.Replayed(conn.train.jobs[id]);
        }
        return J.Orphaned;
      }
      if |J.ActiveIds(conn.train, job.tenant)| >= maxActive {
        return J.ActiveQuota;
      }
      if |J.StartsSince(conn.train, job.tenant, checked - J.DAY)| >= maxDaily {
        return J.DailyQuota;
      }
      if job.id in conn.train.jobs {
        return J.DuplicateId;
      }
      conn.train := J.Insert(conn.train, job, request, now);
      return J.Created;
    }
  }

  class JobStore {
    const conn: Database

    constructor (conn: Database)
      ensures this.conn == conn
    {
      this.conn := conn;
    }

    /**
     INSERT OR REPLACE of one row.  The tables stay well formed when the row it replaces is the
     job's own and is not revived.
     */
    method Put(job: J.Job)
      modifies conn
      ensures conn.train.jobs == old(conn.train.jobs)[job.id := job]
      ensures conn.train.requests == old(conn.train.requests) && conn.train.artifacts == old(conn.train.artifacts)
      ensures conn.preps == old(conn.preps)
      ensures forall maxActive, maxDaily :: J.TablesOk(old(conn.train), maxActive, maxDaily) && J.Supersedes(old(conn.train), job) ==>
        J.TablesOk(conn.train, maxActive, maxDaily)
    {
      forall maxActive, maxDaily | J.TablesOk(conn.train, maxActive, maxDaily) && J.Supersedes(conn.train, job)
        ensures J.TablesOk(J.Put(conn.train, job), maxActive, maxDaily)
      {
        J.PutKeepsTables(conn.train, job, maxActive, maxDaily);
      }
      conn.train := J.Put(conn.train, job);
    }

    method ListActive() returns (r: map<J.Id, J.Job>)
      ensures forall id :: id in r <==> id in conn.train.jobs && conn.train.jobs[id].status !in {J.Completed, J.Failed}
      ensures forall id :: id in r ==> r[id] == conn.train.jobs[id]
    {
      r := J.ActiveJobs(conn.train);
    }

    /** INSERT OR REPLACE of one manifest: no job or request changes, and the tables stay well formed. */
    method SetArtifacts(id: J.Id, manifest: string)
      modifies conn
      ensures conn.train.artifacts == old(conn.train.artifacts)[id := manifest]
      ensures conn.train.jobs == old(conn.train.jobs) && conn.train.requests == old(conn.train.requests)
      ensures conn.preps == old(conn.preps)
      ensures forall maxActive, maxDaily :: J.TablesOk(old(conn.train), maxActive, maxDaily) ==>
        J.TablesOk(conn.train, maxActive, maxDaily)
    {
      forall maxActive, maxDaily | J.TablesOk(conn.train, maxActive, maxDaily)
        ensures J.TablesOk(J.SetArtifacts(conn.train, id, manifest), maxActive, maxDaily)
      {
        J.SetArtifactsKeepsTables(conn.train, id, manifest, maxActive, maxDaily);
      }
      conn.train := J.SetArtifacts(conn.train, id, manifest);
    }
  }
}
